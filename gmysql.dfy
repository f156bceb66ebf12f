/** The gevent pool over `umysql` connections with numeric operation codes: 0 executes
    (insert id, else affected rows), 1 fetches one row, 2 fetches all rows, 3 lists the
    column names. Rows come back as dicts keyed by column name unless a non-dict row
    class is asked for. Workers peek the head task and remove it only after running it. */
module GMySQL {
  import opened Py
  import opened Routing
  import opened MySQLClient
  import opened GeventFuture

  /** A column of a result set: its name (`row[0]` of `rs.fields`) and type code. */
  datatype Field = Field(name: string, typeCode: int)

  /** What `umysql`'s `query` returns: `(affected_rows, insert_id)` for a statement, a
      result set with `fields` and `rows` for a select. */
  datatype RawResult =
    | Affected(affected: int, insertId: int)
    | ResultSet(fields: seq<Field>, rows: seq<seq<Value>>)

  /** What `Connection.query` returns: the driver's result, or `False` after a lost
      connection with reconnecting switched off. */
  datatype Rs = Raw(raw: RawResult) | FalseRs

  /** How the first attempt of a query went: an answer, a `socket.error`, or another
      exception, after which the connection reports whether it is still connected. */
  datatype Reply = Answer(raw: RawResult) | SocketFailure | Failure(error: Error, connected: bool)

  /** A failure that `query` treats as a lost connection. */
  predicate LostConnection(first: Reply) {
    first.SocketFailure? || (first.Failure? && !first.connected)
  }

  /** The specification of `Connection.query`: an argument check outside the error
      handling, then the first attempt; a lost connection leads to one reconnect and a
      second attempt whose failure propagates, or, with a reconnect delay of 0, to
      `False`; any other failure is re-raised. */
  function QueryResult(args: Value, first: Reply, reconnectDelay: int, retry: Result<RawResult>): (r: Result<Rs>)
    ensures !ArgsAccepted(args) ==> r == Err(AssertionError)
    ensures ArgsAccepted(args) && first.Answer? ==> r == Ok(Raw(first.raw))
    ensures ArgsAccepted(args) && LostConnection(first) && reconnectDelay != 0 ==>
      r == (if retry.Ok? then Ok(Raw(retry.value)) else Err(retry.error))
    ensures ArgsAccepted(args) && LostConnection(first) && reconnectDelay == 0 ==> r == Ok(FalseRs)
    ensures ArgsAccepted(args) && first.Failure? && first.connected ==> r == Err(first.error)
  {
    if !ArgsAccepted(args) then Err(AssertionError)
    else match first
      case Answer(raw) => Ok(Raw(raw))
      case Failure(e, true) => Err(e)
      case _ =>
        if reconnectDelay == 0 then Ok(FalseRs)
        else match retry
          case Ok(raw) => Ok(Raw(raw))
          case Err(e) => Err(e)
  }

  /** Whether a query that went like `first` makes the connection reconnect. */
  predicate Reconnects(args: Value, first: Reply, reconnectDelay: int) {
    ArgsAccepted(args) && LostConnection(first) && reconnectDelay != 0
  }

  class Connection {
    const connectArgs: UArgs
    /** `reconnect_delay`: 0 (the class default) switches reconnecting off. */
    var reconnectDelay: int
    /** `self.conn`: the serial number of the current `umysql.Connection` object. */
    var conn: nat
    /** Every query sent to a driver connection, in order. */
    ghost var log: seq<Sent>

    /** `Connection(host, user, passwd, db, port, autocommit, charset)`: the argument tuple in
        the order `umysql` wants, the class's reconnect delay of 0, and a first driver
        connection object. */
    constructor (host: string, user: string, passwd: string, db: string, port: int := 3306,
                 autocommit: bool := true, charset: string := "utf8")
      ensures connectArgs == UArgs(host, port, user, passwd, db, autocommit, charset)
      ensures reconnectDelay == 0 && conn == 0 && log == []
    {
      connectArgs := UArgs(host, port, user, passwd, db, autocommit, charset);
      reconnectDelay := 0;
      conn := 0;
      log := [];
    }

    /** `reconnect(delay)`: close the current connection object and make a new one per
        attempt; `failures` attempts fail before one connects. */
    method Reconnect(failures: nat)
      modifies this
      ensures conn == old(conn) + failures + 1 && log == old(log) && reconnectDelay == old(reconnectDelay)
    {
      conn := conn + 1;
      var attempt := 0;
      while attempt < failures
        invariant attempt <= failures && conn == old(conn) + attempt + 1
        invariant log == old(log) && reconnectDelay == old(reconnectDelay)
      {
        conn := conn + 1;
        attempt := attempt + 1;
      }
    }

    /** `query(sql, args)`, proved against `QueryResult`: the retry goes to the new
        connection object, after `reconnectFailures` failed reconnect attempts. */
    method Query(sql: string, args: Value, first: Reply, reconnectFailures: nat, retry: Result<RawResult>)
      returns (r: Result<Rs>)
      modifies this
      ensures r == QueryResult(args, first, reconnectDelay, retry)
      ensures reconnectDelay == old(reconnectDelay)
      ensures !ArgsAccepted(args) ==> conn == old(conn) && log == old(log)
      ensures ArgsAccepted(args) && !Reconnects(args, first, reconnectDelay) ==>
        conn == old(conn) && log == old(log) + [Sent(old(conn), sql, args)]
      ensures Reconnects(args, first, reconnectDelay) ==>
        conn == old(conn) + reconnectFailures + 1 &&
        log == old(log) + [Sent(old(conn), sql, args), Sent(conn, sql, args)]
    {
      if !ArgsAccepted(args) {
        return Err(AssertionError);
      }
      log := log + [Sent(conn, sql, args)];
      match first {
        case Answer(raw) => return Ok(Raw(raw));
        case Failure(e, true) => return Err(e);
        case _ =>
      }
      if reconnectDelay == 0 {
        return Ok(FalseRs);
      }
      Reconnect(reconnectFailures);
      log := log + [Sent(conn, sql, args)];
      r := match retry
        case Ok(raw) => Ok(Raw(raw))
        case Err(e) => Err(e);
    }
  }

  /** `[row[0] for row in rs.fields]`. */
  function FieldNames(fields: seq<Field>): (names: seq<string>)
    ensures |names| == |fields|
    ensures forall j :: 0 <= j < |fields| ==> names[j] == fields[j].name
  {
    seq(|fields|, j requires 0 <= j < |fields| => fields[j].name)
  }

  /** Rows are dicts unless a truthy row class other than `'dict'` is asked for. */
  predicate DictMode(curclass: Option<string>) {
    curclass.None? || curclass.value == "" || curclass.value == "dict"
  }

  /** `get_result_rows(rs, curclass)`: in dict mode one `dict(zip(names, row))` per row,
      otherwise the rows as they came; a result without `fields` / `rows` (a statement's
      tuple, or `False`) raises `AttributeError` naming the missing attribute. */
  function GetResultRows(rs: Rs, curclass: Option<string>): (r: Result<seq<Value>>)
    ensures r.Ok? <==> rs.Raw? && rs.raw.ResultSet?
    ensures r.Ok? ==> |r.value| == |rs.raw.rows|
    ensures r.Ok? && DictMode(curclass) ==> forall i :: 0 <= i < |r.value| ==>
      r.value[i] == DictV(ZipDict(FieldNames(rs.raw.fields), rs.raw.rows[i]))
    ensures r.Ok? && !DictMode(curclass) ==> forall i :: 0 <= i < |r.value| ==> r.value[i] == TupleV(rs.raw.rows[i])
    ensures r.Err? ==> r.error == AttributeError(if DictMode(curclass) then "fields" else "rows")
  {
    if !(rs.Raw? && rs.raw.ResultSet?) then
      Err(AttributeError(if DictMode(curclass) then "fields" else "rows"))
    else
      var rows := rs.raw.rows;
      if DictMode(curclass) then
        var names := FieldNames(rs.raw.fields);
        Ok(seq(|rows|, i requires 0 <= i < |rows| => DictV(ZipDict(names, rows[i]))))
      else
        Ok(seq(|rows|, i requires 0 <= i < |rows| => TupleV(rows[i])))
  }

  /** What the worker puts into a task's cell for operation `op` once the query returned
      `rs`: op 0 `rs[1] or rs[0]` (the insert id, else the affected count; neither a result
      set nor `False` can be indexed), op 1 the first row unless there is none or it is
      empty, op 2 all rows, op 3 the column names; any other op is a `PoolError`. */
  function Dispatch(op: int, curclass: Option<string>, rs: Rs): (r: Result<Value>)
    ensures op == 0 ==> (r.Ok? <==> rs.Raw? && rs.raw.Affected?)
    ensures op == 0 && r.Ok? ==> r.value == IntV(if rs.raw.insertId != 0 then rs.raw.insertId else rs.raw.affected)
    ensures op == 0 && r.Err? ==> r.error == TypeError
    ensures op == 1 || op == 2 ==> (r.Ok? <==> GetResultRows(rs, curclass).Ok?)
    ensures op == 1 && r.Ok? ==> var rows := GetResultRows(rs, curclass).value;
      r.value == (if rows != [] && Truthy(rows[0]) then rows[0] else NoneV)
    ensures op == 2 && r.Ok? ==> r.value == ListV(GetResultRows(rs, curclass).value)
    ensures (op == 1 || op == 2) && r.Err? ==> r == Err(GetResultRows(rs, curclass).error)
    ensures op == 3 ==> (r.Ok? <==> rs.Raw? && rs.raw.ResultSet?)
    ensures op == 3 && r.Ok? ==> (r.value.ListV? && |r.value.elems| == |rs.raw.fields| &&
      forall j :: 0 <= j < |rs.raw.fields| ==> r.value.elems[j] == StrV(rs.raw.fields[j].name))
    ensures op == 3 && r.Err? ==> r.error == AttributeError("fields")
    ensures !(0 <= op <= 3) ==> r == Err(PoolError(op))
  {
    if op == 0 then
      if rs.Raw? && rs.raw.Affected? then
        Ok(IntV(if rs.raw.insertId != 0 then rs.raw.insertId else rs.raw.affected))
      else Err(TypeError)
    else if op == 1 then
      match GetResultRows(rs, curclass)
      case Err(e) => Err(e)
      case Ok(rows) => Ok(if rows != [] && Truthy(rows[0]) then rows[0] else NoneV)
    else if op == 2 then
      match GetResultRows(rs, curclass)
      case Err(e) => Err(e)
      case Ok(rows) => Ok(ListV(rows))
    else if op == 3 then
      if rs.Raw? && rs.raw.ResultSet? then
        var fields := rs.raw.fields;
        Ok(ListV(seq(|fields|, j requires 0 <= j < |fields| => StrV(fields[j].name))))
      else Err(AttributeError("fields"))
    else Err(PoolError(op))
  }

  /** The cell state a worker leaves for a task with operation `op`: the dispatched value,
      or the exception raised by the query or by the dispatch, unwrapped. */
  function Report(q: Result<Rs>, op: int, curclass: Option<string>): (s: State)
    ensures s != Pending
    ensures q.Err? ==> s == Rejected(q.error)
    ensures q.Ok? ==> s == (if Dispatch(op, curclass, q.value).Ok? then Resolved(Dispatch(op, curclass, q.value).value)
                            else Rejected(Dispatch(op, curclass, q.value).error))
  {
    match q
    case Err(e) => Rejected(e)
    case Ok(rs) =>
      match Dispatch(op, curclass, rs)
      case Ok(v) => Resolved(v)
      case Err(e) => Rejected(e)
  }

  /** `False` from a query whose connection was lost never reaches a waiting caller as
      `False`: every operation code turns it into an exception. */
  lemma FalseBecomesError(op: int, curclass: Option<string>)
    ensures Report(Ok(FalseRs), op, curclass).Rejected?
    ensures Report(Ok(FalseRs), op, curclass).error ==
      if op == 0 then TypeError
      else if op == 1 || op == 2 then AttributeError(if DictMode(curclass) then "fields" else "rows")
      else if op == 3 then AttributeError("fields")
      else PoolError(op)
  {
  }

  /** In dict mode, with distinct column names and full-width rows, `fetchall` maps each
      row's j-th column name to its j-th value, and nothing else. */
  lemma {:induction false} DictRowsByColumn(fields: seq<Field>, rows: seq<seq<Value>>, curclass: Option<string>, i: nat, j: nat)
    requires DictMode(curclass)
    requires forall a, b :: 0 <= a < b < |fields| ==> fields[a].name != fields[b].name
    requires i < |rows| && |fields| <= |rows[i]| && j < |fields|
    ensures Dispatch(2, curclass, Raw(ResultSet(fields, rows))).Ok?
    ensures var row := Dispatch(2, curclass, Raw(ResultSet(fields, rows))).value.elems[i];
      row.DictV? && row.entries.Keys == (set f | f in fields :: f.name) && row.entries[fields[j].name] == rows[i][j]
  {
    var names := FieldNames(fields);
    ZipDictDistinct(names, rows[i]);
    FieldNameSet(fields);
  }

  /** The column names, as a set, are the names of the fields. */
  lemma FieldNameSet(fields: seq<Field>)
    ensures (set k | k in FieldNames(fields)) == (set f | f in fields :: f.name)
  {
    var names := FieldNames(fields);
    forall k | k in names ensures k in (set f | f in fields :: f.name) {
      var a :| 0 <= a < |names| && names[a] == k;
      assert fields[a] in fields;
    }
    forall f | f in fields ensures f.name in names {
      var a :| 0 <= a < |fields| && fields[a] == f;
      assert names[a] == f.name;
    }
  }

  /** `(sql, args, op, curclass, result)`; `sink` is `None` for a non-blocking call. */
  datatype Task = Task(sql: string, args: Value, op: int, curclass: Option<string>, sink: Option<AsyncResult>)

  /** The `qid` argument of `Pool.query`: an integer (`bool` is one in Python) or anything else. */
  datatype QidArg = IntQid(i: int) | BoolQid(b: bool) | OtherQid

  /** `if not isinstance(qid, (int, long)): qid = -1`. */
  function NormaliseQid(qid: QidArg): (q: int)
    ensures qid.IntQid? ==> q == qid.i
    ensures qid.BoolQid? ==> q == (if qid.b then 1 else 0)
    ensures qid.OtherQid? ==> q == -1
  {
    match qid
    case IntQid(i) => i
    case BoolQid(b) => if b then 1 else 0
    case OtherQid => -1
  }

  class Pool {
    var conns: seq<Connection>
    var queues: seq<seq<Task>>
    /** Whether worker `i` has peeked its head task and not yet finished it. */
    var busy: seq<bool>

    /** One connection, one queue and one worker per slot; a busy worker's task is still
        at the head of its queue. */
    ghost predicate Valid()
      reads this
    {
      |conns| == |queues| == |busy| &&
      (forall i :: 0 <= i < |busy| && busy[i] ==> queues[i] != []) &&
      (forall i, j :: 0 <= i < j < |conns| ==> conns[i] != conns[j])
    }

    /** `Pool(kwargs, n, reconnect_delay)`, with the keyword arguments `kwargs` of every
        `Connection` given as their tuple: `n` must be positive; each connection gets the
        pool's reconnect delay, its own queue and its own greenlet. */
    static method NewPool(connectArgs: UArgs, n: int, reconnectDelay: int) returns (r: Result<Pool>)
      ensures n <= 0 ==> r == Err(AssertionError)
      ensures n > 0 ==> r.Ok? && fresh(r.value) && r.value.Valid() && |r.value.conns| == n
      ensures r.Ok? ==> forall k :: 0 <= k < |r.value.conns| ==>
        fresh(r.value.conns[k]) && r.value.conns[k].connectArgs == connectArgs &&
        r.value.conns[k].reconnectDelay == reconnectDelay && r.value.queues[k] == [] && !r.value.busy[k]
    {
      if n <= 0 {
        return Err(AssertionError);
      }
      var p := new Pool();
      var i := 0;
      while i < n
        invariant p.Valid() && 0 <= i <= n && |p.conns| == i && fresh(p)
        invariant forall k :: 0 <= k < i ==>
          fresh(p.conns[k]) && p.conns[k].connectArgs == connectArgs &&
          p.conns[k].reconnectDelay == reconnectDelay && p.queues[k] == [] && !p.busy[k]
      {
        var c := new Connection(connectArgs.host, connectArgs.user, connectArgs.passwd, connectArgs.db,
                                connectArgs.port, connectArgs.autocommit, connectArgs.charset);
        c.reconnectDelay := reconnectDelay;
        p.AddSlot(c);
        i := i + 1;
      }
      r := Ok(p);
    }

    constructor ()
      ensures Valid() && conns == [] && queues == [] && busy == []
    {
      conns, queues, busy := [], [], [];
    }

    /** One round of `__init__`'s loop: a new connection with an empty queue and an idle worker. */
    method AddSlot(c: Connection)
      requires Valid() && c !in conns
      modifies this
      ensures Valid() && conns == old(conns) + [c] && queues == old(queues) + [[]] && busy == old(busy) + [false]
    {
      conns, queues, busy := conns + [c], queues + [[]], busy + [false];
    }

    /** `q.peek()` in worker `w`'s loop: the worker takes hold of the head task without
        removing it; on an empty queue it keeps waiting. */
    method Begin(w: nat) returns (t: Option<Task>)
      requires Valid() && w < |queues| && !busy[w]
      modifies this
      ensures Valid() && conns == old(conns) && queues == old(queues)
      ensures t.Some? <==> old(queues[w]) != []
      ensures t.Some? ==> t.value == queues[w][0] && busy == old(busy[w := true])
      ensures t.None? ==> busy == old(busy)
    {
      if queues[w] == [] {
        return None;
      }
      busy := busy[w := true];
      t := Some(queues[w][0]);
    }

    /** The cell of the task worker `w` is running, if it has one. */
    function RunningSink(w: nat): set<object>
      reads this
    {
      if w < |queues| && queues[w] != [] && queues[w][0].sink.Some? then {queues[w][0].sink.value} else {}
    }

    /** The rest of the iteration: run the query on connection `w`, report the outcome
        into the task's cell (a task without one has a failure only logged), and remove
        the task from the head of the queue with `q.next()`. */
    method Finish(w: nat, first: Reply, reconnectFailures: nat, retry: Result<RawResult>)
      requires Valid() && w < |queues| && busy[w]
      modifies this, conns[w], RunningSink(w)
      ensures Valid() && conns == old(conns) && busy == old(busy[w := false])
      ensures queues == old(queues[w := queues[w][1..]])
      ensures var t := old(queues[w][0]);
        t.sink.Some? ==>
          t.sink.value.state == Report(QueryResult(t.args, first, old(conns[w].reconnectDelay), retry), t.op, t.curclass)
      ensures conns[w].reconnectDelay == old(conns[w].reconnectDelay)
      ensures var t := old(queues[w][0]); var c := conns[w];
        !ArgsAccepted(t.args) ==> c.conn == old(c.conn) && c.log == old(c.log)
      ensures var t := old(queues[w][0]); var c := conns[w];
        ArgsAccepted(t.args) && !Reconnects(t.args, first, c.reconnectDelay) ==>
          c.conn == old(c.conn) && c.log == old(c.log) + [Sent(old(c.conn), t.sql, t.args)]
      ensures var t := old(queues[w][0]); var c := conns[w];
        Reconnects(t.args, first, c.reconnectDelay) ==>
          c.conn == old(c.conn) + reconnectFailures + 1 &&
          c.log == old(c.log) + [Sent(old(c.conn), t.sql, t.args), Sent(c.conn, t.sql, t.args)]
    {
      var t := queues[w][0];
      var c := conns[w];
      var q := c.Query(t.sql, t.args, first, reconnectFailures, retry);
      if t.sink.Some? {
        match Report(q, t.op, t.curclass)
        case Resolved(v) => t.sink.value.Set(v);
        case Rejected(e) => t.sink.value.SetException(e);
      }
      queues := queues[w := queues[w][1..]];
      busy := busy[w := false];
    }

    /** `query(sql, args, op, qid, curclass, block)`: normalise `qid`, append a task to the
        queue `_selectq` picks, with a fresh cell the caller then waits on when `block`;
        a routing failure raises and enqueues nothing. */
    method Query(sql: string, args: Value := ListV([]), op: int := 0, qid: QidArg := IntQid(-1),
                 curclass: Option<string> := None, block: bool := true)
      returns (r: Result<Option<AsyncResult>>)
      requires Valid()
      modifies this
      ensures Valid() && conns == old(conns) && busy == old(busy)
      ensures var route := old(Route(queues, NormaliseQid(qid)));
        route.Err? ==> r == Err(route.error) && queues == old(queues)
      ensures var route := old(Route(queues, NormaliseQid(qid)));
        route.Ok? ==> (r.Ok? && (r.value.Some? <==> block) &&
          queues == Put(old(queues), route.value, Task(sql, args, op, curclass, r.value)))
      ensures r.Ok? && r.value.Some? ==> fresh(r.value.value) && r.value.value.state == Pending
    {
      var k := Route(queues, NormaliseQid(qid));
      if k.Err? {
        return Err(k.error);
      }
      var sink: Option<AsyncResult> := None;
      if block {
        var cell := new AsyncResult();
        sink := Some(cell);
      }
      queues := Put(queues, k.value, Task(sql, args, op, curclass, sink));
      r := Ok(sink);
    }

    /** `execute`, `fetchone`, `fetchall`: `query` with op 0, 1 and 2. */
    method Execute(sql: string, args: Value := ListV([]), qid: QidArg := IntQid(-1),
                   curclass: Option<string> := None, block: bool := true)
      returns (r: Result<Option<AsyncResult>>)
      requires Valid()
      modifies this
      ensures Valid() && conns == old(conns) && busy == old(busy)
      ensures var route := old(Route(queues, NormaliseQid(qid)));
        route.Err? ==> r == Err(route.error) && queues == old(queues)
      ensures var route := old(Route(queues, NormaliseQid(qid)));
        route.Ok? ==> (r.Ok? && (r.value.Some? <==> block) &&
          queues == Put(old(queues), route.value, Task(sql, args, 0, curclass, r.value)))
      ensures r.Ok? && r.value.Some? ==> fresh(r.value.value) && r.value.value.state == Pending
    {
      r := Query(sql, args, 0, qid, curclass, block);
    }

    method Fetchone(sql: string, args: Value := ListV([]), qid: QidArg := IntQid(-1),
                    curclass: Option<string> := None, block: bool := true)
      returns (r: Result<Option<AsyncResult>>)
      requires Valid()
      modifies this
      ensures Valid() && conns == old(conns) && busy == old(busy)
      ensures var route := old(Route(queues, NormaliseQid(qid)));
        route.Err? ==> r == Err(route.error) && queues == old(queues)
      ensures var route := old(Route(queues, NormaliseQid(qid)));
        route.Ok? ==> (r.Ok? && (r.value.Some? <==> block) &&
          queues == Put(old(queues), route.value, Task(sql, args, 1, curclass, r.value)))
      ensures r.Ok? && r.value.Some? ==> fresh(r.value.value) && r.value.value.state == Pending
    {
      r := Query(sql, args, 1, qid, curclass, block);
    }

    method Fetchall(sql: string, args: Value := ListV([]), qid: QidArg := IntQid(-1),
                    curclass: Option<string> := None, block: bool := true)
      returns (r: Result<Option<AsyncResult>>)
      requires Valid()
      modifies this
      ensures Valid() && conns == old(conns) && busy == old(busy)
      ensures var route := old(Route(queues, NormaliseQid(qid)));
        route.Err? ==> r == Err(route.error) && queues == old(queues)
      ensures var route := old(Route(queues, NormaliseQid(qid)));
        route.Ok? ==> (r.Ok? && (r.value.Some? <==> block) &&
          queues == Put(old(queues), route.value, Task(sql, args, 2, curclass, r.value)))
      ensures r.Ok? && r.value.Some? ==> fresh(r.value.value) && r.value.value.state == Pending
    {
      r := Query(sql, args, 2, qid, curclass, block);
    }

    /** `get_fields(tbname)`: a blocking op-3 task for the table's empty select, with an
        empty argument list, routed to the shortest queue. */
    method GetFields(table: string) returns (r: Result<Option<AsyncResult>>)
      requires Valid()
      modifies this
      ensures Valid() && conns == old(conns) && busy == old(busy)
      ensures old(Route(queues, -1)).Err? ==> r == Err(ValueError) && queues == old(queues)
      ensures old(Route(queues, -1)).Ok? ==>
        r.Ok? && r.value.Some? && fresh(r.value.value) && r.value.value.state == Pending &&
        queues == Put(old(queues), old(Route(queues, -1)).value,
                      Task("select * from " + table + " limit 0", ListV([]), 3, None, r.value))
    {
      r := Query("select * from " + table + " limit 0", ListV([]), 3, IntQid(-1), None, true);
    }
  }
}
