/** The threaded MySQL pool: its own result cell (`AsyncResult` over a condition variable)
    and a pool of `n` connections, each with a FIFO queue drained by one daemon thread.
    Threads are abstracted into atomic steps: a submission, or one iteration of one
    worker's loop whose operation produced the `Outcome` given as a parameter. */
module ThreadedPool {
  import opened Py
  import opened Routing
  import opened MySQLClient
  import opened PoolConfig

  /** What `get` does: return at once, or wait (at most `limit` seconds, or without limit)
      for `set` and then return whatever value the cell holds by then. */
  datatype Wait = Now(value: Value) | WaitThen(limit: Option<real>)

  /** A one-shot cell without an exception state: `set` stores a value and wakes waiters,
      `clear` only lowers the flag, so the last value stays readable. */
  class AsyncResult {
    var flag: bool
    var value: Value
    /** The constructor's timeout, which overrides the one passed to `get`. */
    const timeout: Option<real>

    constructor (timeout: Option<real>)
      ensures !flag && value == NoneV && this.timeout == timeout
    {
      flag := false;
      value := NoneV;
      this.timeout := timeout;
    }

    /** A cell that was never set and has no timeout of its own. */
    predicate Unset()
      reads this
    {
      !flag && timeout.None?
    }

    /** `set(value)`: raise the flag and overwrite the value, even a value set before. */
    method Set(v: Value := NoneV)
      modifies this
      ensures flag && value == v
    {
      flag := true;
      value := v;
    }

    /** `clear()`: lower the flag, keep the value. */
    method Clear()
      modifies this
      ensures !flag && value == old(value)
    {
      flag := false;
    }

    /** `get(block, timeout)`: a non-blocking get, or a get on a set cell, returns the value
        at once (`None` if nothing was ever set); otherwise it waits, with the cell's own
        timeout in place of the caller's when the cell has one. */
    function Get(block: bool, timeout: Option<real>): (r: Wait)
      reads this
      ensures r.Now? <==> !block || flag
      ensures r.Now? ==> r.value == value
      ensures r.WaitThen? ==> r.limit == (if this.timeout.Some? then this.timeout else timeout)
    {
      if !block || flag then Now(value)
      else WaitThen(if this.timeout.Some? then this.timeout else timeout)
    }
  }

  /** `(sql, args, op, async_result)`; `sink` is `None` for a non-blocking call. */
  datatype Task = Task(sql: string, args: seq<Value>, op: string, sink: Option<AsyncResult>)

  /** The tasks `map` submits, one per `(sql, args)` pair. */
  function MapTasks(op: string, sqlArgs: seq<(string, seq<Value>)>, sinks: seq<Option<AsyncResult>>): (ts: seq<Task>)
    requires |sinks| == |sqlArgs|
    ensures |ts| == |sqlArgs|
    ensures forall i :: 0 <= i < |ts| ==> ts[i] == Task(sqlArgs[i].0, sqlArgs[i].1, op, sinks[i])
  {
    seq(|sqlArgs|, i requires 0 <= i < |sqlArgs| => Task(sqlArgs[i].0, sqlArgs[i].1, op, sinks[i]))
  }

  /** `[d.get() for d in deferreds]` on cells made without a timeout: each `get` blocks until
      its cell is set, so the list is complete exactly when every cell is set, and holds
      their values in submission order. */
  function Gathered(cells: seq<AsyncResult>): (r: Option<seq<Value>>)
    reads set i | 0 <= i < |cells| :: cells[i]
    ensures r.Some? <==> forall i :: 0 <= i < |cells| ==> cells[i].flag
    ensures r.Some? ==> |r.value| == |cells| && forall i :: 0 <= i < |cells| ==> r.value[i] == cells[i].value
  {
    if cells == [] then Some([])
    else
      var front := Gathered(cells[..|cells| - 1]);
      var last := cells[|cells| - 1];
      if front.Some? && last.flag then Some(front.value + [last.value]) else None
  }

  class Pool {
    const cls: ConnectionClass
    var conns: seq<Conn>
    var queues: seq<seq<Task>>
    /** Whether the thread draining `queues[i]` is still running. */
    var alive: seq<bool>

    /** One connection, one queue and one thread per slot, paired by index. */
    ghost predicate Valid()
      reads this
    {
      |conns| == |queues| == |alive| &&
      forall i :: 0 <= i < |conns| ==> conns[i].serial == i && conns[i].cls == cls
    }

    constructor (cls: ConnectionClass, options: map<string, Value>, n: nat)
      ensures Valid() && this.cls == cls && conns == Connections(cls, options, n)
      ensures |queues| == n && forall k :: 0 <= k < n ==> queues[k] == [] && alive[k]
    {
      this.cls := cls;
      conns, queues, alive := [], [], [];
      new;
      var i := 0;
      while i < n
        invariant i <= n && |conns| == |queues| == |alive| == i
        invariant forall k :: 0 <= k < i ==> conns[k] == Conn(k, cls, options) && queues[k] == [] && alive[k]
      {
        conns := conns + [Conn(i, cls, options)];
        queues := queues + [[]];
        alive := alive + [true];
        i := i + 1;
      }
    }

    /** `Pool(options, n, adapter)`: the option and adapter checks, then `n` connections;
        a negative `n` creates none and fails the final length assertion. */
    static method NewPool(options: map<string, Value>, n: int, adapter: string)
      returns (r: Result<Pool>)
      ensures Configure(options, adapter).Err? ==> r == Err(Configure(options, adapter).error)
      ensures Configure(options, adapter).Ok? && n < 0 ==> r == Err(AssertionError)
      ensures Configure(options, adapter).Ok? && n >= 0 ==> r.Ok?
      ensures r.Ok? ==> fresh(r.value) && r.value.Valid() && r.value.cls == Configure(options, adapter).value
      ensures r.Ok? ==> r.value.conns == Connections(r.value.cls, options, n)
      ensures r.Ok? ==> forall k :: 0 <= k < n ==> r.value.queues[k] == [] && r.value.alive[k]
    {
      var c := Configure(options, adapter);
      if c.Err? {
        return Err(c.error);
      }
      if n < 0 {
        return Err(AssertionError);
      }
      var p := new Pool(c.value, options, n);
      r := Ok(p);
    }

    /** The cell of the task at the head of queue `w`, if any. */
    function HeadSink(w: nat): set<object>
      reads this
    {
      if w < |queues| && queues[w] != [] && queues[w][0].sink.Some? then {queues[w][0].sink.value} else {}
    }

    /** One iteration of thread `w`'s loop: take the head task off the queue and run its
        operation. A result goes into the task's cell. A failure of a task without a cell
        is only logged; a failure of a task with one calls `set_exception`, which this
        cell does not have, so the thread dies with the cell never set. A dead thread, or
        one waiting on an empty queue, does nothing. */
    method Step(w: nat, outcome: Outcome) returns (ran: bool)
      requires Valid() && w < |queues|
      modifies this, HeadSink(w)
      ensures Valid() && conns == old(conns)
      ensures ran <==> old(alive[w]) && old(queues[w]) != []
      ensures !ran ==> queues == old(queues) && alive == old(alive)
      ensures ran ==> queues == old(queues[w := queues[w][1..]])
      ensures ran ==>
        var t := old(queues[w][0]);
        var o := Invoke(cls, t.op, outcome);
        alive == old(alive[w := !(o.Raised? && t.sink.Some?)]) &&
        (t.sink.Some? && o.Returned? ==> t.sink.value.flag && t.sink.value.value == o.value) &&
        (t.sink.Some? && o.Raised? ==> t.sink.value.flag == old(t.sink.value.flag) && t.sink.value.value == old(t.sink.value.value))
    {
      if !alive[w] || queues[w] == [] {
        return false;
      }
      var t := queues[w][0];
      queues := queues[w := queues[w][1..]];
      var o := Invoke(cls, t.op, outcome);
      if t.sink.Some? {
        match o
        case Returned(v) => t.sink.value.Set(v);
        case Raised(_) => alive := alive[w := false];
      }
      ran := true;
    }

    /** `_execute`: append a task to the queue `_selectq(qid)` picks, with a fresh cell when
        `block`; a routing failure raises and enqueues nothing. */
    method Submit(sql: string, args: seq<Value> := [], op: string := "execute", qid: int := -1,
                  block: bool := true)
      returns (r: Result<Option<AsyncResult>>)
      requires Valid()
      modifies this
      ensures Valid() && conns == old(conns) && alive == old(alive)
      ensures old(Route(queues, qid)).Err? ==> r == Err(old(Route(queues, qid)).error) && queues == old(queues)
      ensures old(Route(queues, qid)).Ok? ==>
        r.Ok? && (r.value.Some? <==> block) &&
        queues == Put(old(queues), old(Route(queues, qid)).value, Task(sql, args, op, r.value))
      ensures r.Ok? && r.value.Some? ==>
        fresh(r.value.value) && !r.value.value.flag && r.value.value.value == NoneV && r.value.value.timeout.None?
    {
      var q := Route(queues, qid);
      if q.Err? {
        return Err(q.error);
      }
      var sink: Option<AsyncResult> := None;
      if block {
        var cell := new AsyncResult(None);
        sink := Some(cell);
      }
      queues := Put(queues, q.value, Task(sql, args, op, sink));
      r := Ok(sink);
    }

    /** `execute`, `fetchone`, `fetchall`: `_query` with the wrapper's own name as the
        operation. `_query` is `_execute` followed, for a blocking call, by a `get` on the
        returned cell. */
    method Wrapper(name: string, sql: string, args: seq<Value> := [], qid: int := -1, block: bool := true)
      returns (r: Result<Option<AsyncResult>>)
      requires Valid() && name in {"execute", "fetchone", "fetchall"}
      modifies this
      ensures Valid() && conns == old(conns) && alive == old(alive)
      ensures old(Route(queues, qid)).Err? ==> r == Err(old(Route(queues, qid)).error) && queues == old(queues)
      ensures old(Route(queues, qid)).Ok? ==>
        r.Ok? && (r.value.Some? <==> block) &&
        queues == Put(old(queues), old(Route(queues, qid)).value, Task(sql, args, name, r.value))
      ensures r.Ok? && r.value.Some? ==>
        fresh(r.value.value) && !r.value.value.flag && r.value.value.value == NoneV && r.value.value.timeout.None?
    {
      r := Submit(sql, args, name, qid, block);
    }

    /** `get_fields(table)`: a blocking `get_fields` task for the table's empty select, routed
        to the shortest queue. */
    method GetFields(table: string) returns (r: Result<Option<AsyncResult>>)
      requires Valid()
      modifies this
      ensures Valid() && conns == old(conns) && alive == old(alive)
      ensures old(Route(queues, -1)).Err? ==> r == Err(ValueError) && queues == old(queues)
      ensures old(Route(queues, -1)).Ok? ==>
        r.Ok? && r.value.Some? && fresh(r.value.value) && r.value.value.Unset() && r.value.value.value == NoneV &&
        queues == Put(old(queues), old(Route(queues, -1)).value, Task(FieldsQuery(table), [], "get_fields", r.value))
    {
      r := Submit(FieldsQuery(table), [], "get_fields", -1, true);
    }

    /** One `_execute` of `map`'s loop, after the tasks `ts` went in from queues `q0`: the
        new task extends that fold, or, on the first task only, routing fails. */
    method SubmitNext(ghost q0: seq<seq<Task>>, ghost ts: seq<Task>, sql: string, args: seq<Value>, op: string,
                      qid: int, block: bool)
      returns (r: Result<Option<AsyncResult>>)
      requires Valid() && |q0| == |queues| && SubmitAll(q0, ts, qid) == Ok(queues)
      requires ts != [] ==> Route(q0, qid).Ok?
      requires ts == [] ==> queues == q0
      modifies this
      ensures Valid() && conns == old(conns) && alive == old(alive)
      ensures r.Err? ==> ts == [] && Route(q0, qid).Err? && r.error == Route(q0, qid).error && queues == old(queues)
      ensures r.Ok? ==> Route(q0, qid).Ok? && SubmitAll(q0, ts + [Task(sql, args, op, r.value)], qid) == Ok(queues)
      ensures r.Ok? ==> (r.value.Some? <==> block)
      ensures r.Ok? && r.value.Some? ==> fresh(r.value.value) && r.value.value.Unset()
    {
      RouteFailureIgnoresLoad(q0, queues, qid);
      ghost var before := queues;
      r := Submit(sql, args, op, qid, block);
      if r.Ok? {
        SubmitAllSnoc(q0, ts, Task(sql, args, op, r.value), qid, before);
      }
    }

    /** `[self._execute(s[0], s[1], op=op, qid=qid, block=block) for s in sql_args]`: one
        submission per pair, in list order; a routing failure stops at the first one. */
    method SubmitEach(op: string, sqlArgs: seq<(string, seq<Value>)>, qid: int, block: bool)
      returns (r: Result<seq<Option<AsyncResult>>>)
      requires Valid()
      modifies this
      ensures Valid() && conns == old(conns) && alive == old(alive)
      ensures r.Err? <==> sqlArgs != [] && old(Route(queues, qid)).Err?
      ensures r.Err? ==> r.error == old(Route(queues, qid)).error && queues == old(queues)
      ensures r.Ok? ==> |r.value| == |sqlArgs|
      ensures r.Ok? ==> SubmitAll(old(queues), MapTasks(op, sqlArgs, r.value), qid) == Ok(queues)
      ensures r.Ok? ==> forall i :: 0 <= i < |r.value| ==> (r.value[i].Some? <==> block)
      ensures r.Ok? ==> forall i :: 0 <= i < |r.value| && r.value[i].Some? ==>
        fresh(r.value[i].value) && !r.value[i].value.flag && r.value[i].value.timeout.None?
    {
      ghost var q0 := queues;
      ghost var ts: seq<Task> := [];
      var sinks: seq<Option<AsyncResult>> := [];
      var i := 0;
      while i < |sqlArgs|
        invariant Valid() && conns == old(conns) && alive == old(alive)
        invariant 0 <= i <= |sqlArgs| && |sinks| == i && |ts| == i
        invariant forall j :: 0 <= j < i ==> ts[j] == Task(sqlArgs[j].0, sqlArgs[j].1, op, sinks[j])
        invariant |queues| == |q0| && SubmitAll(q0, ts, qid) == Ok(queues)
        invariant i > 0 ==> Route(q0, qid).Ok?
        invariant i == 0 ==> queues == q0
        invariant forall j :: 0 <= j < i ==>
          (sinks[j].Some? <==> block) && (sinks[j].Some? ==> fresh(sinks[j].value) && sinks[j].value.Unset())
      {
        var c := SubmitNext(q0, ts, sqlArgs[i].0, sqlArgs[i].1, op, qid, block);
        if c.Err? {
          return Err(c.error);
        }
        ts := ts + [Task(sqlArgs[i].0, sqlArgs[i].1, op, c.value)];
        sinks := sinks + [c.value];
        i := i + 1;
      }
      assert ts == MapTasks(op, sqlArgs, sinks);
      r := Ok(sinks);
    }

    /** `map(op, sql_args, qid, block)`: submit every pair, then `[d.get() for d in
        deferreds]`. With `block` false the results are `None`, so a non-empty batch,
        already fully enqueued, fails on its first `get`; otherwise the cells come back
        in input order, for the caller to wait on. The ghost `sinks` lists the cells the
        tasks carry; it is empty, and says nothing, when routing fails. */
    method Map(op: string, sqlArgs: seq<(string, seq<Value>)>, qid: int := -1, block: bool := true)
      returns (r: Result<seq<AsyncResult>>, ghost sinks: seq<Option<AsyncResult>>)
      requires Valid()
      modifies this
      ensures Valid() && conns == old(conns) && alive == old(alive)
      ensures sqlArgs != [] && old(Route(queues, qid)).Err? ==>
        r == Err(old(Route(queues, qid)).error) && queues == old(queues)
      ensures sqlArgs == [] || old(Route(queues, qid)).Ok? ==>
        |sinks| == |sqlArgs| && SubmitAll(old(queues), MapTasks(op, sqlArgs, sinks), qid) == Ok(queues)
      ensures sqlArgs == [] || old(Route(queues, qid)).Ok? ==>
        (r.Err? <==> !block && sqlArgs != []) && (r.Err? ==> r.error == AttributeError("get"))
      ensures r.Ok? ==> |r.value| == |sqlArgs| && forall i :: 0 <= i < |sqlArgs| ==>
        sinks[i] == Some(r.value[i]) && fresh(r.value[i]) && !r.value[i].flag && r.value[i].timeout.None?
    {
      var deferreds := SubmitEach(op, sqlArgs, qid, block);
      if deferreds.Err? {
        return Err(deferreds.error), [];
      }
      var ds := deferreds.value;
      sinks := ds;
      var cells: seq<AsyncResult> := [];
      var i := 0;
      while i < |ds|
        invariant 0 <= i <= |ds| && |cells| == i
        invariant forall j :: 0 <= j < i ==> ds[j] == Some(cells[j])
      {
        if ds[i].None? {
          return Err(AttributeError("get")), sinks;
        }
        cells := cells + [ds[i].value];
        i := i + 1;
      }
      r := Ok(cells);
    }
  }
}
