/** The gevent MySQL pool: like the threaded pool, but its workers are greenlets that
    `peek` the head task, run it, and only then remove it with `next`. A running task
    therefore still counts in its queue's size while the worker waits on the database,
    and routing by shortest queue sees it. A worker iteration is split into the two halves
    the database round-trip separates: `Begin` (the peek) and `Finish` (the result and
    the removal). */
module GeventPool {
  import opened Py
  import opened Routing
  import opened MySQLClient
  import opened PoolConfig
  import opened GeventFuture

  /** `(sql, args, op, async_result)`; `sink` is `None` for a non-blocking call. */
  datatype Task = Task(sql: string, args: seq<Value>, op: string, sink: Option<AsyncResult>)

  class Pool {
    const cls: ConnectionClass
    var conns: seq<Conn>
    var queues: seq<seq<Task>>
    /** Whether worker `i` has peeked its head task and not yet finished it. */
    var busy: seq<bool>

    /** One connection, one queue and one worker per slot; a busy worker's task is still
        at the head of its queue. */
    ghost predicate Valid()
      reads this
    {
      |conns| == |queues| == |busy| &&
      (forall i :: 0 <= i < |conns| ==> conns[i].serial == i && conns[i].cls == cls) &&
      (forall i :: 0 <= i < |busy| && busy[i] ==> queues[i] != [])
    }

    constructor (cls: ConnectionClass, options: map<string, Value>, n: nat)
      ensures Valid() && this.cls == cls && conns == Connections(cls, options, n)
      ensures |queues| == n && forall k :: 0 <= k < n ==> queues[k] == [] && !busy[k]
    {
      this.cls := cls;
      conns, queues, busy := [], [], [];
      new;
      var i := 0;
      while i < n
        invariant i <= n && |conns| == |queues| == |busy| == i
        invariant forall k :: 0 <= k < i ==> conns[k] == Conn(k, cls, options) && queues[k] == [] && !busy[k]
      {
        conns := conns + [Conn(i, cls, options)];
        queues := queues + [[]];
        busy := busy + [false];
        i := i + 1;
      }
    }

    /** `Pool(options, n, adapter)`: the option and adapter checks, then `n` connections;
        a negative `n` creates none and fails the final length assertion. */
    static method NewPool(options: map<string, Value>, n: int, adapter: string)
      returns (r: Result<Pool>)
      ensures Configure(options, adapter).Err? ==> r == Err(Configure(options, adapter).error)
      ensures Configure(options, adapter).Ok? && n < 0 ==> r == Err(AssertionError)
      ensures Configure(options, adapter).Ok? && n >= 0 ==> r.Ok?
      ensures r.Ok? ==> fresh(r.value) && r.value.Valid() && r.value.cls == Configure(options, adapter).value
      ensures r.Ok? ==> r.value.conns == Connections(r.value.cls, options, n)
      ensures r.Ok? ==> forall k :: 0 <= k < n ==> r.value.queues[k] == [] && !r.value.busy[k]
    {
      var c := Configure(options, adapter);
      if c.Err? {
        return Err(c.error);
      }
      if n < 0 {
        return Err(AssertionError);
      }
      var p := new Pool(c.value, options, n);
      r := Ok(p);
    }

    /** `q.peek()` in worker `w`'s loop: with a task queued, the worker takes hold of the
        head without removing it; on an empty queue it keeps waiting. */
    method Begin(w: nat) returns (t: Option<Task>)
      requires Valid() && w < |queues| && !busy[w]
      modifies this
      ensures Valid() && conns == old(conns) && queues == old(queues)
      ensures t.Some? <==> old(queues[w]) != []
      ensures t.Some? ==> t.value == queues[w][0] && busy == old(busy[w := true])
      ensures t.None? ==> busy == old(busy)
    {
      if queues[w] == [] {
        return None;
      }
      busy := busy[w := true];
      t := Some(queues[w][0]);
    }

    /** The cell of the task worker `w` is running, if it has one. */
    function RunningSink(w: nat): set<object>
      reads this
    {
      if w < |queues| && queues[w] != [] && queues[w][0].sink.Some? then {queues[w][0].sink.value} else {}
    }

    /** The rest of the iteration: the operation produced `outcome`; its result, or the
        exception itself, goes into the task's cell (a task without one has a failure only
        logged), and `q.next()` removes the task from the head of the queue. */
    method Finish(w: nat, outcome: Outcome)
      requires Valid() && w < |queues| && busy[w]
      modifies this, RunningSink(w)
      ensures Valid() && conns == old(conns) && busy == old(busy[w := false])
      ensures queues == old(queues[w := queues[w][1..]])
      ensures var t := old(queues[w][0]); var o := Invoke(cls, t.op, outcome);
        t.sink.Some? ==> t.sink.value.state == (if o.Returned? then Resolved(o.value) else Rejected(o.error))
    {
      var t := queues[w][0];
      var o := Invoke(cls, t.op, outcome);
      if t.sink.Some? {
        match o
        case Returned(v) => t.sink.value.Set(v);
        case Raised(e) => t.sink.value.SetException(e);
      }
      queues := queues[w := queues[w][1..]];
      busy := busy[w := false];
    }

    /** `_query`: append a task to the queue `_selectq(qid)` picks, with a fresh cell, whose
        `get` the caller then waits on, when `block`; a routing failure raises and enqueues
        nothing. */
    method Query(sql: string, args: seq<Value> := [], op: string := "execute", qid: int := -1,
                 block: bool := true)
      returns (r: Result<Option<AsyncResult>>)
      requires Valid()
      modifies this
      ensures Valid() && conns == old(conns) && busy == old(busy)
      ensures old(Route(queues, qid)).Err? ==> r == Err(old(Route(queues, qid)).error) && queues == old(queues)
      ensures old(Route(queues, qid)).Ok? ==>
        r.Ok? && (r.value.Some? <==> block) &&
        queues == Put(old(queues), old(Route(queues, qid)).value, Task(sql, args, op, r.value))
      ensures r.Ok? && r.value.Some? ==> fresh(r.value.value) && r.value.value.state == Pending
    {
      var q := Route(queues, qid);
      if q.Err? {
        return Err(q.error);
      }
      var sink: Option<AsyncResult> := None;
      if block {
        var cell := new AsyncResult();
        sink := Some(cell);
      }
      queues := Put(queues, q.value, Task(sql, args, op, sink));
      r := Ok(sink);
    }

    /** `execute`, `fetchone`, `fetchall`: `_query` with the wrapper's own name as the
        operation. */
    method Wrapper(name: string, sql: string, args: seq<Value> := [], qid: int := -1, block: bool := true)
      returns (r: Result<Option<AsyncResult>>)
      requires Valid() && name in {"execute", "fetchone", "fetchall"}
      modifies this
      ensures Valid() && conns == old(conns) && busy == old(busy)
      ensures old(Route(queues, qid)).Err? ==> r == Err(old(Route(queues, qid)).error) && queues == old(queues)
      ensures old(Route(queues, qid)).Ok? ==>
        r.Ok? && (r.value.Some? <==> block) &&
        queues == Put(old(queues), old(Route(queues, qid)).value, Task(sql, args, name, r.value))
      ensures r.Ok? && r.value.Some? ==> fresh(r.value.value) && r.value.value.state == Pending
    {
      r := Query(sql, args, name, qid, block);
    }

    /** `get_fields(table)`: a blocking `get_fields` task for the table's empty select,
        routed to the shortest queue. */
    method GetFields(table: string) returns (r: Result<Option<AsyncResult>>)
      requires Valid()
      modifies this
      ensures Valid() && conns == old(conns) && busy == old(busy)
      ensures old(Route(queues, -1)).Err? ==> r == Err(ValueError) && queues == old(queues)
      ensures old(Route(queues, -1)).Ok? ==>
        r.Ok? && r.value.Some? && fresh(r.value.value) && r.value.value.state == Pending &&
        queues == Put(old(queues), old(Route(queues, -1)).value, Task(FieldsQuery(table), [], "get_fields", r.value))
    {
      r := Query(FieldsQuery(table), [], "get_fields", -1, true);
    }
  }

  /** Because a running task stays queued until it finishes, routing by shortest queue
      never hands an unpinned task to a busy worker while some queue is empty: the task
      lands on an empty queue, whose worker is idle. */
  lemma UnpinnedAvoidsBusy<T>(qs: seq<seq<T>>, busy: seq<bool>)
    requires |busy| == |qs|
    requires forall i :: 0 <= i < |qs| && busy[i] ==> qs[i] != []
    requires exists j :: 0 <= j < |qs| && qs[j] == []
    ensures Route(qs, -1).Ok?
    ensures qs[Route(qs, -1).value] == [] && !busy[Route(qs, -1).value]
  {
    var j :| 0 <= j < |qs| && qs[j] == [];
    var k := Route(qs, -1).value;
    assert Sizes(qs)[k] <= Sizes(qs)[j];
  }
}
