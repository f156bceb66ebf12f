/** The gevent connection pool: `n` connections, each with its own FIFO queue and its own
    worker greenlet. A call is routed to one queue; the worker owning that queue takes
    tasks off the head one at a time, runs them against its connection and resolves the
    task's cell. Scheduling is abstracted away: a submission and a worker iteration are
    atomic steps, and the connection's reply to a task is a parameter of the step. */
module ConnectionPool {
  import opened Py
  import opened Routing
  import opened GeventFuture

  /** `(op, args, kwargs, async_result)`; `sink` is `None` for a fire-and-forget call. */
  datatype Task = Task(op: string, args: seq<Value>, kwargs: map<string, Value>, sink: Option<AsyncResult>)

  /** `connection_cls(**options)`: the `serial`-th connection created, with its options. */
  datatype Conn = Conn(serial: nat, options: map<string, Value>)

  /** A greenlet running `loop(conns[conn], queues[queue])`. */
  datatype Worker = Worker(conn: nat, queue: nat)

  /** The state a worker leaves in a task's cell when the operation produced `outcome`:
      the return value, or the exception wrapped in a fresh `Exception`. */
  function Delivered(outcome: Outcome): (s: State)
    ensures outcome.Returned? ==> s == Resolved(outcome.value)
    ensures outcome.Raised? ==> s == Rejected(Wrapped(outcome.error))
  {
    match outcome
    case Returned(v) => Resolved(v)
    case Raised(e) => Rejected(Wrapped(e))
  }

  /** The task list `map` submits: one task per argument tuple, with empty kwargs. */
  function MapTasks(op: string, argsList: seq<seq<Value>>, sinks: seq<Option<AsyncResult>>): (ts: seq<Task>)
    requires |sinks| == |argsList|
    ensures |ts| == |argsList|
    ensures forall i :: 0 <= i < |ts| ==> ts[i] == Task(op, argsList[i], map[], sinks[i])
  {
    seq(|argsList|, i requires 0 <= i < |argsList| => Task(op, argsList[i], map[], sinks[i]))
  }

  /** Consuming one element of the generator `map` returns: `d.get()`, or an
      `AttributeError` where `deferred=False` left `None` in place of a cell. The generator
      is lazy: nothing raises before the first element is consumed, and iteration ends at
      the first element whose `get` raises. */
  function Yielded(d: Option<AsyncResult>): (r: GetOutcome)
    reads if d.Some? then {d.value} else {}
    ensures d.None? ==> r == Throws(AttributeError("get"))
    ensures d.Some? ==> r == d.value.Get()
  {
    if d.Some? then d.value.Get() else Throws(AttributeError("get"))
  }

  class Pool {
    var conns: seq<Conn>
    var queues: seq<seq<Task>>
    var workers: seq<Worker>

    /** One connection, one queue and one worker per slot, paired by index. */
    ghost predicate Valid()
      reads this
    {
      |conns| == |queues| == |workers| &&
      forall i :: 0 <= i < |workers| ==> workers[i] == Worker(i, i) && conns[i].serial == i
    }

    constructor (n: nat, options: map<string, Value>)
      ensures Valid() && |queues| == n
      ensures forall k :: 0 <= k < n ==> queues[k] == [] && conns[k] == Conn(k, options)
    {
      conns, queues, workers := [], [], [];
      new;
      var i := 0;
      while i < n
        invariant i <= n
        invariant |conns| == |queues| == |workers| == i
        invariant forall k :: 0 <= k < i ==>
          workers[k] == Worker(k, k) && conns[k] == Conn(k, options) && queues[k] == []
      {
        conns := conns + [Conn(i, options)];
        queues := queues + [[]];
        workers := workers + [Worker(i, i)];
        i := i + 1;
      }
    }

    /** `ConnectionPool(n, connection_cls, options)`: `n` connections; a negative `n`
        creates none and fails the final length assertion. */
    static method NewPool(n: int, options: map<string, Value>) returns (r: Result<Pool>)
      ensures n < 0 ==> r == Err(AssertionError)
      ensures n >= 0 ==> r.Ok? && fresh(r.value) && r.value.Valid() && |r.value.queues| == n
      ensures r.Ok? ==> forall k :: 0 <= k < n ==> r.value.queues[k] == [] && r.value.conns[k] == Conn(k, options)
    {
      if n < 0 {
        return Err(AssertionError);
      }
      var p := new Pool(n, options);
      r := Ok(p);
    }

    /** The cell of the task at the head of queue `w`, if any: the only object a loop
        iteration of worker `w` writes besides the pool. */
    function HeadSink(w: nat): set<object>
      reads this
    {
      if w < |queues| && queues[w] != [] && queues[w][0].sink.Some? then {queues[w][0].sink.value} else {}
    }

    /** One iteration of worker `w`'s loop: take the head task (the loop blocks on an empty
        queue, so nothing happens), run it, and put the result or the wrapped exception
        into its cell; a task without a cell has its failure only logged. */
    method Step(w: nat, outcome: Outcome) returns (ran: bool)
      requires Valid() && w < |workers|
      modifies this, HeadSink(w)
      ensures Valid() && conns == old(conns) && workers == old(workers)
      ensures ran <==> old(queues[w]) != []
      ensures !ran ==> queues == old(queues)
      ensures ran ==> queues == old(queues[w := queues[w][1..]])
      ensures ran ==> var t := old(queues[w][0]); t.sink.Some? ==> t.sink.value.state == Delivered(outcome)
    {
      if queues[w] == [] {
        return false;
      }
      var t := queues[w][0];
      queues := queues[w := queues[w][1..]];
      if t.sink.Some? {
        match outcome
        case Returned(v) => t.sink.value.Set(v);
        case Raised(e) => t.sink.value.SetException(Wrapped(e));
      }
      ran := true;
    }

    /** `call`: append one task to the queue `_selectq(qid)` picks and hand back its cell,
        or `None` when `deferred` is false; a routing failure raises and enqueues nothing. */
    method Call(op: string, args: seq<Value> := [], kwargs: map<string, Value> := map[], qid: int := -1,
                deferred: bool := true)
      returns (r: Result<Option<AsyncResult>>)
      requires Valid()
      modifies this
      ensures Valid() && conns == old(conns) && workers == old(workers)
      ensures old(Route(queues, qid)).Err? ==> r == Err(old(Route(queues, qid)).error) && queues == old(queues)
      ensures old(Route(queues, qid)).Ok? ==>
        r.Ok? && (r.value.Some? <==> deferred) &&
        queues == Put(old(queues), old(Route(queues, qid)).value, Task(op, args, kwargs, r.value))
      ensures r.Ok? && r.value.Some? ==> fresh(r.value.value) && r.value.value.state == Pending
    {
      var q := Route(queues, qid);
      if q.Err? {
        return Err(q.error);
      }
      var sink: Option<AsyncResult> := None;
      if deferred {
        var cell := new AsyncResult();
        sink := Some(cell);
      }
      queues := Put(queues, q.value, Task(op, args, kwargs, sink));
      r := Ok(sink);
    }

    /** One `call` of `map`'s loop, after the tasks `ts` went in from queues `q0`: the new
        task extends that fold, or, on the first task only, routing fails. */
    method CallNext(ghost q0: seq<seq<Task>>, ghost ts: seq<Task>, op: string, args: seq<Value>, qid: int,
                    deferred: bool)
      returns (r: Result<Option<AsyncResult>>)
      requires Valid() && |q0| == |queues| && SubmitAll(q0, ts, qid) == Ok(queues)
      requires ts != [] ==> Route(q0, qid).Ok?
      requires ts == [] ==> queues == q0
      modifies this
      ensures Valid() && conns == old(conns) && workers == old(workers)
      ensures r.Err? ==> ts == [] && Route(q0, qid).Err? && r.error == Route(q0, qid).error && queues == old(queues)
      ensures r.Ok? ==> Route(q0, qid).Ok? && SubmitAll(q0, ts + [Task(op, args, map[], r.value)], qid) == Ok(queues)
      ensures r.Ok? ==> (r.value.Some? <==> deferred)
      ensures r.Ok? && r.value.Some? ==> fresh(r.value.value) && r.value.value.state == Pending
    {
      RouteFailureIgnoresLoad(q0, queues, qid);
      ghost var before := queues;
      r := Call(op, args, map[], qid, deferred);
      if r.Ok? {
        SubmitAllSnoc(q0, ts, Task(op, args, map[], r.value), qid, before);
      }
    }

    /** `map`: one `call` per argument tuple, in list order; the generator it returns yields
        `Yielded(r[i])` for the i-th input. */
    method Map(op: string, argsList: seq<seq<Value>>, qid: int := -1, deferred: bool := true)
      returns (r: Result<seq<Option<AsyncResult>>>)
      requires Valid()
      modifies this
      ensures Valid() && conns == old(conns) && workers == old(workers)
      ensures r.Err? <==> argsList != [] && old(Route(queues, qid)).Err?
      ensures r.Err? ==> r.error == old(Route(queues, qid)).error && queues == old(queues)
      ensures r.Ok? ==> |r.value| == |argsList|
      ensures r.Ok? ==> SubmitAll(old(queues), MapTasks(op, argsList, r.value), qid) == Ok(queues)
      ensures r.Ok? ==> forall i :: 0 <= i < |r.value| ==> (r.value[i].Some? <==> deferred)
      ensures r.Ok? ==> forall i :: 0 <= i < |r.value| && r.value[i].Some? ==>
        fresh(r.value[i].value) && r.value[i].value.state == Pending
    {
      ghost var q0 := queues;
      ghost var ts: seq<Task> := [];
      var sinks: seq<Option<AsyncResult>> := [];
      var i := 0;
      while i < |argsList|
        invariant Valid() && conns == old(conns) && workers == old(workers)
        invariant 0 <= i <= |argsList| && |sinks| == i && |ts| == i
        invariant forall j :: 0 <= j < i ==> ts[j] == Task(op, argsList[j], map[], sinks[j])
        invariant |queues| == |q0| && SubmitAll(q0, ts, qid) == Ok(queues)
        invariant i > 0 ==> Route(q0, qid).Ok?
        invariant i == 0 ==> queues == q0
        invariant forall j :: 0 <= j < i ==> (sinks[j].Some? <==> deferred)
        invariant forall j :: 0 <= j < i && sinks[j].Some? ==> fresh(sinks[j].value) && sinks[j].value.state == Pending
      {
        var c := CallNext(q0, ts, op, argsList[i], qid, deferred);
        if c.Err? {
          return Err(c.error);
        }
        ts := ts + [Task(op, argsList[i], map[], c.value)];
        sinks := sinks + [c.value];
        i := i + 1;
      }
      assert ts == MapTasks(op, argsList, sinks);
      r := Ok(sinks);
    }
  }
}
