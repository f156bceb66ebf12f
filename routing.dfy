/** Queue selection (`_selectq`) and enqueuing, shared by every pool variant.
    A pool's queues are a sequence of FIFO queues, one per worker; a task is routed to
    an explicitly requested queue, or else to the first queue of minimal length. */
module Routing {
  import opened Py

  /** `[q.qsize() for q in queues]`. */
  function Sizes<T>(qs: seq<seq<T>>): (s: seq<nat>)
    ensures |s| == |qs|
    ensures forall k :: 0 <= k < |qs| ==> s[k] == |qs[k]|
  {
    seq(|qs|, k requires 0 <= k < |qs| => |qs[k]|)
  }

  /** Index `k` holds a minimal size, and no earlier index holds that size. */
  ghost predicate IsFirstMin(sizes: seq<nat>, k: nat) {
    k < |sizes| &&
    (forall j :: 0 <= j < |sizes| ==> sizes[k] <= sizes[j]) &&
    (forall j :: 0 <= j < k ==> sizes[k] < sizes[j])
  }

  /** Python's `min(range(n), key=...)`: scan left to right and replace the running
      minimum only by a strictly smaller size. */
  function FirstMin(sizes: seq<nat>): (k: nat)
    requires |sizes| > 0
    ensures IsFirstMin(sizes, k)
  {
    if |sizes| == 1 then 0
    else
      var k := FirstMin(sizes[..|sizes| - 1]);
      if sizes[|sizes| - 1] < sizes[k] then |sizes| - 1 else k
  }

  /** `_selectq(qid)` on the queue sizes: `queues[qid]` for `qid >= 0` (an `IndexError`
      past the end), otherwise `min(queues, key=qsize)` (a `ValueError` on no queues). */
  function Select(sizes: seq<nat>, qid: int): (r: Result<nat>)
    ensures qid >= 0 ==> (r.Ok? <==> qid < |sizes|)
    ensures qid >= 0 && r.Ok? ==> r.value == qid
    ensures qid >= 0 && r.Err? ==> r.error == IndexError
    ensures qid < 0 ==> (r.Ok? <==> |sizes| > 0)
    ensures qid < 0 && r.Ok? ==> IsFirstMin(sizes, r.value)
    ensures qid < 0 && r.Err? ==> r.error == ValueError
  {
    if qid >= 0 then
      if qid < |sizes| then Ok(qid) else Err(IndexError)
    else if |sizes| == 0 then Err(ValueError)
    else Ok(FirstMin(sizes))
  }

  /** The queue `_selectq` picks among `qs`. */
  function Route<T>(qs: seq<seq<T>>, qid: int): (r: Result<nat>)
    ensures r.Ok? ==> r.value < |qs|
  {
    Select(Sizes(qs), qid)
  }

  /** `queues[k].put(t)`: append at the tail of queue `k`, leave every other queue alone. */
  function Put<T>(qs: seq<seq<T>>, k: nat, t: T): (r: seq<seq<T>>)
    requires k < |qs|
    ensures |r| == |qs| && r[k] == qs[k] + [t]
    ensures forall j :: 0 <= j < |qs| && j != k ==> r[j] == qs[j]
  {
    qs[k := qs[k] + [t]]
  }

  /** Submitting `ts` one after the other, each routed against the queues as the previous
      submissions left them; the first routing failure aborts the rest. */
  function SubmitAll<T>(qs: seq<seq<T>>, ts: seq<T>, qid: int): Result<seq<seq<T>>>
    decreases |ts|
  {
    if ts == [] then Ok(qs)
    else
      match SubmitAll(qs, ts[..|ts| - 1], qid)
      case Err(e) => Err(e)
      case Ok(q1) =>
        match Route(q1, qid)
        case Err(e) => Err(e)
        case Ok(k) => Ok(Put(q1, k, ts[|ts| - 1]))
  }

  /** Whether routing fails depends only on `qid` and the number of queues, not on their load. */
  lemma RouteFailureIgnoresLoad<T>(qs: seq<seq<T>>, qs': seq<seq<T>>, qid: int)
    requires |qs| == |qs'|
    ensures Route(qs, qid).Err? <==> Route(qs', qid).Err?
    ensures Route(qs, qid).Err? ==> Route(qs, qid) == Route(qs', qid)
  {
  }

  /** A batch either fails at its first submission, leaving nothing enqueued, or succeeds
      throughout, keeping the number of queues. */
  lemma {:induction false} SubmitAllFailsFirst<T>(qs: seq<seq<T>>, ts: seq<T>, qid: int)
    ensures SubmitAll(qs, ts, qid).Err? <==> ts != [] && Route(qs, qid).Err?
    ensures SubmitAll(qs, ts, qid).Err? ==> SubmitAll(qs, ts, qid).error == Route(qs, qid).error
    ensures SubmitAll(qs, ts, qid).Ok? ==> |SubmitAll(qs, ts, qid).value| == |qs|
    decreases |ts|
  {
    if ts != [] {
      SubmitAllFailsFirst(qs, ts[..|ts| - 1], qid);
      var r := SubmitAll(qs, ts[..|ts| - 1], qid);
      if r.Ok? {
        RouteFailureIgnoresLoad(qs, r.value, qid);
      }
    }
  }

  /** A batch pinned to queue `qid` lands at the tail of that queue in submission order,
      and no other queue changes. */
  lemma {:induction false} SubmitAllPinned<T>(qs: seq<seq<T>>, ts: seq<T>, qid: int)
    requires 0 <= qid < |qs|
    ensures SubmitAll(qs, ts, qid) == Ok(qs[qid := qs[qid] + ts])
    decreases |ts|
  {
    if ts == [] {
      assert qs[qid] + ts == qs[qid];
      assert qs[qid := qs[qid]] == qs;
    } else {
      var init, last := ts[..|ts| - 1], ts[|ts| - 1];
      SubmitAllPinned(qs, init, qid);
      var q1 := qs[qid := qs[qid] + init];
      assert Route(q1, qid) == Ok(qid);
      assert init + [last] == ts;
      assert (qs[qid] + init) + [last] == qs[qid] + ts;
      assert Put(q1, qid, last) == qs[qid := qs[qid] + ts];
    }
  }

  /** All the tasks of the pool, queue by queue. */
  function Flatten<T>(qs: seq<seq<T>>): seq<T> {
    if qs == [] then [] else qs[0] + Flatten(qs[1..])
  }

  lemma {:induction false} PutAddsOne<T>(qs: seq<seq<T>>, k: nat, t: T)
    requires k < |qs|
    ensures multiset(Flatten(Put(qs, k, t))) == multiset(Flatten(qs)) + multiset{t}
    decreases |qs|
  {
    if k > 0 {
      PutAddsOne(qs[1..], k - 1, t);
      assert Put(qs, k, t)[1..] == Put(qs[1..], k - 1, t);
    } else {
      assert Put(qs, k, t)[1..] == qs[1..];
    }
  }

  /** Every submitted task ends up in exactly one queue, and no queued task is lost. */
  lemma {:induction false} SubmitAllConserves<T>(qs: seq<seq<T>>, ts: seq<T>, qid: int)
    requires SubmitAll(qs, ts, qid).Ok?
    ensures multiset(Flatten(SubmitAll(qs, ts, qid).value)) == multiset(Flatten(qs)) + multiset(ts)
    decreases |ts|
  {
    if ts != [] {
      var init, last := ts[..|ts| - 1], ts[|ts| - 1];
      var q1, k := SubmitAllLast(qs, ts, qid);
      SubmitAllConserves(qs, init, qid);
      PutAddsOne(q1, k, last);
      calc {
        multiset(Flatten(SubmitAll(qs, ts, qid).value));
        multiset(Flatten(Put(q1, k, last)));
        multiset(Flatten(q1)) + multiset{last};
        multiset(Flatten(qs)) + multiset(init) + multiset{last};
        { MultisetSnoc(ts); }
        multiset(Flatten(qs)) + multiset(ts);
      }
    }
  }

  /** A non-empty sequence is its front followed by its last element. */
  lemma MultisetSnoc<T>(ts: seq<T>)
    requires ts != []
    ensures multiset(ts) == multiset(ts[..|ts| - 1]) + multiset{ts[|ts| - 1]}
  {
    assert ts == ts[..|ts| - 1] + [ts[|ts| - 1]];
  }

  /** Queues only grow at their tails: every task already queued stays at its old position. */
  lemma {:induction false} SubmitAllGrows<T>(qs: seq<seq<T>>, ts: seq<T>, qid: int)
    requires SubmitAll(qs, ts, qid).Ok?
    ensures |SubmitAll(qs, ts, qid).value| == |qs|
    ensures forall k :: 0 <= k < |qs| ==> qs[k] <= SubmitAll(qs, ts, qid).value[k]
    decreases |ts|
  {
    if ts != [] {
      var q1, k := SubmitAllLast(qs, ts, qid);
      SubmitAllGrows(qs, ts[..|ts| - 1], qid);
      assert forall j :: 0 <= j < |q1| ==> q1[j] <= Put(q1, k, ts[|ts| - 1])[j];
    }
  }

  /** One more submission extends a successful batch. */
  lemma SubmitAllSnoc<T>(qs: seq<seq<T>>, ts: seq<T>, t: T, qid: int, q1: seq<seq<T>>)
    requires SubmitAll(qs, ts, qid) == Ok(q1) && Route(q1, qid).Ok?
    ensures SubmitAll(qs, ts + [t], qid) == Ok(Put(q1, Route(q1, qid).value, t))
  {
    assert (ts + [t])[..|ts + [t]| - 1] == ts;
  }

  /** The last submission of a successful batch, taken apart. */
  lemma SubmitAllLast<T>(qs: seq<seq<T>>, ts: seq<T>, qid: int) returns (q1: seq<seq<T>>, k: nat)
    requires ts != [] && SubmitAll(qs, ts, qid).Ok?
    ensures SubmitAll(qs, ts[..|ts| - 1], qid) == Ok(q1)
    ensures Route(q1, qid) == Ok(k) && k < |q1|
    ensures SubmitAll(qs, ts, qid) == Ok(Put(q1, k, ts[|ts| - 1]))
  {
    q1 := SubmitAll(qs, ts[..|ts| - 1], qid).value;
    k := Route(q1, qid).value;
  }
}
