/** Session numbering in `gu/protocol.py`: one class-level `id_generator` counts 1, 2, …,
    2^31 and wraps around to 1, and every `Protocol` instance takes the next value as its
    `session_id`. The sockets and greenlets of `Protocol` are not part of this model. */
module SessionIds {
  import opened Py

  /** `wall = 1 << 31`. */
  const Wall: nat := 0x8000_0000

  /** One turn of the generator's loop: `i += 1`, back to 1 once past the wall. */
  function Succ(i: nat): (j: nat)
    ensures 1 <= j <= Wall
    ensures i < Wall ==> j == i + 1
    ensures i >= Wall ==> j == 1
  {
    if i + 1 > Wall then 1 else i + 1
  }

  /** The counter after `k` values have been produced (0 before the first). */
  function NthId(k: nat): nat {
    if k == 0 then 0 else Succ(NthId(k - 1))
  }

  /** The generator state: `i`, and how many values it has produced. */
  class IdGenerator {
    var i: nat
    ghost var produced: nat

    ghost predicate Valid()
      reads this
    {
      i == NthId(produced)
    }

    constructor ()
      ensures Valid() && produced == 0 && i == 0
    {
      i := 0;
      produced := 0;
    }

    /** `next()`: run the loop body once and yield the counter. */
    method Next() returns (v: nat)
      requires Valid()
      modifies this
      ensures Valid() && produced == old(produced) + 1
      ensures v == i && v == Succ(old(i)) && 1 <= v <= Wall
    {
      i := i + 1;
      if i > Wall {
        i := 1;
      }
      produced := produced + 1;
      v := i;
    }
  }

  lemma ModStep(a: nat)
    ensures (a + 1) % Wall == if a % Wall == Wall - 1 then 0 else a % Wall + 1
  {
  }

  /** The k-th value produced is `(k - 1) mod 2^31 + 1`. */
  lemma {:induction false} NthIdClosedForm(k: nat)
    requires k >= 1
    ensures NthId(k) == (k - 1) % Wall + 1
    decreases k
  {
    if k > 1 {
      NthIdClosedForm(k - 1);
      ModStep(k - 2);
    }
  }

  /** The first value is 1, and every value lies in `[1, 2^31]`. */
  lemma IdsInRange(k: nat)
    requires k >= 1
    ensures 1 <= NthId(k) <= Wall
    ensures k == 1 ==> NthId(k) == 1
  {
    NthIdClosedForm(k);
  }

  /** The sequence repeats with period 2^31. */
  lemma IdsPeriodic(k: nat)
    requires k >= 1
    ensures NthId(k + Wall) == NthId(k)
  {
    NthIdClosedForm(k);
    NthIdClosedForm(k + Wall);
  }

  /** Any 2^31 consecutive values are pairwise distinct, so in particular consecutive
      values differ. */
  lemma IdsDistinctInWindow(j: nat, k: nat)
    requires 1 <= j < k < j + Wall
    ensures NthId(j) != NthId(k)
  {
    NthIdClosedForm(j);
    NthIdClosedForm(k);
    var a, d := j - 1, k - j;
    var q, r := a / Wall, a % Wall;
    if r + d < Wall {
      ModOf(q, r + d);
    } else {
      ModOf(q + 1, r + d - Wall);
    }
  }

  lemma ModOf(q: nat, t: nat)
    requires t < Wall
    ensures (q * Wall + t) % Wall == t
  {
  }

  /** The part of a `Protocol` instance this model keeps. */
  class Protocol {
    const sessionId: nat
    const recvBufSize: int
    /** `read_deadline`: 0 means no heartbeat timeout. */
    const readDeadline: int

    /** `Protocol(sock, address, **kwargs)`: options fall back to the class defaults (256
        bytes per read, no deadline), and the session id is the shared generator's next. */
    constructor (ids: IdGenerator, recvBufSize: Option<int>, readDeadline: Option<int>)
      requires ids.Valid()
      modifies ids
      ensures ids.Valid() && ids.produced == old(ids.produced) + 1
      ensures sessionId == ids.i == Succ(old(ids.i))
      ensures this.recvBufSize == recvBufSize.GetOr(256) && this.readDeadline == readDeadline.GetOr(0)
    {
      var v := ids.Next();
      sessionId := v;
      this.recvBufSize := recvBufSize.GetOr(256);
      this.readDeadline := readDeadline.GetOr(0);
    }
  }

  /** Two connections opened one after the other on the shared generator get successive,
      different session ids. */
  method OpenTwo(ids: IdGenerator) returns (p: Protocol, q: Protocol)
    requires ids.Valid()
    modifies ids
    ensures ids.Valid() && ids.produced == old(ids.produced) + 2
    ensures p.sessionId == NthId(old(ids.produced) + 1) && q.sessionId == NthId(old(ids.produced) + 2)
    ensures q.sessionId == Succ(p.sessionId) && p.sessionId != q.sessionId
  {
    p := new Protocol(ids, None, None);
    q := new Protocol(ids, None, None);
    IdsDistinctInWindow(old(ids.produced) + 1, old(ids.produced) + 2);
  }
}
