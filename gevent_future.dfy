/** The part of `gevent.event.AsyncResult` that the gevent pools use: a result cell that a
    worker resolves with a value (`set`) or an exception (`set_exception`). The class is
    gevent's own; this is the minimal stand-in the pools are written against. */
module GeventFuture {
  import opened Py

  datatype State = Pending | Resolved(value: Value) | Rejected(error: Error)

  /** What `get()` does in a given state: suspend the caller, return, or raise. */
  datatype GetOutcome = Waits | Returns(value: Value) | Throws(error: Error)

  class AsyncResult {
    var state: State

    constructor ()
      ensures state == Pending
    {
      state := Pending;
    }

    method Set(v: Value)
      modifies this
      ensures state == Resolved(v)
    {
      state := Resolved(v);
    }

    method SetException(e: Error)
      modifies this
      ensures state == Rejected(e)
    {
      state := Rejected(e);
    }

    /** `get()`: blocks while pending, then returns the value or raises the exception. */
    function Get(): (r: GetOutcome)
      reads this
      ensures r.Waits? <==> state.Pending?
      ensures state.Resolved? ==> r == Returns(state.value)
      ensures state.Rejected? ==> r == Throws(state.error)
    {
      match state
      case Pending => Waits
      case Resolved(v) => Returns(v)
      case Rejected(e) => Throws(e)
    }
  }
}
