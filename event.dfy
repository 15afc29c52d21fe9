/** The per-dispatch cancellation token (`*event.Context`) and the pointer
    slots (`*string`, `*float64`, `*mgl64.Vec3`) through which an event's
    observers share one mutable payload field. */
module Event {

  /** A single-shot cancellation flag owned by one dispatch call. */
  class Context {
    var canceled: bool

    /** A fresh context has not been cancelled. */
    constructor ()
      ensures !canceled
    {
      canceled := false;
    }

    /** Cancel marks the event as cancelled; calling it again changes nothing. */
    method Cancel()
      modifies this
      ensures canceled
    {
      canceled := true;
    }

    /** Whether some observer has cancelled the event. */
    predicate Cancelled()
      reads this
    {
      canceled
    }
  }

  /** One storage location shared by every observer of an event: a write by
      one observer is what the next observer reads. */
  class Ref<T> {
    var value: T

    constructor (v: T)
      ensures value == v
    {
      value := v;
    }

    method Set(v: T)
      modifies this
      ensures value == v
    {
      value := v;
    }
  }
}
