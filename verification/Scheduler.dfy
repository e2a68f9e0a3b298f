/** The waiting queue (src/scheduler/scheduler.cpp). */
module Schedulers {
  import opened Requests

  class Scheduler {
    var waiting: seq<Request>
    /** 0 means unbounded. */
    const maxWaiting: nat
    var stopping: bool

    constructor (bound: nat)
      ensures waiting == [] && !stopping && maxWaiting == bound
    {
      waiting, stopping, maxWaiting := [], false, bound;
    }

    /** Rejects when the bounded queue is full. */
    method Submit(req: Request) returns (accepted: bool)
      modifies this`waiting
      ensures accepted <==> maxWaiting == 0 || |old(waiting)| < maxWaiting
      ensures waiting == if accepted then old(waiting) + [req] else old(waiting)
    {
      if maxWaiting > 0 && |waiting| >= maxWaiting {
        return false;
      }
      waiting := waiting + [req];
      return true;
    }

    /** Returns once there is work or the scheduler is stopping; nothing means stopping and drained. */
    method NextWaiting() returns (req: Request?)
      requires waiting != [] || stopping
      modifies this`waiting
      ensures req == null <==> old(waiting) == []
      ensures req == null ==> waiting == []
      ensures req != null ==> old(waiting) == [req] + waiting
    {
      if waiting == [] {
        return null;
      }
      req := waiting[0];
      waiting := waiting[1..];
    }

    /** Up to `max` waiting requests, in arrival order, without blocking. */
    method TakeWaiting(max: nat) returns (out: seq<Request>)
      modifies this`waiting
      ensures old(waiting) == out + waiting
      ensures |out| == if |old(waiting)| < max then |old(waiting)| else max
    {
      out := [];
      while waiting != [] && |out| < max
        invariant old(waiting) == out + waiting && |out| <= max
        decreases |waiting|
      {
        out := out + [waiting[0]];
        waiting := waiting[1..];
      }
    }

    method StopAccepting()
      modifies this`stopping
      ensures stopping
    {
      stopping := true;
    }
  }
}
