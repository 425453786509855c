/** The WEX agent as an object that updates its fields. */
module WexAgent {
  import opened Basics
  import opened WexSpec
  import Spec = WexSpec

  class WexAgent {
    var active: Option<Intent>
    var wexRequests: seq<Intent>

    // the environment
    var inFlight: nat
    var script: seq<Meets>
    ghost var trace: seq<Mark>

    ghost function Abs(): State
      reads this
    {
      State(active, wexRequests, inFlight, script, trace)
    }

    constructor (script: seq<Meets>)
      ensures Abs() == Init(script)
    {
      active, wexRequests, inFlight := None, [], 0;
      this.script := script;
      trace := [];
    }

    method OnWexIntent(intent: Intent)
      modifies this
      ensures Abs() == Spec.OnWexIntent(old(Abs()), intent)
    {
      if active.None? {
        ExecuteRequest(intent);
      } else {
        wexRequests := wexRequests + [intent];
      }
    }

    method ExecuteRequest(intent: Intent)
      modifies this
      ensures Abs() == Spec.ExecuteRequest(old(Abs()), intent)
      decreases |wexRequests|, 1
    {
      var meets := Next(script);
      script := Rest(script);
      if meets != Missing {
        active := Some(intent);
        trace := trace + [Processing(intent)];
        inFlight := inFlight + 1;
        if meets.Now? {
          OnMessage(meets.ok);
        }
      } else {
        trace := trace + [Error(intent)];
      }
    }

    /** ok: the answer is not empty and parses. */
    method OnMessage(ok: bool)
      requires active.Some? && inFlight > 0
      modifies this
      ensures Abs() == Spec.OnMessage(old(Abs()), ok)
      decreases |wexRequests|, 0
    {
      inFlight := inFlight - 1;
      if ok {
        trace := trace + [Completed(active.value)];
      } else {
        trace := trace + [Error(active.value)];
      }
      if |wexRequests| > 0 {
        var next := wexRequests[0];
        wexRequests := wexRequests[1..];
        ExecuteRequest(next);
      } else {
        active := None;
      }
    }
  }
}
