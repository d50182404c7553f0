/**
 * The permission gate: tools that require permission ask the user before
 * they run, unless the user already allowed the tool for the whole session.
 *
 * The Go service publishes a request on a channel and then waits on a
 * reply channel, both raced against context cancellation. Here the outcome
 * of that rendezvous is an input (`Rendezvous`); the requests the service
 * published are kept in a log, in the order they were sent.
 */
module Permission {

  /** The user's decision */
  datatype Response = Allow | Deny | AllowForSession

  /** A tool asking for permission; the description is the tool name */
  datatype Request = Request(toolName: string, description: string, input: string)

  /** How the exchange with the user ended */
  datatype Rendezvous =
    | CancelledBeforePublish        // the context was cancelled before the request was sent
    | Replied(response: Response)   // the user answered
    | CancelledWhileWaiting         // the request was sent, then the context was cancelled

  /** What one `Check` does: its answer, whether it sent a request, whether it grants the session */
  datatype Decision = Decision(response: Response, published: bool, grant: bool)

  /**
   * The decision `Check` takes, given whether the tool is already allowed
   * for the session and how the exchange with the user ends.
   */
  function Decide(allowed: bool, reply: Rendezvous): (d: Decision)
    // never hands AllowForSession back to the caller
    ensures d.response != AllowForSession
    // an allowlisted tool is allowed at once, without asking
    ensures allowed ==> d == Decision(Allow, false, false)
    // otherwise a request is sent unless the context was cancelled first
    ensures !allowed ==> (d.published <==> !reply.CancelledBeforePublish?)
    // cancellation, before or after sending, denies
    ensures !allowed && !reply.Replied? ==> d.response == Deny && !d.grant
    // only an AllowForSession reply extends the allowlist, and it allows
    ensures d.grant <==> !allowed && reply == Replied(AllowForSession)
    ensures d.grant ==> d.response == Allow
    // Allow and Deny replies are passed through
    ensures !allowed && reply.Replied? && reply.response != AllowForSession ==> d.response == reply.response
  {
    if allowed then Decision(Allow, false, false)
    else
      match reply
      case CancelledBeforePublish => Decision(Deny, false, false)
      case CancelledWhileWaiting => Decision(Deny, true, false)
      case Replied(resp) =>
        if resp == AllowForSession then Decision(Allow, true, true)
        else Decision(resp, true, false)
  }

  /** The service's state: the session allowlist and the requests sent so far */
  datatype PermState = PermState(sessionAllowed: map<string, bool>, requests: seq<Request>)

  /** A missing key reads as false, as a Go map of bools does */
  function Allowed(m: map<string, bool>, toolName: string): bool
  {
    toolName in m && m[toolName]
  }

  /** `Check` on a state: the response and the state afterwards */
  function CheckOn(st: PermState, toolName: string, input: string, reply: Rendezvous): (r: (Response, PermState))
    ensures r.0 == Decide(Allowed(st.sessionAllowed, toolName), reply).response
    ensures r.0 != AllowForSession
    // the allowlist only grows, and only by this tool
    ensures forall t :: Allowed(st.sessionAllowed, t) ==> Allowed(r.1.sessionAllowed, t)
    ensures forall t :: t != toolName ==> (Allowed(r.1.sessionAllowed, t) <==> Allowed(st.sessionAllowed, t))
    // the request log grows by at most this tool's request
    ensures r.1.requests == st.requests || r.1.requests == st.requests + [Request(toolName, toolName, input)]
  {
    var d := Decide(Allowed(st.sessionAllowed, toolName), reply);
    var allowlist := if d.grant then st.sessionAllowed[toolName := true] else st.sessionAllowed;
    var sent := if d.published then st.requests + [Request(toolName, toolName, input)] else st.requests;
    (d.response, PermState(allowlist, sent))
  }

  /** From one state to a later one: the allowlist only grows, and requests are only appended */
  ghost predicate Grows(before: PermState, after: PermState)
  {
    && (forall t :: Allowed(before.sessionAllowed, t) ==> Allowed(after.sessionAllowed, t))
    && |before.requests| <= |after.requests|
    && after.requests[..|before.requests|] == before.requests
  }

  lemma GrowsTransitive(a: PermState, b: PermState, c: PermState)
    requires Grows(a, b) && Grows(b, c)
    ensures Grows(a, c)
  {
    assert c.requests[..|a.requests|] == c.requests[..|b.requests|][..|a.requests|];
  }

  /** A check is such a step */
  lemma CheckOnGrows(st: PermState, toolName: string, input: string, reply: Rendezvous)
    ensures Grows(st, CheckOn(st, toolName, input, reply).1)
  {
  }

  /** Once the user allowed a tool for the session, the next check allows it without asking */
  lemma AllowForSessionSticks(st: PermState, toolName: string, input: string, input2: string, reply2: Rendezvous)
    requires !Allowed(st.sessionAllowed, toolName)
    ensures var (r1, st1) := CheckOn(st, toolName, input, Replied(AllowForSession));
            var (r2, st2) := CheckOn(st1, toolName, input2, reply2);
            r1 == Allow && r2 == Allow && st2 == st1 && |st1.requests| == |st.requests| + 1
  {
  }

  class Service {
    var sessionAllowed: map<string, bool>
    /** The requests published to the user interface, in order */
    var requests: seq<Request>

    function State(): PermState
      reads this
    {
      PermState(sessionAllowed, requests)
    }

    /** NewService */
    constructor ()
      ensures sessionAllowed == map[] && requests == []
    {
      sessionAllowed := map[];
      requests := [];
    }

    function IsAllowed(toolName: string): (b: bool)
      reads this
      ensures b <==> toolName in sessionAllowed && sessionAllowed[toolName]
    {
      Allowed(sessionAllowed, toolName)
    }

    method Check(toolName: string, input: string, reply: Rendezvous) returns (r: Response)
      modifies this
      ensures (r, State()) == CheckOn(old(State()), toolName, input, reply)
    {
      if toolName in sessionAllowed && sessionAllowed[toolName] {
        return Allow;
      }
      var req := Request(toolName, toolName, input);
      if reply.CancelledBeforePublish? {
        return Deny;
      }
      requests := requests + [req];
      if reply.CancelledWhileWaiting? {
        return Deny;
      }
      var resp := reply.response;
      if resp == AllowForSession {
        sessionAllowed := sessionAllowed[toolName := true];
        return Allow;
      }
      return resp;
    }

    /** Clears all session permissions */
    method Reset()
      modifies this
      ensures sessionAllowed == map[] && requests == old(requests)
      ensures forall t :: !IsAllowed(t)
    {
      sessionAllowed := map[];
    }
  }
}
