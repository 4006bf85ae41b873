/**
 * The route gate of src/components/ProtectedRoute.tsx: a pure decision on
 * the provider's (loading, user) that shows a waiting view, redirects to the
 * entry page, or renders the protected children unchanged.
 */
module ProtectedRoute {
  import opened Wrappers
  import opened Auth

  /** What the gate renders; C stands for the protected children. */
  datatype View<C> =
    | LoadingView
    | Redirect(to: string, replace: bool)
    | Children(content: C)

  /** The entry page the gate sends signed-out visitors to. */
  const EntryPath: string := "/"

  function Gate<C>(loading: bool, user: Option<User>, children: C): (v: View<C>)
    ensures v.LoadingView? <==> loading
    ensures v.Redirect? <==> !loading && user.None?
    ensures v.Children? <==> !loading && user.Some?
    ensures v.Redirect? ==> v.to == EntryPath && v.replace
    ensures v.Children? ==> v.content == children
  {
    if loading then LoadingView
    else if user.None? then Redirect(EntryPath, true)
    else Children(children)
  }

  /** The gate reads only whether a user is present, not which one. */
  lemma GateIgnoresIdentity<C>(loading: bool, u1: User, u2: User, children: C)
    ensures Gate(loading, Some(u1), children) == Gate(loading, Some(u2), children)
  {
  }

  /** The gate on the provider's state after any sequence of arrivals. */
  function GateAfter<C>(events: seq<Event>, children: C): (v: View<C>) {
    var s := Run(Initial, events);
    Gate(s.loading, s.user, children)
  }

  /**
   * From mount, the gate waits exactly until the first listener event or
   * initial-check result, and it only renders the children while a session
   * holding the user is present.
   */
  lemma GateOverRun<C>(events: seq<Event>, children: C)
    ensures GateAfter(events, children).LoadingView? <==>
      forall i :: 0 <= i < |events| ==> !SettlesLoading(events[i])
    ensures GateAfter(events, children).Children? ==>
      Run(Initial, events).session.Some? &&
      Run(Initial, events).session.value.user == Run(Initial, events).user
  {
    RunLoading(Initial, events);
    RunConsistent(Initial, events);
  }

  /** Once the gate has stopped waiting, no later arrival makes it wait again. */
  lemma {:induction false} GateNeverWaitsAgain<C>(events: seq<Event>, later: seq<Event>, children: C)
    requires !GateAfter(events, children).LoadingView?
    ensures !GateAfter(events + later, children).LoadingView?
  {
    RunAppend(Initial, events, later);
    LoadingMonotone(Run(Initial, events), later);
  }
}
