/**
 * The authentication provider of src/hooks/useAuth.tsx: four pieces of
 * state (user, session, profile, loading) changed by four asynchronous
 * arrivals: the backend's auth-change listener, the result of the initial
 * session check, the completion of a profile fetch, and sign-out.
 *
 * The backend calls are not modelled; what they deliver is an input of the
 * handler that receives it.  Every transition is a pure function on
 * AuthState (used by the lemmas about arbitrary event sequences) and a
 * method of the class AuthProvider whose fields the handlers update.
 */
module Auth {
  import opened Wrappers

  /** A backend user; only its id is used by the provider. */
  datatype User = User(id: string)

  /** A backend session.  The source reads its user as `session?.user`. */
  datatype Session = Session(accessToken: string, user: Option<User>)

  /** The profile record the provider publishes. */
  datatype Profile = Profile(
    employeeId: string,
    role: string,
    name: string,
    profilePic: Option<string>,
    createdAt: Option<string>)

  /** The four state variables of AuthProvider. */
  datatype AuthState = AuthState(
    user: Option<User>,
    session: Option<Session>,
    profile: Option<Profile>,
    loading: bool)

  /** State at mount: nothing known yet, loading. */
  const Initial: AuthState := AuthState(None, None, None, true)

  /** `session?.user ?? null` */
  function UserOf(session: Option<Session>): (u: Option<User>)
    ensures u.Some? ==> session.Some? && session.value.user == u
    ensures session.Some? ==> u == session.value.user
  {
    match session
    case None => None
    case Some(s) => s.user
  }

  /** The user is always the current session's user (or null without one). */
  ghost predicate Consistent(s: AuthState) {
    s.user == UserOf(s.session)
  }

  // ---------------------------------------------------------------------
  // Profile fetch (fetchUserProfile)
  // ---------------------------------------------------------------------

  /** The row of the `profiles` query. */
  datatype ProfileRow = ProfileRow(employeeId: string, role: string, createdAt: Option<string>)

  /** The row of the `user_credentials` query; its name may be null. */
  datatype CredentialsRow = CredentialsRow(name: Option<string>)

  /** What a `maybeSingle()` query returns: an error, no row, or one row. */
  datatype Reply<+T> = QueryError | NoRow | Row(value: T)

  /**
   * How a profile fetch ended: an exception caught by its catch block, or the
   * replies of the two queries (the second one is only asked for when the
   * first returned a row; otherwise its reply is never looked at).
   */
  datatype FetchOutcome =
    | Thrown
    | Replied(profileReply: Reply<ProfileRow>, credentialsReply: Reply<CredentialsRow>)

  /** The placeholder name used when the credentials give none. */
  const UnknownName: string := "Unknown"

  /** `credentialsData?.name || 'Unknown'`: a missing row, a null name and an empty name all read as falsy. */
  function DisplayName(reply: Reply<CredentialsRow>): (name: string)
    ensures name != ""
    ensures (reply.Row? && reply.value.name.Some? && reply.value.name.value != "") ==> name == reply.value.name.value
    ensures !(reply.Row? && reply.value.name.Some? && reply.value.name.value != "") ==> name == UnknownName
  {
    match reply
    case Row(CredentialsRow(Some(n))) => if n != "" then n else UnknownName
    case _ => UnknownName
  }

  /**
   * The profile a fetch writes, or None when it returns without writing:
   * the profile query failed, found no row, the credentials query failed,
   * or an exception was thrown.
   */
  function FetchedProfile(outcome: FetchOutcome): (r: Option<Profile>)
    ensures r.None? <==>
      outcome.Thrown? ||
      !outcome.profileReply.Row? ||
      outcome.credentialsReply.QueryError?
    ensures r.Some? ==>
      var row := outcome.profileReply.value;
      r.value.employeeId == row.employeeId &&
      r.value.role == row.role &&
      r.value.createdAt == row.createdAt &&
      r.value.profilePic == None &&
      r.value.name == DisplayName(outcome.credentialsReply)
  {
    match outcome
    case Thrown => None
    case Replied(profileReply, credentialsReply) =>
      match profileReply
      case QueryError => None
      case NoRow => None
      case Row(row) =>
        if credentialsReply.QueryError? then None
        else Some(Profile(row.employeeId, row.role, DisplayName(credentialsReply), None, row.createdAt))
  }

  // ---------------------------------------------------------------------
  // Transitions on AuthState
  // ---------------------------------------------------------------------

  /** The id of the user whose profile a handler starts fetching, if any. */
  function FetchFor(session: Option<Session>): (id: Option<string>)
    ensures id.Some? <==> UserOf(session).Some?
    ensures id.Some? ==> id.value == UserOf(session).value.id
  {
    match UserOf(session)
    case None => None
    case Some(u) => Some(u.id)
  }

  /** The auth-change listener: new session and user, profile cleared when there is no user, loading off. */
  function OnAuthStateChange(s: AuthState, session: Option<Session>): (r: AuthState)
    ensures Consistent(r) && r.session == session
    ensures !r.loading
    ensures r.user.None? ==> r.profile.None?
    ensures r.user.Some? ==> r.profile == s.profile
  {
    var user := UserOf(session);
    AuthState(user, session, if user.Some? then s.profile else None, false)
  }

  /** The initial getSession result: new session and user, profile untouched, loading off. */
  function OnInitialSession(s: AuthState, session: Option<Session>): (r: AuthState)
    ensures Consistent(r) && r.session == session
    ensures !r.loading
    ensures r.profile == s.profile
  {
    AuthState(UserOf(session), session, s.profile, false)
  }

  /**
   * A profile fetch completes.  The result is written whatever the current
   * user is: the id the fetch was started for is not compared with it.
   */
  function OnProfileFetched(s: AuthState, userId: string, outcome: FetchOutcome): (r: AuthState)
    ensures r.user == s.user && r.session == s.session && r.loading == s.loading
    ensures FetchedProfile(outcome).None? ==> r.profile == s.profile
    ensures FetchedProfile(outcome).Some? ==> r.profile == FetchedProfile(outcome)
  {
    match FetchedProfile(outcome)
    case None => s
    case Some(p) => s.(profile := Some(p))
  }

  /** signOut, once the backend call has resolved: everything but loading cleared. */
  function OnSignOut(s: AuthState): (r: AuthState)
    ensures r.user.None? && r.session.None? && r.profile.None?
    ensures r.loading == s.loading
  {
    s.(user := None, session := None, profile := None)
  }

  /** The arrivals that drive the provider, in whatever order they come. */
  datatype Event =
    | AuthStateChanged(session: Option<Session>)
    | InitialSessionChecked(session: Option<Session>)
    | ProfileFetchCompleted(userId: string, outcome: FetchOutcome)
    | SignedOut

  /** The events whose handlers call setLoading(false). */
  predicate SettlesLoading(e: Event) {
    e.AuthStateChanged? || e.InitialSessionChecked?
  }

  /** The state after one arrival: it keeps the user tied to the session and turns loading off only for the listener and the initial check. */
  function Step(s: AuthState, e: Event): (r: AuthState)
    ensures Consistent(s) ==> Consistent(r)
    ensures r.loading <==> s.loading && !SettlesLoading(e)
  {
    match e
    case AuthStateChanged(session) => OnAuthStateChange(s, session)
    case InitialSessionChecked(session) => OnInitialSession(s, session)
    case ProfileFetchCompleted(userId, outcome) => OnProfileFetched(s, userId, outcome)
    case SignedOut => OnSignOut(s)
  }

  /** The state after the events arrive one after the other. */
  function Run(s: AuthState, events: seq<Event>): (r: AuthState)
    ensures Consistent(s) ==> Consistent(r)
    ensures !s.loading ==> !r.loading
    decreases |events|
  {
    if events == [] then s else Run(Step(s, events[0]), events[1..])
  }

  lemma {:induction false} RunSnoc(s: AuthState, events: seq<Event>, e: Event)
    ensures Run(s, events + [e]) == Step(Run(s, events), e)
    decreases |events|
  {
    if events == [] {
      assert events + [e] == [e];
    } else {
      assert (events + [e])[1..] == events[1..] + [e];
      RunSnoc(Step(s, events[0]), events[1..], e);
    }
  }

  lemma {:induction false} RunAppend(s: AuthState, first: seq<Event>, second: seq<Event>)
    ensures Run(s, first + second) == Run(Run(s, first), second)
    decreases |first|
  {
    if first == [] {
      assert first + second == second;
    } else {
      assert (first + second)[1..] == first[1..] + second;
      RunAppend(Step(s, first[0]), first[1..], second);
    }
  }

  // ---------------------------------------------------------------------
  // Properties over every sequence of events
  // ---------------------------------------------------------------------

  lemma StepConsistent(s: AuthState, e: Event)
    requires Consistent(s)
    ensures Consistent(Step(s, e))
  {
  }

  /** After any sequence of arrivals the user is the session's user; a user never exists without a session. */
  lemma {:induction false} RunConsistent(s: AuthState, events: seq<Event>)
    requires Consistent(s)
    ensures Consistent(Run(s, events))
    ensures Run(s, events).user.Some? ==> Run(s, events).session.Some?
    decreases |events|
  {
    if events != [] {
      StepConsistent(s, events[0]);
      RunConsistent(Step(s, events[0]), events[1..]);
    }
  }

  /** From mount, any run is consistent. */
  lemma InitialRunConsistent(events: seq<Event>)
    ensures Consistent(Run(Initial, events))
  {
    RunConsistent(Initial, events);
  }

  /** Every session the events deliver carries a user. */
  ghost predicate SessionsHaveUsers(events: seq<Event>) {
    forall i :: 0 <= i < |events| ==>
      match events[i]
      case AuthStateChanged(Some(sess)) => sess.user.Some?
      case InitialSessionChecked(Some(sess)) => sess.user.Some?
      case _ => true
  }

  /** A session and a user are both present or both absent. */
  ghost predicate Paired(s: AuthState) {
    s.session.Some? <==> s.user.Some?
  }

  /**
   * When every delivered session carries a user, session and user are set
   * and cleared together over any run.
   */
  lemma {:induction false} RunPaired(s: AuthState, events: seq<Event>)
    requires Consistent(s) && Paired(s) && SessionsHaveUsers(events)
    ensures Paired(Run(s, events))
    decreases |events|
  {
    if events != [] {
      var e := events[0];
      assert SessionsHaveUsers(events[1..]) by {
        forall i | 0 <= i < |events[1..]| ensures
          match events[1..][i]
          case AuthStateChanged(Some(sess)) => sess.user.Some?
          case InitialSessionChecked(Some(sess)) => sess.user.Some?
          case _ => true
        {
          assert events[1..][i] == events[i + 1];
        }
      }
      assert match e
        case AuthStateChanged(Some(sess)) => sess.user.Some?
        case InitialSessionChecked(Some(sess)) => sess.user.Some?
        case _ => true;
      RunPaired(Step(s, e), events[1..]);
    }
  }

  /** From mount, with sessions that carry users, session and user are both present or both absent. */
  lemma InitialRunPaired(events: seq<Event>)
    requires SessionsHaveUsers(events)
    ensures Run(Initial, events).session.Some? <==> Run(Initial, events).user.Some?
  {
    RunPaired(Initial, events);
  }

  /**
   * loading is still on after a run exactly when it was on before and no
   * listener event and no initial-check result arrived; nothing turns it
   * back on.
   */
  lemma {:induction false} RunLoading(s: AuthState, events: seq<Event>)
    ensures Run(s, events).loading <==>
      s.loading && forall i :: 0 <= i < |events| ==> !SettlesLoading(events[i])
    decreases |events|
  {
    if events != [] {
      RunLoading(Step(s, events[0]), events[1..]);
      assert forall i :: 1 <= i < |events| ==> events[i] == events[1..][i - 1];
    }
  }

  /** loading is monotone: once off it stays off. */
  lemma LoadingMonotone(s: AuthState, events: seq<Event>)
    requires !s.loading
    ensures !Run(s, events).loading
  {
    RunLoading(s, events);
  }

  /** Sign-out leaves every field but loading empty whatever came before. */
  lemma {:induction false} SignOutLast(s: AuthState, events: seq<Event>)
    ensures var r := Run(s, events + [SignedOut]);
      r.user.None? && r.session.None? && r.profile.None? && r.loading == Run(s, events).loading
  {
    RunSnoc(s, events, SignedOut);
  }

  /**
   * The stale write: a fetch started for a user who has since signed out
   * still publishes its profile, so a profile can exist with no user.
   */
  lemma {:induction false} StaleFetchRepopulates(s: AuthState, events: seq<Event>, userId: string, row: ProfileRow, name: string)
    requires name != ""
    ensures var outcome := Replied(Row(row), Row(CredentialsRow(Some(name))));
      var r := Run(s, events + [SignedOut, ProfileFetchCompleted(userId, outcome)]);
      r.user.None? && r.session.None? &&
      r.profile == Some(Profile(row.employeeId, row.role, name, None, row.createdAt))
  {
    var outcome := Replied(Row(row), Row(CredentialsRow(Some(name))));
    RunSnoc(s, events, SignedOut);
    RunSnoc(s, events + [SignedOut], ProfileFetchCompleted(userId, outcome));
    assert events + [SignedOut] + [ProfileFetchCompleted(userId, outcome)]
        == events + [SignedOut, ProfileFetchCompleted(userId, outcome)];
  }

  /**
   * The restored-session scenario: the initial check finds user u, its fetch
   * succeeds and the provider publishes u with the fetched profile.
   */
  lemma RestoredSessionScenario(token: string, u: User, row: ProfileRow, name: string)
    requires name != ""
    ensures var sess := Session(token, Some(u));
      var outcome := Replied(Row(row), Row(CredentialsRow(Some(name))));
      var r := Run(Initial, [InitialSessionChecked(Some(sess)), ProfileFetchCompleted(u.id, outcome)]);
      r == AuthState(Some(u), Some(sess), Some(Profile(row.employeeId, row.role, name, None, row.createdAt)), false)
  {
    var sess := Session(token, Some(u));
    var outcome := Replied(Row(row), Row(CredentialsRow(Some(name))));
    var events := [InitialSessionChecked(Some(sess)), ProfileFetchCompleted(u.id, outcome)];
    var s1 := Step(Initial, events[0]);
    assert events[1..][1..] == [];
    assert Run(Initial, events) == Run(Step(s1, events[1]), []);
  }

  /**
   * The initial check with no user does not clear a profile the listener
   * already published: profile can outlive user.
   */
  lemma NoSessionKeepsProfile(s: AuthState)
    requires s.profile.Some?
    ensures Step(s, InitialSessionChecked(None)).user.None?
    ensures Step(s, InitialSessionChecked(None)).profile == s.profile
  {
  }

  // ---------------------------------------------------------------------
  // The provider's state, updated in place
  // ---------------------------------------------------------------------

  class AuthProvider {
    var user: Option<User>
    var session: Option<Session>
    var profile: Option<Profile>
    var loading: bool

    function State(): (s: AuthState)
      reads this
    {
      AuthState(user, session, profile, loading)
    }

    ghost predicate Valid()
      reads this
    {
      Consistent(State())
    }

    /** useState(null) three times and useState(true). */
    constructor ()
      ensures Valid() && State() == Initial
    {
      user, session, profile, loading := None, None, None, true;
    }

    /** The onAuthStateChange callback; returns the id whose fetch it schedules. */
    method HandleAuthStateChange(newSession: Option<Session>) returns (fetch: Option<string>)
      requires Valid()
      modifies this
      ensures Valid()
      ensures State() == OnAuthStateChange(old(State()), newSession)
      ensures fetch == FetchFor(newSession)
    {
      session := newSession;
      user := UserOf(newSession);
      if user.Some? {
        fetch := Some(user.value.id);
      } else {
        fetch := None;
        profile := None;
      }
      loading := false;
    }

    /** The getSession().then callback; returns the id whose fetch it starts. */
    method HandleInitialSession(restored: Option<Session>) returns (fetch: Option<string>)
      requires Valid()
      modifies this
      ensures Valid()
      ensures State() == OnInitialSession(old(State()), restored)
      ensures fetch == FetchFor(restored)
    {
      session := restored;
      user := UserOf(restored);
      if user.Some? {
        fetch := Some(user.value.id);
      } else {
        fetch := None;
      }
      loading := false;
    }

    /** The end of fetchUserProfile(userId): early returns leave profile alone. */
    method HandleProfileFetched(userId: string, outcome: FetchOutcome)
      requires Valid()
      modifies this`profile
      ensures Valid()
      ensures State() == OnProfileFetched(old(State()), userId, outcome)
    {
      if outcome.Thrown? {
        return;
      }
      var profileReply := outcome.profileReply;
      if profileReply.QueryError? {
        return;
      }
      if profileReply.Row? {
        var row := profileReply.value;
        var credentialsReply := outcome.credentialsReply;
        if credentialsReply.QueryError? {
          return;
        }
        var name := UnknownName;
        if credentialsReply.Row? && credentialsReply.value.name.Some? && credentialsReply.value.name.value != "" {
          name := credentialsReply.value.name.value;
        }
        profile := Some(Profile(row.employeeId, row.role, name, None, row.createdAt));
      }
    }

    /** signOut after the backend call has resolved. */
    method SignOut()
      requires Valid()
      modifies this`user, this`session, this`profile
      ensures Valid()
      ensures State() == OnSignOut(old(State()))
    {
      user := None;
      session := None;
      profile := None;
    }

    /** Any arrival, dispatched to its handler. */
    method Handle(e: Event) returns (fetch: Option<string>)
      requires Valid()
      modifies this
      ensures Valid()
      ensures State() == Step(old(State()), e)
      ensures fetch == match e
        case AuthStateChanged(s) => FetchFor(s)
        case InitialSessionChecked(s) => FetchFor(s)
        case _ => None
    {
      fetch := None;
      match e
      case AuthStateChanged(s) => fetch := HandleAuthStateChange(s);
      case InitialSessionChecked(s) => fetch := HandleInitialSession(s);
      case ProfileFetchCompleted(id, outcome) => HandleProfileFetched(id, outcome);
      case SignedOut => SignOut();
    }

    /** The provider after a whole sequence of arrivals agrees with Run. */
    method HandleAll(events: seq<Event>)
      requires Valid()
      modifies this
      ensures Valid()
      ensures State() == Run(old(State()), events)
    {
      var i := 0;
      while i < |events|
        invariant 0 <= i <= |events|
        invariant Valid()
        invariant State() == Run(old(State()), events[..i])
      {
        RunSnoc(old(State()), events[..i], events[i]);
        assert events[..i + 1] == events[..i] + [events[i]];
        var _ := Handle(events[i]);
        i := i + 1;
      }
      assert events[..i] == events;
    }
  }
}
