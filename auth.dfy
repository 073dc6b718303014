/**
 * The authentication context: the provider's `user`, `session` and
 * `isLoading` state, the session fetch on mount, the auth-state event
 * handler, sign-in by e-mail link and sign-out, and the `useAuth` hook.
 * What the auth service replies is a parameter of each step.
 */
module Auth {
  import opened Wrappers
  import opened Ui

  datatype User = User(id: string, email: string)

  datatype Session = Session(user: User, accessToken: string)

  /** `session?.user || null`. */
  function UserOf(s: Option<Session>): Option<User> {
    if s.Some? then Some(s.value.user) else None
  }

  /** The three state variables the provider exposes. */
  datatype AuthState = AuthState(user: Option<User>, session: Option<Session>, isLoading: bool)

  /** The user is the session's user: every handler keeps the two in step. */
  predicate Consistent(a: AuthState) {
    a.user == UserOf(a.session)
  }

  /** The `onAuthStateChange` callback as a function of the state. */
  function OnAuthEvent(a: AuthState, event: string, s: Option<Session>): (r: AuthState)
    ensures r.isLoading == a.isLoading
    ensures event == "SIGNED_IN" || event == "TOKEN_REFRESHED" ==> r.session == s && r.user == UserOf(s)
    ensures event == "SIGNED_OUT" ==> r.session.None? && r.user.None?
    ensures event != "SIGNED_IN" && event != "TOKEN_REFRESHED" && event != "SIGNED_OUT" ==> r == a
  {
    if event == "SIGNED_IN" || event == "TOKEN_REFRESHED" then a.(session := s, user := UserOf(s))
    else if event == "SIGNED_OUT" then a.(session := None, user := None)
    else a
  }

  /** Every auth event keeps the user equal to the session's user. */
  lemma OnAuthEventKeepsConsistent(a: AuthState, event: string, s: Option<Session>)
    requires Consistent(a)
    ensures Consistent(OnAuthEvent(a, event, s))
  {
  }

  /** After a SIGNED_OUT event nobody is signed in, whatever came before it. */
  lemma SignedOutEndsSession(a: AuthState, event: string, s: Option<Session>, s': Option<Session>)
    ensures OnAuthEvent(OnAuthEvent(a, event, s), "SIGNED_OUT", s').user.None?
  {
  }

  /** What `supabase.auth.getSession()` resolves to. */
  datatype SessionReply = SessionData(session: Option<Session>) | SessionError(message: string)

  /** What `signInWithOtp` or `signOut` gives back: an `{ error }` object, or a thrown exception. */
  datatype AuthReply = Replied(error: Option<string>) | Threw

  /** The calls the provider makes to the auth service and the notifications it shows. */
  datatype Call = RequestMagicLink(email: string, redirectTo: string) | RequestSignOut | ShowToast(toast: Toast)

  /** The toast `signInWithEmail` shows for a reply. */
  function SignInToast(reply: AuthReply): Toast {
    match reply
    case Threw => Toast("Sign in failed", "An unexpected error occurred")
    case Replied(e) =>
      if e.Some? then Toast("Sign in failed", e.value) else Toast("Magic link sent!", "Check your email for the login link")
  }

  /** The toast `signOut` shows for a reply: none when the sign-out succeeds. */
  function SignOutToast(reply: AuthReply): Option<Toast> {
    match reply
    case Threw => Some(Toast("Sign out failed", "An unexpected error occurred"))
    case Replied(e) => if e.Some? then Some(Toast("Sign out failed", e.value)) else None
  }

  class AuthProvider {
    var user: Option<User>
    var session: Option<Session>
    var isLoading: bool
    var calls: seq<Call>

    function State(): AuthState
      reads this
    {
      AuthState(user, session, isLoading)
    }

    /** The provider mounts signed out and loading. */
    constructor ()
      ensures user.None? && session.None? && isLoading && calls == []
      ensures Consistent(State())
    {
      user, session, isLoading, calls := None, None, true, [];
    }

    /** `fetchSession`: adopt the fetched session unless the fetch failed; stop loading either way. */
    method FetchSession(reply: SessionReply)
      modifies this
      ensures !isLoading && calls == old(calls)
      ensures reply.SessionData? ==> session == reply.session && user == UserOf(reply.session)
      ensures reply.SessionError? ==> session == old(session) && user == old(user)
      ensures old(Consistent(State())) ==> Consistent(State())
    {
      if reply.SessionData? {
        session := reply.session;
        user := UserOf(reply.session);
      }
      isLoading := false;
    }

    /** The handler registered with `onAuthStateChange`. */
    method OnAuthStateChange(event: string, s: Option<Session>)
      modifies this
      ensures State() == OnAuthEvent(old(State()), event, s) && calls == old(calls)
    {
      if event == "SIGNED_IN" || event == "TOKEN_REFRESHED" {
        session := s;
        user := UserOf(s);
      } else if event == "SIGNED_OUT" {
        session := None;
        user := None;
      }
    }

    /** `signInWithEmail` up to its await: loading starts and the magic link is requested. */
    method BeginSignIn(email: string, origin: string)
      modifies this
      ensures isLoading && user == old(user) && session == old(session)
      ensures calls == old(calls) + [RequestMagicLink(email, origin)]
    {
      isLoading := true;
      calls := calls + [RequestMagicLink(email, origin)];
    }

    /** `signInWithEmail` after its await: a toast for the reply, then loading stops. */
    method FinishSignIn(reply: AuthReply)
      modifies this
      ensures !isLoading && user == old(user) && session == old(session)
      ensures calls == old(calls) + [ShowToast(SignInToast(reply))]
    {
      calls := calls + [ShowToast(SignInToast(reply))];
      isLoading := false;
    }

    /** `signOut` up to its await. */
    method BeginSignOut()
      modifies this
      ensures isLoading && user == old(user) && session == old(session)
      ensures calls == old(calls) + [RequestSignOut]
    {
      isLoading := true;
      calls := calls + [RequestSignOut];
    }

    /** `signOut` after its await. The user is not cleared here: only the SIGNED_OUT event clears it. */
    method FinishSignOut(reply: AuthReply)
      modifies this
      ensures !isLoading && user == old(user) && session == old(session)
      ensures var t := SignOutToast(reply);
              calls == old(calls) + (if t.Some? then [ShowToast(t.value)] else [])
    {
      var t := SignOutToast(reply);
      if t.Some? {
        calls := calls + [ShowToast(t.value)];
      }
      isLoading := false;
    }
  }

  /** `useAuth`: the context value inside a provider; outside one it throws. */
  function UseAuth(context: Option<AuthState>): (r: Result<AuthState>)
    ensures r.Failure? <==> context.None?
    ensures r.Failure? ==> r.error == "useAuth must be used within an AuthProvider"
    ensures r.Success? ==> r.value == context.value
  {
    if context.None? then Failure("useAuth must be used within an AuthProvider") else Success(context.value)
  }
}
