/** Role resolution and the session state every page reads: the signed-in
    user, the resolved user type and whether the first session lookup is still
    outstanding. */
module Auth {
  import opened Wrappers

  /** The one address that is always resolved to the administrator role. */
  const AdminEmail: string := "admin@gmail.com"

  /** A signed-in account as the identity provider reports it; the
      `user_type` metadata is free text written at sign-up. */
  datatype User = User(id: string, email: string, metadataUserType: Option<string>)

  /** `getUserType`: the administrator address wins; otherwise the metadata
      value if it is present and non-empty, unvalidated; otherwise "user". */
  function GetUserType(email: string, metadataUserType: Option<string>): (t: string)
    ensures t != ""
    ensures email == AdminEmail ==> t == "admin"
    ensures email != AdminEmail && metadataUserType.Some? && metadataUserType.value != "" ==>
              t == metadataUserType.value
    ensures email != AdminEmail && (metadataUserType.None? || metadataUserType.value == "") ==> t == "user"
  {
    if email == AdminEmail then "admin"
    else if metadataUserType.Some? && metadataUserType.value != "" then metadataUserType.value
    else "user"
  }

  /** The administrator role goes to the administrator address whatever the
      metadata says, but also to any account whose metadata says "admin". */
  lemma AdminResolution(email: string, md: Option<string>)
    ensures GetUserType(email, md) == "admin" <==> email == AdminEmail || md == Some("admin")
    ensures GetUserType(AdminEmail, md) == "admin"
    ensures email != AdminEmail ==> GetUserType(email, Some("guest")) == "guest"
  {
  }

  /** The role of a signed-in account. */
  function UserTypeOf(u: User): string {
    GetUserType(u.email, u.metadataUserType)
  }

  /** The role depends on nothing but the e-mail and the metadata value. */
  lemma UserTypeDependsOnEmailAndMetadata(u: User, v: User)
    requires u.email == v.email && u.metadataUserType == v.metadataUserType
    ensures UserTypeOf(u) == UserTypeOf(v)
  {
  }

  /** What the context provides. */
  datatype AuthState = AuthState(user: Option<User>, userType: Option<string>, loading: bool)

  /** Before the first session lookup has returned. */
  const InitialState: AuthState := AuthState(None, None, true)

  /** The handler shared by the initial lookup and every auth-state change:
      take the session's user, resolve its role (none without a user) and
      stop loading. The previous state plays no part. */
  function OnSession(prev: AuthState, session: Option<User>): (s: AuthState)
    ensures !s.loading && s.user == session
    ensures s.userType.Some? <==> session.Some?
    ensures session.Some? ==> s.userType == Some(UserTypeOf(session.value))
  {
    AuthState(session, if session.Some? then Some(UserTypeOf(session.value)) else None, false)
  }

  /** The handler does not look at the state it replaces. */
  lemma OnSessionIgnoresPrevious(a: AuthState, b: AuthState, session: Option<User>)
    ensures OnSession(a, session) == OnSession(b, session)
  {
  }

  /** The state after the initial lookup and the later notifications, handled
      one at a time in arrival order. */
  function AfterSessions(s: AuthState, sessions: seq<Option<User>>): AuthState
    decreases |sessions|
  {
    if |sessions| == 0 then s else AfterSessions(OnSession(s, sessions[0]), sessions[1..])
  }

  /** The context reflects the last session seen and nothing earlier; until a
      session has been seen it is still loading. */
  lemma {:induction false} LastSessionWins(s: AuthState, sessions: seq<Option<User>>)
    requires |sessions| > 0
    ensures AfterSessions(s, sessions) == OnSession(InitialState, sessions[|sessions| - 1])
    decreases |sessions|
  {
    if |sessions| > 1 {
      LastSessionWins(OnSession(s, sessions[0]), sessions[1..]);
    }
  }

  /** Once loading has finished, a user is present exactly when a role is,
      and the role is never empty. */
  predicate Settled(s: AuthState) {
    && !s.loading
    && (s.user.Some? <==> s.userType.Some?)
    && (s.userType.Some? ==> s.userType.value != "")
  }

  lemma {:induction false} SessionsSettle(sessions: seq<Option<User>>)
    ensures |sessions| == 0 ==> AfterSessions(InitialState, sessions).loading
    ensures |sessions| > 0 ==> Settled(AfterSessions(InitialState, sessions))
  {
    if |sessions| > 0 {
      LastSessionWins(InitialState, sessions);
    }
  }
}
