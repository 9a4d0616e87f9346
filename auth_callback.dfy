/** The OAuth callback route: it exchanges the code for a session, loads the
    user and their profile (creating a missing one), admits agents and
    `@vadoapp.com` addresses, signs everyone else out, and answers with a
    redirect. The replies of the auth service and the database arrive as
    parameters; the route's writes come back as a list of effects. */
module AuthCallback {
  import opened Wrappers
  import Text
  import Entities

  const AgentDomain := "@vadoapp.com"
  const DuplicateKeyCode := "23505"
  const NotAgentMessage := "Only real estate agents can access this dashboard. Please contact support if you believe this is an error."

  /** The signed-in user as `getUser` returns it. */
  datatype AuthUser = AuthUser(id: string, email: Option<string>, fullName: Option<string>, avatarUrl: Option<string>)

  /** The `profiles` row selected with `is_agent`. */
  datatype ProfileRow = ProfileRow(isAgent: Option<bool>)

  /** Everything the route reads: the query, the headers and environment,
      and the reply of each call it may make. */
  datatype Env = Env(
    origin: string, code: Option<string>, next: Option<string>,
    exchangeError: Option<string>,
    user: Option<AuthUser>, userError: bool,
    profile: Result<ProfileRow, Entities.DbError>,
    createError: Option<Entities.DbError>,
    forwardedHost: Option<string>, isDevelopment: bool)

  /** The row inserted for a user without a profile. */
  datatype ProfileInsert = ProfileInsert(id: string, fullName: string, email: Option<string>, isAgent: bool, avatarUrl: Option<string>)

  /** The route's writes, in order. */
  datatype Effect = ExchangeCode(code: string) | InsertProfile(row: ProfileInsert) | SignOut

  datatype CallbackError =
    | AuthCallbackError(message: string) | UserFetchError | ProfileCreationError
    | ProfileFetchError | NotAgent | NoCode

  /** The redirect: to the sign-in page with an error, or into the app at
      `base + path`. */
  datatype Redirect = ToSignIn(origin: string, error: CallbackError) | ToApp(base: string, path: string)

  datatype Response = Response(effects: seq<Effect>, redirect: Redirect)

  /** `searchParams.get("next") ?? "/"`: only a missing parameter falls back. */
  function NextPath(next: Option<string>): string {
    next.GetOr("/")
  }

  /** `user.email?.endsWith("@vadoapp.com") || false` */
  predicate IsAgentDomain(email: Option<string>) {
    email.Some? && Text.EndsWith(email.value, AgentDomain)
  }

  /** `full_name || email.split("@")[0] || "Agent"` */
  function NewProfileName(user: AuthUser): (name: string)
    ensures name != ""
    ensures user.fullName.Some? && user.fullName.value != "" ==> name == user.fullName.value
    ensures !(user.fullName.Some? && user.fullName.value != "") && user.email.Some? ==>
      var local := Text.BeforeFirst(user.email.value, '@');
      name == if local != "" then local else "Agent"
    ensures !(user.fullName.Some? && user.fullName.value != "") && user.email.None? ==> name == "Agent"
  {
    if user.fullName.Some? && user.fullName.value != "" then user.fullName.value
    else if user.email.Some? && Text.BeforeFirst(user.email.value, '@') != "" then Text.BeforeFirst(user.email.value, '@')
    else "Agent"
  }

  function NewProfile(user: AuthUser): (row: ProfileInsert)
    ensures row.id == user.id && row.email == user.email && row.fullName == NewProfileName(user)
    ensures row.isAgent <==> IsAgentDomain(user.email)
    ensures row.avatarUrl.Some? <==> user.avatarUrl.Some? && user.avatarUrl.value != ""
  {
    ProfileInsert(user.id, NewProfileName(user), user.email, IsAgentDomain(user.email),
      if user.avatarUrl.Some? && user.avatarUrl.value != "" then user.avatarUrl else None)
  }

  /** Where an admitted user is sent: the forwarded host over https when
      the header is set outside development, else the request's origin. */
  function AppRedirect(env: Env): (r: Redirect)
    ensures r.ToApp? && r.path == NextPath(env.next)
    ensures r.base == if env.forwardedHost.Some? && env.forwardedHost.value != "" && !env.isDevelopment
      then "https://" + env.forwardedHost.value else env.origin
  {
    if env.forwardedHost.Some? && env.forwardedHost.value != "" && !env.isDevelopment
    then ToApp("https://" + env.forwardedHost.value, NextPath(env.next))
    else ToApp(env.origin, NextPath(env.next))
  }

  /** `GET`, from the profile lookup on, for a user who was found. */
  function AfterUser(env: Env, user: AuthUser): Response {
    var isAgentDomain := IsAgentDomain(user.email);
    match env.profile
    case Failure(e) =>
      if e.code == Entities.NoRowsCode then
        var insert := InsertProfile(NewProfile(user));
        if env.createError.Some? && env.createError.value.code != DuplicateKeyCode then
          Response([insert], ToSignIn(env.origin, ProfileCreationError))
        else if isAgentDomain then Response([insert], ToApp(env.origin, NextPath(env.next)))
        else Response([insert, SignOut], ToSignIn(env.origin, NotAgent))
      else Response([], ToSignIn(env.origin, ProfileFetchError))
    case Success(profile) =>
      if profile.isAgent != Some(true) && !isAgentDomain then Response([SignOut], ToSignIn(env.origin, NotAgent))
      else Response([], AppRedirect(env))
  }

  /** A non-empty code was given, exchanged without error, and `getUser`
      returned a user: the point from which the profile decides. */
  predicate UserFound(env: Env) {
    env.code.Some? && env.code.value != "" && env.exchangeError.None? && !env.userError && env.user.Some?
  }

  /** The callback's decision: the full redirect table, error answers
      first, in the order the route returns them. */
  function Callback(env: Env): (r: Response)
    ensures env.code.None? || env.code.value == "" ==> r == Response([], ToSignIn(env.origin, NoCode))
    ensures env.code.Some? && env.code.value != "" ==> |r.effects| >= 1 && r.effects[0] == ExchangeCode(env.code.value)
    ensures env.code.Some? && env.code.value != "" && env.exchangeError.Some? ==>
      r == Response([ExchangeCode(env.code.value)], ToSignIn(env.origin, AuthCallbackError(env.exchangeError.value)))
    ensures env.code.Some? && env.code.value != "" && env.exchangeError.None? && (env.userError || env.user.None?) ==>
      r == Response([ExchangeCode(env.code.value)], ToSignIn(env.origin, UserFetchError))
    ensures UserFound(env) && env.profile.Failure? && env.profile.error.code != Entities.NoRowsCode ==>
      r == Response([ExchangeCode(env.code.value)], ToSignIn(env.origin, ProfileFetchError))
    ensures UserFound(env) && env.profile.Failure? && env.profile.error.code == Entities.NoRowsCode ==>
      var inserted := [ExchangeCode(env.code.value), InsertProfile(NewProfile(env.user.value))];
      if env.createError.Some? && env.createError.value.code != DuplicateKeyCode then
        r == Response(inserted, ToSignIn(env.origin, ProfileCreationError))
      else if IsAgentDomain(env.user.value.email) then
        r == Response(inserted, ToApp(env.origin, NextPath(env.next)))
      else
        r == Response(inserted + [SignOut], ToSignIn(env.origin, NotAgent))
    ensures UserFound(env) && env.profile.Success? ==>
      if env.profile.value.isAgent != Some(true) && !IsAgentDomain(env.user.value.email) then
        r == Response([ExchangeCode(env.code.value), SignOut], ToSignIn(env.origin, NotAgent))
      else
        r == Response([ExchangeCode(env.code.value)], AppRedirect(env))
  {
    if env.code.None? || env.code.value == "" then Response([], ToSignIn(env.origin, NoCode))
    else
      var exchange := ExchangeCode(env.code.value);
      if env.exchangeError.Some? then Response([exchange], ToSignIn(env.origin, AuthCallbackError(env.exchangeError.value)))
      else if env.userError || env.user.None? then Response([exchange], ToSignIn(env.origin, UserFetchError))
      else
        var rest := AfterUser(env, env.user.value);
        Response([exchange] + rest.effects, rest.redirect)
  }

  /** Only an agent or an `@vadoapp.com` address gets into the app, and only
      after a successful exchange and user lookup. */
  lemma AppNeedsAgent(env: Env)
    requires Callback(env).redirect.ToApp?
    ensures env.exchangeError.None? && !env.userError && env.user.Some?
    ensures IsAgentDomain(env.user.value.email)
      || (env.profile.Success? && env.profile.value.isAgent == Some(true))
    ensures Callback(env).redirect.path == NextPath(env.next)
  {
  }

  /** Every "not an agent" answer comes right after a sign-out. */
  lemma NotAgentSignsOut(env: Env)
    requires Callback(env).redirect == ToSignIn(env.origin, NotAgent)
    ensures |Callback(env).effects| >= 2 && Callback(env).effects[|Callback(env).effects| - 1] == SignOut
    ensures env.user.Some? && !IsAgentDomain(env.user.value.email)
  {
  }

  /** A sign-out happens only together with the "not an agent" answer. */
  lemma SignOutMeansNotAgent(env: Env)
    requires SignOut in Callback(env).effects
    ensures Callback(env).redirect == ToSignIn(env.origin, NotAgent)
  {
  }

  /** A profile is inserted only when the lookup found no row, and then
      with the agent flag given by the address alone. */
  lemma InsertOnlyWhenMissing(env: Env, row: ProfileInsert)
    requires InsertProfile(row) in Callback(env).effects
    ensures env.profile.Failure? && env.profile.error.code == Entities.NoRowsCode
    ensures env.user.Some? && row == NewProfile(env.user.value)
    ensures row.isAgent <==> IsAgentDomain(env.user.value.email)
  {
  }

  /** A newly created `@vadoapp.com` profile is sent to the request's
      origin: the forwarded host is only honoured for existing profiles. */
  lemma NewProfileIgnoresForwardedHost(env: Env)
    requires env.code.Some? && env.code.value != "" && env.exchangeError.None? && !env.userError && env.user.Some?
    requires env.profile.Failure? && env.profile.error.code == Entities.NoRowsCode
    requires env.createError.None? && IsAgentDomain(env.user.value.email)
    ensures Callback(env).redirect == ToApp(env.origin, NextPath(env.next))
  {
  }

  /** The text of the error parameter. */
  function ErrorCode(e: CallbackError): string {
    match e
    case AuthCallbackError(_) => "auth_callback_error"
    case UserFetchError => "user_fetch_error"
    case ProfileCreationError => "profile_creation_error"
    case ProfileFetchError => "profile_fetch_error"
    case NotAgent => "not_agent"
    case NoCode => "no_code"
  }

  /** The text shown with an error, when the route sends one: the exchange
      error's own message, or the fixed "not an agent" notice. */
  function ErrorMessage(e: CallbackError): (m: Option<string>)
    ensures m.Some? <==> e.AuthCallbackError? || e.NotAgent?
    ensures e.AuthCallbackError? ==> m == Some(e.message)
    ensures e.NotAgent? ==> m == Some(NotAgentMessage)
  {
    match e
    case AuthCallbackError(message) => Some(message)
    case NotAgent => Some(NotAgentMessage)
    case _ => None
  }

  /** The redirect URL; `encode` stands for `encodeURIComponent`. */
  function Url(r: Redirect, encode: string -> string): (url: string)
    ensures r.ToApp? ==> url == r.base + r.path
    ensures r.ToSignIn? ==> Text.StartsWith(url, r.origin + "/signin?error=" + ErrorCode(r.error))
    ensures r.ToSignIn? && ErrorMessage(r.error).None? ==>
      url == r.origin + "/signin?error=" + ErrorCode(r.error)
    ensures r.ToSignIn? && ErrorMessage(r.error).Some? ==>
      url == r.origin + "/signin?error=" + ErrorCode(r.error) + "&message=" + encode(ErrorMessage(r.error).value)
  {
    match r
    case ToApp(base, path) => base + path
    case ToSignIn(origin, e) =>
      var head := origin + "/signin?error=" + ErrorCode(e);
      var tail := match e
        case AuthCallbackError(m) => "&message=" + encode(m)
        case NotAgent => "&message=" + encode(NotAgentMessage)
        case _ => "";
      assert (head + tail)[..|head|] == head;
      head + tail
  }
}
