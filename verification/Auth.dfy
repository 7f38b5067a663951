// The lock-guarded account state of `src/auth.rs` as values.
//
// Every write-lock section of the source is one `Event`; `Apply` is its effect. `Later`
// is the relation the whole protocol rests on: whatever sections run in between, the
// later state relates to the earlier one as `Later` says.
module Auth {
  import opened Wrappers
  import opened Text

  datatype AuthKind = TokenAuth | CookieAuth | ApiKeyAuth

  datatype AuthError =
    | Closed
    | SessionChanged
    | WrongKind
    | EmptyCredential
    | BadToken

  datatype Credentials =
    | Empty
    | ApiKey(key: string)
    | Tokens(token: string, tokenExp: real, refresh: string, refreshExp: real)
    | Cookies

  datatype Version = Version(session: nat, revision: nat)

  // What the source computes from token text, and its lower-casing, are opaque to the model.
  datatype Decoder = Decoder(
    expiry: string -> Option<real>,
    wallet: string -> Option<string>,
    lower: string -> string)

  datatype View = View(
    kind: AuthKind,
    credentials: Credentials,
    version: Version,
    identity: Option<string>,
    refreshLock: nat,          // which mutex instance serialises refreshes
    watchSession: nat,         // the value the session watch channel holds
    watchAuthenticated: bool,
    closed: bool)

  function Initial(kind: AuthKind): View {
    View(kind, Empty, Version(0, 0), None, 0, 0, false, false)
  }

  // ----- write-lock sections -----

  predicate Unchanged(old_: Credentials, oldIdentity: Option<string>, new_: Credentials, newIdentity: Option<string>) {
    match (old_, new_)
    case (ApiKey(a), ApiKey(b)) => a == b
    case (Cookies, Cookies) =>
      newIdentity.None? || oldIdentity.None? || newIdentity == oldIdentity
    case (Tokens(a, _, _, _), Tokens(b, _, _, _)) =>
      if oldIdentity.Some? && newIdentity.Some? then oldIdentity == newIdentity else a == b
    case _ => false
  }

  function Replace(s: View, credentials: Credentials, authenticated: bool, identity: Option<string>): View {
    if s.closed then s
    else
      var same := Unchanged(s.credentials, s.identity, credentials, identity);
      var session := if same then s.version.session else s.version.session + 1;
      s.(credentials := credentials,
         identity := if identity.Some? then identity else if same then s.identity else None,
         version := Version(session, s.version.revision + 1),
         refreshLock := if same then s.refreshLock else s.refreshLock + 1,
         watchSession := if same then s.watchSession else session,
         watchAuthenticated := authenticated)
  }

  // The end-of-session write shared by `close` and `clear_if_version`.
  function EndSession(s: View): View {
    s.(credentials := Empty,
       identity := None,
       version := Version(s.version.session + 1, s.version.revision + 1),
       watchSession := s.version.session + 1,
       watchAuthenticated := false)
  }

  function Close(s: View): View {
    if s.closed then s else EndSession(s).(closed := true)
  }

  predicate Clears(s: View, expected: Version) {
    !s.closed && s.version == expected
  }

  function ClearIfVersion(s: View, expected: Version): View {
    if Clears(s, expected) then EndSession(s) else s
  }

  function SetCookieIdentity(s: View, identity: string): View {
    if s.kind != CookieAuth || s.closed then s
    else if s.identity.Some? && s.identity.value != identity then
      s.(identity := Some(identity),
         version := Version(s.version.session + 1, s.version.revision + 1),
         watchSession := s.version.session + 1,
         watchAuthenticated := s.credentials.Cookies?)
    else s.(identity := Some(identity))
  }

  datatype TokenPair = TokenPair(token: string, tokenExp: real, refresh: string, refreshExp: real)

  // The final write section of `renew_token`, after a well-formed success response.
  function CommitRenewal(d: Decoder, s: View, expected: Version, pair: TokenPair): View {
    if s.closed || s.version != expected then s
    else
      var next := d.wallet(pair.token);
      var moved := s.identity.Some? && next.Some? && s.identity != next;
      var session := if moved then s.version.session + 1 else s.version.session;
      s.(identity := if next.Some? then next else s.identity,
         credentials := Tokens(pair.token, pair.tokenExp, pair.refresh, pair.refreshExp),
         version := Version(session, s.version.revision + 1),
         refreshLock := if moved then s.refreshLock + 1 else s.refreshLock,
         watchSession := if moved then session else s.watchSession,
         watchAuthenticated := true)
  }

  function LoginTokens(d: Decoder, s: View, token: string, refresh: string, now: real): Result<View, AuthError> {
    if s.kind != TokenAuth then Err(WrongKind)
    else if token == "" || refresh == "" then Err(EmptyCredential)
    else if d.expiry(token).None? || d.expiry(refresh).None? then Err(BadToken)
    else if s.closed then Err(Closed)
    else
      var refreshExp := d.expiry(refresh).value;
      Ok(Replace(s, Tokens(token, d.expiry(token).value, refresh, refreshExp), refreshExp > now, d.wallet(token)))
  }

  function LoginApiKey(d: Decoder, s: View, key: string): Result<View, AuthError> {
    if s.kind != ApiKeyAuth then Err(WrongKind)
    else if Trim(key) == "" then Err(EmptyCredential)
    else if s.closed then Err(Closed)
    else Ok(Replace(s, ApiKey(Trim(key)), true, None))
  }

  function LoginCookies(s: View): Result<View, AuthError> {
    if s.kind != CookieAuth then Err(WrongKind)
    else if s.closed then Err(Closed)
    else Ok(Replace(s, Cookies, true, None))
  }

  function OrElse(r: Result<View, AuthError>, s: View): View {
    match r case Ok(v) => v case Err(_) => s
  }

  // ----- reads -----

  // `RequestSession::check` for a session handle with number `id`.
  function Check(s: View, id: nat): Result<(), AuthError> {
    if s.closed then Err(Closed)
    else if s.watchSession != id then Err(SessionChanged)
    else Ok(())
  }

  predicate IsAuthenticated(d: Decoder, s: View, now: real) {
    !s.closed &&
    match s.credentials
    case ApiKey(key) => Trim(key) != ""
    case Tokens(_, _, refresh, refreshExp) => refresh != "" && refreshExp > now
    case Cookies => true
    case Empty => false
  }

  // ----- events and runs -----

  datatype Event =
    | TokenLogin(token: string, refresh: string, now: real)
    | ApiKeyLogin(key: string)
    | CookieLogin
    | CookieIdentity(identity: string)
    | Logout
    | Shutdown
    | Reject(expected: Version)
    | Renew(expected: Version, pair: TokenPair)

  function Apply(d: Decoder, s: View, e: Event): View {
    match e
    case TokenLogin(t, r, now) => OrElse(LoginTokens(d, s, t, r, now), s)
    case ApiKeyLogin(key) => OrElse(LoginApiKey(d, s, key), s)
    case CookieLogin => OrElse(LoginCookies(s), s)
    case CookieIdentity(identity) => SetCookieIdentity(s, d.lower(identity))
    case Logout => Replace(s, Empty, false, None)
    case Shutdown => Close(s)
    case Reject(expected) => ClearIfVersion(s, expected)
    case Renew(expected, pair) => CommitRenewal(d, s, expected, pair)
  }

  function After(d: Decoder, s: View, events: seq<Event>): View {
    if events == [] then s
    else Apply(d, After(d, s, events[..|events| - 1]), events[|events| - 1])
  }

  // ----- what every section keeps -----

  predicate Consistent(d: Decoder, s: View) {
    && s.watchSession == s.version.session
    && s.version.session <= s.version.revision
    && (s.closed ==> s.credentials == Empty && s.identity == None)
    && (s.credentials.Tokens? ==> s.kind == TokenAuth)
    && (s.credentials.ApiKey? ==> s.kind == ApiKeyAuth)
    && (s.credentials.Cookies? ==> s.kind == CookieAuth)
    // A stored token that names a wallet names the session's identity.
    && (s.credentials.Tokens? && d.wallet(s.credentials.token).Some? ==>
          s.identity == d.wallet(s.credentials.token))
    && (s.kind != CookieAuth && s.credentials.Empty? ==> s.identity == None)
  }

  // Credentials that can belong to one session: tokens may rotate, nothing else may move.
  predicate SameAccount(a: Credentials, b: Credentials) {
    match a
    case Empty => b.Empty?
    case ApiKey(_) => a == b
    case Tokens(_, _, _, _) => b.Tokens?
    case Cookies => b.Cookies?
  }

  predicate Later(a: View, b: View) {
    && a.kind == b.kind
    && a.version.session <= b.version.session
    && a.version.revision <= b.version.revision
    && a.refreshLock <= b.refreshLock
    && (a.version.revision == b.version.revision ==>
          a.version == b.version && a.credentials == b.credentials && a.closed == b.closed)
    && (a.version.session == b.version.session ==>
          && SameAccount(a.credentials, b.credentials)
          && a.refreshLock == b.refreshLock
          && a.closed == b.closed
          && (a.identity.Some? ==> b.identity == a.identity))
    && (a.closed ==> a == b)
  }

  lemma LaterTransitive(a: View, b: View, c: View)
    requires Later(a, b) && Later(b, c)
    ensures Later(a, c)
  {
  }

  // A renewal commits only under a version that was read with token credentials stored.
  predicate Permitted(s: View, e: Event) {
    e.Renew? && e.expected == s.version ==> s.credentials.Tokens?
  }

  // One section from any consistent state.
  lemma ApplyKeeps(d: Decoder, s: View, e: Event)
    requires Consistent(d, s) && Permitted(s, e)
    ensures Consistent(d, Apply(d, s, e))
    ensures Later(s, Apply(d, s, e))
  {
  }

  // ----- whole runs -----

  // The state after the first `i` events of a run of a client of the given kind.
  function At(d: Decoder, kind: AuthKind, events: seq<Event>, i: nat): View
    requires i <= |events|
  {
    After(d, Initial(kind), events[..i])
  }

  // `renew_token` commits under a version it read while token credentials were stored.
  ghost predicate Issued(d: Decoder, kind: AuthKind, events: seq<Event>, j: nat, version: Version)
    requires j <= |events|
  {
    var s := At(d, kind, events, j);
    s.version == version && s.credentials.Tokens?
  }

  ghost predicate IsRun(d: Decoder, kind: AuthKind, events: seq<Event>) {
    forall i | 0 <= i < |events| && events[i].Renew? ::
      exists j: nat | j <= i :: Issued(d, kind, events, j, events[i].expected)
  }

  lemma AtStep(d: Decoder, kind: AuthKind, events: seq<Event>, i: nat)
    requires i < |events|
    ensures At(d, kind, events, i + 1) == Apply(d, At(d, kind, events, i), events[i])
  {
    assert events[..i + 1][..i] == events[..i];
  }

  lemma StillPermitted(issued: View, s: View, e: Event)
    requires Later(issued, s) && e.Renew? && issued.version == e.expected && issued.credentials.Tokens?
    ensures Permitted(s, e)
  {
  }

  // Every state of every run is consistent, and is `Later` than every state before it.
  lemma {:induction false} RunKeeps(d: Decoder, kind: AuthKind, events: seq<Event>, i: nat, j: nat)
    requires IsRun(d, kind, events) && i <= j <= |events|
    ensures Consistent(d, At(d, kind, events, j))
    ensures Later(At(d, kind, events, i), At(d, kind, events, j))
    decreases j
  {
    if j > 0 {
      var e := events[j - 1];
      var before := At(d, kind, events, j - 1);
      AtStep(d, kind, events, j - 1);
      RunKeeps(d, kind, events, if i < j then i else j - 1, j - 1);
      if e.Renew? && e.expected == before.version {
        var k: nat :| k <= j - 1 && Issued(d, kind, events, k, e.expected);
        RunKeeps(d, kind, events, k, j - 1);
        StillPermitted(At(d, kind, events, k), before, e);
      }
      ApplyKeeps(d, before, e);
      if i < j {
        LaterTransitive(At(d, kind, events, i), before, At(d, kind, events, j));
      }
    }
  }

  // In a run every event finds the state it may act on: the version compare-and-set is
  // what makes `Permitted` hold.
  lemma RunPermits(d: Decoder, kind: AuthKind, events: seq<Event>, i: nat)
    requires IsRun(d, kind, events) && i < |events|
    ensures Permitted(At(d, kind, events, i), events[i])
  {
    if events[i].Renew? {
      var k: nat :| k <= i && Issued(d, kind, events, k, events[i].expected);
      RunKeeps(d, kind, events, k, i);
    }
  }

  // One session number never names two identities, and an identity is not lost while
  // its session lasts.
  lemma SessionHasOneIdentity(d: Decoder, kind: AuthKind, events: seq<Event>, i: nat, j: nat)
    requires IsRun(d, kind, events) && i <= |events| && j <= |events|
    requires At(d, kind, events, i).version.session == At(d, kind, events, j).version.session
    ensures var a, b := At(d, kind, events, i).identity, At(d, kind, events, j).identity;
            a.Some? && b.Some? ==> a == b
    ensures i <= j && At(d, kind, events, i).identity.Some? ==>
              At(d, kind, events, j).identity == At(d, kind, events, i).identity
  {
    if i <= j { RunKeeps(d, kind, events, i, j); } else { RunKeeps(d, kind, events, j, i); }
  }

  // The wallet named by any token stored during a session is the session's one identity.
  lemma SessionHasOneWallet(d: Decoder, kind: AuthKind, events: seq<Event>, i: nat, j: nat)
    requires IsRun(d, kind, events) && i <= |events| && j <= |events|
    requires At(d, kind, events, i).version.session == At(d, kind, events, j).version.session
    ensures var a, b := At(d, kind, events, i).credentials, At(d, kind, events, j).credentials;
            && (a.Tokens? && b.Tokens? && d.wallet(a.token).Some? && d.wallet(b.token).Some? ==>
                  d.wallet(a.token) == d.wallet(b.token))
            && (a.ApiKey? ==> b == a)
            && (a.Empty? <==> b.Empty?)
  {
    RunKeeps(d, kind, events, i, i);
    RunKeeps(d, kind, events, j, j);
    SessionHasOneIdentity(d, kind, events, i, j);
    if i <= j { RunKeeps(d, kind, events, i, j); } else { RunKeeps(d, kind, events, j, i); }
  }

  lemma EqualVersionEqualCredentials(d: Decoder, kind: AuthKind, events: seq<Event>, i: nat, j: nat)
    requires IsRun(d, kind, events) && i <= |events| && j <= |events|
    requires At(d, kind, events, i).version == At(d, kind, events, j).version
    ensures At(d, kind, events, i).credentials == At(d, kind, events, j).credentials
    ensures At(d, kind, events, i).closed == At(d, kind, events, j).closed
  {
    if i <= j { RunKeeps(d, kind, events, i, j); } else { RunKeeps(d, kind, events, j, i); }
  }

  // The watch channel mirrors the state, versions never go back, and close is final.
  lemma WatchVersionsAndClose(d: Decoder, kind: AuthKind, events: seq<Event>, i: nat, j: nat)
    requires IsRun(d, kind, events) && i <= j <= |events|
    ensures var a, b := At(d, kind, events, i), At(d, kind, events, j);
            && b.watchSession == b.version.session
            && a.version.session <= b.version.session
            && a.version.revision <= b.version.revision
            && (a.closed ==> b == a && b.credentials.Empty?)
  {
    RunKeeps(d, kind, events, i, j);
  }

  // ----- what is stored and announced -----

  // A renewal's expiries were read from its own tokens.
  predicate Genuine(d: Decoder, e: Event) {
    e.Renew? ==> d.expiry(e.pair.token) == Some(e.pair.tokenExp) && d.expiry(e.pair.refresh) == Some(e.pair.refreshExp)
  }

  predicate Stated(d: Decoder, s: View) {
    && (s.credentials.Tokens? ==>
          d.expiry(s.credentials.token) == Some(s.credentials.tokenExp) &&
          d.expiry(s.credentials.refresh) == Some(s.credentials.refreshExp))
    && (s.credentials.ApiKey? ==> Trim(s.credentials.key) != "" && s.kind == ApiKeyAuth)
    && (s.credentials.Empty? ==> !s.watchAuthenticated)
    && (s.credentials.ApiKey? || s.credentials.Cookies? ==> s.watchAuthenticated)
  }

  // Stored expiries are those of the stored tokens, and the watch channel announces an
  // account exactly while there is one; tokens may be announced expired.
  lemma {:induction false} StoredAndAnnounced(d: Decoder, kind: AuthKind, events: seq<Event>)
    requires forall i | 0 <= i < |events| :: Genuine(d, events[i])
    ensures forall k: nat | k <= |events| :: Stated(d, At(d, kind, events, k))
  {
    if events != [] {
      var before := events[..|events| - 1];
      StoredAndAnnounced(d, kind, before);
      assert Stated(d, At(d, kind, before, |before|)) && before[..|before|] == before;
      StatedKept(d, After(d, Initial(kind), before), events[|events| - 1]);
      forall k: nat | k <= |events|
        ensures Stated(d, At(d, kind, events, k))
      {
        assert k < |events| ==> before[..k] == events[..k] && At(d, kind, before, k) == At(d, kind, events, k);
        assert k == |events| ==> events[..k] == events;
      }
    }
  }

  lemma StatedKept(d: Decoder, s: View, e: Event)
    requires Stated(d, s) && Genuine(d, e)
    ensures Stated(d, Apply(d, s, e))
  {
    if e.ApiKeyLogin? {
      TrimTwice(e.key);
    }
  }

  // A client is closed exactly when it was shut down.
  lemma {:induction false} ClosedExactlyWhen(d: Decoder, kind: AuthKind, events: seq<Event>)
    ensures After(d, Initial(kind), events).closed <==> exists i :: 0 <= i < |events| && events[i].Shutdown?
  {
    if events != [] {
      var before, last := events[..|events| - 1], events[|events| - 1];
      ClosedExactlyWhen(d, kind, before);
      assert last.Shutdown? ==> events[|events| - 1].Shutdown?;
    }
  }

  // What `is_authenticated` answers in any state of a run: as the stored credentials say,
  // tokens only while the refresh token lives.
  lemma AuthenticatedExactly(d: Decoder, kind: AuthKind, events: seq<Event>, now: real)
    requires forall i | 0 <= i < |events| :: Genuine(d, events[i])
    requires IsRun(d, kind, events)
    ensures var s := After(d, Initial(kind), events);
            IsAuthenticated(d, s, now) <==>
              match s.credentials
              case ApiKey(_) => true
              case Cookies => true
              case Tokens(_, _, refresh, refreshExp) => refresh != "" && refreshExp > now
              case Empty => false
  {
    StoredAndAnnounced(d, kind, events);
    assert events[..|events|] == events && Stated(d, At(d, kind, events, |events|));
    RunKeeps(d, kind, events, |events|, |events|);
  }

  // A key or cookie login is accepted exactly for its kind on an open client, a key only if
  // it is not blank; the trimmed key, or the cookie jar, is then what is stored.
  lemma OtherLoginsExactly(d: Decoder, s: View, key: string)
    ensures (LoginApiKey(d, s, key).Ok? <==> s.kind == ApiKeyAuth && !s.closed && Trim(key) != "") &&
            (LoginApiKey(d, s, key).Ok? ==> LoginApiKey(d, s, key).value.credentials == ApiKey(Trim(key)))
    ensures (LoginCookies(s).Ok? <==> s.kind == CookieAuth && !s.closed) &&
            (LoginCookies(s).Ok? ==> LoginCookies(s).value.credentials == Cookies)
  {
  }

  // What the other events leave, where they take effect: an ended session is empty, a
  // renewed one holds the new pair, and refreshes queue on a new mutex exactly when a login,
  // sign-out or renewal opened a new session.
  lemma EventsLeave(d: Decoder, s: View, e: Event)
    requires Consistent(d, s) && Permitted(s, e)
    ensures var t := Apply(d, s, e);
            && (e.Logout? || e.Shutdown? || (e.Reject? && t != s) ==> t.credentials == Empty && t.identity == None)
            && (e.Renew? && t != s ==>
                  t.credentials == Tokens(e.pair.token, e.pair.tokenExp, e.pair.refresh, e.pair.refreshExp) &&
                  t.watchAuthenticated)
            && (t.refreshLock != s.refreshLock <==>
                  t.version.session != s.version.session && !e.CookieIdentity? && !e.Shutdown? && !e.Reject?)
            && t.refreshLock <= s.refreshLock + 1
  {
  }

  // A token login that is accepted is announced as authenticated exactly when it is.
  lemma TokenLoginAnnounced(d: Decoder, s: View, token: string, refresh: string, now: real)
    ensures var r := LoginTokens(d, s, token, refresh, now);
            (r.Ok? <==> s.kind == TokenAuth && !s.closed && token != "" && refresh != "" &&
                        d.expiry(token).Some? && d.expiry(refresh).Some?) &&
            (r.Ok? ==>
               r.value.credentials.Tokens? && r.value.credentials.token == token && r.value.credentials.refresh == refresh &&
               r.value.watchAuthenticated == IsAuthenticated(d, r.value, now))
  {
  }

  // Whether the stored credentials already belong to whoever the event names.
  predicate SameHolder(d: Decoder, s: View, e: Event) {
    match e
    case TokenLogin(token, _, _) =>
      s.credentials.Tokens? &&
      (if s.identity.Some? && d.wallet(token).Some? then s.identity == d.wallet(token) else s.credentials.token == token)
    case ApiKeyLogin(key) => s.credentials == ApiKey(Trim(key))
    case CookieLogin => s.credentials.Cookies?
    case CookieIdentity(identity) => s.identity.None? || s.identity == Some(d.lower(identity))
    case Renew(_, pair) => s.identity.None? || d.wallet(pair.token).None? || s.identity == d.wallet(pair.token)
    case _ => false
  }

  // An event opens a new session exactly when it takes effect and names another holder than
  // the stored one: renewing or signing in again for the same wallet keeps the session.
  lemma SessionMovesExactlyWhen(d: Decoder, s: View, e: Event)
    requires Consistent(d, s) && Permitted(s, e)
    ensures var t := Apply(d, s, e);
            (t.version.session == s.version.session <==> t == s || SameHolder(d, s, e)) &&
            (t.version.session != s.version.session ==> t.version.session == s.version.session + 1) &&
            (e.CookieIdentity? && s.kind == CookieAuth && !s.closed ==> t.identity == Some(d.lower(e.identity))) &&
            (e.TokenLogin? && t != s && d.wallet(e.token).Some? ==> t.identity == d.wallet(e.token))
  {
  }

  // ----- compare-and-set -----

  // The event takes effect on the strength of the version it carries.
  predicate Consumes(s: View, e: Event, version: Version) {
    (e.Reject? || e.Renew?) && e.expected == version && Clears(s, version)
  }

  // A refresh snapshot is consumed at most once, whichever way it is consumed.
  lemma ConsumedOnce(d: Decoder, kind: AuthKind, events: seq<Event>, i: nat, j: nat, version: Version)
    requires IsRun(d, kind, events) && i < j < |events|
    requires Consumes(At(d, kind, events, i), events[i], version)
    ensures !Consumes(At(d, kind, events, j), events[j], version)
  {
    AtStep(d, kind, events, i);
    RunKeeps(d, kind, events, i + 1, j);
  }

  // A response that arrives after its snapshot was superseded changes nothing; one that
  // still matches moves the version, so it is never mistaken for a late one afterwards.
  lemma LateResponseChangesNothing(d: Decoder, s: View, e: Event, version: Version)
    requires (e.Reject? || e.Renew?) && e.expected == version
    ensures Apply(d, s, e) == s <==> !Consumes(s, e, version)
  {
  }
}
