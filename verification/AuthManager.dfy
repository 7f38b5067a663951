// `AuthManager` as the source writes it: one object whose methods update its fields inside
// a write-lock section. Each method is proved to be the value-level section of `Auth`, so
// everything proved there about runs holds of this object.
module AuthManager {
  import opened Wrappers
  import opened Auth
  import opened Text

  class Manager {
    const kind: AuthKind
    const decoder: Decoder
    var credentials: Credentials
    var version: Version
    var identity: Option<string>
    var refreshLock: nat
    var sessions: nat             // the session watch channel
    var updates: bool             // the authenticated watch channel
    var closed: bool

    ghost function State(): View
      reads this
    {
      View(kind, credentials, version, identity, refreshLock, sessions, updates, closed)
    }

    constructor (kind: AuthKind, decoder: Decoder)
      ensures State() == Initial(kind) && Consistent(decoder, State())
    {
      this.kind, this.decoder := kind, decoder;
      credentials, version, identity := Empty, Version(0, 0), None;
      refreshLock, sessions, updates, closed := 0, 0, false, false;
    }

    method Replace(next: Credentials, authenticated: bool, nextIdentity: Option<string>)
      returns (r: Result<(), AuthError>)
      modifies this
      ensures State() == Auth.Replace(old(State()), next, authenticated, nextIdentity)
      ensures r == if old(closed) then Err(Closed) else Ok(())
    {
      if closed {
        return Err(Closed);
      }
      var same := Unchanged(credentials, identity, next, nextIdentity);
      credentials := next;
      if nextIdentity.Some? {
        identity := nextIdentity;
      } else if !same {
        identity := None;
      }
      if !same {
        version := version.(session := version.session + 1);
        refreshLock := refreshLock + 1;
        sessions := version.session;
      }
      version := version.(revision := version.revision + 1);
      updates := authenticated;
      return Ok(());
    }

    method AuthenticateApiKey(key: string) returns (r: Result<(), AuthError>)
      modifies this
      ensures var was := LoginApiKey(decoder, old(State()), key);
              State() == OrElse(was, old(State())) && (r.Ok? <==> was.Ok?) && (was.Err? ==> r == Err(was.error))
    {
      if kind != ApiKeyAuth {
        return Err(WrongKind);
      }
      var trimmed := Trim(key);
      if trimmed == "" {
        return Err(EmptyCredential);
      }
      r := Replace(ApiKey(trimmed), true, None);
    }

    method AuthenticateCookies() returns (r: Result<(), AuthError>)
      modifies this
      ensures var was := LoginCookies(old(State()));
              State() == OrElse(was, old(State())) && (r.Ok? <==> was.Ok?) && (was.Err? ==> r == Err(was.error))
    {
      if kind != CookieAuth {
        return Err(WrongKind);
      }
      r := Replace(Cookies, true, None);
    }

    // `authenticate_tokens` up to its await; `renew` says a renewal follows.
    method AuthenticateTokens(token: string, refresh: string, now: real)
      returns (r: Result<(), AuthError>, renew: bool)
      modifies this
      ensures var was := LoginTokens(decoder, old(State()), token, refresh, now);
              State() == OrElse(was, old(State())) && (r.Ok? <==> was.Ok?) && (was.Err? ==> r == Err(was.error))
      ensures renew <==> r.Ok? && decoder.expiry(token).value <= now
    {
      renew := false;
      if kind != TokenAuth {
        return Err(WrongKind), false;
      }
      if token == "" || refresh == "" {
        return Err(EmptyCredential), false;
      }
      var tokenExp, refreshExp := decoder.expiry(token), decoder.expiry(refresh);
      if tokenExp.None? || refreshExp.None? {
        return Err(BadToken), false;
      }
      r := Replace(Tokens(token, tokenExp.value, refresh, refreshExp.value), refreshExp.value > now,
                   decoder.wallet(token));
      renew := r.Ok? && tokenExp.value <= now;
    }

    method SetCookieIdentity(raw: string)
      modifies this
      ensures State() == Auth.SetCookieIdentity(old(State()), decoder.lower(raw))
    {
      if kind != CookieAuth {
        return;
      }
      var next := decoder.lower(raw);
      if closed {
        return;
      }
      if identity.Some? && identity.value != next {
        version := Version(version.session + 1, version.revision + 1);
        sessions := version.session;
        updates := credentials.Cookies?;
      }
      identity := Some(next);
    }

    method Clear()
      modifies this
      ensures State() == Apply(decoder, old(State()), Logout)
    {
      var _ := Replace(Empty, false, None);
    }

    method Shutdown()
      modifies this
      ensures State() == Auth.Close(old(State()))
    {
      if closed {
        return;
      }
      closed := true;
      credentials, identity := Empty, None;
      version := Version(version.session + 1, version.revision + 1);
      sessions := version.session;
      updates := false;
    }

    // Returns the handle number of the signed-out epoch when the version still matched.
    method ClearIfVersion(expected: Version) returns (signedOut: Option<nat>)
      modifies this
      ensures State() == Auth.ClearIfVersion(old(State()), expected)
      ensures signedOut == if Clears(old(State()), expected) then Some(expected.session + 1) else None
    {
      if closed || version != expected {
        return None;
      }
      credentials, identity := Empty, None;
      version := Version(version.session + 1, version.revision + 1);
      sessions := version.session;
      updates := false;
      return Some(sessions);
    }

    method CommitRenewal(expected: Version, pair: TokenPair) returns (r: Result<string, AuthError>)
      modifies this
      ensures State() == Auth.CommitRenewal(decoder, old(State()), expected, pair)
      ensures r == if old(closed) then Err(Closed)
                   else if old(version) != expected then Err(SessionChanged)
                   else Ok(pair.token)
    {
      if closed {
        return Err(Closed);
      }
      if version != expected {
        return Err(SessionChanged);
      }
      var next := decoder.wallet(pair.token);
      var identityChanged := identity.Some? && next.Some? && identity.value != next.value;
      if next.Some? {
        identity := next;
      }
      credentials := Tokens(pair.token, pair.tokenExp, pair.refresh, pair.refreshExp);
      if identityChanged {
        version := version.(session := version.session + 1);
        refreshLock := refreshLock + 1;
        sessions := version.session;
      }
      version := version.(revision := version.revision + 1);
      updates := true;
      return Ok(pair.token);
    }
  }
}
