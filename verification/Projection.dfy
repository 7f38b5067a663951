// The account shown to the application, and the session it was fetched in.
//
// Each lock section of `src/account/authentication.rs` and `src/account/listeners.rs` is a
// method of `AccountProjection`, proved to be a function on `Projected`; the world below
// interleaves the flows built from them with every account event.
module Projection {
  import opened Wrappers
  import opened Auth

  datatype Account = Account(username: string, email: string, wallet: Option<string>)

  datatype Shown = Nothing | FetchedIn(session: nat, account: Account)

  datatype Projected = Projected(hydrated: bool, skip: bool, session: Option<nat>, shown: Shown)

  function Cleared(p: Projected): Projected {
    p.(hydrated := false, skip := false, shown := Nothing)
  }

  // First section of `hydrate_installed_authentication`.
  function OpenInstall(p: Projected, session: nat, previous: nat): Projected {
    p.(session := Some(session), hydrated := false, shown := if session != previous then Nothing else p.shown)
  }

  // Its last section: the session field is left as it is.
  function CompleteInstall(p: Projected, shown: Shown): Projected {
    p.(shown := shown, hydrated := true)
  }

  // Last section of `me`, `hydrate_authenticated_projection` and `handle_authenticated`.
  function Complete(p: Projected, session: nat, shown: Shown): Projected {
    p.(session := Some(session), shown := shown, hydrated := true)
  }

  // First section of `handle_authenticated` up to consuming the skip flag.
  function OpenListen(p: Projected, session: nat): Projected {
    var q := if p.session != Some(session) then p.(shown := Nothing, hydrated := false, session := Some(session)) else p;
    q.(skip := false)
  }

  class AccountProjection {
    var hydrated: bool
    var skipNextAuthenticatedUpdate: bool
    var session: Option<nat>
    var shown: Shown

    ghost function State(): Projected
      reads this
    {
      Projected(hydrated, skipNextAuthenticatedUpdate, session, shown)
    }

    constructor ()
      ensures State() == Projected(false, false, None, Nothing)
    {
      hydrated, skipNextAuthenticatedUpdate, session, shown := false, false, None, Nothing;
    }

    method BeginInstall(s: nat, previous: nat)
      modifies this
      ensures State() == OpenInstall(old(State()), s, previous)
    {
      session := Some(s);
      hydrated := false;
      if s != previous {
        shown := Nothing;
      }
    }

    method FinishInstall(fetched: Shown)
      modifies this
      ensures State() == CompleteInstall(old(State()), fetched)
    {
      shown := fetched;
      hydrated := true;
    }

    method Hydrate(owner: nat, current: nat, fetched: Shown)
      modifies this
      ensures State() == Complete(old(State()), current, fetched)
    {
      if current != owner {
        shown := Nothing;
      }
      session := Some(current);
      shown := fetched;
      hydrated := true;
    }

    // True when the update still has to be fetched, as far as this object can tell.
    method Authenticated(s: nat) returns (fetch: bool)
      modifies this
      ensures State() == OpenListen(old(State()), s)
      ensures fetch <==> !old(skipNextAuthenticatedUpdate) && !hydrated
    {
      if session != Some(s) {
        shown := Nothing;
        hydrated := false;
        session := Some(s);
      }
      if skipNextAuthenticatedUpdate {
        skipNextAuthenticatedUpdate := false;
        return false;
      }
      return !hydrated;
    }

    method Deauthenticated(authenticated: bool)
      modifies this
      ensures State() == if authenticated then old(State()) else Cleared(old(State()))
    {
      if authenticated {
        return;
      }
      hydrated := false;
      skipNextAuthenticatedUpdate := false;
      shown := Nothing;
    }
  }

  // ----- flows -----

  datatype Flow = Install(previous: nat) | Me | Hydration | Listener

  datatype Pc =
    | Installing(previous: nat)                                   // tokens are being installed
    | Opening(flow: Flow, owner: nat)                             // before the first section
    | Fetching(flow: Flow, owner: nat, sentIn: Option<nat>)       // sentIn: session the request left in
    | Fetched(flow: Flow, owner: nat, fetchedIn: nat, account: Account)
    | InstallFailed(owner: nat)
    | Clearing
    | Finished

  datatype World = World(auth: View, projected: Projected, tasks: map<nat, Pc>)

  // `now` is the time at which `is_authenticated` is asked.
  datatype Action =
    | Event(event: Auth.Event)
    | SetTokens(task: nat)
    | TokensInstalled(task: nat)
    | TokensRefused(task: nat)
    | Begin(task: nat, flow: Flow)
    | BeginClear(task: nat)
    | FirstSection(task: nat, now: real)
    | SendFetch(task: nat)
    | Deliver(task: nat, account: Account)
    | FetchError(task: nat)
    | LastSection(task: nat, now: real, clearInstalled: bool)

  function RecordCookieIdentity(d: Decoder, s: View, account: Account): View {
    if account.wallet.Some? then SetCookieIdentity(s, d.lower(account.wallet.value)) else s
  }

  function First(w: World, t: nat, authenticated: bool): World
    requires t in w.tasks && w.tasks[t].Opening?
  {
    var (flow, owner) := (w.tasks[t].flow, w.tasks[t].owner);
    var done := w.(tasks := w.tasks[t := Finished]);
    var fetching := w.(tasks := w.tasks[t := Fetching(flow, owner, None)]);
    if Check(w.auth, owner).Err? then done
    else match flow
      case Install(previous) => fetching.(projected := OpenInstall(w.projected, owner, previous))
      case Me => fetching
      case Hydration => if w.projected.hydrated || !authenticated then done else fetching
      case Listener =>
        var p := OpenListen(w.projected, owner);
        if w.projected.skip || p.hydrated || !authenticated then done.(projected := p)
        else fetching.(projected := p)
  }

  function Last(d: Decoder, w: World, t: nat, authenticated: bool, clearInstalled: bool): World
    requires t in w.tasks
  {
    var done := w.(tasks := w.tasks[t := Finished]);
    match w.tasks[t]
    case Fetched(flow, owner, sentIn, account) =>
      var shown := FetchedIn(sentIn, account);
      if Check(w.auth, owner).Err? then done
      else (match flow
        case Install(_) => done.(projected := CompleteInstall(w.projected, shown))
        case Me =>
          var auth := RecordCookieIdentity(d, w.auth, account);
          done.(auth := auth, projected := Complete(w.projected, auth.version.session, shown))
        case Hydration =>
          if !authenticated then done else done.(projected := Complete(w.projected, owner, shown))
        case Listener =>
          if !authenticated then done
          else
            var auth := RecordCookieIdentity(d, w.auth, account);
            done.(auth := auth, projected := Complete(w.projected, auth.version.session, shown)))
    case InstallFailed(owner) =>
      if Check(w.auth, owner).Ok? || !authenticated then
        done.(auth := if clearInstalled then Apply(d, w.auth, Logout) else w.auth, projected := Cleared(w.projected))
      else done
    case Clearing => if authenticated then done else done.(projected := Cleared(w.projected))
    case _ => w
  }

  function Next(d: Decoder, w: World, a: Action): World {
    match a
    case Event(e) => if Permitted(w.auth, e) then w.(auth := Apply(d, w.auth, e)) else w
    case SetTokens(t) =>
      if t in w.tasks then w
      else w.(tasks := w.tasks[t := Installing(w.auth.version.session)], projected := w.projected.(skip := true))
    case TokensInstalled(t) =>
      if t in w.tasks && w.tasks[t].Installing? then
        w.(tasks := w.tasks[t := Opening(Install(w.tasks[t].previous), w.auth.watchSession)])
      else w
    case TokensRefused(t) =>
      if t in w.tasks && w.tasks[t].Installing? then w.(tasks := w.tasks[t := Clearing]) else w
    case Begin(t, flow) =>
      if t in w.tasks || flow.Install? then w
      else w.(tasks := w.tasks[t := if flow.Me? then Fetching(Me, w.auth.watchSession, None)
                                    else Opening(flow, w.auth.watchSession)])
    case BeginClear(t) => if t in w.tasks then w else w.(tasks := w.tasks[t := Clearing])
    case FirstSection(t, now) =>
      if t in w.tasks && w.tasks[t].Opening? then First(w, t, IsAuthenticated(d, w.auth, now)) else w
    case SendFetch(t) =>
      if t in w.tasks && w.tasks[t].Fetching? && w.tasks[t].sentIn.None? then
        w.(tasks := w.tasks[t := w.tasks[t].(sentIn := Some(w.auth.watchSession))])
      else w
    case Deliver(t, account) =>
      // The guard around the fetch delivers only while its session is current.
      if t in w.tasks && w.tasks[t].Fetching? && w.tasks[t].sentIn.Some? && Check(w.auth, w.tasks[t].owner).Ok? then
        w.(tasks := w.tasks[t := Fetched(w.tasks[t].flow, w.tasks[t].owner, w.tasks[t].sentIn.value, account)])
      else w
    case FetchError(t) =>
      if t in w.tasks && w.tasks[t].Fetching? then
        w.(tasks := w.tasks[t := if w.tasks[t].flow.Install? then InstallFailed(w.tasks[t].owner) else Finished])
      else w
    case LastSection(t, now, clearInstalled) =>
      if t in w.tasks then Last(d, w, t, IsAuthenticated(d, w.auth, now), clearInstalled) else w
  }

  function Start(kind: AuthKind): World {
    World(Initial(kind), Projected(false, false, None, Nothing), map[])
  }

  function Reach(d: Decoder, kind: AuthKind, actions: seq<Action>): World {
    if actions == [] then Start(kind)
    else Next(d, Reach(d, kind, actions[..|actions| - 1]), actions[|actions| - 1])
  }

  // ----- the invariant -----

  predicate TaskOk(w: World, pc: Pc) {
    match pc
    case Opening(_, owner) => owner <= w.auth.watchSession
    case Fetching(flow, owner, sentIn) =>
      && owner <= w.auth.watchSession
      && (sentIn.Some? ==> owner <= sentIn.value <= w.auth.watchSession)
      // An installation has claimed the projection; later claims are by later sessions.
      && (flow.Install? ==> w.projected.session.Some? && owner <= w.projected.session.value)
    case Fetched(flow, owner, sentIn, _) =>
      && owner == sentIn <= w.auth.watchSession
      && (flow.Install? ==> w.projected.session.Some? && owner <= w.projected.session.value)
    case _ => true
  }

  // What is shown was fetched in the projection's session, or, with cookies only, it is the
  // very account that opened that session.
  predicate ShownOk(kind: AuthKind, p: Projected) {
    p.hydrated ==>
      && p.shown.FetchedIn? && p.session.Some?
      && (p.session.value == p.shown.session
          || (kind == CookieAuth && p.session.value == p.shown.session + 1 && p.shown.account.wallet.Some?))
  }

  ghost predicate Inv(d: Decoder, w: World) {
    && Consistent(d, w.auth)
    && (w.projected.session.Some? ==> w.projected.session.value <= w.auth.watchSession)
    && ShownOk(w.auth.kind, w.projected)
    && (forall t | t in w.tasks :: TaskOk(w, w.tasks[t]))
  }

  lemma NextAccount(d: Decoder, w: World, a: Action)
    requires Inv(d, w)
    ensures Consistent(d, Next(d, w, a).auth) && Later(w.auth, Next(d, w, a).auth)
  {
    match a
    case Event(e) => if Permitted(w.auth, e) { ApplyKeeps(d, w.auth, e); }
    case LastSection(t, now, clear) => if t in w.tasks { LastAccount(d, w, t, IsAuthenticated(d, w.auth, now), clear); }
    case _ =>
  }

  lemma LastAccount(d: Decoder, w: World, t: nat, authenticated: bool, clearInstalled: bool)
    requires t in w.tasks && Consistent(d, w.auth)
    ensures var w' := Last(d, w, t, authenticated, clearInstalled); Consistent(d, w'.auth) && Later(w.auth, w'.auth)
  {
    match w.tasks[t]
    case InstallFailed(_) => ApplyKeeps(d, w.auth, Logout);
    case Fetched(_, _, _, account) =>
      if account.wallet.Some? {
        ApplyKeeps(d, w.auth, CookieIdentity(account.wallet.value));
      }
    case _ =>
  }

  lemma NextProjected(d: Decoder, w: World, a: Action)
    requires Inv(d, w)
    ensures var w' := Next(d, w, a);
            && ShownOk(w'.auth.kind, w'.projected)
            && (w'.projected.session.Some? ==> w'.projected.session.value <= w'.auth.watchSession)
            && (w.projected.session.Some? ==>
                  w'.projected.session.Some? && w.projected.session.value <= w'.projected.session.value)
  {
    NextAccount(d, w, a);
    if a.LastSection? && a.task in w.tasks {
      assert TaskOk(w, w.tasks[a.task]);
    }
  }

  // Facts about a waiting task survive later sessions and later claims.
  lemma TaskSurvives(w: World, w': World, pc: Pc)
    requires TaskOk(w, pc) && w.auth.watchSession <= w'.auth.watchSession
    requires w.projected.session.Some? ==>
               w'.projected.session.Some? && w.projected.session.value <= w'.projected.session.value
    ensures TaskOk(w', pc)
  {
  }

  lemma NextTask(d: Decoder, w: World, a: Action, t: nat)
    requires Inv(d, w) && t in Next(d, w, a).tasks
    ensures TaskOk(Next(d, w, a), Next(d, w, a).tasks[t])
  {
    var w' := Next(d, w, a);
    NextAccount(d, w, a);
    NextProjected(d, w, a);
    if t in w.tasks {
      assert TaskOk(w, w.tasks[t]);
      TaskSurvives(w, w', w.tasks[t]);
      if w'.tasks[t] != w.tasks[t] {
        MovedTask(d, w, a, t);
      }
    }
  }

  lemma MovedTask(d: Decoder, w: World, a: Action, t: nat)
    requires Inv(d, w) && t in w.tasks && t in Next(d, w, a).tasks && Next(d, w, a).tasks[t] != w.tasks[t]
    ensures TaskOk(Next(d, w, a), Next(d, w, a).tasks[t])
  {
    assert TaskOk(w, w.tasks[t]);
  }

  lemma NextKeeps(d: Decoder, w: World, a: Action)
    requires Inv(d, w)
    ensures Inv(d, Next(d, w, a))
  {
    var w' := Next(d, w, a);
    NextAccount(d, w, a);
    NextProjected(d, w, a);
    forall t | t in w'.tasks ensures TaskOk(w', w'.tasks[t]) {
      NextTask(d, w, a, t);
    }
  }

  lemma {:induction false} Reachable(d: Decoder, kind: AuthKind, actions: seq<Action>)
    ensures forall k: nat | k <= |actions| :: Inv(d, Reach(d, kind, actions[..k])) && Reach(d, kind, actions[..k]).auth.kind == kind
  {
    if actions == [] {
      assert actions[..0] == [];
    } else {
      var n := |actions| - 1;
      var before := actions[..n];
      Reachable(d, kind, before);
      assert before[..n] == before;
      NextKeeps(d, Reach(d, kind, before), actions[n]);
      NextAccount(d, Reach(d, kind, before), actions[n]);
      forall k: nat | k <= |actions|
        ensures Inv(d, Reach(d, kind, actions[..k])) && Reach(d, kind, actions[..k]).auth.kind == kind
      {
        assert k <= n ==> before[..k] == actions[..k];
        assert k > n ==> actions[..k] == actions;
      }
    }
  }

  lemma InvAtTheEnd(d: Decoder, kind: AuthKind, actions: seq<Action>)
    ensures Inv(d, Reach(d, kind, actions)) && Reach(d, kind, actions).auth.kind == kind
  {
    Reachable(d, kind, actions);
    assert actions[..|actions|] == actions;
  }

  // With tokens: while `hydrated` is set, what is shown was fetched in exactly the session
  // stored beside it, in every interleaving.
  lemma ShownWasFetchedInItsSession(d: Decoder, actions: seq<Action>)
    requires Reach(d, TokenAuth, actions).projected.hydrated
    ensures var p := Reach(d, TokenAuth, actions).projected;
            p.shown.FetchedIn? && p.session == Some(p.shown.session)
  {
    InvAtTheEnd(d, TokenAuth, actions);
  }

  // With cookies the account itself may open the next session while it is being shown.
  lemma CookiesMayOpenTheNextSession(d: Decoder, a: Account, b: Account)
    requires a.wallet.Some? && b.wallet.Some? && d.lower(a.wallet.value) != d.lower(b.wallet.value)
    ensures exists actions ::
              Reach(d, CookieAuth, actions).projected == Projected(true, false, Some(2), FetchedIn(1, b))
  {
    var w0 := Start(CookieAuth);
    var script := [Event(CookieLogin), Event(CookieIdentity(a.wallet.value)), Begin(0, Me), SendFetch(0),
                   Deliver(0, b), LastSection(0, 0.0, true)];
    var w1, w2 := Next(d, w0, script[0]), Next(d, Next(d, w0, script[0]), script[1]);
    var w3 := Next(d, w2, script[2]);
    var w4 := Next(d, w3, script[3]);
    var w5 := Next(d, w4, script[4]);
    assert w5.tasks[0] == Fetched(Me, 1, 1, b);
    forall i | 0 <= i < 6 ensures script[..i + 1][..i] == script[..i] {}
    assert Reach(d, CookieAuth, script[..1]) == w1;
    assert Reach(d, CookieAuth, script[..2]) == w2;
    assert Reach(d, CookieAuth, script[..3]) == w3;
    assert Reach(d, CookieAuth, script[..4]) == w4;
    assert Reach(d, CookieAuth, script[..5]) == w5;
    assert script[..6] == script;
    assert Reach(d, CookieAuth, script).projected == Projected(true, false, Some(2), FetchedIn(1, b));
  }

  // The account record names another wallet than the one the session is known by.
  predicate NamesAnother(d: Decoder, auth: View, account: Account) {
    auth.kind == CookieAuth && auth.identity.Some? && account.wallet.Some? &&
    auth.identity.value != d.lower(account.wallet.value)
  }

  // The flows that hand the fetched record to `record_cookie_identity`.
  predicate Records(flow: Flow) { flow.Me? || flow.Listener? }

  predicate Storing(d: Decoder, w: World, t: nat, now: real) {
    t in w.tasks && w.tasks[t].Fetched? && Check(w.auth, w.tasks[t].owner).Ok? &&
    (w.tasks[t].flow.Hydration? || w.tasks[t].flow.Listener? ==> IsAuthenticated(d, w.auth, now))
  }

  predicate Opens(d: Decoder, w: World, t: nat)
    requires t in w.tasks && w.tasks[t].Fetched?
  {
    Records(w.tasks[t].flow) && NamesAnother(d, w.auth, w.tasks[t].account)
  }

  predicate InItsOwnSession(p: Projected) { p.shown.FetchedIn? && p.session == Some(p.shown.session) }

  lemma StoredExactly(d: Decoder, w: World, t: nat, now: real, clearInstalled: bool)
    requires Inv(d, w) && Storing(d, w, t, now)
    ensures var p := Next(d, w, LastSection(t, now, clearInstalled)).projected;
            p.hydrated && p.shown == FetchedIn(w.tasks[t].fetchedIn, w.tasks[t].account) &&
            (InItsOwnSession(p) <==> !Opens(d, w, t)) &&
            (Opens(d, w, t) ==> p.session == Some(p.shown.session + 1))
  {
    assert TaskOk(w, w.tasks[t]);
  }

  // Before a last section stores a fetched account it is known whether it will be stored
  // under its own session: it is, unless its flow records cookie identities and the account
  // names another wallet than the session has. Then it is stored under the next one.
  lemma OwnSessionExactlyWhen(d: Decoder, kind: AuthKind, actions: seq<Action>, t: nat, now: real, clearInstalled: bool)
    requires Storing(d, Reach(d, kind, actions), t, now)
    ensures var w := Reach(d, kind, actions);
            var p := Next(d, w, LastSection(t, now, clearInstalled)).projected;
            p.hydrated && p.shown == FetchedIn(w.tasks[t].fetchedIn, w.tasks[t].account) &&
            (InItsOwnSession(p) <==> !Opens(d, w, t)) &&
            (Opens(d, w, t) ==> p.session == Some(p.shown.session + 1))
  {
    InvAtTheEnd(d, kind, actions);
    StoredExactly(d, Reach(d, kind, actions), t, now, clearInstalled);
  }

  // A step that leaves the projection hydrated left what it shows alone, unless it stored it.
  lemma HydratedStays(d: Decoder, w: World, a: Action)
    requires Inv(d, w) && Next(d, w, a).projected.hydrated
    ensures (a.LastSection? && Storing(d, w, a.task, a.now)) ||
            (w.projected.hydrated && Next(d, w, a).projected.shown == w.projected.shown &&
             Next(d, w, a).projected.session == w.projected.session)
  {
  }

  ghost predicate StoredAt(d: Decoder, kind: AuthKind, actions: seq<Action>, i: nat) {
    i < |actions| && actions[i].LastSection? &&
    Storing(d, Reach(d, kind, actions[..i]), actions[i].task, actions[i].now)
  }

  // What is shown is what that section stored; it lies in its own session exactly when that
  // section did not open the next one.
  ghost predicate ShownFrom(d: Decoder, kind: AuthKind, actions: seq<Action>, i: nat)
    requires StoredAt(d, kind, actions, i)
  {
    var w, p, t := Reach(d, kind, actions[..i]), Reach(d, kind, actions).projected, actions[i].task;
    p.shown == FetchedIn(w.tasks[t].fetchedIn, w.tasks[t].account) &&
    (InItsOwnSession(p) <==> !Opens(d, w, t)) &&
    (Opens(d, w, t) ==> p.session == Some(p.shown.session + 1))
  }

  // Whatever a run shows was stored by one of its sections.
  lemma {:induction false} ShownExactlyWhen(d: Decoder, kind: AuthKind, actions: seq<Action>)
    requires Reach(d, kind, actions).projected.hydrated
    ensures exists i: nat :: StoredAt(d, kind, actions, i) && ShownFrom(d, kind, actions, i)
  {
    var n := |actions| - 1;
    var w := Reach(d, kind, actions[..n]);
    Reachable(d, kind, actions);
    HydratedStays(d, w, actions[n]);
    if actions[n].LastSection? && Storing(d, w, actions[n].task, actions[n].now) {
      StoredExactly(d, w, actions[n].task, actions[n].now, actions[n].clearInstalled);
      assert StoredAt(d, kind, actions, n) && ShownFrom(d, kind, actions, n);
    } else {
      ShownExactlyWhen(d, kind, actions[..n]);
      var i: nat :| StoredAt(d, kind, actions[..n], i) && ShownFrom(d, kind, actions[..n], i);
      assert actions[..n][..i] == actions[..i];
      assert StoredAt(d, kind, actions, i) && ShownFrom(d, kind, actions, i);
    }
  }

  // ----- what is hidden -----

  // A section that signs the projection out, or claims it for a session of its own.
  ghost predicate Hides(d: Decoder, w: World, a: Action) {
    (a.LastSection? || a.FirstSection?) && a.task in w.tasks &&
    match w.tasks[a.task]
    case Clearing => a.LastSection? && !IsAuthenticated(d, w.auth, a.now)
    case InstallFailed(owner) =>
      a.LastSection? && (!IsAuthenticated(d, w.auth, a.now) || (!w.auth.closed && w.auth.watchSession == owner))
    case Opening(flow, owner) =>
      a.FirstSection? && !w.auth.closed && w.auth.watchSession == owner &&
      ((flow.Install? && flow.previous != owner) || (flow.Listener? && w.projected.session != Some(owner)))
    case _ => false
  }

  // From then on no account is shown until a section stores one.
  lemma {:induction false} NothingShownUntilStored(d: Decoder, kind: AuthKind, actions: seq<Action>)
    ensures forall i: nat |
              i < |actions| && Hides(d, Reach(d, kind, actions[..i]), actions[i]) &&
              (forall k: nat | i < k :: !StoredAt(d, kind, actions, k)) ::
              Hidden(Reach(d, kind, actions).projected)
  {
    if actions != [] {
      var n := |actions| - 1;
      var before := actions[..n];
      NothingShownUntilStored(d, kind, before);
      forall i: nat |
        i < |actions| && Hides(d, Reach(d, kind, actions[..i]), actions[i]) &&
        (forall k: nat | i < k :: !StoredAt(d, kind, actions, k))
        ensures Hidden(Reach(d, kind, actions).projected)
      {
        if i == n {
          HidesNow(d, Reach(d, kind, before), actions[n]);
        } else {
          assert before[..i] == actions[..i];
          forall k: nat | i < k
            ensures !StoredAt(d, kind, before, k)
          {
            assert k < n ==> before[..k] == actions[..k];
            assert !StoredAt(d, kind, actions, k);
          }
          assert !StoredAt(d, kind, actions, n);
          StaysHidden(d, Reach(d, kind, before), actions[n]);
        }
      }
    }
  }

  ghost predicate Hidden(p: Projected) { !p.hydrated && p.shown == Nothing }

  lemma HidesNow(d: Decoder, w: World, a: Action)
    ensures Hides(d, w, a) ==> Hidden(Next(d, w, a).projected)
  {
  }

  lemma StaysHidden(d: Decoder, w: World, a: Action)
    ensures Hidden(w.projected) && !(a.LastSection? && Storing(d, w, a.task, a.now)) ==> Hidden(Next(d, w, a).projected)
  {
  }

  // A listener fetches exactly when its session is current and authenticated, the update is
  // not the installer's own, and the account of that session is not shown yet.
  lemma ListenerFetchesExactlyWhen(d: Decoder, w: World, t: nat, owner: nat, now: real)
    requires t in w.tasks && w.tasks[t] == Opening(Listener, owner)
    ensures var w' := Next(d, w, FirstSection(t, now)); var current := !w.auth.closed && w.auth.watchSession == owner;
            && t in w'.tasks
            && (w'.tasks[t] == Fetching(Listener, owner, None) <==>
                current && IsAuthenticated(d, w.auth, now) && !w.projected.skip &&
                !(w.projected.hydrated && w.projected.session == Some(owner)))
            && (w'.tasks[t] != Fetching(Listener, owner, None) ==> w'.tasks[t] == Finished)
            && w'.projected.skip == (w.projected.skip && !current)
  {
  }

  // An installation fetches exactly while its session is current, a hydration only if also
  // authenticated and nothing is hydrated yet.
  lemma FetchesExactlyWhen(d: Decoder, w: World, t: nat, flow: Flow, owner: nat, now: real)
    requires t in w.tasks && w.tasks[t] == Opening(flow, owner) && (flow.Install? || flow.Hydration?)
    ensures var w' := Next(d, w, FirstSection(t, now));
            t in w'.tasks && (w'.tasks[t] == Fetching(flow, owner, None) || w'.tasks[t] == Finished) &&
            (w'.tasks[t] == Fetching(flow, owner, None) <==>
               !w.auth.closed && w.auth.watchSession == owner &&
               (flow.Hydration? ==> !w.projected.hydrated && IsAuthenticated(d, w.auth, now)))
  {
  }

  // An installation lets one update pass; the next listener, or a sign-out, uses that up.
  lemma SkipExactly(d: Decoder, w: World, a: Action)
    ensures Next(d, w, a).projected.skip <==>
              (a.SetTokens? && a.task !in w.tasks) || (w.projected.skip && !UsesUp(d, w, a))
  {
  }

  predicate UsesUp(d: Decoder, w: World, a: Action) {
    (a.LastSection? || a.FirstSection?) && a.task in w.tasks &&
    match w.tasks[a.task]
    case Clearing => a.LastSection? && !IsAuthenticated(d, w.auth, a.now)
    case InstallFailed(owner) =>
      a.LastSection? && (!IsAuthenticated(d, w.auth, a.now) || (!w.auth.closed && w.auth.watchSession == owner))
    case Opening(flow, owner) => a.FirstSection? && flow.Listener? && !w.auth.closed && w.auth.watchSession == owner
    case _ => false
  }

  // ----- flows left to themselves -----

  ghost predicate Shows(w: World, account: Account) {
    w.projected.hydrated && w.projected.session == Some(w.auth.watchSession) &&
    w.projected.shown == FetchedIn(w.auth.watchSession, account)
  }

  // The fetch is sent and answered, and its last section run.
  function FetchDone(d: Decoder, w: World, t: nat, account: Account, now: real, clear: bool): World {
    Next(d, Next(d, Next(d, w, SendFetch(t)), Deliver(t, account)), LastSection(t, now, clear))
  }

  lemma FetchIsShown(d: Decoder, w: World, t: nat, flow: Flow, account: Account, now: real, clear: bool)
    requires t in w.tasks && w.tasks[t] == Fetching(flow, w.auth.watchSession, None) && !w.auth.closed && Consistent(d, w.auth)
    requires (flow.Hydration? || flow.Listener? ==> IsAuthenticated(d, w.auth, now)) && !NamesAnother(d, w.auth, account)
    requires flow.Install? ==> w.projected.session == Some(w.auth.watchSession)
    ensures Shows(FetchDone(d, w, t, account, now, clear), account)
  {
    var sent := Next(d, w, SendFetch(t));
    assert sent.tasks[t] == Fetching(flow, w.auth.watchSession, Some(w.auth.watchSession));
    var delivered := Next(d, sent, Deliver(t, account));
    assert delivered.tasks[t] == Fetched(flow, w.auth.watchSession, w.auth.watchSession, account);
  }

  // A fetch of any kind that nothing interferes with ends with its account shown, under the
  // session it was begun in.
  lemma UndisturbedFetchIsShown(d: Decoder, w: World, t: nat, flow: Flow, account: Account, now: real)
    requires t !in w.tasks && !flow.Install? && Consistent(d, w.auth)
    requires IsAuthenticated(d, w.auth, now) && !NamesAnother(d, w.auth, account)
    requires flow.Hydration? ==> !w.projected.hydrated
    requires flow.Listener? ==> !w.projected.skip && !(w.projected.hydrated && w.projected.session == Some(w.auth.watchSession))
    ensures var begun := Next(d, w, Begin(t, flow));
            Shows(FetchDone(d, if flow.Me? then begun else Next(d, begun, FirstSection(t, now)), t, account, now, true), account)
  {
    var begun := Next(d, w, Begin(t, flow));
    FetchIsShown(d, if flow.Me? then begun else Next(d, begun, FirstSection(t, now)), t, flow, account, now, true);
  }

  // The opening of an installation of tokens.
  function InstallOpened(d: Decoder, w: World, t: nat, e: Event, now: real): World {
    Next(d, Next(d, Next(d, Next(d, w, SetTokens(t)), Action.Event(e)), TokensInstalled(t)), FirstSection(t, now))
  }

  lemma InstallOpens(d: Decoder, w: World, t: nat, e: Event, now: real)
    requires t !in w.tasks && e.TokenLogin? && !w.auth.closed && Consistent(d, w.auth)
    ensures var v := InstallOpened(d, w, t, e, now);
            && v.auth == Apply(d, w.auth, e) && Consistent(d, v.auth) && !v.auth.closed
            && t in v.tasks && v.tasks[t] == Fetching(Install(w.auth.watchSession), v.auth.watchSession, None)
            && v.projected.session == Some(v.auth.watchSession) && !v.projected.hydrated
            && (v.projected.shown == if v.auth.watchSession == w.auth.watchSession then w.projected.shown else Nothing)
  {
    ApplyKeeps(d, w.auth, e);
    var set1 := Next(d, w, SetTokens(t));
    assert set1.tasks[t] == Installing(w.auth.watchSession) && Permitted(set1.auth, e);
    var in1 := Next(d, set1, Action.Event(e));
    var ready := Next(d, in1, TokensInstalled(t));
    assert ready.tasks[t] == Opening(Install(w.auth.watchSession), ready.auth.watchSession);
  }

  // An installation that nothing interferes with ends with its account shown. What was
  // shown before stays meanwhile exactly if the session does.
  lemma UndisturbedInstallation(d: Decoder, w: World, t: nat, e: Event, now: real, clear: bool, account: Account)
    requires t !in w.tasks && e.TokenLogin? && !w.auth.closed && Consistent(d, w.auth) && w.auth.kind == TokenAuth
    ensures var v := InstallOpened(d, w, t, e, now);
            && v.auth == Apply(d, w.auth, e)
            && (v.projected.shown == if v.auth.watchSession == w.auth.watchSession then w.projected.shown else Nothing)
            && Shows(FetchDone(d, v, t, account, now, clear), account)
  {
    InstallOpens(d, w, t, e, now);
    FetchIsShown(d, InstallOpened(d, w, t, e, now), t, Install(w.auth.watchSession), account, now, clear);
  }

  // If its fetch fails nothing is shown any more, and the account is signed out if it is to be.
  lemma FailedInstallation(d: Decoder, v: World, t: nat, previous: nat, now: real, clear: bool)
    requires t in v.tasks && v.tasks[t] == Fetching(Install(previous), v.auth.watchSession, None) && !v.auth.closed
    ensures var failed := Next(d, Next(d, v, FetchError(t)), LastSection(t, now, clear));
            Hidden(failed.projected) && failed.auth == if clear then Apply(d, v.auth, Logout) else v.auth
  {
    assert Next(d, v, FetchError(t)).tasks[t] == InstallFailed(v.auth.watchSession);
  }

  // Any other fetch that fails is over, and leaves everything else as it is.
  lemma FailedFetch(d: Decoder, w: World, t: nat)
    requires t in w.tasks && w.tasks[t].Fetching? && !w.tasks[t].flow.Install?
    ensures Next(d, w, FetchError(t)) == w.(tasks := w.tasks[t := Finished])
  {
  }

  // Tokens that are refused leave what is shown alone while the old account is authenticated,
  // and hide it when not; so does a sign-out.
  lemma UndisturbedClear(d: Decoder, w: World, t: nat, now: real, clear: bool)
    requires t !in w.tasks
    ensures var refused := Next(d, Next(d, Next(d, w, SetTokens(t)), TokensRefused(t)), LastSection(t, now, clear));
            var cleared := Next(d, Next(d, w, BeginClear(t)), LastSection(t, now, clear));
            && refused.auth == cleared.auth == w.auth
            && (if IsAuthenticated(d, w.auth, now) then
                  refused.projected.shown == cleared.projected.shown == w.projected.shown &&
                  refused.projected.hydrated == cleared.projected.hydrated == w.projected.hydrated
                else Hidden(refused.projected) && Hidden(cleared.projected))
  {
  }

  // Only a section that stores an account, or hides what is shown, changes that; and only a
  // section that stores one marks it hydrated.
  lemma OthersLeaveItShown(d: Decoder, w: World, a: Action)
    requires !(a.LastSection? && Storing(d, w, a.task, a.now)) && !Hides(d, w, a)
    ensures Next(d, w, a).projected.shown == w.projected.shown
    ensures Next(d, w, a).projected.hydrated ==> w.projected.hydrated
    ensures Next(d, w, a).projected.hydrated != w.projected.hydrated ==>
              a.FirstSection? && a.task in w.tasks && w.tasks[a.task].Opening? && w.tasks[a.task].flow.Install?
  {
  }

  // In general the stored session is the fetch's, or the one just after it under cookies.
  lemma ShownIsAtMostOneSessionBehind(d: Decoder, kind: AuthKind, actions: seq<Action>)
    requires Reach(d, kind, actions).projected.hydrated
    ensures ShownOk(kind, Reach(d, kind, actions).projected)
  {
    InvAtTheEnd(d, kind, actions);
  }
}
