// `AuthManager::headers` and `renew_token` as tasks interleaved at every await (and finer:
// the two reads that open a renewal are separate steps) with every account event.
module TokenRefresh {
  import opened Wrappers
  import opened Auth

  datatype Answer =
    | Headers(view: View)      // the state the headers were built from
    | Renewed(token: string)
    | Failed

  datatype Pc =
    | HeadersStart
    | HeadersRead
    | RenewStart
    | Locking(own: nat)                   // has a session handle, not yet the mutex
    | Waiting(own: nat, lock: nat)
    | Holding(own: nat, lock: nat)
    | Sending(own: nat, lock: nat, version: Version)
    | Reading(own: nat, lock: nat, version: Version, success: bool)
    | HeadersFinal
    | Finished(answer: Answer)

  // `first` is the state `headers` read first, and `readAt` when; None for a bare renewal.
  datatype Task = Task(first: Option<View>, readAt: real, pc: Pc)

  // A refresh request that went out, with the state and time that justified it.
  datatype Sent = Sent(task: nat, view: View, now: real)

  datatype World = World(
    auth: View,
    now: real,
    tasks: map<nat, Task>,
    holders: map<nat, nat>,     // locked mutex -> task
    sent: seq<Sent>)

  datatype Action =
    | Account(event: Event)
    | Tick(now: real)
    | OpenHeaders(task: nat)
    | OpenRenewal(task: nat)
    | Advance(task: nat)
    | Respond(task: nat, success: bool)
    | Body(task: nat, tokens: Option<(string, string)>)
    | Abort(task: nat)          // cancellation, transport failure or a guard's refusal

  predicate Past(pc: Pc) {
    pc.Holding? || pc.Sending? || pc.Reading?
  }

  function WithPc(w: World, t: nat, pc: Pc): World
    requires t in w.tasks
  {
    w.(tasks := w.tasks[t := w.tasks[t].(pc := pc)])
  }

  // Leaving `renew_token` drops the mutex guard.
  function Release(w: World, t: nat): World
    requires t in w.tasks
  {
    if Past(w.tasks[t].pc) then w.(holders := w.holders - {w.tasks[t].pc.lock}) else w
  }

  function Fail(w: World, t: nat): World
    requires t in w.tasks
  {
    WithPc(Release(w, t), t, Finished(Failed))
  }

  function Return(w: World, t: nat, token: string): World
    requires t in w.tasks
  {
    WithPc(Release(w, t), t, if w.tasks[t].first.Some? then HeadersFinal else Finished(Renewed(token)))
  }

  function ParsePair(d: Decoder, tokens: Option<(string, string)>): Option<TokenPair> {
    if tokens.Some? && d.expiry(tokens.value.0).Some? && d.expiry(tokens.value.1).Some? then
      Some(TokenPair(tokens.value.0, d.expiry(tokens.value.0).value,
                     tokens.value.1, d.expiry(tokens.value.1).value))
    else None
  }

  // The stretch that follows acquiring the mutex.
  function Inspect(w: World, t: nat): World
    requires t in w.tasks && w.tasks[t].pc.Holding?
  {
    var (own, lock) := (w.tasks[t].pc.own, w.tasks[t].pc.lock);
    match w.auth.credentials
    case Tokens(token, tokenExp, _, refreshExp) =>
      if tokenExp > w.now then Return(w, t, token)
      else if refreshExp > w.now then
        // The guard around the request looks at its session before anything leaves.
        if Check(w.auth, own).Err? then Fail(w, t)
        else WithPc(w, t, Sending(own, lock, w.auth.version)).(sent := w.sent + [Sent(t, w.auth, w.now)])
      else Fail(w, t).(auth := ClearIfVersion(w.auth, w.auth.version))
    case _ => Fail(w, t)
  }

  // The stretch that follows the response body.
  function Settle(d: Decoder, w: World, t: nat, tokens: Option<(string, string)>): World
    requires t in w.tasks && w.tasks[t].pc.Reading?
  {
    var (version, success) := (w.tasks[t].pc.version, w.tasks[t].pc.success);
    var pair := ParsePair(d, tokens);
    if !success || pair.None? then Fail(w, t).(auth := ClearIfVersion(w.auth, version))
    else if Clears(w.auth, version) then
      Return(w, t, pair.value.token).(auth := CommitRenewal(d, w.auth, version, pair.value))
    else Fail(w, t)
  }

  function Step(d: Decoder, w: World, t: nat): World
    requires t in w.tasks
  {
    var task := w.tasks[t];
    match task.pc
    case HeadersStart =>
      if Check(w.auth, w.auth.watchSession).Ok? then WithPc(w, t, HeadersRead) else Fail(w, t)
    case HeadersRead =>
      var stale := w.auth.credentials.Tokens? && w.auth.credentials.tokenExp <= w.now;
      w.(tasks := w.tasks[t := Task(Some(w.auth), w.now, if stale then RenewStart else HeadersFinal)])
    case RenewStart => WithPc(w, t, Locking(w.auth.watchSession))
    case Locking(own) => WithPc(w, t, Waiting(own, w.auth.refreshLock))
    case Waiting(own, lock) =>
      if Check(w.auth, own).Err? then Fail(w, t)
      else if lock in w.holders then w
      else WithPc(w, t, Holding(own, lock)).(holders := w.holders[lock := t])
    case Holding(_, _) => Inspect(w, t)
    case HeadersFinal =>
      if w.auth.closed || task.first.None? || task.first.value.version.session != w.auth.version.session
      then Fail(w, t)
      else WithPc(w, t, Finished(Headers(w.auth)))
    case _ => w
  }

  function Next(d: Decoder, w: World, a: Action): World {
    match a
    case Account(e) => if Permitted(w.auth, e) then w.(auth := Apply(d, w.auth, e)) else w
    case Tick(now) => if w.now <= now then w.(now := now) else w
    case OpenHeaders(t) => if t in w.tasks then w else w.(tasks := w.tasks[t := Task(None, 0.0, HeadersStart)])
    case OpenRenewal(t) => if t in w.tasks then w else w.(tasks := w.tasks[t := Task(None, 0.0, RenewStart)])
    case Advance(t) => if t in w.tasks then Step(d, w, t) else w
    case Respond(t, success) =>
      if t !in w.tasks || !w.tasks[t].pc.Sending? then w
      else
        var pc := w.tasks[t].pc;
        if Check(w.auth, pc.own).Err? then Fail(w, t)
        else WithPc(w, t, Reading(pc.own, pc.lock, pc.version, success))
    case Body(t, tokens) =>
      if t !in w.tasks || !w.tasks[t].pc.Reading? then w
      else if Check(w.auth, w.tasks[t].pc.own).Err? then Fail(w, t)
      else Settle(d, w, t, tokens)
    case Abort(t) => if t !in w.tasks || w.tasks[t].pc.Finished? then w else Fail(w, t)
  }

  function Start(kind: AuthKind, now: real): World {
    World(Initial(kind), now, map[], map[], [])
  }

  function Reach(d: Decoder, kind: AuthKind, now: real, actions: seq<Action>): World {
    if actions == [] then Start(kind, now)
    else Next(d, Reach(d, kind, now, actions[..|actions| - 1]), actions[|actions| - 1])
  }

  // ----- the invariant -----

  // While a task's session is current, the mutex it copied is the one everybody copies.
  predicate LockOk(auth: View, own: nat, lock: nat) {
    && own <= auth.watchSession && lock <= auth.refreshLock
    && (own == auth.watchSession ==> lock == auth.refreshLock)
  }

  // A version read from token credentials: if it is still current, so are they.
  predicate SnapshotOk(auth: View, version: Version) {
    && version.revision <= auth.version.revision
    && (version.revision == auth.version.revision ==> version == auth.version && auth.credentials.Tokens?)
  }

  // The first read found tokens whose access token had expired.
  predicate FoundExpired(task: Task) {
    task.first.Some? && task.first.value.credentials.Tokens? && task.first.value.credentials.tokenExp <= task.readAt
  }

  // Only such a read leads into a renewal.
  predicate EntryOk(task: Task) {
    match task.pc
    case HeadersStart => task.first.None?
    case HeadersRead => task.first.None?
    case HeadersFinal => true
    case Finished(_) => true
    case _ => task.first.Some? ==> FoundExpired(task)
  }

  ghost predicate TaskOk(d: Decoder, auth: View, holders: map<nat, nat>, t: nat, task: Task) {
    && (task.first.Some? ==> Consistent(d, task.first.value) && Later(task.first.value, auth))
    && EntryOk(task)
    && match task.pc
       case Locking(own) => own <= auth.watchSession
       case Waiting(own, lock) => LockOk(auth, own, lock)
       case Holding(own, lock) => LockOk(auth, own, lock) && lock in holders && holders[lock] == t
       case Sending(own, lock, version) =>
         LockOk(auth, own, lock) && lock in holders && holders[lock] == t && SnapshotOk(auth, version)
       case Reading(own, lock, version, _) =>
         LockOk(auth, own, lock) && lock in holders && holders[lock] == t && SnapshotOk(auth, version)
       case Finished(Headers(view)) =>
         && task.first.Some? && Consistent(d, view) && Later(task.first.value, view)
         && view.version.session == task.first.value.version.session && !view.closed
       case _ => true
  }

  ghost predicate HolderOk(w: World, l: nat)
    requires l in w.holders
  {
    w.holders[l] in w.tasks && Past(w.tasks[w.holders[l]].pc) && w.tasks[w.holders[l]].pc.lock == l
  }

  // A request left for an expired access token, under a refresh token that was not. Its task
  // still has that very snapshot, of its own session, or is past the mutex no longer.
  predicate SentOk(tasks: map<nat, Task>, s: Sent) {
    && s.view.credentials.Tokens? && s.view.credentials.tokenExp <= s.now < s.view.credentials.refreshExp
    && s.task in tasks && (tasks[s.task].first.Some? ==> FoundExpired(tasks[s.task]))
    && match tasks[s.task].pc
       case Sending(own, _, version) => version == s.view.version && own == version.session
       case Reading(own, _, version, _) => version == s.view.version && own == version.session
       case HeadersFinal => true
       case Finished(_) => true
       case _ => false
  }

  predicate Apart(tasks: map<nat, Task>, earlier: Sent, later: Sent) {
    earlier.view.version == later.view.version ==> earlier.task in tasks && !Past(tasks[earlier.task].pc)
  }

  ghost predicate Inv(d: Decoder, w: World) {
    && Consistent(d, w.auth)
    && (forall t | t in w.tasks :: TaskOk(d, w.auth, w.holders, t, w.tasks[t]))
    && (forall l | l in w.holders :: HolderOk(w, l))
    && (forall i | 0 <= i < |w.sent| :: SentOk(w.tasks, w.sent[i]))
    && (forall i, j | 0 <= i < j < |w.sent| :: Apart(w.tasks, w.sent[i], w.sent[j]))
  }

  function Subject(a: Action): Option<nat> {
    match a
    case Account(_) => None
    case Tick(_) => None
    case OpenHeaders(t) => Some(t)
    case OpenRenewal(t) => Some(t)
    case Advance(t) => Some(t)
    case Respond(t, _) => Some(t)
    case Body(t, _) => Some(t)
    case Abort(t) => Some(t)
  }

  // The facts a step depends on: the account, and the stepping task if there is one.
  ghost predicate Ready(d: Decoder, w: World, a: Action) {
    Consistent(d, w.auth) &&
    (Subject(a).Some? && Subject(a).value in w.tasks ==>
       TaskOk(d, w.auth, w.holders, Subject(a).value, w.tasks[Subject(a).value]))
  }

  // ----- the account -----

  lemma InspectAccount(d: Decoder, w: World, t: nat)
    requires Consistent(d, w.auth) && t in w.tasks && w.tasks[t].pc.Holding?
    ensures Consistent(d, Inspect(w, t).auth) && Later(w.auth, Inspect(w, t).auth)
  {
    ApplyKeeps(d, w.auth, Reject(w.auth.version));
  }

  lemma SettleAccount(d: Decoder, w: World, t: nat, tokens: Option<(string, string)>)
    requires Consistent(d, w.auth) && t in w.tasks && w.tasks[t].pc.Reading?
    requires SnapshotOk(w.auth, w.tasks[t].pc.version)
    ensures Consistent(d, Settle(d, w, t, tokens).auth) && Later(w.auth, Settle(d, w, t, tokens).auth)
  {
    var version := w.tasks[t].pc.version;
    ApplyKeeps(d, w.auth, Reject(version));
    if ParsePair(d, tokens).Some? {
      ApplyKeeps(d, w.auth, Renew(version, ParsePair(d, tokens).value));
    }
  }

  lemma NextAccount(d: Decoder, w: World, a: Action)
    requires Ready(d, w, a)
    ensures Consistent(d, Next(d, w, a).auth) && Later(w.auth, Next(d, w, a).auth)
  {
    match a
    case Account(e) => if Permitted(w.auth, e) { ApplyKeeps(d, w.auth, e); }
    case Advance(t) => if t in w.tasks && w.tasks[t].pc.Holding? { InspectAccount(d, w, t); }
    case Body(t, tokens) => if t in w.tasks && w.tasks[t].pc.Reading? { SettleAccount(d, w, t, tokens); }
    case _ =>
  }

  // ----- the other tasks -----

  // Facts about a task survive whatever happens to the account and to other mutexes.
  lemma TaskSurvives(d: Decoder, auth: View, auth': View, holders: map<nat, nat>, holders': map<nat, nat>, t: nat, task: Task)
    requires Consistent(d, auth) && Consistent(d, auth') && Later(auth, auth')
    requires TaskOk(d, auth, holders, t, task)
    requires Past(task.pc) && task.pc.lock in holders && holders[task.pc.lock] == t ==>
               task.pc.lock in holders' && holders'[task.pc.lock] == t
    ensures TaskOk(d, auth', holders', t, task)
  {
  }

  // Task `u` is changed, and at most the mutex it holds is freed or a free one taken.
  predicate Touches(w: World, w': World, u: nat) {
    (forall t | t != u && t in w.tasks :: t in w'.tasks && w'.tasks[t] == w.tasks[t]) &&
    (forall l | l in w.holders && w.holders[l] != u :: l in w'.holders && w'.holders[l] == w.holders[l])
  }

  lemma ReleaseTouches(w: World, u: nat, pc: Pc)
    requires u in w.tasks && (Past(w.tasks[u].pc) ==> w.tasks[u].pc.lock in w.holders && w.holders[w.tasks[u].pc.lock] == u)
    ensures Touches(w, WithPc(Release(w, u), u, pc), u)
  {
  }

  // A step touches no task but its own, and no mutex another task holds.
  lemma NextTouches(d: Decoder, w: World, a: Action)
    requires Ready(d, w, a)
    ensures Subject(a).Some? ==> Touches(w, Next(d, w, a), Subject(a).value)
    ensures Subject(a).None? ==> Next(d, w, a).tasks == w.tasks && Next(d, w, a).holders == w.holders
  {
    if Subject(a).Some? && Subject(a).value in w.tasks {
      var u := Subject(a).value;
      forall pc: Pc
        ensures Touches(w, WithPc(Release(w, u), u, pc), u)
      {
        ReleaseTouches(w, u, pc);
      }
    }
  }

  lemma NextFrame(d: Decoder, w: World, a: Action, t: nat)
    requires Ready(d, w, a) && t in w.tasks && Subject(a) != Some(t)
    requires TaskOk(d, w.auth, w.holders, t, w.tasks[t])
    ensures var w' := Next(d, w, a); t in w'.tasks && TaskOk(d, w'.auth, w'.holders, t, w'.tasks[t])
  {
    var w' := Next(d, w, a);
    NextAccount(d, w, a);
    NextTouches(d, w, a);
    TaskSurvives(d, w.auth, w'.auth, w.holders, w'.holders, t, w.tasks[t]);
  }

  // ----- the stepping task -----

  lemma LockingOk(d: Decoder, w: World, t: nat)
    requires Consistent(d, w.auth) && t in w.tasks && (w.tasks[t].pc.Locking? || w.tasks[t].pc.Waiting?)
    requires TaskOk(d, w.auth, w.holders, t, w.tasks[t])
    ensures var w' := Step(d, w, t); t in w'.tasks && TaskOk(d, w'.auth, w'.holders, t, w'.tasks[t])
  {
  }

  lemma HeadersOk(d: Decoder, w: World, t: nat)
    requires Consistent(d, w.auth) && t in w.tasks && (w.tasks[t].pc.HeadersRead? || w.tasks[t].pc.HeadersFinal?)
    requires TaskOk(d, w.auth, w.holders, t, w.tasks[t])
    ensures var w' := Step(d, w, t); t in w'.tasks && TaskOk(d, w'.auth, w'.holders, t, w'.tasks[t])
  {
  }

  lemma AdvanceOk(d: Decoder, w: World, t: nat)
    requires Consistent(d, w.auth) && t in w.tasks && !w.tasks[t].pc.Holding?
    requires TaskOk(d, w.auth, w.holders, t, w.tasks[t])
    ensures var w' := Step(d, w, t); t in w'.tasks && TaskOk(d, w'.auth, w'.holders, t, w'.tasks[t])
  {
    var pc := w.tasks[t].pc;
    if pc.Locking? || pc.Waiting? {
      LockingOk(d, w, t);
    } else if pc.HeadersRead? || pc.HeadersFinal? {
      HeadersOk(d, w, t);
    }
  }

  lemma InspectOk(d: Decoder, w: World, t: nat)
    requires Consistent(d, w.auth) && t in w.tasks && w.tasks[t].pc.Holding?
    requires TaskOk(d, w.auth, w.holders, t, w.tasks[t])
    ensures var w' := Inspect(w, t); t in w'.tasks && TaskOk(d, w'.auth, w'.holders, t, w'.tasks[t])
  {
    InspectAccount(d, w, t);
    if w.tasks[t].first.Some? {
      LaterTransitive(w.tasks[t].first.value, w.auth, Inspect(w, t).auth);
    }
  }

  lemma SettleOk(d: Decoder, w: World, t: nat, tokens: Option<(string, string)>)
    requires Consistent(d, w.auth) && t in w.tasks && w.tasks[t].pc.Reading?
    requires TaskOk(d, w.auth, w.holders, t, w.tasks[t])
    ensures var w' := Settle(d, w, t, tokens); t in w'.tasks && TaskOk(d, w'.auth, w'.holders, t, w'.tasks[t])
  {
    SettleAccount(d, w, t, tokens);
    if w.tasks[t].first.Some? {
      LaterTransitive(w.tasks[t].first.value, w.auth, Settle(d, w, t, tokens).auth);
    }
  }

  lemma SubjectOk(d: Decoder, w: World, a: Action, t: nat)
    requires Ready(d, w, a) && Subject(a) == Some(t) && t in Next(d, w, a).tasks
    ensures var w' := Next(d, w, a); TaskOk(d, w'.auth, w'.holders, t, w'.tasks[t])
  {
    if t in w.tasks {
      match a
      case Advance(_) => if w.tasks[t].pc.Holding? { InspectOk(d, w, t); } else { AdvanceOk(d, w, t); }
      case Body(_, tokens) =>
        if w.tasks[t].pc.Reading? && Check(w.auth, w.tasks[t].pc.own).Ok? { SettleOk(d, w, t, tokens); }
      case _ =>
    }
  }

  lemma NextTask(d: Decoder, w: World, a: Action, t: nat)
    requires Ready(d, w, a) && t in Next(d, w, a).tasks
    requires t in w.tasks ==> TaskOk(d, w.auth, w.holders, t, w.tasks[t])
    ensures var w' := Next(d, w, a); TaskOk(d, w'.auth, w'.holders, t, w'.tasks[t])
  {
    if Subject(a) == Some(t) {
      SubjectOk(d, w, a, t);
    } else if t in w.tasks {
      NextFrame(d, w, a, t);
    }
  }

  // ----- the mutexes -----

  lemma NextHolders(d: Decoder, w: World, a: Action, l: nat)
    requires Ready(d, w, a) && l in Next(d, w, a).holders && (l in w.holders ==> HolderOk(w, l))
    ensures HolderOk(Next(d, w, a), l)
  {
    NextTouches(d, w, a);
  }

  // ----- the requests -----

  // A step that sends does so for the holder of its current session's mutex.
  lemma SendsOne(d: Decoder, w: World, a: Action)
    requires Ready(d, w, a)
    ensures var w' := Next(d, w, a);
            w'.sent == w.sent ||
            (w'.sent == w.sent + [Sent(Subject(a).value, w.auth, w.now)] &&
             Subject(a).value in w.tasks && w.tasks[Subject(a).value].pc.Holding? &&
             w.tasks[Subject(a).value].pc.own == w.auth.watchSession &&
             SentOk(w'.tasks, Sent(Subject(a).value, w.auth, w.now)))
  {
  }

  // A task that has sent keeps its snapshot until it leaves the mutex, and never comes back.
  lemma SentKeeps(d: Decoder, w: World, a: Action, s: Sent)
    requires Ready(d, w, a) && SentOk(w.tasks, s)
    ensures SentOk(Next(d, w, a).tasks, s)
    ensures !Past(w.tasks[s.task].pc) ==> !Past(Next(d, w, a).tasks[s.task].pc)
  {
    if Subject(a) != Some(s.task) {
      NextTouches(d, w, a);
    }
  }

  // Whoever still holds a snapshot of the current version keeps everybody else from sending.
  lemma OneSends(d: Decoder, w: World, s: Sent, t: nat)
    requires Consistent(d, w.auth) && SentOk(w.tasks, s) && t in w.tasks && w.tasks[t].pc.Holding?
    requires TaskOk(d, w.auth, w.holders, s.task, w.tasks[s.task]) && TaskOk(d, w.auth, w.holders, t, w.tasks[t])
    requires w.tasks[t].pc.own == w.auth.watchSession && s.view.version == w.auth.version
    ensures s.task != t && !Past(w.tasks[s.task].pc)
  {
  }

  lemma NextSent(d: Decoder, w: World, a: Action, i: nat)
    requires Inv(d, w) && Ready(d, w, a) && i < |Next(d, w, a).sent|
    ensures var w' := Next(d, w, a);
            SentOk(w'.tasks, w'.sent[i]) && forall j | i < j < |w'.sent| :: Apart(w'.tasks, w'.sent[i], w'.sent[j])
  {
    SendsOne(d, w, a);
    if i < |w.sent| {
      SentKeeps(d, w, a, w.sent[i]);
      assert forall j | i < j < |w.sent| :: Apart(w.tasks, w.sent[i], w.sent[j]);
      if w.sent[i].view.version == w.auth.version && Next(d, w, a).sent != w.sent {
        OneSends(d, w, w.sent[i], Subject(a).value);
      }
    }
  }

  lemma ReadyNow(d: Decoder, w: World, a: Action)
    requires Inv(d, w)
    ensures Ready(d, w, a)
  {
  }

  lemma NextKeeps(d: Decoder, w: World, a: Action)
    requires Inv(d, w)
    ensures Inv(d, Next(d, w, a))
  {
    var w' := Next(d, w, a);
    ReadyNow(d, w, a);
    NextAccount(d, w, a);
    forall t | t in w'.tasks ensures TaskOk(d, w'.auth, w'.holders, t, w'.tasks[t]) {
      NextTask(d, w, a, t);
    }
    forall l | l in w'.holders ensures HolderOk(w', l) {
      NextHolders(d, w, a, l);
    }
    forall i | 0 <= i < |w'.sent|
      ensures SentOk(w'.tasks, w'.sent[i]) && forall j | i < j < |w'.sent| :: Apart(w'.tasks, w'.sent[i], w'.sent[j])
    {
      NextSent(d, w, a, i);
    }
  }

  lemma {:induction false} Reachable(d: Decoder, kind: AuthKind, now: real, actions: seq<Action>)
    ensures forall k: nat | k <= |actions| :: Inv(d, Reach(d, kind, now, actions[..k]))
  {
    if actions == [] {
      assert actions[..0] == [];
    } else {
      var n := |actions| - 1;
      var before := actions[..n];
      Reachable(d, kind, now, before);
      assert before[..n] == before;
      NextKeeps(d, Reach(d, kind, now, before), actions[n]);
      forall k: nat | k <= |actions|
        ensures Inv(d, Reach(d, kind, now, actions[..k]))
      {
        assert k <= n ==> before[..k] == actions[..k];
        assert k > n ==> actions[..k] == actions;
      }
    }
  }

  // ----- what callers rely on -----

  // Headers carry the credentials of the session that was current at the first read, name
  // no other wallet or key than that session's, and are never built after close.
  lemma HeadersBelongToTheirAccount(d: Decoder, kind: AuthKind, now: real, actions: seq<Action>, t: nat)
    requires var w := Reach(d, kind, now, actions);
             t in w.tasks && w.tasks[t].pc.Finished? && w.tasks[t].pc.answer.Headers?
    ensures var task := Reach(d, kind, now, actions).tasks[t];
            && task.first.Some?
            && var (first, view) := (task.first.value, task.pc.answer.view);
            && !view.closed
            && view.version.session == first.version.session
            && SameAccount(first.credentials, view.credentials)
            && (first.identity.Some? ==> view.identity == first.identity)
            && (first.credentials.Tokens? && d.wallet(first.credentials.token).Some?
                && d.wallet(view.credentials.token).Some? ==>
                  d.wallet(view.credentials.token) == d.wallet(first.credentials.token))
  {
    Reachable(d, kind, now, actions);
    assert actions[..|actions|] == actions;
    var w := Reach(d, kind, now, actions);
    assert TaskOk(d, w.auth, w.holders, t, w.tasks[t]);
  }

  // Among tasks of the current session at most one is past the mutex.
  lemma SingleFlight(d: Decoder, kind: AuthKind, now: real, actions: seq<Action>, t: nat, u: nat)
    requires var w := Reach(d, kind, now, actions);
             && t in w.tasks && u in w.tasks
             && Past(w.tasks[t].pc) && Past(w.tasks[u].pc)
             && w.tasks[t].pc.own == w.auth.watchSession == w.tasks[u].pc.own
    ensures t == u
  {
    Reachable(d, kind, now, actions);
    assert actions[..|actions|] == actions;
    var w := Reach(d, kind, now, actions);
    assert TaskOk(d, w.auth, w.holders, t, w.tasks[t]) && TaskOk(d, w.auth, w.holders, u, w.tasks[u]);
  }

  // A mutex is held only by a renewal that is still under way, so a finished, failed or
  // cancelled one never blocks the next.
  lemma NoAbandonedLock(d: Decoder, kind: AuthKind, now: real, actions: seq<Action>, l: nat)
    requires l in Reach(d, kind, now, actions).holders
    ensures var w := Reach(d, kind, now, actions);
            w.holders[l] in w.tasks && !w.tasks[w.holders[l]].pc.Finished?
  {
    Reachable(d, kind, now, actions);
    assert actions[..|actions|] == actions;
  }

  // ----- an expired token is renewed first -----

  // In this step the task reads the account first, as `headers` does.
  predicate ReadsFirst(w: World, a: Action, w': World, t: nat) {
    a == Advance(t) && t in w.tasks && w.tasks[t].pc.HeadersRead? && t in w'.tasks &&
    w'.tasks[t].first == Some(w.auth) && w'.tasks[t].readAt == w.now
  }

  // In this step the task's renewal finds a token that has not expired, or commits its pair.
  predicate Renews(w: World, a: Action, w': World, t: nat) {
    t in w.tasks &&
    ((a == Advance(t) && w.tasks[t].pc.Holding? &&
      w.auth.credentials.Tokens? && w.auth.credentials.tokenExp > w.now) ||
     (a.Body? && a.task == t && a.tokens.Some? &&
      w'.auth.credentials.Tokens? && w'.auth.credentials.token == a.tokens.value.0 &&
      w'.auth.version.revision == w.auth.version.revision + 1))
  }

  // Built, or about to be.
  predicate HeadersReady(pc: Pc) { pc.HeadersFinal? || (pc.Finished? && pc.answer.Headers?) }

  lemma StepReads(d: Decoder, w: World, a: Action, t: nat)
    requires Ready(d, w, a) && t in Next(d, w, a).tasks && Next(d, w, a).tasks[t].first.Some?
    ensures ReadsFirst(w, a, Next(d, w, a), t) ||
            (t in w.tasks && Next(d, w, a).tasks[t].first == w.tasks[t].first && Next(d, w, a).tasks[t].readAt == w.tasks[t].readAt)
  {
    if t in w.tasks && Subject(a) != Some(t) {
      NextTouches(d, w, a);
    }
  }

  ghost predicate ReadsFirstAt(d: Decoder, kind: AuthKind, now: real, actions: seq<Action>, t: nat, k: nat) {
    k < |actions| && ReadsFirst(Reach(d, kind, now, actions[..k]), actions[k], Reach(d, kind, now, actions[..k + 1]), t)
  }

  ghost predicate RenewsAt(d: Decoder, kind: AuthKind, now: real, actions: seq<Action>, t: nat, k: nat) {
    k < |actions| && Renews(Reach(d, kind, now, actions[..k]), actions[k], Reach(d, kind, now, actions[..k + 1]), t)
  }

  lemma LastReady(d: Decoder, kind: AuthKind, now: real, actions: seq<Action>)
    requires actions != []
    ensures Ready(d, Reach(d, kind, now, actions[..|actions| - 1]), actions[|actions| - 1])
  {
    Reachable(d, kind, now, actions);
    ReadyNow(d, Reach(d, kind, now, actions[..|actions| - 1]), actions[|actions| - 1]);
  }

  // What a task holds as its first read is the account at a step where it read it.
  lemma {:induction false} FirstReadIsRecorded(d: Decoder, kind: AuthKind, now: real, actions: seq<Action>, t: nat)
    requires t in Reach(d, kind, now, actions).tasks && Reach(d, kind, now, actions).tasks[t].first.Some?
    ensures exists k: nat :: ReadsFirstAt(d, kind, now, actions, t, k) &&
              Reach(d, kind, now, actions).tasks[t].first == Some(Reach(d, kind, now, actions[..k]).auth) &&
              Reach(d, kind, now, actions).tasks[t].readAt == Reach(d, kind, now, actions[..k]).now
  {
    var n := |actions| - 1;
    var before, w := actions[..n], Reach(d, kind, now, actions[..n]);
    LastReady(d, kind, now, actions);
    StepReads(d, w, actions[n], t);
    assert actions[..n + 1] == actions;
    if ReadsFirst(w, actions[n], Reach(d, kind, now, actions), t) {
      assert ReadsFirstAt(d, kind, now, actions, t, n);
    } else {
      FirstReadIsRecorded(d, kind, now, before, t);
      var k: nat :| ReadsFirstAt(d, kind, now, before, t, k) &&
                    w.tasks[t].first == Some(Reach(d, kind, now, before[..k]).auth) &&
                    w.tasks[t].readAt == Reach(d, kind, now, before[..k]).now;
      assert before[..k] == actions[..k] && before[..k + 1] == actions[..k + 1];
      assert ReadsFirstAt(d, kind, now, actions, t, k);
    }
  }

  // Headers whose first read found an expired token are built only after the same task's
  // renewal found one that has not expired, or committed a new pair.
  lemma {:induction false} ExpiredTokenIsRenewedFirst(d: Decoder, kind: AuthKind, now: real, actions: seq<Action>, t: nat)
    requires var w := Reach(d, kind, now, actions);
             && t in w.tasks && HeadersReady(w.tasks[t].pc)
             && w.tasks[t].first.Some? && w.tasks[t].first.value.credentials.Tokens?
             && w.tasks[t].first.value.credentials.tokenExp <= w.tasks[t].readAt
    ensures exists k: nat :: RenewsAt(d, kind, now, actions, t, k)
  {
    var n := |actions| - 1;
    var before, w := actions[..n], Reach(d, kind, now, actions[..n]);
    LastReady(d, kind, now, actions);
    assert actions[..n + 1] == actions;
    ReadyOrRenews(d, w, actions[n], t);
    if Renews(w, actions[n], Reach(d, kind, now, actions), t) {
      assert RenewsAt(d, kind, now, actions, t, n);
    } else {
      ExpiredTokenIsRenewedFirst(d, kind, now, before, t);
      var k: nat :| RenewsAt(d, kind, now, before, t, k);
      assert before[..k] == actions[..k] && before[..k + 1] == actions[..k + 1];
      assert RenewsAt(d, kind, now, actions, t, k);
    }
  }

  // Such headers were ready before the step, or the step is their renewal.
  lemma ReadyOrRenews(d: Decoder, w: World, a: Action, t: nat)
    requires Ready(d, w, a) && t in Next(d, w, a).tasks
    requires HeadersReady(Next(d, w, a).tasks[t].pc) && FoundExpired(Next(d, w, a).tasks[t])
    ensures t in w.tasks
    ensures Renews(w, a, Next(d, w, a), t) || (HeadersReady(w.tasks[t].pc) && FoundExpired(w.tasks[t]))
  {
    if t in w.tasks && Subject(a) != Some(t) {
      NextTouches(d, w, a);
    }
  }

  // A first read that found anything else, a live token, a key, cookies or nothing, sends no
  // refresh request for its task.
  lemma OnlyExpiredTokensAreRefreshed(d: Decoder, kind: AuthKind, now: real, actions: seq<Action>, i: nat)
    requires i < |Reach(d, kind, now, actions).sent|
    ensures var w := Reach(d, kind, now, actions);
            && w.sent[i].task in w.tasks
            && var task := w.tasks[w.sent[i].task];
               task.first.Some? ==>
                 task.first.value.credentials.Tokens? && task.first.value.credentials.tokenExp <= task.readAt
  {
    Reachable(d, kind, now, actions);
    assert actions[..|actions|] == actions;
    assert SentOk(Reach(d, kind, now, actions).tasks, Reach(d, kind, now, actions).sent[i]);
  }

  // ----- what a renewal does to the account -----

  // A renewal that brings no valid pair back signs its session out, unless its snapshot was
  // superseded; then nothing changes. One that does stores the pair, in the same session
  // exactly when it names no other wallet.
  lemma RenewalSettles(d: Decoder, kind: AuthKind, now: real, actions: seq<Action>, t: nat, tokens: Option<(string, string)>)
    requires var w := Reach(d, kind, now, actions);
             t in w.tasks && w.tasks[t].pc.Reading? && !w.auth.closed && w.auth.version.session == w.tasks[t].pc.own
    ensures var w := Reach(d, kind, now, actions); var after := Next(d, w, Body(t, tokens)).auth;
            var good := w.tasks[t].pc.success && tokens.Some? && d.expiry(tokens.value.0).Some? && d.expiry(tokens.value.1).Some?;
            && (w.auth.version != w.tasks[t].pc.version ==> after == w.auth)
            && (w.auth.version == w.tasks[t].pc.version && !good ==>
                  after.credentials == Empty && after.identity == None && after.version.session == w.auth.version.session + 1)
            && (w.auth.version == w.tasks[t].pc.version && good ==>
                  && after.credentials == Tokens(tokens.value.0, d.expiry(tokens.value.0).value,
                                                 tokens.value.1, d.expiry(tokens.value.1).value)
                  && (after.version.session == w.auth.version.session <==>
                        w.auth.identity.None? || d.wallet(tokens.value.0).None? || d.wallet(tokens.value.0) == w.auth.identity))
  {
    Reachable(d, kind, now, actions);
    assert actions[..|actions|] == actions;
    var w := Reach(d, kind, now, actions);
    assert Consistent(d, w.auth);
  }

  // With both tokens expired the session is signed out on the spot.
  lemma ExpiredRefreshSignsOut(d: Decoder, kind: AuthKind, now: real, actions: seq<Action>, t: nat)
    requires var w := Reach(d, kind, now, actions);
             && t in w.tasks && w.tasks[t].pc.Holding? && w.auth.credentials.Tokens?
             && w.auth.credentials.tokenExp <= w.now && w.auth.credentials.refreshExp <= w.now
    ensures var w := Reach(d, kind, now, actions); var w' := Next(d, w, Advance(t));
            w'.auth.credentials == Empty && w'.auth.version.session == w.auth.version.session + 1 && w'.sent == w.sent
  {
    Reachable(d, kind, now, actions);
    assert actions[..|actions|] == actions;
    assert Consistent(d, Reach(d, kind, now, actions).auth);
  }

  // With a live refresh token the task sends it, in its own session.
  lemma ExpiredAccessIsRefreshed(d: Decoder, w: World, t: nat)
    requires && t in w.tasks && w.tasks[t].pc.Holding? && w.auth.credentials.Tokens?
             && w.auth.credentials.tokenExp <= w.now < w.auth.credentials.refreshExp
             && !w.auth.closed && w.auth.watchSession == w.tasks[t].pc.own
    ensures var w' := Next(d, w, Advance(t));
            && w'.sent == w.sent + [Sent(t, w.auth, w.now)] && w'.auth == w.auth
            && t in w'.tasks && w'.tasks[t].pc.Sending? && w'.tasks[t].pc.version == w.auth.version
  {
  }

  // Why a task may fail: it was aborted, the client closed, its session passed, there was
  // nothing to renew with, the server brought no valid pair, or another was faster.
  ghost predicate Blamed(d: Decoder, w: World, a: Action, t: nat)
    requires t in w.tasks
  {
    || a == Abort(t)
    || w.auth.closed
    || match w.tasks[t].pc
       case HeadersFinal =>
         w.tasks[t].first.None? || w.tasks[t].first.value.version.session != w.auth.version.session
       case Waiting(own, _) => w.auth.version.session != own
       case Holding(own, _) =>
         || w.auth.version.session != own
         || !w.auth.credentials.Tokens?
         || (w.auth.credentials.tokenExp <= w.now && w.auth.credentials.refreshExp <= w.now)
       case Sending(own, _, _) => w.auth.version.session != own
       case Reading(own, _, version, success) =>
         || w.auth.version.session != own || w.auth.version != version || !success
         || (a.Body? && (a.tokens.None? || d.expiry(a.tokens.value.0).None? || d.expiry(a.tokens.value.1).None?))
       case _ => false
  }

  predicate HeldUp(w: World, pc: Pc) { pc.Sending? || pc.Reading? || (pc.Waiting? && pc.lock in w.holders) }

  // A task is held up only by the mutex, while another running task holds it, or by the
  // server; and it fails only for a reason.
  lemma TasksGoOn(d: Decoder, kind: AuthKind, now: real, actions: seq<Action>, a: Action, t: nat)
    requires t in Reach(d, kind, now, actions).tasks && !Reach(d, kind, now, actions).tasks[t].pc.Finished?
    ensures var w := Reach(d, kind, now, actions); var w' := Next(d, w, a);
            && t in w'.tasks
            && (w'.tasks[t].pc == Finished(Failed) ==> Blamed(d, w, a, t))
            && (a == Advance(t) && w'.tasks[t].pc == w.tasks[t].pc ==> HeldUp(w, w.tasks[t].pc))
  {
    Reachable(d, kind, now, actions);
    assert actions[..|actions|] == actions;
    var w := Reach(d, kind, now, actions);
    ReadyNow(d, w, a);
    if Subject(a) == Some(t) {
      SubjectGoesOn(d, w, a, t);
    } else {
      NextTouches(d, w, a);
    }
  }

  lemma SubjectGoesOn(d: Decoder, w: World, a: Action, t: nat)
    requires t in w.tasks && !w.tasks[t].pc.Finished? && Subject(a) == Some(t) && Consistent(d, w.auth)
    ensures var w' := Next(d, w, a);
            && t in w'.tasks
            && (w'.tasks[t].pc == Finished(Failed) ==> Blamed(d, w, a, t))
            && (a == Advance(t) && w'.tasks[t].pc == w.tasks[t].pc ==> HeldUp(w, w.tasks[t].pc))
  {
  }

  // ----- tasks left to themselves -----

  function Advanced(d: Decoder, w: World, t: nat, n: nat): World
    decreases n
  {
    if n == 0 then w else Advanced(d, Next(d, w, Advance(t)), t, n - 1)
  }

  ghost predicate HasHeaders(w: World, t: nat) { t in w.tasks && w.tasks[t].pc == Finished(Headers(w.auth)) }

  function WithTask(w: World, t: nat, task: Task): World { w.(tasks := w.tasks[t := task]) }

  lemma UndisturbedStart(d: Decoder, w: World, t: nat)
    requires t !in w.tasks && Consistent(d, w.auth) && !w.auth.closed
    ensures var begun := WithTask(w, t, Task(None, 0.0, HeadersStart));
            var expired := w.auth.credentials.Tokens? && w.auth.credentials.tokenExp <= w.now;
            && Next(d, w, OpenHeaders(t)) == begun
            && Next(d, Next(d, begun, Advance(t)), Advance(t)) ==
                 WithTask(w, t, Task(Some(w.auth), w.now, if expired then RenewStart else HeadersFinal))
  {
    var begun := WithTask(w, t, Task(None, 0.0, HeadersStart));
    assert Next(d, begun, Advance(t)) == WithTask(w, t, Task(None, 0.0, HeadersRead));
  }

  // Headers over anything but an expired token are built from it at once.
  lemma UndisturbedHeaders(d: Decoder, w: World, t: nat)
    requires t !in w.tasks && Consistent(d, w.auth) && !w.auth.closed
    requires w.auth.credentials.Tokens? ==> w.now < w.auth.credentials.tokenExp
    ensures var v := Advanced(d, Next(d, w, OpenHeaders(t)), t, 3);
            HasHeaders(v, t) && v.auth == w.auth && v.sent == w.sent
  {
    UndisturbedStart(d, w, t);
    var ready := WithTask(w, t, Task(Some(w.auth), w.now, HeadersFinal));
    assert Next(d, ready, Advance(t)) == WithTask(w, t, Task(Some(w.auth), w.now, Finished(Headers(w.auth))));
  }

  // Over an expired token with a live refresh token, and a free mutex, they first send one
  // request.
  lemma UndisturbedRequest(d: Decoder, w: World, t: nat)
    requires t !in w.tasks && Consistent(d, w.auth) && !w.auth.closed && w.auth.refreshLock !in w.holders
    requires w.auth.credentials.Tokens? && w.auth.credentials.tokenExp <= w.now < w.auth.credentials.refreshExp
    ensures var v := Advanced(d, Next(d, w, OpenHeaders(t)), t, 6);
            && v.auth == w.auth && v.now == w.now && v.sent == w.sent + [Sent(t, w.auth, w.now)]
            && t in v.tasks && v.tasks[t] == Task(Some(w.auth), w.now, Sending(w.auth.watchSession, w.auth.refreshLock, w.auth.version))
  {
    UndisturbedStart(d, w, t);
    UndisturbedLock(d, w, t);
    UndisturbedSend(d, w, t);
  }

  function Expired(w: World, pc: Pc): Task { Task(Some(w.auth), w.now, pc) }

  lemma UndisturbedLock(d: Decoder, w: World, t: nat)
    requires Consistent(d, w.auth) && !w.auth.closed && w.auth.refreshLock !in w.holders
    ensures var (own, lock) := (w.auth.watchSession, w.auth.refreshLock);
            Next(d, Next(d, Next(d, WithTask(w, t, Expired(w, RenewStart)), Advance(t)), Advance(t)), Advance(t)) ==
            WithTask(w, t, Expired(w, Holding(own, lock))).(holders := w.holders[lock := t])
  {
    var (own, lock) := (w.auth.watchSession, w.auth.refreshLock);
    assert Next(d, WithTask(w, t, Expired(w, RenewStart)), Advance(t)) == WithTask(w, t, Expired(w, Locking(own)));
    assert Next(d, WithTask(w, t, Expired(w, Locking(own))), Advance(t)) == WithTask(w, t, Expired(w, Waiting(own, lock)));
  }

  lemma UndisturbedSend(d: Decoder, w: World, t: nat)
    requires Consistent(d, w.auth) && !w.auth.closed
    requires w.auth.credentials.Tokens? && w.auth.credentials.tokenExp <= w.now < w.auth.credentials.refreshExp
    ensures var (own, lock) := (w.auth.watchSession, w.auth.refreshLock);
            var holding := WithTask(w, t, Expired(w, Holding(own, lock))).(holders := w.holders[lock := t]);
            Next(d, holding, Advance(t)) ==
            holding.(tasks := w.tasks[t := Expired(w, Sending(own, lock, w.auth.version))], sent := w.sent + [Sent(t, w.auth, w.now)])
  {
  }

  // The pair that comes back for the same wallet is what they carry, and the mutex is free.
  lemma UndisturbedRenewal(d: Decoder, w: World, t: nat, token: string, refresh: string)
    requires t in w.tasks && Consistent(d, w.auth) && !w.auth.closed && w.auth.credentials.Tokens?
    requires w.tasks[t] == Task(Some(w.auth), w.now, Sending(w.auth.watchSession, w.auth.refreshLock, w.auth.version))
    requires d.expiry(token).Some? && d.expiry(refresh).Some?
    requires w.auth.identity.Some? && d.wallet(token).Some? ==> w.auth.identity == d.wallet(token)
    ensures var v := Next(d, Next(d, Next(d, w, Respond(t, true)), Body(t, Some((token, refresh)))), Advance(t));
            && HasHeaders(v, t) && w.auth.refreshLock !in v.holders && v.sent == w.sent
            && v.auth.credentials == Tokens(token, d.expiry(token).value, refresh, d.expiry(refresh).value)
  {
    var read := Next(d, w, Respond(t, true));
    assert read.tasks[t].pc == Reading(w.auth.watchSession, w.auth.refreshLock, w.auth.version, true);
    var back := Next(d, read, Body(t, Some((token, refresh))));
    assert back.tasks[t].pc == HeadersFinal && back.auth.version.session == w.auth.version.session;
  }

  // A task that is aborted, or whose session passed while the server answered, fails and
  // leaves the account as it is; events and time move the account and the clock alone.
  lemma OthersMove(d: Decoder, w: World, t: nat, a: Action)
    requires Consistent(d, w.auth)
    ensures t in w.tasks && !w.tasks[t].pc.Finished? &&
            (a == Abort(t) ||
             (a.Respond? && a.task == t && w.tasks[t].pc.Sending? && w.auth.version.session != w.tasks[t].pc.own) ||
             (a.Body? && a.task == t && w.tasks[t].pc.Reading? && w.auth.version.session != w.tasks[t].pc.own)) ==>
              var v := Next(d, w, a); t in v.tasks && v.tasks[t].pc == Finished(Failed) && v.auth == w.auth && v.sent == w.sent
    ensures a.Account? && Permitted(w.auth, a.event) ==> Next(d, w, a) == w.(auth := Apply(d, w.auth, a.event))
    ensures a.Tick? && w.now <= a.now ==> Next(d, w, a) == w.(now := a.now)
  {
  }

  // Every request that went out was needed, and two for the same snapshot never overlap:
  // when the second left, the task of the first had given up.
  lemma OneRequestPerSnapshot(d: Decoder, kind: AuthKind, now: real, actions: seq<Action>, i: nat, j: nat)
    requires i < j < |Reach(d, kind, now, actions).sent|
    ensures var w := Reach(d, kind, now, actions);
            var (earlier, later) := (w.sent[i], w.sent[j]);
            && (forall k | k in {i, j} :: SentOk(w.tasks, w.sent[k]))
            && (earlier.view.version == later.view.version ==> !Past(w.tasks[earlier.task].pc))
  {
    Reachable(d, kind, now, actions);
    assert actions[..|actions|] == actions;
    var w := Reach(d, kind, now, actions);
    assert SentOk(w.tasks, w.sent[i]) && SentOk(w.tasks, w.sent[j]) && Apart(w.tasks, w.sent[i], w.sent[j]);
  }

  // ----- reusing a commit -----

  lemma ReachStep(d: Decoder, kind: AuthKind, now: real, actions: seq<Action>, i: nat)
    requires i < |actions|
    ensures Reach(d, kind, now, actions[..i + 1]) == Next(d, Reach(d, kind, now, actions[..i]), actions[i])
  {
    assert actions[..i + 1][..i] == actions[..i];
  }

  lemma {:induction false} ReachLater(d: Decoder, kind: AuthKind, now: real, actions: seq<Action>, j: nat)
    requires j <= |actions|
    ensures forall i: nat | i <= j :: Later(Reach(d, kind, now, actions[..i]).auth, Reach(d, kind, now, actions[..j]).auth)
  {
    if j > 0 {
      var w, w' := Reach(d, kind, now, actions[..j - 1]), Reach(d, kind, now, actions[..j]);
      ReachLater(d, kind, now, actions, j - 1);
      Reachable(d, kind, now, actions);
      ReadyNow(d, w, actions[j - 1]);
      NextAccount(d, w, actions[j - 1]);
      ReachStep(d, kind, now, actions, j - 1);
      forall i: nat | i <= j
        ensures Later(Reach(d, kind, now, actions[..i]).auth, w'.auth)
      {
        if i < j {
          LaterTransitive(Reach(d, kind, now, actions[..i]).auth, w.auth, w'.auth);
        }
      }
    }
  }

  // Where a task that waited for a mutex can be: still waiting, past it, or done.
  predicate Since(pc: Pc, own: nat, lock: nat, acquired: bool) {
    match pc
    case Waiting(o, l) => o == own && l == lock
    case Holding(o, l) => o == own && l == lock && acquired
    case Sending(_, _, _) => true
    case Reading(_, _, _, _) => true
    case HeadersFinal => true
    case Finished(_) => true
    case _ => false
  }

  lemma SinceStep(d: Decoder, w: World, a: Action, b: nat, own: nat, lock: nat, acquired: bool)
    requires Ready(d, w, a) && b in w.tasks && Since(w.tasks[b].pc, own, lock, acquired)
    ensures b in Next(d, w, a).tasks
    ensures Since(Next(d, w, a).tasks[b].pc, own, lock, acquired || w.auth.watchSession == own)
  {
    if Subject(a) != Some(b) {
      NextTouches(d, w, a);
    }
  }

  // It acquired the mutex while its own session was current.
  lemma {:induction false} AcquiredInItsSession(d: Decoder, kind: AuthKind, now: real, actions: seq<Action>,
                                                i: nat, j: nat, b: nat, own: nat, lock: nat)
    returns (acquired: bool, k: nat)
    requires i <= j <= |actions| && b in Reach(d, kind, now, actions[..i]).tasks
    requires Reach(d, kind, now, actions[..i]).tasks[b].pc == Waiting(own, lock)
    ensures b in Reach(d, kind, now, actions[..j]).tasks
    ensures Since(Reach(d, kind, now, actions[..j]).tasks[b].pc, own, lock, acquired)
    ensures acquired ==> i <= k < j && Reach(d, kind, now, actions[..k]).auth.watchSession == own
    decreases j
  {
    if i == j {
      acquired, k := false, i;
    } else {
      acquired, k := AcquiredInItsSession(d, kind, now, actions, i, j - 1, b, own, lock);
      var w := Reach(d, kind, now, actions[..j - 1]);
      assert actions[..j][..j - 1] == actions[..j - 1];
      LastReady(d, kind, now, actions[..j]);
      SinceStep(d, w, actions[j - 1], b, own, lock, acquired);
      ReachStep(d, kind, now, actions, j - 1);
      if !acquired && w.auth.watchSession == own {
        acquired, k := true, j - 1;
      }
    }
  }

  // Task `a` commits a renewal at this step.
  predicate Commits(d: Decoder, w: World, a: nat, tokens: (string, string)) {
    a in w.tasks && w.tasks[a].pc.Reading? && w.tasks[a].pc.success &&
    Check(w.auth, w.tasks[a].pc.own).Ok? && Clears(w.auth, w.tasks[a].pc.version) && ParsePair(d, Some(tokens)).Some?
  }

  lemma CommitStores(d: Decoder, w: World, a: nat, tokens: (string, string), b: nat)
    requires Commits(d, w, a, tokens) && b in w.tasks && w.tasks[b].pc.Waiting?
    ensures var w' := Next(d, w, Body(a, Some(tokens)));
            && w'.auth.credentials.Tokens? && w'.auth.credentials.token == tokens.0
            && w'.auth.credentials.tokenExp == d.expiry(tokens.0).value
            && b in w'.tasks && w'.tasks[b] == w.tasks[b]
  {
  }

  lemma FreshIsReturned(d: Decoder, w: World, b: nat)
    requires b in w.tasks && w.tasks[b].pc.Holding?
    requires w.auth.credentials.Tokens? && w.auth.credentials.tokenExp > w.now
    ensures var w' := Next(d, w, Advance(b));
            && w'.sent == w.sent && w'.auth == w.auth && b in w'.tasks
            && w'.tasks[b].pc == (if w.tasks[b].first.Some? then HeadersFinal
                                  else Finished(Renewed(w.auth.credentials.token)))
  {
  }

  // Task `b` waits for the mutex of its session while task `a` commits a renewal at step `i`.
  // When `b` has acquired it and looks, at step `j`, with the committed version still in
  // place and its token not expired, the commit was to its own session, and `b` is done with
  // that very token and sends nothing.
  lemma WaiterReusesTheCommit(d: Decoder, kind: AuthKind, now: real, actions: seq<Action>, i: nat, j: nat,
                              a: nat, b: nat, tokens: (string, string))
    requires i < j < |actions| && actions[i] == Body(a, Some(tokens)) && actions[j] == Advance(b)
    requires var w := Reach(d, kind, now, actions[..i]);
             Commits(d, w, a, tokens) && b in w.tasks && w.tasks[b].pc.Waiting?
    requires var v := Reach(d, kind, now, actions[..j]);
             && v.auth.version == Reach(d, kind, now, actions[..i + 1]).auth.version
             && b in v.tasks && v.tasks[b].pc.Holding?
             && d.expiry(tokens.0).value > v.now
    ensures var (v, v') := (Reach(d, kind, now, actions[..j]), Reach(d, kind, now, actions[..j + 1]));
            && v.auth.watchSession == Reach(d, kind, now, actions[..i]).tasks[b].pc.own
            && v'.sent == v.sent && v'.auth == v.auth
            && v'.auth.credentials.Tokens? && v'.auth.credentials.token == tokens.0
            && b in v'.tasks && v'.tasks[b].pc == (if v.tasks[b].first.Some? then HeadersFinal else Finished(Renewed(tokens.0)))
  {
    var w, v := Reach(d, kind, now, actions[..i]), Reach(d, kind, now, actions[..j]);
    var committed := Reach(d, kind, now, actions[..i + 1]);
    ReachStep(d, kind, now, actions, i);
    CommitStores(d, w, a, tokens, b);
    ReachLater(d, kind, now, actions, j);
    ReachStep(d, kind, now, actions, j);
    FreshIsReturned(d, v, b);
    var acquired, k := AcquiredInItsSession(d, kind, now, actions, i + 1, j, b, w.tasks[b].pc.own, w.tasks[b].pc.lock);
    ReachLater(d, kind, now, actions, k);
    assert Later(committed.auth, Reach(d, kind, now, actions[..k]).auth) && Later(Reach(d, kind, now, actions[..k]).auth, v.auth);
    Reachable(d, kind, now, actions);
  }
}
