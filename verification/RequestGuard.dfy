// `RequestSession::run`: who may still be handed the result of an asynchronous request.
//
// A guard owns one future. Guards nested in the same future share an `Operation`, which
// records the sign-out that this future's own 401 caused. The world below interleaves
// guards, requests that may cause such sign-outs, and every other account event.
module RequestGuard {
  import opened Wrappers
  import opened Auth

  // What the inner future produced.
  datatype Outcome = Success | Unauthorized | Failure

  datatype Final = Delivered(outcome: Outcome) | Refused(error: AuthError)

  datatype Operation = Operation(session: nat, rejectedAt: Option<nat>)

  predicate OwnsRejection(id: nat, op: Operation, current: nat) {
    op.session == id && op.rejectedAt == Some(current)
  }

  // An enclosing operation is reused by a guard of its session or of the epoch it signed out.
  predicate Adopts(op: Operation, id: nat) {
    op.session == id || op.rejectedAt == Some(id)
  }

  // The `changed` arm; None keeps the loop going under the signed-out epoch.
  function OnChanged(s: View, id: nat, op: Operation, dropped: bool): Option<Final> {
    if dropped || s.closed then Some(Refused(Closed))
    else if OwnsRejection(id, op, s.watchSession) then None
    else match Check(s, id)
      case Err(e) => Some(Refused(e))
      case Ok(_) => Some(Refused(Closed))
  }

  // The arm taken when the inner future finishes.
  function OnResult(s: View, id: nat, op: Operation, outcome: Outcome): Final {
    if s.closed || !OwnsRejection(id, op, s.watchSession) || outcome != Unauthorized then
      match Check(s, id)
      case Err(e) => Refused(e)
      case Ok(_) => Delivered(outcome)
    else Delivered(outcome)
  }

  // ----- the loop as an object -----

  class OperationCell {
    const session: nat
    var rejectedAt: Option<nat>

    constructor (session: nat)
      ensures this.session == session && rejectedAt == None
    {
      this.session, rejectedAt := session, None;
    }

    function Value(): Operation
      reads this
    {
      Operation(session, rejectedAt)
    }

    // `record_matching_rejection` for a handle of session `id` on the same channel.
    method Record(id: nat, signedOut: nat)
      modifies this
      ensures rejectedAt == if session == id then Some(signedOut) else old(rejectedAt)
    {
      if session == id {
        rejectedAt := Some(signedOut);
      }
    }
  }

  class GuardLoop {
    const id: nat
    const operation: OperationCell
    var awaited: nat   // the number the `changed` arm is waiting to leave

    constructor (id: nat, enclosing: Option<OperationCell>)
      ensures this.id == id && awaited == id
      ensures if enclosing.Some? && Adopts(enclosing.value.Value(), id) then operation == enclosing.value
              else fresh(operation) && operation.Value() == Operation(id, None)
    {
      this.id, awaited := id, id;
      if enclosing.Some? && Adopts(enclosing.value.Value(), id) {
        operation := enclosing.value;
      } else {
        operation := new OperationCell(id);
      }
    }

    method Changed(s: View, dropped: bool) returns (final: Option<Final>)
      modifies this
      ensures final == OnChanged(s, id, operation.Value(), dropped)
      ensures awaited == if final.None? then s.watchSession else old(awaited)
    {
      if dropped || s.closed {
        return Some(Refused(Closed));
      }
      var current := s.watchSession;
      if operation.session == id && operation.rejectedAt == Some(current) {
        awaited := current;
        return None;
      }
      match Check(s, id)
      case Err(e) => return Some(Refused(e));
      case Ok(_) => return Some(Refused(Closed));
    }

    method Finished(s: View, outcome: Outcome) returns (final: Final)
      ensures final == OnResult(s, id, operation.Value(), outcome)
    {
      var owned := operation.session == id && operation.rejectedAt == Some(s.watchSession);
      if s.closed || !owned || outcome != Unauthorized {
        match Check(s, id)
        case Err(e) => return Refused(e);
        case Ok(_) =>
      }
      return Delivered(outcome);
    }
  }

  // ----- the world -----

  datatype Phase =
    | Running
    | Returned(final: Final, at: View, dropped: bool)   // the account state then, and whether the channel was gone

  datatype Guard = Guard(id: nat, awaited: nat, op: nat, phase: Phase)

  // An authenticated request on its way to a possible 401 (`send_authenticated`, and the
  // same shape in `renew_token`): it takes a session handle, reads a version, is let
  // through by its guard, and may then find itself refused by the server.
  datatype Stage = Opened | Prepared(version: Version) | Sent(version: Version) | Done

  datatype Request = Request(op: Option<nat>, session: nat, stage: Stage)

  datatype World = World(
    auth: View,
    ops: map<nat, Operation>,
    guards: map<nat, Guard>,
    requests: map<nat, Request>,
    endedBy: map<nat, nat>)        // history: the operation whose rejection ended a session

  datatype Action =
    | Account(event: Event)
    | Begin(guard: nat, id: nat, enclosing: Option<nat>, freshOp: nat)
    | SessionMoved(guard: nat, dropped: bool)
    | Finish(guard: nat, outcome: Outcome)
    | Open(request: nat, op: Option<nat>)
    | Prepare(request: nat)
    | Send(request: nat)
    | Refuse(request: nat)

  predicate Enabled(w: World, a: Action) {
    match a
    case Account(e) => Permitted(w.auth, e)
    case Begin(g, id, enclosing, freshOp) =>
      && g !in w.guards && id <= w.auth.watchSession && freshOp !in w.ops
      && (enclosing.Some? ==> enclosing.value in w.ops)
    case SessionMoved(g, dropped) =>
      && g in w.guards && w.guards[g].phase.Running? && w.guards[g].op in w.ops
      && (dropped || w.auth.closed || w.auth.watchSession != w.guards[g].awaited)
    case Finish(g, _) => g in w.guards && w.guards[g].phase.Running? && w.guards[g].op in w.ops
    case Open(r, op) => r !in w.requests && (op.Some? ==> op.value in w.ops)
    case Prepare(r) => r in w.requests && w.requests[r].stage.Opened?
    case Send(r) =>
      // The guard around `headers` delivers only while its session is current.
      r in w.requests && w.requests[r].stage.Prepared? && Check(w.auth, w.requests[r].session).Ok?
    case Refuse(r) => r in w.requests && w.requests[r].stage.Sent?
  }

  function Next(d: Decoder, w: World, a: Action): World {
    if !Enabled(w, a) then w
    else match a
      case Account(e) => w.(auth := Apply(d, w.auth, e))
      case Begin(g, id, enclosing, freshOp) =>
        if Check(w.auth, id).Err? then
          w.(guards := w.guards[g := Guard(id, id, freshOp, Returned(Refused(Check(w.auth, id).error), w.auth, false))],
             ops := w.ops[freshOp := Operation(id, None)])
        else if enclosing.Some? && Adopts(w.ops[enclosing.value], id) then
          w.(guards := w.guards[g := Guard(id, id, enclosing.value, Running)])
        else
          w.(guards := w.guards[g := Guard(id, id, freshOp, Running)],
             ops := w.ops[freshOp := Operation(id, None)])
      case SessionMoved(g, dropped) =>
        var guard := w.guards[g];
        (match OnChanged(w.auth, guard.id, w.ops[guard.op], dropped)
         case None => w.(guards := w.guards[g := guard.(awaited := w.auth.watchSession)])
         case Some(final) => w.(guards := w.guards[g := guard.(phase := Returned(final, w.auth, dropped))]))
      case Finish(g, outcome) =>
        var guard := w.guards[g];
        var final := OnResult(w.auth, guard.id, w.ops[guard.op], outcome);
        w.(guards := w.guards[g := guard.(phase := Returned(final, w.auth, false))])
      case Open(r, op) => w.(requests := w.requests[r := Request(op, w.auth.watchSession, Opened)])
      case Prepare(r) => w.(requests := w.requests[r := w.requests[r].(stage := Prepared(w.auth.version))])
      case Send(r) =>
        w.(requests := w.requests[r := w.requests[r].(stage := Sent(w.requests[r].stage.version))])
      case Refuse(r) =>
        var request := w.requests[r];
        var w' := w.(auth := ClearIfVersion(w.auth, request.stage.version),
                     requests := w.requests[r := request.(stage := Done)]);
        if Clears(w.auth, request.stage.version) && request.op.Some? && request.op.value in w.ops
           && w.ops[request.op.value].session == request.session then
          var o := request.op.value;
          w'.(ops := w.ops[o := w.ops[o].(rejectedAt := Some(w'.auth.watchSession))],
              endedBy := w.endedBy[request.session := o])
        else w'
  }

  function Start(kind: AuthKind): World {
    World(Initial(kind), map[], map[], map[], map[])
  }

  function Reach(d: Decoder, kind: AuthKind, actions: seq<Action>): World {
    if actions == [] then Start(kind)
    else Next(d, Reach(d, kind, actions[..|actions| - 1]), actions[|actions| - 1])
  }

  // ----- the invariant -----

  predicate OperationOk(w: World, o: nat)
    requires o in w.ops
  {
    var op := w.ops[o];
    && op.session <= w.auth.watchSession
    && (op.rejectedAt.Some? ==>
          && op.rejectedAt.value == op.session + 1 <= w.auth.watchSession
          && op.session in w.endedBy && w.endedBy[op.session] == o)
  }

  predicate RequestOk(w: World, r: nat)
    requires r in w.requests
  {
    var request := w.requests[r];
    && request.session <= w.auth.watchSession
    && match request.stage
       case Opened => true
       case Prepared(v) => request.session <= v.session <= w.auth.watchSession
       case Sent(v) => request.session == v.session
       case Done => true
  }

  // The result a returned guard was allowed to hand over.
  predicate Rightful(w: World, guard: Guard)
    requires guard.phase.Returned?
  {
    var (final, at) := (guard.phase.final, guard.phase.at);
    match final
    case Delivered(outcome) =>
      && !at.closed
      && (at.watchSession == guard.id
          || (outcome == Unauthorized
              && at.watchSession == guard.id + 1
              && guard.id in w.endedBy && w.endedBy[guard.id] == guard.op))
    case Refused(e) =>
      || (e == Closed && (at.closed || guard.phase.dropped))
      || (e == SessionChanged && at.watchSession != guard.id)
  }

  // A guard waits to leave its own session, or the epoch its own operation signed out into.
  predicate AwaitsOk(w: World, guard: Guard) {
    || guard.awaited == guard.id
    || (guard.awaited == guard.id + 1 <= w.auth.watchSession && guard.id in w.endedBy && w.endedBy[guard.id] == guard.op)
  }

  predicate GuardOk(w: World, g: nat)
    requires g in w.guards
  {
    var guard := w.guards[g];
    && guard.id <= w.auth.watchSession && guard.op in w.ops
    && AwaitsOk(w, guard)
    && (guard.phase.Returned? ==> Rightful(w, guard))
  }

  // The operation named holds the rejection that opened the next epoch.
  predicate EndingOk(w: World, s: nat)
    requires s in w.endedBy
  {
    s < w.auth.watchSession && w.endedBy[s] in w.ops && w.ops[w.endedBy[s]] == Operation(s, Some(s + 1))
  }

  ghost predicate Inv(d: Decoder, w: World) {
    && Consistent(d, w.auth)
    && (forall o | o in w.ops :: OperationOk(w, o))
    && (forall r | r in w.requests :: RequestOk(w, r))
    && (forall g | g in w.guards :: GuardOk(w, g))
    && (forall s | s in w.endedBy :: EndingOk(w, s))
  }

  // What a step depends on: the account, and for a refusal its request and the history of
  // the session it came from.
  ghost predicate Ready(d: Decoder, w: World, a: Action) {
    Consistent(d, w.auth) &&
    (a.Refuse? && a.request in w.requests ==>
       RequestOk(w, a.request) &&
       (w.requests[a.request].session in w.endedBy ==> w.requests[a.request].session < w.auth.watchSession))
  }

  lemma ReadyNow(d: Decoder, w: World, a: Action)
    requires Inv(d, w)
    ensures Ready(d, w, a)
  {
    if a.Refuse? && a.request in w.requests && w.requests[a.request].session in w.endedBy {
      assert EndingOk(w, w.requests[a.request].session);
    }
  }

  lemma NextAccount(d: Decoder, w: World, a: Action)
    requires Consistent(d, w.auth)
    ensures Consistent(d, Next(d, w, a).auth)
    ensures Later(w.auth, Next(d, w, a).auth)
  {
    if Enabled(w, a) {
      match a
      case Account(e) => ApplyKeeps(d, w.auth, e);
      case Refuse(r) => ApplyKeeps(d, w.auth, Reject(w.requests[r].stage.version));
      case _ =>
    }
  }

  // A sign-out is recorded only for the session that is current, so history only grows.
  lemma NextHistory(d: Decoder, w: World, a: Action)
    requires Ready(d, w, a)
    ensures forall s | s in w.endedBy :: s in Next(d, w, a).endedBy && Next(d, w, a).endedBy[s] == w.endedBy[s]
  {
  }

  // An operation is left alone, or gets the rejection that ends the session it belongs to.
  lemma NextOps(d: Decoder, w: World, a: Action, o: nat)
    requires Ready(d, w, a) && o in w.ops
    ensures var w' := Next(d, w, a);
            && o in w'.ops
            && (w'.ops[o] == w.ops[o] ||
                (w.ops[o].session == w.auth.watchSession && w'.auth.watchSession == w.auth.watchSession + 1 &&
                 w'.ops[o] == Operation(w.ops[o].session, Some(w'.auth.watchSession)) &&
                 w'.endedBy == w.endedBy[w.ops[o].session := o]))
  {
  }

  // A new ending is that of the session that was current.
  lemma NewEnding(d: Decoder, w: World, a: Action, s: nat)
    requires Ready(d, w, a) && s in Next(d, w, a).endedBy && s !in w.endedBy
    ensures s == w.auth.watchSession && EndingOk(Next(d, w, a), s)
  {
  }

  lemma NextEnding(d: Decoder, w: World, a: Action, s: nat)
    requires Ready(d, w, a) && s in Next(d, w, a).endedBy && (s in w.endedBy ==> EndingOk(w, s))
    ensures EndingOk(Next(d, w, a), s)
  {
    NextAccount(d, w, a);
    if s in w.endedBy {
      NextHistory(d, w, a);
      NextOps(d, w, a, w.endedBy[s]);
    } else {
      NewEnding(d, w, a, s);
    }
  }

  lemma NewOperation(d: Decoder, w: World, a: Action, o: nat)
    requires Ready(d, w, a) && o in Next(d, w, a).ops && o !in w.ops
    ensures Next(d, w, a).ops[o].rejectedAt == None && Next(d, w, a).ops[o].session <= Next(d, w, a).auth.watchSession
  {
  }

  lemma NextOperation(d: Decoder, w: World, a: Action, o: nat)
    requires Ready(d, w, a) && o in Next(d, w, a).ops && (o in w.ops ==> OperationOk(w, o))
    ensures OperationOk(Next(d, w, a), o)
  {
    NextAccount(d, w, a);
    if o in w.ops {
      NextHistory(d, w, a);
      NextOps(d, w, a, o);
    } else {
      NewOperation(d, w, a, o);
    }
  }

  lemma NextRequest(d: Decoder, w: World, a: Action, r: nat)
    requires Ready(d, w, a) && r in Next(d, w, a).requests && (r in w.requests ==> RequestOk(w, r))
    ensures RequestOk(Next(d, w, a), r)
  {
    NextAccount(d, w, a);
  }

  // Both arms of the loop return only what is rightful; the first runs only when it has
  // something to wake for.
  lemma ArmsAreRightful(w: World, guard: Guard, outcome: Outcome, dropped: bool)
    requires guard.op in w.ops && OperationOk(w, guard.op) && guard.id <= w.auth.watchSession && AwaitsOk(w, guard)
    ensures Rightful(w, guard.(phase := Returned(OnResult(w.auth, guard.id, w.ops[guard.op], outcome), w.auth, false)))
    ensures var moved := OnChanged(w.auth, guard.id, w.ops[guard.op], dropped);
            moved.Some? && (dropped || w.auth.closed || w.auth.watchSession != guard.awaited) ==>
              Rightful(w, guard.(phase := Returned(moved.value, w.auth, dropped)))
  {
  }

  // Guard `g` is left alone or returns.
  lemma NextFrame(d: Decoder, w: World, a: Action, g: nat)
    requires g in w.guards && GuardOk(w, g) && OperationOk(w, w.guards[g].op)
    ensures var w' := Next(d, w, a);
            && g in w'.guards && w'.guards[g].id == w.guards[g].id && w'.guards[g].op == w.guards[g].op
            && w.guards[g].op in w'.ops
            && (w'.guards[g].awaited == w.guards[g].awaited || AwaitsOk(w, w'.guards[g]))
            && (w'.guards[g].phase == w.guards[g].phase || Rightful(w, w'.guards[g]))
  {
    if Enabled(w, a) {
      match a
      case SessionMoved(h, dropped) => if h == g { ArmsAreRightful(w, w.guards[g], Success, dropped); }
      case Finish(h, outcome) => if h == g { ArmsAreRightful(w, w.guards[g], outcome, false); }
      case _ =>
    }
  }

  lemma NewGuard(d: Decoder, w: World, a: Action, g: nat)
    requires g in Next(d, w, a).guards && g !in w.guards
    ensures GuardOk(Next(d, w, a), g)
  {
  }

  lemma NextGuard(d: Decoder, w: World, a: Action, g: nat)
    requires Ready(d, w, a) && g in Next(d, w, a).guards
    requires g in w.guards ==> GuardOk(w, g) && OperationOk(w, w.guards[g].op)
    ensures GuardOk(Next(d, w, a), g)
  {
    if g in w.guards {
      NextAccount(d, w, a);
      NextHistory(d, w, a);
      NextFrame(d, w, a, g);
    } else {
      NewGuard(d, w, a, g);
    }
  }

  lemma NextKeeps(d: Decoder, w: World, a: Action)
    requires Inv(d, w)
    ensures Inv(d, Next(d, w, a))
  {
    var w' := Next(d, w, a);
    ReadyNow(d, w, a);
    NextAccount(d, w, a);
    forall o | o in w'.ops ensures OperationOk(w', o) { NextOperation(d, w, a, o); }
    forall r | r in w'.requests ensures RequestOk(w', r) { NextRequest(d, w, a, r); }
    forall g | g in w'.guards ensures GuardOk(w', g) {
      assert g in w.guards ==> GuardOk(w, g) && OperationOk(w, w.guards[g].op);
      NextGuard(d, w, a, g);
    }
    forall s | s in w'.endedBy ensures EndingOk(w', s) { NextEnding(d, w, a, s); }
  }

  lemma {:induction false} Reachable(d: Decoder, kind: AuthKind, actions: seq<Action>)
    ensures Inv(d, Reach(d, kind, actions))
  {
    if actions != [] {
      Reachable(d, kind, actions[..|actions| - 1]);
      NextKeeps(d, Reach(d, kind, actions[..|actions| - 1]), actions[|actions| - 1]);
    }
  }

  // ----- result ownership -----

  // In every interleaving: a success is handed over only while its session is current and
  // the client open; a result of an ended session is handed over only when it is a 401,
  // the guard's own operation ended that session, and nothing ended the next one since.
  lemma ResultOwnership(d: Decoder, kind: AuthKind, actions: seq<Action>, g: nat)
    requires g in Reach(d, kind, actions).guards
    requires Reach(d, kind, actions).guards[g].phase.Returned?
    ensures var w := Reach(d, kind, actions);
            var guard := w.guards[g];
            var (final, at) := (guard.phase.final, guard.phase.at);
            && (final.Delivered? && final.outcome == Success ==> !at.closed && at.watchSession == guard.id)
            && (final.Delivered? && at.watchSession != guard.id ==>
                  && final.outcome == Unauthorized && !at.closed
                  && at.watchSession == guard.id + 1
                  && guard.id in w.endedBy && w.endedBy[guard.id] == guard.op)
            && (final.Refused? ==>
                  || (final.error == Closed && (at.closed || guard.phase.dropped))
                  || (final.error == SessionChanged && at.watchSession != guard.id))
  {
    Reachable(d, kind, actions);
    assert GuardOk(Reach(d, kind, actions), g);
  }

  // A guard of the current session on an open client starts, and shares the enclosing
  // operation exactly when that is of its session or signed out into it; a guard of any
  // other session is refused before its future runs.
  lemma GuardsBegin(d: Decoder, w: World, g: nat, id: nat, enclosing: Option<nat>, freshOp: nat)
    requires Consistent(d, w.auth) && g !in w.guards && freshOp !in w.ops && id <= w.auth.watchSession
    requires enclosing.Some? ==> enclosing.value in w.ops
    ensures var w' := Next(d, w, Begin(g, id, enclosing, freshOp));
            var shares := enclosing.Some? &&
                          (w.ops[enclosing.value].session == id || w.ops[enclosing.value].rejectedAt == Some(id));
            && g in w'.guards && w'.guards[g].id == id
            && w'.guards[g].phase ==
                 (if w.auth.closed then Returned(Refused(Closed), w.auth, false)
                  else if w.auth.version.session != id then Returned(Refused(SessionChanged), w.auth, false)
                  else Running)
            && (w'.guards[g].phase.Running? ==>
                  w'.guards[g].op == (if shares then enclosing.value else freshOp) &&
                  (!shares ==> freshOp in w'.ops && w'.ops[freshOp].session == id && w'.ops[freshOp].rejectedAt == None))
  {
  }

  // While its session is current on an open client, whatever a guard's future produces is
  // handed over.
  lemma CurrentResultIsDelivered(d: Decoder, kind: AuthKind, actions: seq<Action>, g: nat, outcome: Outcome)
    requires var w := Reach(d, kind, actions);
             g in w.guards && w.guards[g].phase.Running? &&
             !w.auth.closed && w.auth.version.session == w.guards[g].id
    ensures var w := Reach(d, kind, actions); var w' := Next(d, w, Finish(g, outcome));
            g in w'.guards && w'.guards[g].phase == Returned(Delivered(outcome), w.auth, false)
  {
    Reachable(d, kind, actions);
    assert GuardOk(Reach(d, kind, actions), g);
  }

  // Whatever happens next to a guard whose session ended, and whose operation did not end
  // it, is a refusal: as soon as it wakes for the change, or when its future finishes.
  lemma OthersAreRefused(d: Decoder, kind: AuthKind, actions: seq<Action>, g: nat, outcome: Outcome, dropped: bool)
    requires var w := Reach(d, kind, actions);
             && g in w.guards && w.guards[g].phase.Running?
             && w.auth.version.session != w.guards[g].id
             && !(w.guards[g].id in w.endedBy && w.endedBy[w.guards[g].id] == w.guards[g].op)
    ensures var w := Reach(d, kind, actions);
            var (finished, woken) := (Next(d, w, Finish(g, outcome)), Next(d, w, SessionMoved(g, dropped)));
            && g in finished.guards && g in woken.guards
            && finished.guards[g].phase == Returned(Refused(if w.auth.closed then Closed else SessionChanged), w.auth, false)
            && woken.guards[g].phase ==
                 Returned(Refused(if dropped || w.auth.closed then Closed else SessionChanged), w.auth, dropped)
  {
    var w := Reach(d, kind, actions);
    Reachable(d, kind, actions);
    assert GuardOk(w, g) && OperationOk(w, w.guards[g].op);
  }

  // And the other way round: once its session has ended, a guard whose future finishes with
  // a 401 is handed it exactly when its own operation ended that session, the next session
  // is still the current one and the client is open; until then the change does not stop it.
  lemma OwnRejectionIsDelivered(d: Decoder, kind: AuthKind, actions: seq<Action>, g: nat)
    requires var w := Reach(d, kind, actions);
             g in w.guards && w.guards[g].phase.Running? && w.auth.version.session != w.guards[g].id
    ensures var w := Reach(d, kind, actions);
            var guard := w.guards[g];
            var (finished, woken) := (Next(d, w, Finish(g, Unauthorized)), Next(d, w, SessionMoved(g, false)));
            var own := !w.auth.closed && w.auth.version.session == guard.id + 1 &&
                       guard.id in w.endedBy && w.endedBy[guard.id] == guard.op;
            && g in finished.guards && g in woken.guards
            && (finished.guards[g].phase == Returned(Delivered(Unauthorized), w.auth, false) <==> own)
            && (woken.guards[g].phase.Running? <==> own)
  {
    var w := Reach(d, kind, actions);
    Reachable(d, kind, actions);
    var guard := w.guards[g];
    assert GuardOk(w, g) && OperationOk(w, guard.op);
    if guard.id in w.endedBy {
      assert EndingOk(w, guard.id);
    }
  }

  // A refused request signs its session out exactly when the version it was prepared with is
  // still current on an open client, and its operation is named as the cause; else it
  // changes nothing.
  lemma RefusalEndsItsSession(d: Decoder, kind: AuthKind, actions: seq<Action>, r: nat)
    requires var w := Reach(d, kind, actions); r in w.requests && w.requests[r].stage.Sent?
    ensures var w := Reach(d, kind, actions); var w' := Next(d, w, Refuse(r));
            var request := w.requests[r];
            && (w.auth.closed || w.auth.version != request.stage.version ==> w'.auth == w.auth && w'.ops == w.ops)
            && (!w.auth.closed && w.auth.version == request.stage.version ==>
                  && w'.auth.credentials == Empty && w'.auth.watchSession == request.session + 1
                  && (request.op.Some? && request.op.value in w.ops && w.ops[request.op.value].session == request.session ==>
                        && request.session in w'.endedBy && w'.endedBy[request.session] == request.op.value
                        && w'.ops[request.op.value].rejectedAt == Some(request.session + 1)))
  {
    Reachable(d, kind, actions);
    assert RequestOk(Reach(d, kind, actions), r);
  }

  // Two operations of one session never both hold a rejection.
  lemma OneRejectionPerSession(d: Decoder, kind: AuthKind, actions: seq<Action>, o: nat, p: nat)
    requires o in Reach(d, kind, actions).ops && p in Reach(d, kind, actions).ops
    requires var w := Reach(d, kind, actions);
             w.ops[o].session == w.ops[p].session && w.ops[o].rejectedAt.Some? && w.ops[p].rejectedAt.Some?
    ensures o == p
  {
    Reachable(d, kind, actions);
    assert OperationOk(Reach(d, kind, actions), o) && OperationOk(Reach(d, kind, actions), p);
  }

  // At step i request `r` was refused while session `s` was current, and the step moved it.
  ghost predicate RefusedAt(d: Decoder, kind: AuthKind, actions: seq<Action>, s: nat, o: nat, i: nat, r: nat) {
    i < |actions| && actions[i] == Refuse(r) &&
    var before, after := Reach(d, kind, actions[..i]), Reach(d, kind, actions[..i + 1]);
    r in before.requests && before.requests[r].op == Some(o) &&
    before.auth.watchSession == s && after.auth.watchSession == s + 1
  }

  lemma LastReady(d: Decoder, kind: AuthKind, actions: seq<Action>)
    requires actions != []
    ensures Ready(d, Reach(d, kind, actions[..|actions| - 1]), actions[|actions| - 1])
  {
    Reachable(d, kind, actions[..|actions| - 1]);
    ReadyNow(d, Reach(d, kind, actions[..|actions| - 1]), actions[|actions| - 1]);
  }

  // The operation named as the one that ended a session did clear it: at some step of the
  // run its own request was refused.
  lemma {:induction false} EndedByItsOwnRefusal(d: Decoder, kind: AuthKind, actions: seq<Action>, s: nat)
    requires s in Reach(d, kind, actions).endedBy
    ensures exists i: nat, r: nat :: RefusedAt(d, kind, actions, s, Reach(d, kind, actions).endedBy[s], i, r)
  {
    var n := |actions| - 1;
    var w := Reach(d, kind, actions[..n]);
    var o := Reach(d, kind, actions).endedBy[s];
    LastReady(d, kind, actions);
    if s in w.endedBy {
      NextHistory(d, w, actions[n]);
      EndedByItsOwnRefusal(d, kind, actions[..n], s);
      var i: nat, r: nat :| RefusedAt(d, kind, actions[..n], s, o, i, r);
      assert actions[..n][..i] == actions[..i] && actions[..n][..i + 1] == actions[..i + 1];
      assert RefusedAt(d, kind, actions, s, o, i, r);
    } else {
      NewEnding(d, w, actions[n], s);
      assert actions[..n + 1] == actions;
      assert RefusedAt(d, kind, actions, s, o, n, actions[n].request);
    }
  }
}
