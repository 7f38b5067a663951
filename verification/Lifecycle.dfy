// `AccountListenerLifecycle`: spawning listener tasks while the client shuts down.
//
// `spawn` holds the task-list lock from its cancellation check to its push, but `stop`
// sets the cancellation flag without that lock, so the flag may be set in between.
module Lifecycle {
  import opened Wrappers

  datatype Spawner = Arriving | Pushing | Left

  datatype Stopper = Called | Cancelled | Awaiting(remaining: seq<nat>) | Returned

  datatype World = World(
    cancelled: bool,
    tasks: seq<nat>,
    lock: Option<nat>,              // the spawner inside its critical section
    started: set<nat>,
    finished: set<nat>,
    spawners: map<nat, Spawner>,
    stoppers: map<nat, Stopper>)

  datatype Action =
    | CallSpawn(p: nat)
    | CheckFlag(p: nat)
    | StartAndPush(p: nat, task: nat)
    | CallStop(s: nat)
    | SetFlag(s: nat)
    | TakeTasks(s: nat)
    | AwaitNext(s: nat)
    | TaskEnds(task: nat)

  function Next(w: World, a: Action): World {
    match a
    case CallSpawn(p) => if p in w.spawners then w else w.(spawners := w.spawners[p := Arriving])
    case CheckFlag(p) =>
      if p !in w.spawners || !w.spawners[p].Arriving? || w.lock.Some? then w
      else if w.cancelled then w.(spawners := w.spawners[p := Left])
      else w.(lock := Some(p), spawners := w.spawners[p := Pushing])
    case StartAndPush(p, task) =>
      if p !in w.spawners || !w.spawners[p].Pushing? || w.lock != Some(p) || task in w.started then w
      else w.(lock := None, spawners := w.spawners[p := Left],
              started := w.started + {task}, tasks := w.tasks + [task])
    case CallStop(s) => if s in w.stoppers then w else w.(stoppers := w.stoppers[s := Called])
    case SetFlag(s) =>
      if s !in w.stoppers || !w.stoppers[s].Called? then w
      else w.(cancelled := true, stoppers := w.stoppers[s := Cancelled])
    case TakeTasks(s) =>
      if s !in w.stoppers || !w.stoppers[s].Cancelled? || w.lock.Some? then w
      else w.(tasks := [], stoppers := w.stoppers[s := Awaiting(w.tasks)])
    case AwaitNext(s) =>
      if s !in w.stoppers || !w.stoppers[s].Awaiting? then w
      else
        var remaining := w.stoppers[s].remaining;
        if remaining == [] then w.(stoppers := w.stoppers[s := Returned])
        else if remaining[0] in w.finished then w.(stoppers := w.stoppers[s := Awaiting(remaining[1..])])
        else w
    case TaskEnds(task) => if task in w.started then w.(finished := w.finished + {task}) else w
  }

  function Start(): World {
    World(false, [], None, {}, {}, map[], map[])
  }

  function Reach(actions: seq<Action>): World {
    if actions == [] then Start()
    else Next(Reach(actions[..|actions| - 1]), actions[|actions| - 1])
  }

  predicate Taken(w: World, s: nat) {
    s in w.stoppers && (w.stoppers[s].Awaiting? || w.stoppers[s].Returned?)
  }

  // Some call to `stop` is still waiting for the task.
  predicate AwaitedBy(w: World, s: nat, task: nat) {
    s in w.stoppers && w.stoppers[s].Awaiting? && task in w.stoppers[s].remaining
  }

  ghost predicate Inv(w: World) {
    && w.finished <= w.started
    && (forall t | t in w.tasks :: t in w.started)
    && (forall s, t | AwaitedBy(w, s, t) :: t in w.started)
    && (forall s | s in w.stoppers && !w.stoppers[s].Called? :: w.cancelled)
    && (forall p | p in w.spawners && w.spawners[p].Pushing? :: w.lock == Some(p))
    // Once a list was taken nothing is inside the critical section and nothing enters it.
    && (forall s | Taken(w, s) :: w.lock == None && w.tasks == [])
    && (forall t | t in w.started ::
          t in w.finished || t in w.tasks || exists s :: AwaitedBy(w, s, t))
  }

  // ----- every step keeps the invariant -----

  lemma TakenKeeps(w: World, a: Action, s: nat)
    requires Inv(w) && Taken(w, s)
    ensures Taken(Next(w, a), s) && Next(w, a).started == w.started
    ensures Next(w, a).lock == None && Next(w, a).tasks == []
  {
    assert w.cancelled && w.lock == None;
    if a.StartAndPush? && a.p in w.spawners {
      assert !w.spawners[a.p].Pushing?;
    }
  }

  // A task that was started stays accounted for.
  lemma TaskKeeps(w: World, a: Action, t: nat)
    requires Inv(w) && t in Next(w, a).started
    ensures var w' := Next(w, a); t in w'.finished || t in w'.tasks || exists s :: AwaitedBy(w', s, t)
  {
    var w' := Next(w, a);
    if t in w.started && t !in w.finished {
      if t in w.tasks {
        assert t !in w'.tasks ==> AwaitedBy(w', a.s, t);
      } else {
        var s :| AwaitedBy(w, s, t);
        assert AwaitedBy(w', s, t) || t in w'.finished;
      }
    }
  }

  // Only started tasks are listed or awaited.
  lemma ListedKeeps(w: World, a: Action, s: nat, t: nat)
    requires Inv(w)
    ensures t in Next(w, a).tasks || AwaitedBy(Next(w, a), s, t) ==> t in Next(w, a).started
  {
    if AwaitedBy(Next(w, a), s, t) {
      assert AwaitedBy(w, s, t) || t in w.tasks;
    }
  }

  lemma NextKeeps(w: World, a: Action)
    requires Inv(w)
    ensures Inv(Next(w, a))
  {
    var w' := Next(w, a);
    forall s | Taken(w', s) ensures w'.lock == None && w'.tasks == [] {
      if Taken(w, s) {
        TakenKeeps(w, a, s);
      }
    }
    forall t | t in w'.started
      ensures t in w'.finished || t in w'.tasks || exists s :: AwaitedBy(w', s, t)
    {
      TaskKeeps(w, a, t);
    }
    forall s, t
      ensures t in w'.tasks || AwaitedBy(w', s, t) ==> t in w'.started
    {
      ListedKeeps(w, a, s, t);
    }
  }

  // The invariant holds at every moment of a run.
  lemma {:induction false} Reachable(actions: seq<Action>)
    ensures forall k: nat | k <= |actions| :: Inv(Reach(actions[..k]))
  {
    if actions == [] {
      assert actions[..0] == [];
    } else {
      var n := |actions| - 1;
      var before := actions[..n];
      Reachable(before);
      assert before[..n] == before;
      NextKeeps(Reach(before), actions[n]);
      forall k: nat | k <= |actions|
        ensures Inv(Reach(actions[..k]))
      {
        assert k <= n ==> before[..k] == actions[..k];
        assert k > n ==> actions[..k] == actions;
      }
    }
  }

  // ----- the object -----

  // The shared list and flag. The world they belong to is carried along, so each method is
  // one step of it; a method that takes the lock is entered when the lock is free.
  class TaskList {
    var cancelled: bool
    var tasks: seq<nat>
    var lock: Option<nat>
    ghost var world: World

    ghost predicate Valid()
      reads this
    {
      Inv(world) && world.cancelled == cancelled && world.tasks == tasks && world.lock == lock
    }

    constructor ()
      ensures Valid() && world == Start()
    {
      cancelled, tasks, lock, world := false, [], None, Start();
    }

    // `spawn` up to its check: whoever gets past it holds the lock until its push.
    method Enter(p: nat) returns (entered: bool)
      requires Valid() && lock.None? && p in world.spawners && world.spawners[p].Arriving?
      modifies this
      ensures Valid() && world == Next(old(world), CheckFlag(p))
      ensures entered <==> world.spawners[p].Pushing?
      ensures (exists s :: Taken(old(world), s)) ==> !entered
    {
      NextKeeps(world, CheckFlag(p));
      world := Next(world, CheckFlag(p));
      entered := !cancelled;
      if entered {
        lock := Some(p);
      }
    }

    // The rest of `spawn`, whatever has become of the flag since.
    method Push(p: nat, task: nat)
      requires Valid() && p in world.spawners && world.spawners[p].Pushing? && task !in world.started
      modifies this
      ensures Valid() && world == Next(old(world), StartAndPush(p, task))
      ensures world.started == old(world).started + {task} && !exists s :: Taken(world, s)
    {
      NextKeeps(world, StartAndPush(p, task));
      world := Next(world, StartAndPush(p, task));
      tasks := tasks + [task];
      lock := None;
    }

    method Cancel(s: nat)
      requires Valid() && s in world.stoppers && world.stoppers[s].Called?
      modifies this
      ensures Valid() && world == Next(old(world), SetFlag(s))
    {
      NextKeeps(world, SetFlag(s));
      world := Next(world, SetFlag(s));
      cancelled := true;
    }

    // What is not in the taken list has finished or is awaited by an earlier taker.
    method Take(s: nat) returns (taken: seq<nat>)
      requires Valid() && lock.None? && s in world.stoppers && world.stoppers[s].Cancelled?
      modifies this
      ensures Valid() && world == Next(old(world), TakeTasks(s)) && world.stoppers[s] == Awaiting(taken)
      ensures forall t | t in world.started - world.finished ::
                t in taken || exists r :: r != s && AwaitedBy(world, r, t)
    {
      NextKeeps(world, TakeTasks(s));
      world := Next(world, TakeTasks(s));
      taken, tasks := tasks, [];
      forall t | t in world.started - world.finished
        ensures t in taken || exists r :: r != s && AwaitedBy(world, r, t)
      {
        var r :| AwaitedBy(world, r, t);
        assert r == s ==> t in taken;
      }
    }
  }

  // ----- what a stop waits for -----

  // After any `stop` has returned, a task that has not finished is awaited by another one.
  lemma StoppedMeansFinishedOrAwaited(actions: seq<Action>, s: nat, t: nat)
    requires var w := Reach(actions); s in w.stoppers && w.stoppers[s].Returned? && t in w.started
    ensures var w := Reach(actions); t in w.finished || exists r :: r != s && AwaitedBy(w, r, t)
  {
    Reachable(actions);
    assert actions[..|actions|] == actions;
    assert Taken(Reach(actions), s);
  }

  // Everything unfinished is awaited by this stop itself.
  ghost predicate Covered(w: World, s: nat) {
    Taken(w, s) && forall t | t in w.started :: t in w.finished || AwaitedBy(w, s, t)
  }

  lemma CoveredKeeps(w: World, a: Action, s: nat)
    requires Inv(w) && Covered(w, s)
    ensures Covered(Next(w, a), s)
  {
    TakenKeeps(w, a, s);
  }

  lemma {:induction false} CoveredStays(actions: seq<Action>, s: nat)
    ensures forall i: nat | i <= |actions| && Covered(Reach(actions[..i]), s) :: Covered(Reach(actions), s)
  {
    if actions == [] {
      assert forall i: nat | i <= 0 :: actions[..i] == actions;
    } else {
      var n := |actions| - 1;
      var before := actions[..n];
      CoveredStays(before, s);
      Reachable(actions);
      forall i: nat | i <= |actions| && Covered(Reach(actions[..i]), s)
        ensures Covered(Reach(actions), s)
      {
        if i <= n {
          assert before[..i] == actions[..i];
          CoveredKeeps(Reach(before), actions[n], s);
        } else {
          assert actions[..i] == actions;
        }
      }
    }
  }

  predicate AboutToTake(w: World, s: nat) {
    s in w.stoppers && w.stoppers[s].Cancelled? && w.lock.None?
  }

  // The stop takes the list after these actions, others follow: if it has returned, all has finished.
  ghost predicate CompleteAfter(actions: seq<Action>, s: nat, more: seq<Action>) {
    var w := Reach(actions + [TakeTasks(s)] + more);
    s in w.stoppers && w.stoppers[s].Returned? ==> w.started == w.finished
  }

  ghost predicate OthersAwait(w: World) {
    exists r, t :: AwaitedBy(w, r, t) && t !in w.finished
  }

  // A stop leaves nothing running, however the run goes on, exactly when no unfinished task
  // is awaited by another stop at the moment it takes the list.
  lemma CompleteExactlyWhenNoOtherWaits(actions: seq<Action>, s: nat)
    requires AboutToTake(Reach(actions), s)
    ensures (forall more :: CompleteAfter(actions, s, more)) <==> !OthersAwait(Reach(actions))
  {
    var w := Reach(actions);
    Reachable(actions);
    assert actions[..|actions|] == actions;
    if OthersAwait(w) {
      ReturnsEarly(actions, s);
    } else {
      forall more
        ensures CompleteAfter(actions, s, more)
      {
        TakesAll(actions, s);
        var all := actions + [TakeTasks(s)] + more;
        assert all[..|actions| + 1] == actions + [TakeTasks(s)];
        CoveredStays(all, s);
        Reachable(all);
        assert all[..|all|] == all;
      }
    }
  }

  lemma TakesAll(actions: seq<Action>, s: nat)
    requires AboutToTake(Reach(actions), s) && !OthersAwait(Reach(actions))
    ensures Covered(Reach(actions + [TakeTasks(s)]), s)
  {
    var w := Reach(actions);
    Reachable(actions);
    assert actions[..|actions|] == actions;
    assert (actions + [TakeTasks(s)])[..|actions|] == actions;
    var w' := Next(w, TakeTasks(s));
    forall t | t in w'.started
      ensures t in w'.finished || AwaitedBy(w', s, t)
    {
      assert t in w.finished || t in w.tasks;
    }
  }

  // The list is empty then, so the stop may return at once.
  lemma ReturnsEarly(actions: seq<Action>, s: nat)
    requires AboutToTake(Reach(actions), s) && OthersAwait(Reach(actions))
    ensures !CompleteAfter(actions, s, [AwaitNext(s)])
  {
    var w := Reach(actions);
    Reachable(actions);
    assert actions[..|actions|] == actions;
    var r, t :| AwaitedBy(w, r, t) && t !in w.finished;
    assert Taken(w, r);
    var taken := actions + [TakeTasks(s)];
    assert taken[..|actions|] == actions;
    var all := taken + [AwaitNext(s)];
    assert all[..|taken|] == taken;
    assert Reach(taken).stoppers[s] == Awaiting([]);
  }

  // In particular the stop that takes the list first waits for everything, however many
  // others run beside it.
  lemma FirstStopIsComplete(actions: seq<Action>, i: nat, s: nat)
    requires TakesFirst(actions, i, s)
    requires var w := Reach(actions); s in w.stoppers && w.stoppers[s].Returned?
    ensures Reach(actions).started == Reach(actions).finished
  {
    assert actions == actions[..i] + [TakeTasks(s)] + actions[i + 1..];
    forall r, t
      ensures !AwaitedBy(Reach(actions[..i]), r, t)
    {
      assert !Taken(Reach(actions[..i]), r);
    }
    CompleteExactlyWhenNoOtherWaits(actions[..i], s);
    assert CompleteAfter(actions[..i], s, actions[i + 1..]);
  }

  lemma BecomesTaken(w: World, a: Action, s: nat)
    requires !Taken(w, s) && Taken(Next(w, a), s)
    ensures a == TakeTasks(s) && AboutToTake(w, s)
  {
  }

  // This stop took the list, and took it first.
  ghost predicate TakesFirst(actions: seq<Action>, i: nat, s: nat) {
    i < |actions| && actions[i] == TakeTasks(s) &&
    AboutToTake(Reach(actions[..i]), s) && forall r :: !Taken(Reach(actions[..i]), r)
  }

  // Somebody took the list first.
  lemma {:induction false} FirstTaker(actions: seq<Action>, s: nat)
    requires Taken(Reach(actions), s)
    ensures exists i: nat, first :: TakesFirst(actions, i, first) && first in Reach(actions).stoppers
  {
    var n := |actions| - 1;
    if r :| Taken(Reach(actions[..n]), r) {
      FirstTaker(actions[..n], r);
      var i: nat, first :| TakesFirst(actions[..n], i, first) && first in Reach(actions[..n]).stoppers;
      assert actions[..n][..i] == actions[..i];
      assert TakesFirst(actions, i, first);
    } else {
      BecomesTaken(Reach(actions[..n]), actions[n], s);
      assert TakesFirst(actions, n, s);
    }
  }

  // A single `stop`: once it has returned, every task ever started has finished.
  lemma StopIsComplete(actions: seq<Action>, s: nat)
    requires var w := Reach(actions); w.stoppers.Keys == {s} && w.stoppers[s].Returned?
    ensures Reach(actions).started == Reach(actions).finished
  {
    FirstTaker(actions, s);
    var i: nat, first :| TakesFirst(actions, i, first) && first in Reach(actions).stoppers;
    assert first in Reach(actions).stoppers.Keys;
    FirstStopIsComplete(actions, i, s);
  }

  // ... and none is started later, however many calls to `stop` or `spawn` follow.
  lemma {:induction false} NothingStartsAfterwards(actions: seq<Action>, s: nat)
    ensures forall i: nat | i <= |actions| && Taken(Reach(actions[..i]), s) ::
              Taken(Reach(actions), s) && Reach(actions).started == Reach(actions[..i]).started
  {
    if actions != [] {
      var n := |actions| - 1;
      var before := actions[..n];
      NothingStartsAfterwards(before, s);
      Reachable(actions);
      forall i: nat | i <= |actions| && Taken(Reach(actions[..i]), s)
        ensures Taken(Reach(actions), s) && Reach(actions).started == Reach(actions[..i]).started
      {
        if i <= n {
          assert before[..i] == actions[..i];
          TakenKeeps(Reach(before), actions[n], s);
        } else {
          assert actions[..i] == actions;
        }
      }
    } else {
      assert forall i: nat | i <= 0 :: actions[..i] == actions;
    }
  }

  // So with two calls the second may return while a task still runs: here it does.
  lemma SecondStopMayReturnEarly() returns (actions: seq<Action>)
    ensures var w := Reach(actions); 1 in w.stoppers && w.stoppers[1].Returned? && 7 in w.started - w.finished
  {
    actions := [CallSpawn(0), CheckFlag(0), StartAndPush(0, 7), CallStop(0), SetFlag(0), TakeTasks(0),
                CallStop(1), SetFlag(1), TakeTasks(1), AwaitNext(1)];
    forall i | 0 <= i < 10 ensures actions[..i + 1][..i] == actions[..i] {}
    assert Reach(actions[..1]) == Next(Start(), actions[0]);
    assert Reach(actions[..2]).lock == Some(0);
    var w3 := Reach(actions[..3]);
    assert w3 == World(false, [7], None, {7}, {}, map[0 := Left], map[]);
    var w6 := Next(Next(Next(w3, actions[3]), actions[4]), actions[5]);
    assert Reach(actions[..4]) == Next(w3, actions[3]);
    assert Reach(actions[..5]) == Next(Reach(actions[..4]), actions[4]);
    assert Reach(actions[..6]) == w6;
    assert w6.stoppers[0] == Awaiting([7]);
    assert Reach(actions[..7]) == Next(w6, actions[6]);
    assert Reach(actions[..8]) == Next(Reach(actions[..7]), actions[7]);
    assert Reach(actions[..9]) == Next(Reach(actions[..8]), actions[8]);
    assert actions[..10] == actions;
  }
}
