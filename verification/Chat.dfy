// Chat stream events: `src/chat/events.rs`.
//
// The object holds the active map and every stream's state; each handler is proved to be a
// step on values. A job's whole history is also told by a small automaton that looks at
// that job alone (`Life`), and the two are proved to agree for every event sequence.
module Chat {
  import opened Wrappers

  datatype Delta = Delta(index: nat, id: string, name: string, arguments: string)  // "" is absent

  datatype Chunk = Chunk(content: string, role: Option<string>, finishReason: Option<string>,
                         usage: Option<string>, deltas: seq<Delta>)

  datatype ToolCall = ToolCall(id: string, name: string, arguments: string)

  datatype Outcome = Outcome(timeTaken: real, usage: Option<string>, worker: Option<string>, cost: Option<string>)

  // What the stream's receiver was sent.
  datatype Sent = Part(chunk: Chunk) | Failure(error: string)

  datatype Stream = Stream(
    content: string,
    role: string,
    finishReason: Option<string>,
    usage: Option<string>,
    toolCalls: map<nat, ToolCall>,
    complete: bool,
    error: Option<string>,
    timeTaken: real,
    worker: Option<string>,
    cost: Option<string>,
    sent: seq<Sent>,
    told: seq<bool>)                  // the job's terminal notices on the event bus: completed, or error

  datatype State = State(
    active: map<string, nat>,         // job -> session
    streams: map<string, Stream>)     // every stream ever started; its handle outlives `active`

  const FRESH: Stream := Stream("", "assistant", None, None, map[], false, None, 0.0, None, None, [], [])

  function OrElse<T>(a: Option<T>, b: Option<T>): Option<T> { if a.Some? then a else b }

  function Replaced(new_: string, old_: string): string { if new_ != "" then new_ else old_ }

  function MergeDelta(calls: map<nat, ToolCall>, d: Delta): map<nat, ToolCall> {
    var current := if d.index in calls then calls[d.index] else ToolCall("", "", "");
    calls[d.index := ToolCall(Replaced(d.id, current.id), Replaced(d.name, current.name),
                              current.arguments + d.arguments)]
  }

  function MergeDeltas(calls: map<nat, ToolCall>, deltas: seq<Delta>): map<nat, ToolCall> {
    if deltas == [] then calls
    else MergeDelta(MergeDeltas(calls, deltas[..|deltas| - 1]), deltas[|deltas| - 1])
  }

  function Absorb(s: Stream, chunk: Chunk): Stream {
    s.(content := s.content + chunk.content,
       role := if chunk.role.Some? then chunk.role.value else s.role,
       finishReason := OrElse(chunk.finishReason, s.finishReason),
       usage := OrElse(chunk.usage, s.usage),
       toolCalls := MergeDeltas(s.toolCalls, chunk.deltas),
       sent := s.sent + [Part(chunk)])
  }

  function Finished(s: Stream, outcome: Outcome): Stream {
    s.(complete := true, timeTaken := outcome.timeTaken, usage := OrElse(outcome.usage, s.usage),
       worker := OrElse(outcome.worker, s.worker), cost := outcome.cost,
       told := if s.error.None? then s.told + [true] else s.told)
  }

  function Failed(s: Stream, error: string): Stream {
    s.(error := Some(error), complete := true, toolCalls := map[],
       sent := s.sent + [Failure(error)], told := s.told + [false])
  }

  // ----- handlers on values -----

  ghost predicate Known(c: State) { c.active.Keys <= c.streams.Keys }

  function Start(c: State, job: string, session: nat): State {
    if job in c.streams then c
    else c.(active := c.active[job := session], streams := c.streams[job := FRESH])
  }

  function Tokens(c: State, job: string, chunk: Chunk): State {
    if job in c.active && job in c.streams then c.(streams := c.streams[job := Absorb(c.streams[job], chunk)]) else c
  }

  function Conclude(c: State, job: string, outcome: Outcome): State {
    if job in c.active && job in c.streams then
      State(c.active - {job}, c.streams[job := Finished(c.streams[job], outcome)])
    else c
  }

  // Several jobs fail at once; `handle_error` is the case of one.
  function Fail(c: State, jobs: set<string>, error: string): State {
    State(c.active - jobs,
          map j | j in c.streams ::
            if j in jobs && j in c.active then Failed(c.streams[j], error) else c.streams[j])
  }

  function Worker(c: State, job: string, worker: Option<string>): State {
    if job in c.active && job in c.streams && worker.Some? then
      c.(streams := c.streams[job := c.streams[job].(worker := worker)])
    else c
  }

  function Outdated(c: State, current: nat): set<string> {
    set j | j in c.active && c.active[j] != current
  }

  const LAGGED: string := "event_stream_lagged"

  function EndedMessage(closed: bool): string { if closed then "client_closed" else "session_ended" }

  // ----- events -----

  datatype Input =
    | Begin(job: string, session: nat)
    | JobTokens(job: string, chunk: Chunk)
    | JobResult(job: string, outcome: Outcome)
    | JobError(job: string, error: string)
    | JobState(job: string, worker: Option<string>)
    | Lagged
    | SessionEnded(closed: bool)
    | Abandon(job: string)             // submitting failed, or the caller stopped waiting

  // `scope` is the session a socket frame belongs to, `current` the account session when
  // the item is handled.
  datatype Item = Item(input: Input, scope: Option<nat>, current: nat)

  predicate FromSocket(input: Input) {
    input.JobTokens? || input.JobResult? || input.JobError? || input.JobState?
  }

  predicate Dropped(item: Item) {
    FromSocket(item.input) && item.scope.Some? && item.scope.value != item.current
  }

  function Step(c: State, item: Item): State {
    if Dropped(item) then c
    else match item.input
      case Begin(job, session) => Start(c, job, session)
      case JobTokens(job, chunk) => Tokens(c, job, chunk)
      case JobResult(job, outcome) => Conclude(c, job, outcome)
      case JobError(job, error) => Fail(c, {job}, error)
      case JobState(job, worker) => Worker(c, job, worker)
      case Lagged => Fail(c, c.active.Keys, LAGGED)
      case SessionEnded(closed) => Fail(c, Outdated(c, item.current), EndedMessage(closed))
      case Abandon(job) => c.(active := c.active - {job})
  }

  function Run(items: seq<Item>): State {
    if items == [] then State(map[], map[])
    else Step(Run(items[..|items| - 1]), items[|items| - 1])
  }

  // ----- the object -----

  class ChatInner {
    var active: map<string, nat>
    var streams: map<string, Stream>

    ghost function Value(): State
      reads this
    {
      State(active, streams)
    }

    ghost predicate Valid()
      reads this
    {
      Known(Value())
    }

    constructor ()
      ensures Valid() && Value() == Run([])
    {
      active, streams := map[], map[];
    }

    method HandleTokens(job: string, chunk: Chunk)
      requires Valid()
      modifies this
      ensures Valid() && Value() == Tokens(old(Value()), job, chunk)
    {
      if job !in active {
        return;
      }
      var s := streams[job];
      var calls := s.toolCalls;
      for i := 0 to |chunk.deltas|
        invariant calls == MergeDeltas(s.toolCalls, chunk.deltas[..i])
      {
        assert chunk.deltas[..i + 1][..i] == chunk.deltas[..i];
        calls := MergeDelta(calls, chunk.deltas[i]);
      }
      assert chunk.deltas[..|chunk.deltas|] == chunk.deltas;
      s := s.(content := s.content + chunk.content, toolCalls := calls, sent := s.sent + [Part(chunk)]);
      if chunk.role.Some? {
        s := s.(role := chunk.role.value);
      }
      if chunk.finishReason.Some? {
        s := s.(finishReason := chunk.finishReason);
      }
      if chunk.usage.Some? {
        s := s.(usage := chunk.usage);
      }
      streams := streams[job := s];
    }

    method HandleResult(job: string, outcome: Outcome)
      requires Valid()
      modifies this
      ensures Valid() && Value() == Conclude(old(Value()), job, outcome)
    {
      if job !in active {
        return;
      }
      active := active - {job};
      streams := streams[job := Finished(streams[job], outcome)];
    }

    method HandleError(job: string, error: string)
      requires Valid()
      modifies this
      ensures Valid() && Value() == Fail(old(Value()), {job}, error)
    {
      FailOne(Value(), job, error);
      if job !in active {
        return;
      }
      active := active - {job};
      streams := streams[job := Failed(streams[job], error)];
    }

    method EndPreviousSessions(current: nat, closed: bool)
      requires Valid()
      modifies this
      ensures Valid() && Value() == Fail(old(Value()), Outdated(old(Value()), current), EndedMessage(closed))
    {
      var ids := Outdated(State(active, streams), current);
      FailEach(ids, EndedMessage(closed));
    }

    method FailEach(all: set<string>, error: string)
      requires Valid() && all <= active.Keys
      modifies this
      ensures Valid() && Value() == Fail(old(Value()), all, error)
    {
      var ids := all;
      ghost var before, done := Value(), {};
      FailNone(before, error);
      while ids != {}
        invariant Valid() && ids !! done && all == done + ids
        invariant Value() == Fail(before, done, error)
        decreases |ids|
      {
        var id :| id in ids;
        FailTwice(before, done, id, error);
        HandleError(id, error);
        ids, done := ids - {id}, done + {id};
      }
      assert done == all;
    }

    // The active map is taken whole first; then each stream in it is failed.
    method FailActiveAfterLag()
      requires Valid()
      modifies this
      ensures Valid() && Value() == Fail(old(Value()), old(active).Keys, LAGGED)
    {
      var affected := active.Keys;
      ghost var before := Value();
      ghost var all := affected;
      active := map[];
      FailNone(before, LAGGED);
      assert before.active - {} == before.active;
      while affected != {}
        invariant affected <= all == before.active.Keys && active == map[] && streams.Keys == before.streams.Keys
        invariant streams == Fail(before, all - affected, LAGGED).streams
        decreases |affected|
      {
        var job :| job in affected;
        FailMore(before, all - affected, job, LAGGED);
        assert all - (affected - {job}) == (all - affected) + {job};
        streams := streams[job := Failed(streams[job], LAGGED)];
        affected := affected - {job};
      }
      assert all - {} == all;
      assert before.active - all == map[];
    }

    method HandleState(job: string, worker: Option<string>)
      requires Valid()
      modifies this
      ensures Valid() && Value() == Worker(old(Value()), job, worker)
    {
      if job !in active {
        return;
      }
      if worker.Some? {
        streams := streams[job := streams[job].(worker := worker)];
      }
    }

    // A new job's id is drawn fresh.
    method StartCompletion(job: string, session: nat)
      requires Valid() && job !in streams
      modifies this
      ensures Valid() && Value() == Start(old(Value()), job, session)
    {
      active, streams := active[job := session], streams[job := FRESH];
    }

    method GiveUp(job: string)
      requires Valid()
      modifies this
      ensures Valid() && Value() == Step(old(Value()), Item(Abandon(job), None, 0))
    {
      active := active - {job};
    }

    // The dispatcher: a socket frame of another session changes nothing.
    method HandleChatEvent(item: Item)
      requires Valid() && FromSocket(item.input)
      modifies this
      ensures Valid() && Value() == Step(old(Value()), item)
    {
      if item.scope.Some? && item.scope.value != item.current {
        return;
      }
      match item.input
      case JobTokens(job, chunk) => HandleTokens(job, chunk);
      case JobResult(job, outcome) => HandleResult(job, outcome);
      case JobError(job, error) => HandleError(job, error);
      case JobState(job, worker) => HandleState(job, worker);
    }
  }

  lemma FailOne(c: State, job: string, error: string)
    requires Known(c)
    ensures job !in c.active ==> Fail(c, {job}, error) == c
    ensures job in c.active ==>
              Fail(c, {job}, error) == State(c.active - {job}, c.streams[job := Failed(c.streams[job], error)])
  {
    var f := Fail(c, {job}, error);
    if job in c.active {
      assert f.streams == c.streams[job := Failed(c.streams[job], error)];
    } else {
      assert f.streams == c.streams;
    }
  }

  lemma FailNone(c: State, error: string)
    ensures Fail(c, {}, error) == c
  {
    assert Fail(c, {}, error).streams == c.streams;
  }

  // Failing one more active job is failing it on top of the others.
  lemma FailMore(c: State, jobs: set<string>, job: string, error: string)
    requires Known(c) && job in c.active && job !in jobs
    ensures var f := Fail(c, jobs, error);
            Known(f) && job in f.active &&
            Fail(c, jobs + {job}, error) == State(f.active - {job}, f.streams[job := Failed(f.streams[job], error)])
  {
    var f := Fail(c, jobs, error);
    assert Fail(c, jobs + {job}, error).streams == f.streams[job := Failed(f.streams[job], error)];
    assert Fail(c, jobs + {job}, error).active == f.active - {job};
  }

  lemma FailTwice(c: State, jobs: set<string>, job: string, error: string)
    requires Known(c) && job in c.active && job !in jobs
    ensures Fail(c, jobs + {job}, error) == Fail(Fail(c, jobs, error), {job}, error)
  {
    FailMore(c, jobs, job, error);
    FailOne(Fail(c, jobs, error), job, error);
  }

  // ----- one job's story -----

  // Every handler keeps the active jobs among the streams.
  lemma KnownKept(c: State, item: Item)
    requires Known(c)
    ensures Known(Step(c, item)) && c.streams.Keys <= Step(c, item).streams.Keys
  {
  }

  lemma {:induction false} AlwaysKnown(items: seq<Item>)
    ensures Known(Run(items))
  {
    if items != [] {
      AlwaysKnown(items[..|items| - 1]);
      KnownKept(Run(items[..|items| - 1]), items[|items| - 1]);
    }
  }

  // A frame is for this account's session when it names no session, or the current one.
  ghost predicate Heard(item: Item) { item.scope.None? || item.scope.value == item.current }

  ghost predicate Ends(item: Item, j: string, session: nat) {
    match item.input
    case JobResult(i, _) => i == j && Heard(item)
    case JobError(i, _) => i == j && Heard(item)
    case Lagged => true
    case SessionEnded(_) => item.current != session
    case Abandon(i) => i == j
    case _ => false
  }

  // What one event brings a job.
  ghost function Fragment(item: Item, j: string): seq<Chunk> {
    if item.input.JobTokens? && item.input.job == j && Heard(item) then [item.input.chunk] else []
  }

  ghost function WorkerNamed(item: Item, j: string): Option<string> {
    if item.input.JobState? && item.input.job == j && Heard(item) then item.input.worker else None
  }

  // The fragments a stretch of events holds for one job.
  ghost function Own(items: seq<Item>, j: string): seq<Chunk> {
    if items == [] then [] else Own(items[..|items| - 1], j) + Fragment(items[|items| - 1], j)
  }

  // The worker that a stretch of events last named for one job.
  ghost function LastWorker(items: seq<Item>, j: string): Option<string> {
    if items == [] then None
    else OrElse(WorkerNamed(items[|items| - 1], j), LastWorker(items[..|items| - 1], j))
  }

  function Contents(chunks: seq<Chunk>): string {
    if chunks == [] then "" else Contents(chunks[..|chunks| - 1]) + chunks[|chunks| - 1].content
  }

  function Deltas(chunks: seq<Chunk>): seq<Delta> {
    if chunks == [] then [] else Deltas(chunks[..|chunks| - 1]) + chunks[|chunks| - 1].deltas
  }

  function Parts(chunks: seq<Chunk>): seq<Sent> { seq(|chunks|, i requires 0 <= i < |chunks| => Part(chunks[i])) }

  // The latest role, finish reason and usage that a fragment gave.
  function LastRole(chunks: seq<Chunk>): string {
    if chunks == [] then "assistant"
    else if chunks[|chunks| - 1].role.Some? then chunks[|chunks| - 1].role.value
    else LastRole(chunks[..|chunks| - 1])
  }

  function LastFinish(chunks: seq<Chunk>): Option<string> {
    if chunks == [] then None
    else if chunks[|chunks| - 1].finishReason.Some? then chunks[|chunks| - 1].finishReason
    else LastFinish(chunks[..|chunks| - 1])
  }

  function LastUsage(chunks: seq<Chunk>): Option<string> {
    if chunks == [] then None
    else if chunks[|chunks| - 1].usage.Some? then chunks[|chunks| - 1].usage
    else LastUsage(chunks[..|chunks| - 1])
  }

  ghost predicate Holds(s: Stream, chunks: seq<Chunk>) {
    s.content == Contents(chunks) && s.toolCalls == MergeDeltas(map[], Deltas(chunks)) && s.sent == Parts(chunks) &&
    s.role == LastRole(chunks) && s.finishReason == LastFinish(chunks) && s.error == None
  }

  ghost predicate LiveAs(c: State, j: string, session: nat, chunks: seq<Chunk>, worker: Option<string>) {
    j in c.active && c.active[j] == session && j in c.streams &&
    Holds(c.streams[j], chunks) && c.streams[j].usage == LastUsage(chunks) && c.streams[j].worker == worker &&
    !c.streams[j].complete && c.streams[j].told == []
  }

  ghost predicate FailedAs(s: Stream, chunks: seq<Chunk>, error: string) {
    s.content == Contents(chunks) && s.toolCalls == map[] && s.sent == Parts(chunks) + [Failure(error)] &&
    s.error == Some(error) && s.complete && s.told == [false]
  }

  ghost predicate EndedAs(c: State, j: string, chunks: seq<Chunk>, worker: Option<string>, ending: Input) {
    j !in c.active && j in c.streams &&
    var s := c.streams[j];
    match ending
    case JobResult(_, outcome) =>
      Holds(s, chunks) && s.complete && s.told == [true] && s.timeTaken == outcome.timeTaken && s.cost == outcome.cost &&
      s.usage == (if outcome.usage.Some? then outcome.usage else LastUsage(chunks)) &&
      s.worker == (if outcome.worker.Some? then outcome.worker else worker)
    case JobError(_, error) => FailedAs(s, chunks, error)
    case Lagged => FailedAs(s, chunks, "event_stream_lagged")
    case SessionEnded(closed) => FailedAs(s, chunks, if closed then "client_closed" else "session_ended")
    case _ => Holds(s, chunks) && !s.complete && s.told == []
  }

  // The job begins at b and is ended by event e, the first that ends it (none, when e is
  // the number of events).
  ghost predicate Story(items: seq<Item>, j: string, b: nat, e: nat) {
    b < e <= |items| &&
    items[b].input.Begin? && items[b].input.job == j &&
    (forall k | 0 <= k < b :: !(items[k].input.Begin? && items[k].input.job == j)) &&
    (forall k | b < k < e :: !Ends(items[k], j, items[b].input.session)) &&
    (e < |items| ==> Ends(items[e], j, items[b].input.session))
  }

  lemma {:induction false} Unstarted(items: seq<Item>, j: string)
    requires forall k | 0 <= k < |items| :: !(items[k].input.Begin? && items[k].input.job == j)
    ensures j !in Run(items).streams
  {
    if items != [] {
      Unstarted(items[..|items| - 1], j);
    }
  }

  lemma MergeMore(calls: map<nat, ToolCall>, a: seq<Delta>, b: seq<Delta>)
    ensures MergeDeltas(calls, a + b) == MergeDeltas(MergeDeltas(calls, a), b)
  {
    if b == [] {
      assert a + b == a;
    } else {
      assert (a + b)[..|a + b| - 1] == a + b[..|b| - 1];
      MergeMore(calls, a, b[..|b| - 1]);
    }
  }

  lemma AbsorbHolds(s: Stream, chunks: seq<Chunk>, chunk: Chunk)
    requires Holds(s, chunks) && s.usage == LastUsage(chunks)
    ensures Holds(Absorb(s, chunk), chunks + [chunk]) && Absorb(s, chunk).usage == LastUsage(chunks + [chunk])
  {
    var more := chunks + [chunk];
    assert more[..|more| - 1] == chunks;
    MergeMore(map[], Deltas(chunks), chunk.deltas);
    assert Parts(more) == Parts(chunks) + [Part(chunk)];
  }

  lemma LiveStep(c: State, item: Item, j: string, session: nat, chunks: seq<Chunk>, worker: Option<string>)
    requires LiveAs(c, j, session, chunks, worker)
    ensures !Ends(item, j, session) ==>
              LiveAs(Step(c, item), j, session, chunks + Fragment(item, j), OrElse(WorkerNamed(item, j), worker))
    ensures Ends(item, j, session) ==> EndedAs(Step(c, item), j, chunks, worker, item.input)
  {
    if Fragment(item, j) != [] {
      AbsorbHolds(c.streams[j], chunks, item.input.chunk);
    } else {
      assert chunks + Fragment(item, j) == chunks;
    }
  }

  lemma EndedStep(c: State, item: Item, j: string)
    requires j !in c.active && j in c.streams
    ensures j !in Step(c, item).active && j in Step(c, item).streams && Step(c, item).streams[j] == c.streams[j]
  {
  }

  lemma OwnMore(items: seq<Item>, item: Item, j: string)
    ensures Own(items + [item], j) == Own(items, j) + Fragment(item, j)
    ensures LastWorker(items + [item], j) == OrElse(WorkerNamed(item, j), LastWorker(items, j))
  {
    assert (items + [item])[..|items|] == items;
  }

  ghost predicate Told(items: seq<Item>, j: string, b: nat, e: nat)
    requires b < e <= |items| && items[b].input.Begin?
  {
    if e == |items| then LiveAs(Run(items), j, items[b].input.session, Own(items[b + 1..], j), LastWorker(items[b + 1..], j))
    else EndedAs(Run(items), j, Own(items[b + 1..e], j), LastWorker(items[b + 1..e], j), items[e].input)
  }

  // While the job lives its stream holds exactly its own fragments; the first event that
  // ends it settles it for good.
  lemma {:induction false} StreamIsItsOwnFragments(items: seq<Item>, j: string)
    ensures forall b: nat, e: nat | Story(items, j, b, e) :: Told(items, j, b, e)
  {
    if items != [] {
      var n := |items| - 1;
      var before := items[..n];
      StreamIsItsOwnFragments(before, j);
      forall b: nat, e: nat | Story(items, j, b, e)
        ensures Told(items, j, b, e)
      {
        if b == n {
          Unstarted(before, j);
          assert items[b + 1..] == [] && Parts([]) == [];
        } else if e >= n {
          assert Story(before, j, b, n) && before[b + 1..] == items[b + 1..n];
          if e == |items| {
            StillLive(items, j, b);
          } else {
            JustEnded(items, j, b);
          }
        } else {
          assert Story(before, j, b, e) && before[b + 1..e] == items[b + 1..e];
          EndedStep(Run(before), items[n], j);
        }
      }
    }
  }

  lemma {:induction false} StillLive(items: seq<Item>, j: string, b: nat)
    requires b < |items| - 1 && items[b].input.Begin? && !Ends(items[|items| - 1], j, items[b].input.session)
    requires LiveAs(Run(items[..|items| - 1]), j, items[b].input.session,
                    Own(items[b + 1..|items| - 1], j), LastWorker(items[b + 1..|items| - 1], j))
    ensures LiveAs(Run(items), j, items[b].input.session, Own(items[b + 1..], j), LastWorker(items[b + 1..], j))
  {
    var n := |items| - 1;
    LiveStep(Run(items[..n]), items[n], j, items[b].input.session,
             Own(items[b + 1..n], j), LastWorker(items[b + 1..n], j));
    assert items[b + 1..] == items[b + 1..n] + [items[n]];
    OwnMore(items[b + 1..n], items[n], j);
  }

  lemma {:induction false} JustEnded(items: seq<Item>, j: string, b: nat)
    requires b < |items| - 1 && items[b].input.Begin? && Ends(items[|items| - 1], j, items[b].input.session)
    requires LiveAs(Run(items[..|items| - 1]), j, items[b].input.session,
                    Own(items[b + 1..|items| - 1], j), LastWorker(items[b + 1..|items| - 1], j))
    ensures EndedAs(Run(items), j, Own(items[b + 1..|items| - 1], j), LastWorker(items[b + 1..|items| - 1], j),
                    items[|items| - 1].input)
  {
    var n := |items| - 1;
    LiveStep(Run(items[..n]), items[n], j, items[b].input.session,
             Own(items[b + 1..n], j), LastWorker(items[b + 1..n], j));
  }

  lemma OnlyBeginStarts(c: State, item: Item, j: string)
    requires j !in c.streams && j in Step(c, item).streams
    ensures item.input.Begin? && item.input.job == j
  {
  }

  // No stream is without such a story.
  lemma {:induction false} EveryStreamHasAStory(items: seq<Item>, j: string)
    requires j in Run(items).streams
    ensures exists b: nat, e: nat :: Story(items, j, b, e)
  {
    var n := |items| - 1;
    var before, last := items[..n], items[n];
    if j !in Run(before).streams {
      OnlyBeginStarts(Run(before), last, j);
      if k :| 0 <= k < n && items[k].input.Begin? && items[k].input.job == j {
        StartsStream(before, j, k);
      }
      assert Story(items, j, n, n + 1);
    } else {
      EveryStreamHasAStory(before, j);
      var b: nat, e: nat :| Story(before, j, b, e);
      if e < n || Ends(last, j, items[b].input.session) {
        assert Story(items, j, b, e);
      } else {
        assert Story(items, j, b, n + 1);
      }
    }
  }

  lemma {:induction false} StartsStream(items: seq<Item>, j: string, k: nat)
    requires k < |items| && items[k].input.Begin? && items[k].input.job == j
    ensures j in Run(items).streams
  {
    var n := |items| - 1;
    if k < n {
      StartsStream(items[..n], j, k);
    }
  }

  // Active exactly while incomplete, unless it was abandoned; told once at most.
  lemma OneEnding(items: seq<Item>, j: string)
    requires j in Run(items).streams
    ensures var r := Run(items); var s := r.streams[j];
            |s.told| <= 1 &&
            (s.complete <==> |s.told| == 1) &&
            (s.error.Some? <==> s.told == [false]) &&
            (j in r.active ==> !s.complete) &&
            (j !in r.active && !s.complete ==> exists k :: 0 <= k < |items| && items[k].input == Abandon(j))
  {
    EveryStreamHasAStory(items, j);
    var b: nat, e: nat :| Story(items, j, b, e);
    StreamIsItsOwnFragments(items, j);
    if e < |items| {
      assert items[e].input == items[e].input;
    }
  }

  // What was active when the listener saw the session end is not active afterwards,
  // except for the jobs of the session that is then current.
  lemma NothingOutlivesItsSession(items: seq<Item>, j: string, k: nat)
    requires k < |items| && items[k].input.SessionEnded?
    requires j in Run(items[..k]).streams && j in Run(items).active
    ensures Run(items).active[j] == items[k].current
  {
    AlwaysKnown(items);
    EveryStreamHasAStory(items[..k], j);
    var b: nat, e: nat :| Story(items[..k], j, b, e);
    EveryStreamHasAStory(items, j);
    var b1: nat, e1: nat :| Story(items, j, b1, e1);
    assert items[..k][b] == items[b];
    assert b1 == b;
    StreamIsItsOwnFragments(items, j);
  }

  // ----- frames of other sessions -----

  // A socket frame of a session that is not current.
  ghost predicate Foreign(item: Item) {
    match item.input
    case JobTokens(_, _) => !Heard(item)
    case JobResult(_, _) => !Heard(item)
    case JobError(_, _) => !Heard(item)
    case JobState(_, _) => !Heard(item)
    case _ => false
  }

  ghost function WithoutForeign(items: seq<Item>): seq<Item> {
    if items == [] then []
    else
      var last := items[|items| - 1];
      WithoutForeign(items[..|items| - 1]) + if Foreign(last) then [] else [last]
  }

  // What another session's socket sends leaves no trace, whenever it arrives.
  lemma {:induction false} ForeignFramesLeaveNoTrace(items: seq<Item>)
    ensures Run(WithoutForeign(items)) == Run(items)
  {
    if items != [] {
      var before, last := items[..|items| - 1], items[|items| - 1];
      ForeignFramesLeaveNoTrace(before);
      var rest := WithoutForeign(before);
      if Foreign(last) {
        assert rest + [] == rest;
      } else {
        assert (rest + [last])[..|rest|] == rest;
      }
    }
  }

  // ----- tool calls -----

  function Of(deltas: seq<Delta>, index: nat): seq<Delta> {
    if deltas == [] then []
    else
      Of(deltas[..|deltas| - 1], index) +
      if deltas[|deltas| - 1].index == index then [deltas[|deltas| - 1]] else []
  }

  function Arguments(deltas: seq<Delta>): string {
    if deltas == [] then "" else Arguments(deltas[..|deltas| - 1]) + deltas[|deltas| - 1].arguments
  }

  // The last of the given texts that is not empty.
  function LastId(deltas: seq<Delta>): string {
    if deltas == [] then ""
    else if deltas[|deltas| - 1].id != "" then deltas[|deltas| - 1].id
    else LastId(deltas[..|deltas| - 1])
  }

  function LastName(deltas: seq<Delta>): string {
    if deltas == [] then ""
    else if deltas[|deltas| - 1].name != "" then deltas[|deltas| - 1].name
    else LastName(deltas[..|deltas| - 1])
  }

  // Each call is told by its own index's deltas alone.
  lemma {:induction false} CallIsItsOwnDeltas(deltas: seq<Delta>, index: nat)
    ensures var calls, own := MergeDeltas(map[], deltas), Of(deltas, index);
            (index in calls <==> own != []) &&
            (index in calls ==> calls[index] == ToolCall(LastId(own), LastName(own), Arguments(own)))
  {
    if deltas != [] {
      var n := |deltas| - 1;
      var before, last := Of(deltas[..n], index), deltas[n];
      CallIsItsOwnDeltas(deltas[..n], index);
      if last.index == index {
        assert (before + [last])[..|before|] == before;
      } else {
        assert before + [] == before;
      }
    }
  }

  // However the deltas of different calls are interleaved, the calls come out the same.
  lemma InterleavingDoesNotMatter(a: seq<Delta>, b: seq<Delta>)
    requires forall index: nat :: Of(a, index) == Of(b, index)
    ensures MergeDeltas(map[], a) == MergeDeltas(map[], b)
  {
    var x, y := MergeDeltas(map[], a), MergeDeltas(map[], b);
    forall index: nat
      ensures (index in x <==> index in y) && (index in x ==> x[index] == y[index])
    {
      CallIsItsOwnDeltas(a, index);
      CallIsItsOwnDeltas(b, index);
    }
  }
}
