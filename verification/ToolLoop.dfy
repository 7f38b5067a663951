// The automatic custom-tool loop: `src/chat/auto_tools.rs`.
//
// A run meets the outside world at fixed points: the session and cancellation checks, the
// completions and the tools. A `World` says what each of them answers, for every round and
// every point of it; everything below holds for every world.
module ToolLoop {
  import opened Wrappers
  import opened Text

  datatype Call = Call(callType: string, id: string, name: string, arguments: string)

  datatype Message =
    | Original(text: string)
    | Assistant(said: Option<string>, calls: seq<Call>)
    | Tool(content: string, callId: string, name: string)

  datatype ToolResult = ToolResult(callId: string, name: string, success: bool, content: string, error: Option<string>)

  datatype Entry = Entry(round: nat, calls: seq<Call>, results: seq<ToolResult>)

  datatype Completion = Completion(content: string, finishReason: string, toolCalls: seq<Call>,
                                   history: Option<seq<Entry>>)

  datatype Error = InvalidInput(reason: string) | Protocol(reason: string) | Cancelled | Other(reason: string)

  // `None` for messages: absent, or not an array.
  datatype Params = NotObject | Object(messages: Option<seq<Message>>)

  datatype World = World(
    session: (nat, nat) -> Option<Error>,            // round, point
    cancelled: (nat, nat) -> bool,
    completed: nat -> Result<Completion, Error>,
    executed: (nat, nat) -> Result<string, string>,  // round, call
    failureText: string -> string)

  // What the loop does to the outside world.
  datatype Action =
    | Sent(round: nat, messages: seq<Message>)
    | Executed(round: nat, index: nat, call: Call)

  const MAX_AUTO_TOOL_ROUNDS: nat := 32
  const TOOL_CALLS := "tool_calls"

  const HOSTED: seq<string> :=
    ["image_to_3d", "remove_background", "segment_image", "generate_image", "generate_video",
     "generate_music", "generate_speech", "edit_image", "apply_style", "restore_photo",
     "upscale_image", "upscale_video", "refine_result", "animate_photo", "change_angle",
     "video_to_video", "stitch_video", "orbit_video", "dance_montage", "sound_to_video",
     "extend_video", "replace_video_segment", "overlay_video", "add_subtitles", "enhance_prompt",
     "compose_lyrics", "compose_instrumental", "compose_script", "compose_workflow",
     "compose_workflow_template"]

  // ----- validation -----

  function LowerChar(c: char): char {
    if 'A' <= c <= 'Z' then c - 'A' + 'a' else c
  }

  predicate SameIgnoringCase(a: string, b: string) {
    |a| == |b| && forall i :: 0 <= i < |a| ==> LowerChar(a[i]) == LowerChar(b[i])
  }

  predicate Reserved(name: string) {
    || (|name| >= 6 && SameIgnoringCase(name[..6], "sogni_"))
    || exists i :: 0 <= i < |HOSTED| && SameIgnoringCase(HOSTED[i], name)
  }

  // One call is fit to run after the calls before it.
  predicate Fit(calls: seq<Call>, k: nat)
    requires k < |calls|
  {
    var call := calls[k];
    && call.callType == "function"
    && Trim(call.id) != "" && (forall i :: 0 <= i < k ==> calls[i].id != call.id)
    && Trim(call.name) != "" && Trim(call.name) == call.name
    && !Reserved(call.name)
  }

  predicate Acceptable(calls: seq<Call>) {
    forall k :: 0 <= k < |calls| ==> Fit(calls, k)
  }

  // The error for the first call that is not fit.
  ghost predicate Refused(calls: seq<Call>, e: Error) {
    exists k: nat :: k < |calls| && FirstUnfit(calls, k) && e == Fault(calls, k)
  }

  predicate FirstUnfit(calls: seq<Call>, k: nat)
    requires k < |calls|
  {
    !Fit(calls, k) && forall i :: 0 <= i < k ==> Fit(calls, i)
  }

  const BAD_TYPE := Protocol("unsupported tool call type")
  const BAD_ID := Protocol("tool call IDs must be non-empty and unique within each round")
  const BAD_NAME := Protocol("tool call name must be non-empty and contain no surrounding whitespace")
  const HOSTED_NAME := InvalidInput("automatic custom-tool execution will not run a hosted tool client-side")
  const TOO_MANY_ROUNDS := Protocol("maximum automatic tool rounds exceeded")

  // A hosted tool is the caller's mistake; anything else is the peer's.
  function Fault(calls: seq<Call>, k: nat): Error
    requires k < |calls|
  {
    var call := calls[k];
    if call.callType != "function" then BAD_TYPE
    else if Trim(call.id) == "" || exists i :: 0 <= i < k && calls[i].id == call.id then BAD_ID
    else if Trim(call.name) == "" || Trim(call.name) != call.name then BAD_NAME
    else HOSTED_NAME
  }

  // The same but for the case of ASCII letters.
  ghost predicate SameLetters(a: string, b: string) {
    |a| == |b| && forall i | 0 <= i < |a| :: SameLetter(a[i], b[i])
  }

  predicate SameLetter(x: char, y: char) {
    || x == y
    || ('A' <= x <= 'Z' && y as int == x as int + 32)
    || ('A' <= y <= 'Z' && x as int == y as int + 32)
  }

  // What a call must be in itself, written out.
  ghost predicate Sound(c: Call) {
    && c.callType == "function"
    && (exists x | x in c.id :: !IsWhitespace(x))
    && c.name != "" && !IsWhitespace(c.name[0]) && !IsWhitespace(c.name[|c.name| - 1])
    && !(|c.name| >= 6 && SameLetters(c.name[..6], "sogni_"))
    && (forall h | h in HOSTED :: !SameLetters(h, c.name))
  }

  // Calls are acceptable exactly when each is sound and no two share an id.
  lemma AcceptableExactly(calls: seq<Call>)
    ensures Acceptable(calls) <==>
              && (forall k | 0 <= k < |calls| :: Sound(calls[k]))
              && (forall i, k | 0 <= i < k < |calls| :: calls[i].id != calls[k].id)
  {
    forall k: nat | k < |calls|
      ensures Fit(calls, k) <==> Sound(calls[k]) && forall i | 0 <= i < k :: calls[i].id != calls[k].id
    {
      NotBlank(calls[k].id);
      Unpadded(calls[k].name);
      ReservedExactly(calls[k].name);
    }
  }

  lemma NotBlank(s: string)
    ensures Trim(s) != "" <==> exists x | x in s :: !IsWhitespace(x)
  {
    TrimIsTheMiddle(s);
    var a: nat, b: nat :| a <= b <= |s| && Trim(s) == s[a..b] &&
      (forall i | 0 <= i < a || b <= i < |s| :: IsWhitespace(s[i])) &&
      (a < b ==> !IsWhitespace(s[a]) && !IsWhitespace(s[b - 1]));
    if a < b {
      assert s[a] in s;
    }
  }

  lemma Unpadded(s: string)
    ensures Trim(s) != "" && Trim(s) == s <==> s != "" && !IsWhitespace(s[0]) && !IsWhitespace(s[|s| - 1])
  {
    TrimStartTight(s);
    TrimEndTight(TrimStart(s));
    if s != "" && !IsWhitespace(s[0]) && !IsWhitespace(s[|s| - 1]) {
      TrimmedStays(s);
    }
    TrimIsTheMiddle(s);
  }

  lemma ReservedExactly(name: string)
    ensures Reserved(name) <==>
            (|name| >= 6 && SameLetters(name[..6], "sogni_")) || exists h | h in HOSTED :: SameLetters(h, name)
  {
    CaseIsIgnored(if |name| < 6 then "" else name[..6], "sogni_");
    forall i | 0 <= i < |HOSTED|
      ensures SameIgnoringCase(HOSTED[i], name) <==> SameLetters(HOSTED[i], name)
    {
      CaseIsIgnored(HOSTED[i], name);
    }
  }

  lemma CaseIsIgnored(a: string, b: string)
    ensures SameIgnoringCase(a, b) <==> SameLetters(a, b)
  {
    assert forall x, y :: LowerChar(x) == LowerChar(y) <==> SameLetter(x, y);
  }

  method ValidateCalls(calls: seq<Call>) returns (r: Result<(), Error>)
    ensures r.Ok? <==> Acceptable(calls)
    ensures r.Err? ==> Refused(calls, r.error)
  {
    var ids: set<string> := {};
    for k := 0 to |calls|
      invariant forall i :: 0 <= i < k ==> Fit(calls, i)
      invariant ids == set i | 0 <= i < k :: calls[i].id
    {
      r := ValidateCall(calls, k, ids);
      if r.Err? {
        return;
      }
      ids := ids + {calls[k].id};
    }
    return Ok(());
  }

  method ValidateCall(calls: seq<Call>, k: nat, ids: set<string>) returns (r: Result<(), Error>)
    requires k < |calls| && ids == set i | 0 <= i < k :: calls[i].id
    ensures r.Ok? <==> Fit(calls, k)
    ensures r.Err? ==> r.error == Fault(calls, k)
  {
    var call := calls[k];
    if call.callType != "function" {
      return Err(BAD_TYPE);
    }
    if Trim(call.id) == "" || call.id in ids {
      return Err(BAD_ID);
    }
    if Trim(call.name) == "" || Trim(call.name) != call.name {
      return Err(BAD_NAME);
    }
    if Reserved(call.name) {
      return Err(HOSTED_NAME);
    }
    return Ok(());
  }

  // ----- what a world makes of one round -----

  function Calls(w: World, r: nat): seq<Call> {
    if w.completed(r).Ok? then w.completed(r).value.toolCalls else []
  }

  function ResultOf(w: World, r: nat, k: nat): ToolResult
    requires k < |Calls(w, r)|
  {
    var call := Calls(w, r)[k];
    match w.executed(r, k)
    case Ok(content) => ToolResult(call.id, call.name, true, content, None)
    case Err(error) => ToolResult(call.id, call.name, false, w.failureText(error), Some(error))
  }

  function Results(w: World, r: nat): seq<ToolResult> {
    seq(|Calls(w, r)|, k requires 0 <= k < |Calls(w, r)| => ResultOf(w, r, k))
  }

  // The checks before the request pass.
  predicate Started(w: World, r: nat) { w.session(r, 0).None? && !w.cancelled(r, 0) }

  predicate Answered(w: World, r: nat) { Started(w, r) && w.completed(r).Ok? && w.session(r, 1).None? }

  // The answer asks for tools.
  predicate Asked(w: World, r: nat) {
    Answered(w, r) && w.completed(r).value.finishReason == TOOL_CALLS && Calls(w, r) != []
  }

  predicate Final(w: World, r: nat) { Answered(w, r) && !Asked(w, r) }

  predicate MayRun(w: World, r: nat, k: nat) { w.session(r, 2 + 2 * k).None? && !w.cancelled(r, 1 + 2 * k) }

  predicate CallDone(w: World, r: nat, k: nat) {
    MayRun(w, r, k) && !w.cancelled(r, 2 + 2 * k) && w.session(r, 3 + 2 * k).None?
  }

  predicate CallsDone(w: World, r: nat, n: nat) { forall k :: 0 <= k < n ==> CallDone(w, r, k) }

  predicate RoundDone(w: World, r: nat) {
    Asked(w, r) && Acceptable(Calls(w, r)) && CallsDone(w, r, |Calls(w, r)|)
  }

  predicate Reached(w: World, r: nat) { forall i :: 0 <= i < r ==> RoundDone(w, i) }

  ghost predicate CallBreaks(w: World, r: nat, k: nat, e: Error) {
    || w.session(r, 2 + 2 * k) == Some(e)
    || (w.session(r, 2 + 2 * k).None? && e == Cancelled && (w.cancelled(r, 1 + 2 * k) || w.cancelled(r, 2 + 2 * k)))
    || (MayRun(w, r, k) && !w.cancelled(r, 2 + 2 * k) && w.session(r, 3 + 2 * k) == Some(e))
  }

  // The round stops the loop with this error.
  ghost predicate Breaks(w: World, r: nat, e: Error) {
    || w.session(r, 0) == Some(e)
    || (w.session(r, 0).None? && w.cancelled(r, 0) && e == Cancelled)
    || (Started(w, r) && w.completed(r) == Err(e))
    || (Started(w, r) && w.completed(r).Ok? && w.session(r, 1) == Some(e))
    || (Asked(w, r) && Refused(Calls(w, r), e))
    || (Asked(w, r) && Acceptable(Calls(w, r)) &&
        exists k: nat :: k < |Calls(w, r)| && CallsDone(w, r, k) && CallBreaks(w, r, k, e))
  }

  // ----- the transcript and the history -----

  function Turn(content: string, calls: seq<Call>, results: seq<ToolResult>): seq<Message>
    requires |calls| == |results|
  {
    [Assistant(if content == "" then None else Some(content), calls)] +
    seq(|calls|, k requires 0 <= k < |calls| => Tool(results[k].content, calls[k].id, calls[k].name))
  }

  function TurnOf(w: World, r: nat): seq<Message> {
    Turn(if w.completed(r).Ok? then w.completed(r).value.content else "", Calls(w, r), Results(w, r))
  }

  function Transcript(w: World, originals: seq<Message>, r: nat): seq<Message> {
    if r == 0 then originals else Transcript(w, originals, r - 1) + TurnOf(w, r - 1)
  }

  function History(w: World, r: nat): seq<Entry> {
    seq(r, i requires 0 <= i < r => Entry(i, Calls(w, i), Results(w, i)))
  }

  // Call k of the round is to be run: the round's calls all passed, and those before it are done.
  predicate Owed(w: World, r: nat, k: nat) {
    Asked(w, r) && Acceptable(Calls(w, r)) && CallsDone(w, r, k) && MayRun(w, r, k)
  }

  // An action the loop owes the world, and only such, is ever taken.
  ghost predicate Due(w: World, originals: seq<Message>, max: nat, a: Action) {
    a.round < max && Reached(w, a.round) && Started(w, a.round) &&
    match a
    case Sent(r, messages) => messages == Transcript(w, originals, r)
    case Executed(r, k, call) =>
      k < |Calls(w, r)| && call == Calls(w, r)[k] && Owed(w, r, k)
  }

  predicate Before(a: Action, b: Action) {
    a.round < b.round || (a.round == b.round && b.Executed? && (a.Executed? ==> a.index < b.index))
  }

  ghost predicate InOrder(log: seq<Action>) {
    forall i, j :: 0 <= i < j < |log| ==> Before(log[i], log[j])
  }

  // The log holds exactly the actions due in the rounds below the bound, in order.
  ghost predicate Complete(w: World, originals: seq<Message>, max: nat, log: seq<Action>, bound: nat) {
    InOrder(log) && forall a :: a in log <==> Due(w, originals, max, a) && a.round < bound
  }

  function Runs(w: World, r: nat, n: nat): seq<Action>
    requires n <= |Calls(w, r)|
  {
    seq(n, k requires 0 <= k < n => Executed(r, k, Calls(w, r)[k]))
  }

  lemma RoundLogged(w: World, originals: seq<Message>, max: nat, log: seq<Action>, r: nat, n: nat)
    requires Complete(w, originals, max, log, r) && r < max && Reached(w, r) && Started(w, r)
    requires n <= |Calls(w, r)|
    requires forall k: nat :: k < |Calls(w, r)| ==> (k < n <==> Owed(w, r, k))
    ensures Complete(w, originals, max, log + [Sent(r, Transcript(w, originals, r))] + Runs(w, r, n), r + 1)
  {
    var sent := Sent(r, Transcript(w, originals, r));
    var runs := Runs(w, r, n);
    var all := log + [sent] + runs;
    forall a
      ensures a in all <==> Due(w, originals, max, a) && a.round < r + 1
    {
      assert a in all <==> a in log || a == sent || a in runs;
      if a.round == r && a.Executed? && Due(w, originals, max, a) {
        assert runs[a.index] == a;
      }
      assert a in runs ==> Due(w, originals, max, a) && a.round == r;
      assert Due(w, originals, max, sent);
    }
    forall i, j | 0 <= i < j < |all|
      ensures Before(all[i], all[j])
    {
      assert i < |log| ==> all[i] == log[i] && log[i] in log;
    }
  }

  lemma NothingDue(w: World, originals: seq<Message>, max: nat, log: seq<Action>, r: nat)
    requires Complete(w, originals, max, log, r) && (r < max ==> !Started(w, r))
    ensures Complete(w, originals, max, log, max)
  {
    assert forall r2: nat :: r < r2 && Reached(w, r2) ==> RoundDone(w, r);
    forall a
      ensures a in log <==> Due(w, originals, max, a) && a.round < max
    {
    }
  }

  lemma NothingMore(w: World, originals: seq<Message>, max: nat, log: seq<Action>, r: nat)
    requires Complete(w, originals, max, log, r + 1) && r < max && !RoundDone(w, r)
    ensures Complete(w, originals, max, log, max)
  {
    assert forall r2: nat :: r < r2 && Reached(w, r2) ==> RoundDone(w, r);
    forall a
      ensures a in log <==> Due(w, originals, max, a) && a.round < max
    {
    }
  }

  lemma SentOnly(w: World, originals: seq<Message>, max: nat, log: seq<Action>, r: nat)
    requires Complete(w, originals, max, log, r) && r < max && Reached(w, r) && Started(w, r)
    requires !Asked(w, r) || !Acceptable(Calls(w, r))
    ensures Complete(w, originals, max, log + [Sent(r, Transcript(w, originals, r))], max)
  {
    var sent := Sent(r, Transcript(w, originals, r));
    assert log + [sent] + Runs(w, r, 0) == log + [sent];
    RoundLogged(w, originals, max, log, r, 0);
    NothingMore(w, originals, max, log + [sent], r);
  }

  // ----- the loop -----

  method ExecuteTool(w: World, r: nat, k: nat) returns (result: Result<ToolResult, Error>)
    requires k < |Calls(w, r)|
    ensures result == if w.cancelled(r, 1 + 2 * k) || w.cancelled(r, 2 + 2 * k) then Err(Cancelled)
                      else Ok(ResultOf(w, r, k))
  {
    if w.cancelled(r, 1 + 2 * k) {
      return Err(Cancelled);
    }
    if w.cancelled(r, 2 + 2 * k) {
      return Err(Cancelled);
    }
    var call := Calls(w, r)[k];
    match w.executed(r, k)
    case Ok(content) => return Ok(ToolResult(call.id, call.name, true, content, None));
    case Err(error) => return Ok(ToolResult(call.id, call.name, false, w.failureText(error), Some(error)));
  }

  lemma AllOwed(w: World, r: nat, k: nat)
    requires Asked(w, r) && Acceptable(Calls(w, r)) && CallsDone(w, r, k)
    ensures forall j: nat :: j < k ==> Owed(w, r, j)
  {
    forall j: nat | j < k
      ensures Owed(w, r, j)
    {
      assert CallDone(w, r, j);
    }
  }

  // The calls owed are those up to the first that is not done.
  lemma OwedUpTo(w: World, r: nat, k: nat, n: nat)
    requires Asked(w, r) && Acceptable(Calls(w, r)) && k < |Calls(w, r)|
    requires CallsDone(w, r, k) && !CallDone(w, r, k) && n == if MayRun(w, r, k) then k + 1 else k
    ensures forall j: nat :: j < |Calls(w, r)| ==> (j < n <==> Owed(w, r, j))
    ensures !CallsDone(w, r, |Calls(w, r)|)
  {
    AllOwed(w, r, k);
    assert forall j: nat :: k < j && CallsDone(w, r, j) ==> CallDone(w, r, k);
  }

  method ExecuteCalls(w: World, r: nat) returns (results: Result<seq<ToolResult>, Error>, log: seq<Action>, ghost n: nat)
    requires Asked(w, r) && Acceptable(Calls(w, r))
    ensures results.Ok? ==> CallsDone(w, r, |Calls(w, r)|) && results.value == Results(w, r)
    ensures results.Err? ==>
              exists k: nat :: k < |Calls(w, r)| && CallsDone(w, r, k) && CallBreaks(w, r, k, results.error)
    ensures n <= |Calls(w, r)| && log == Runs(w, r, n)
    ensures forall k: nat :: k < |Calls(w, r)| ==> (k < n <==> Owed(w, r, k))
    ensures results.Err? ==> !CallsDone(w, r, |Calls(w, r)|)
  {
    var calls := Calls(w, r);
    var out: seq<ToolResult> := [];
    log, n := [], 0;
    for k := 0 to |calls|
      invariant CallsDone(w, r, k) && out == Results(w, r)[..k] && n == k && log == Runs(w, r, k)
    {
      if w.session(r, 2 + 2 * k).Some? {
        OwedUpTo(w, r, k, n);
        return Err(w.session(r, 2 + 2 * k).value), log, n;
      }
      if !w.cancelled(r, 1 + 2 * k) {
        log := log + [Executed(r, k, calls[k])];
        n := k + 1;
      }
      var result := ExecuteTool(w, r, k);
      if result.Err? {
        assert CallBreaks(w, r, k, Cancelled);
        OwedUpTo(w, r, k, n);
        return Err(result.error), log, n;
      }
      out := out + [result.value];
      if w.session(r, 3 + 2 * k).Some? {
        OwedUpTo(w, r, k, n);
        return Err(w.session(r, 3 + 2 * k).value), log, n;
      }
    }
    AllOwed(w, r, |calls|);
    return Ok(out), log, n;
  }

  method Drive(params: Params, max: nat, w: World) returns (result: Result<Completion, Error>, log: seq<Action>)
    ensures params.NotObject? || params.messages.None? || !(1 <= max <= MAX_AUTO_TOOL_ROUNDS) ==>
              result.Err? && result.error.InvalidInput? && log == []
    ensures params.Object? && params.messages.Some? && 1 <= max <= MAX_AUTO_TOOL_ROUNDS ==>
              Complete(w, params.messages.value, max, log, max) && Concludes(w, max, result)
  {
    log := [];
    if params.NotObject? {
      return Err(InvalidInput("chat params must be an object")), log;
    }
    if !(1 <= max <= MAX_AUTO_TOOL_ROUNDS) {
      return Err(InvalidInput("max_tool_rounds must be between 1 and 32")), log;
    }
    if params.messages.None? {
      return Err(InvalidInput("messages must be an array")), log;
    }
    result, log := RunRounds(params.messages.value, max, w);
  }

  method RunRounds(originals: seq<Message>, max: nat, w: World)
    returns (result: Result<Completion, Error>, log: seq<Action>)
    ensures Complete(w, originals, max, log, max) && Concludes(w, max, result)
  {
    log := [];
    var messages := originals;
    var history: seq<Entry> := [];
    for round := 0 to max
      invariant Reached(w, round) && Complete(w, originals, max, log, round)
      invariant messages == Transcript(w, originals, round) && history == History(w, round)
    {
      if w.session(round, 0).Some? {
        NothingDue(w, originals, max, log, round);
        return Err(w.session(round, 0).value), log;
      }
      if w.cancelled(round, 0) {
        NothingDue(w, originals, max, log, round);
        return Err(Cancelled), log;
      }
      ghost var before := log;
      log := log + [Sent(round, messages)];
      if w.completed(round).Err? {
        SentOnly(w, originals, max, before, round);
        return Err(w.completed(round).error), log;
      }
      var completion := w.completed(round).value;
      if w.session(round, 1).Some? {
        SentOnly(w, originals, max, before, round);
        return Err(w.session(round, 1).value), log;
      }
      if completion.finishReason != TOOL_CALLS || completion.toolCalls == [] {
        SentOnly(w, originals, max, before, round);
        if history != [] {
          completion := completion.(history := Some(history));
        }
        return Ok(completion), log;
      }
      var valid := ValidateCalls(completion.toolCalls);
      if valid.Err? {
        SentOnly(w, originals, max, before, round);
        return Err(valid.error), log;
      }
      var results, runs, n := ExecuteCalls(w, round);
      log := log + runs;
      RoundLogged(w, originals, max, before, round, n);
      if results.Err? {
        NothingMore(w, originals, max, log, round);
        return Err(results.error), log;
      }
      messages := messages + Turn(completion.content, completion.toolCalls, results.value);
      history := history + [Entry(round, completion.toolCalls, results.value)];
    }
    return Err(TOO_MANY_ROUNDS), log;
  }

  // The result is settled by the first round that is not a round of tools.
  ghost predicate Concludes(w: World, max: nat, result: Result<Completion, Error>) {
    || (Reached(w, max) && result == Err(TOO_MANY_ROUNDS))
    || exists r: nat :: r < max && Reached(w, r) && ConcludesAt(w, r, result)
  }

  ghost predicate ConcludesAt(w: World, r: nat, result: Result<Completion, Error>) {
    if result.Err? then Breaks(w, r, result.error)
    else
      Final(w, r) &&
      result.value == w.completed(r).value.(history := if r == 0 then w.completed(r).value.history else Some(History(w, r)))
  }

  // ----- what a run is worth -----

  // From position `from` on, every assistant message is followed at once by one tool message
  // for each call it declares, in order, and every tool message is one of those.
  ghost predicate Paired(messages: seq<Message>, from: nat) {
    (forall p | from <= p < |messages| && messages[p].Assistant? :: Answers(messages, p)) &&
    (forall p | from <= p < |messages| && !messages[p].Assistant? :: exists q :: from <= q < p && Covers(messages, q, p))
  }

  ghost predicate Answers(messages: seq<Message>, p: nat)
    requires p < |messages| && messages[p].Assistant?
  {
    var calls := messages[p].calls;
    calls != [] && p + |calls| < |messages| && Acceptable(calls) &&
    Replies(messages[p + 1..p + 1 + |calls|], calls)
  }

  ghost predicate Replies(replies: seq<Message>, calls: seq<Call>)
    requires |replies| == |calls|
  {
    forall k | 0 <= k < |calls| ::
      replies[k].Tool? && replies[k].callId == calls[k].id && replies[k].name == calls[k].name
  }

  ghost predicate Covers(messages: seq<Message>, q: nat, p: nat)
    requires q < |messages|
  {
    messages[q].Assistant? && q < p <= q + |messages[q].calls|
  }

  lemma AnswersMore(before: seq<Message>, turn: seq<Message>, p: nat)
    requires p < |before| && before[p].Assistant? && Answers(before, p)
    ensures Answers(before + turn, p)
  {
    var n := |before[p].calls|;
    assert (before + turn)[p + 1..p + 1 + n] == before[p + 1..p + 1 + n];
  }

  lemma PairedMore(before: seq<Message>, from: nat, content: string, calls: seq<Call>, results: seq<ToolResult>)
    requires from <= |before| && Paired(before, from)
    requires |calls| == |results| > 0 && Acceptable(calls)
    ensures Paired(before + Turn(content, calls, results), from)
  {
    var turn := Turn(content, calls, results);
    var all := before + turn;
    forall p | from <= p < |all| && all[p].Assistant?
      ensures Answers(all, p)
    {
      if p < |before| {
        AnswersMore(before, turn, p);
      } else {
        assert all[p + 1..p + 1 + |calls|] == turn[1..];
      }
    }
    forall p | from <= p < |all| && !all[p].Assistant?
      ensures exists q :: from <= q < p && Covers(all, q, p)
    {
      if p < |before| {
        var q :| from <= q < p && Covers(before, q, p);
        assert Covers(all, q, p);
      } else {
        assert Covers(all, |before|, p);
      }
    }
  }

  lemma {:induction false} TranscriptIsPaired(w: World, originals: seq<Message>, r: nat)
    requires Reached(w, r)
    ensures originals <= Transcript(w, originals, r) && Paired(Transcript(w, originals, r), |originals|)
    ensures |History(w, r)| == r && forall i :: 0 <= i < r ==> History(w, r)[i].round == i
  {
    if r > 0 {
      TranscriptIsPaired(w, originals, r - 1);
      assert RoundDone(w, r - 1);
      PairedMore(Transcript(w, originals, r - 1), |originals|, w.completed(r - 1).value.content,
                 Calls(w, r - 1), Results(w, r - 1));
    }
  }

  function Requests(log: seq<Action>): nat {
    if log == [] then 0
    else Requests(log[..|log| - 1]) + if log[|log| - 1].Sent? then 1 else 0
  }

  lemma {:induction false} RequestsAreBounded(log: seq<Action>, max: nat)
    requires InOrder(log) && forall i :: 0 <= i < |log| ==> log[i].round < max
    ensures Requests(log) <= max
  {
    if log != [] {
      var n := |log| - 1;
      var last := log[n];
      RequestsAreBounded(log[..n], if last.Sent? then last.round else max) by {
        assert forall i :: 0 <= i < n ==> Before(log[i], log[n]);
      }
    }
  }

  // What a run does: at most `max` requests, each with a well-paired transcript over the
  // originals; no call runs unless all of its round's calls were fit.
  lemma RunIsWellBehaved(w: World, originals: seq<Message>, max: nat, log: seq<Action>)
    requires Complete(w, originals, max, log, max)
    ensures Requests(log) <= max
    ensures forall a | a in log && a.Sent? :: originals <= a.messages && Paired(a.messages, |originals|)
    ensures forall a | a in log && a.Executed? ::
              w.completed(a.round).Ok? &&
              var calls := w.completed(a.round).value.toolCalls;
              Acceptable(calls) && a.index < |calls| && a.call == calls[a.index]
    ensures forall a | a in log :: forall r: nat :: r <= a.round ==> Sent(r, Transcript(w, originals, r)) in log
  {
    assert forall i :: 0 <= i < |log| ==> log[i] in log;
    RequestsAreBounded(log, max);
    forall a | a in log && a.Sent?
      ensures originals <= a.messages && Paired(a.messages, |originals|)
    {
      TranscriptIsPaired(w, originals, a.round);
    }
    forall a, r: nat | a in log && r <= a.round
      ensures Sent(r, Transcript(w, originals, r)) in log
    {
      if r < a.round {
        assert RoundDone(w, r);
      }
      assert Due(w, originals, max, Sent(r, Transcript(w, originals, r)));
    }
    forall a | a in log && a.Executed?
      ensures w.completed(a.round).Ok? &&
              var calls := w.completed(a.round).value.toolCalls;
              Acceptable(calls) && a.index < |calls| && a.call == calls[a.index]
    {
      assert Due(w, originals, max, a);
    }
  }

  // ----- what the model is told -----

  // Where the turn of round r begins, when the first begins at `from`.
  ghost function TurnStart(w: World, from: nat, r: nat): nat {
    if r == 0 then from
    else TurnStart(w, from, r - 1) + 1 + if w.completed(r - 1).Ok? then |w.completed(r - 1).value.toolCalls| else 0
  }

  // From position p on, the answer of round i is told with its calls, and behind it what
  // each call's own tool answered.
  ghost predicate TurnAt(w: World, messages: seq<Message>, p: nat, i: nat) {
    w.completed(i).Ok? &&
    var said := w.completed(i).value;
    var calls := said.toolCalls;
    said.finishReason == "tool_calls" && calls != [] && p + |calls| < |messages| &&
    messages[p] == Assistant(if said.content == "" then None else Some(said.content), calls) &&
    forall k | 0 <= k < |calls| ::
      messages[p + 1 + k] ==
      Tool(match w.executed(i, k) case Ok(text) => text case Err(error) => w.failureText(error), calls[k].id, calls[k].name)
  }

  // The history entry of round i: every call with what its own tool answered.
  ghost predicate EntryAt(w: World, entry: Entry, i: nat) {
    w.completed(i).Ok? &&
    var calls := w.completed(i).value.toolCalls;
    entry.round == i && entry.calls == calls && |entry.results| == |calls| &&
    forall k | 0 <= k < |calls| ::
      entry.results[k] ==
      match w.executed(i, k)
      case Ok(text) => ToolResult(calls[k].id, calls[k].name, true, text, None)
      case Err(error) => ToolResult(calls[k].id, calls[k].name, false, w.failureText(error), Some(error))
  }

  // The turns of the first r rounds, one after the other.
  ghost predicate TellsRounds(w: World, messages: seq<Message>, from: nat, r: nat) {
    |messages| == TurnStart(w, from, r) && forall i: nat | i < r :: TurnAt(w, messages, TurnStart(w, from, i), i)
  }

  lemma {:induction false} TranscriptTells(w: World, originals: seq<Message>, r: nat)
    requires Reached(w, r)
    ensures originals <= Transcript(w, originals, r) && TellsRounds(w, Transcript(w, originals, r), |originals|, r)
  {
    if r > 0 {
      TranscriptTells(w, originals, r - 1);
      assert RoundDone(w, r - 1);
      var before := Transcript(w, originals, r - 1);
      NewTurn(w, before, r - 1);
      OldTurns(w, before, TurnOf(w, r - 1), |originals|, r - 1);
    }
  }

  lemma OldTurns(w: World, before: seq<Message>, more: seq<Message>, from: nat, r: nat)
    requires TellsRounds(w, before, from, r)
    ensures forall i: nat | i < r :: TurnAt(w, before + more, TurnStart(w, from, i), i)
  {
    forall i: nat | i < r
      ensures TurnAt(w, before + more, TurnStart(w, from, i), i)
    {
      OldTurn(w, before, more, TurnStart(w, from, i), i);
    }
  }

  lemma NewTurn(w: World, before: seq<Message>, i: nat)
    requires RoundDone(w, i)
    ensures TurnAt(w, before + TurnOf(w, i), |before|, i)
    ensures |TurnOf(w, i)| == 1 + |w.completed(i).value.toolCalls|
  {
  }

  lemma OldTurn(w: World, before: seq<Message>, more: seq<Message>, p: nat, i: nat)
    requires TurnAt(w, before, p, i)
    ensures TurnAt(w, before + more, p, i)
  {
  }

  // Every request carries the originals and then, for each round before it, that round's
  // answer and what each of its tools answered, and nothing else.
  lemma RequestsCarryEveryAnswer(w: World, originals: seq<Message>, max: nat, log: seq<Action>)
    requires Complete(w, originals, max, log, max)
    ensures forall a | a in log && a.Sent? ::
              originals <= a.messages && TellsRounds(w, a.messages, |originals|, a.round)
  {
    forall a | a in log && a.Sent?
      ensures originals <= a.messages && TellsRounds(w, a.messages, |originals|, a.round)
    {
      assert Due(w, originals, max, a);
      TranscriptTells(w, originals, a.round);
    }
  }

  // All the calls of a round that was told were run.
  lemma ToldCallsWereRun(w: World, originals: seq<Message>, max: nat, log: seq<Action>)
    requires Complete(w, originals, max, log, max)
    ensures forall a, i: nat, k: nat |
              a in log && i < a.round && w.completed(i).Ok? && k < |w.completed(i).value.toolCalls| ::
              Executed(i, k, w.completed(i).value.toolCalls[k]) in log
  {
    forall a, i: nat, k: nat |
      a in log && i < a.round && w.completed(i).Ok? && k < |w.completed(i).value.toolCalls|
      ensures Executed(i, k, w.completed(i).value.toolCalls[k]) in log
    {
      assert Due(w, originals, max, a);
      assert RoundDone(w, i) && CallDone(w, i, k);
      assert Due(w, originals, max, Executed(i, k, w.completed(i).value.toolCalls[k]));
    }
  }

  // An answer is the first completion that asks for no tools, and its history holds every
  // round before it.
  ghost predicate AnswerOf(w: World, r: nat, c: Completion) {
    w.completed(r).Ok? && AllAsked(w, r) &&
    var said := w.completed(r).value;
    && (said.finishReason != "tool_calls" || said.toolCalls == [])
    && c.content == said.content && c.finishReason == said.finishReason && c.toolCalls == said.toolCalls
    && (r == 0 ==> c.history == said.history)
    && (r > 0 ==>
          c.history.Some? && |c.history.value| == r && forall i: nat | i < r :: EntryAt(w, c.history.value[i], i))
  }

  lemma AnswersWithItsHistory(w: World, max: nat)
    ensures forall c | Concludes(w, max, Ok(c)) :: exists r: nat :: r < max && AnswerOf(w, r, c)
  {
    forall c | Concludes(w, max, Ok(c))
      ensures exists r: nat :: r < max && AnswerOf(w, r, c)
    {
      var r: nat :| r < max && Reached(w, r) && ConcludesAt(w, r, Ok(c));
      ReachedAsked(w, r);
      forall i: nat | i < r
        ensures EntryAt(w, History(w, r)[i], i)
      {
        assert RoundDone(w, i);
      }
      assert AnswerOf(w, r, c);
    }
  }

  // What a failed run is blamed on.
  ghost predicate Cause(w: World, r: nat, e: Error) {
    || (exists point :: w.session(r, point) == Some(e))
    || ((exists point :: w.cancelled(r, point)) && e == Cancelled)
    || w.completed(r) == Err(e)
    || (w.completed(r).Ok? && w.completed(r).value.finishReason == "tool_calls" &&
        exists k: nat | k < |w.completed(r).value.toolCalls| :: Blamed(w.completed(r).value.toolCalls, k, e))
  }

  ghost predicate Blamed(calls: seq<Call>, k: nat, e: Error)
    requires k < |calls|
  {
    match e
    case InvalidInput(_) => calls[k].callType == "function" && Reserved(calls[k].name)
    case Protocol(_) =>
      || calls[k].callType != "function"
      || Trim(calls[k].id) == "" || (exists i :: 0 <= i < k && calls[i].id == calls[k].id)
      || Trim(calls[k].name) == "" || Trim(calls[k].name) != calls[k].name
    case _ => false
  }

  // The first n rounds all asked for tools.
  ghost predicate AllAsked(w: World, n: nat) {
    forall r: nat | r < n ::
      w.completed(r).Ok? && w.completed(r).value.finishReason == "tool_calls" && w.completed(r).value.toolCalls != []
  }

  lemma ReachedAsked(w: World, n: nat)
    requires Reached(w, n)
    ensures AllAsked(w, n)
  {
    forall r: nat | r < n
      ensures w.completed(r).Ok? && w.completed(r).value.finishReason == "tool_calls" && w.completed(r).value.toolCalls != []
    {
      assert RoundDone(w, r);
    }
  }

  // A failure has a cause in the first round that is not a round of tools: a session error,
  // a cancellation, the request's own error or a call that is not fit. Or there were `max`
  // rounds of tools.
  lemma FailuresHaveCauses(w: World, max: nat, e: Error)
    requires Concludes(w, max, Err(e))
    ensures || (exists r: nat :: r < max && AllAsked(w, r) && Cause(w, r, e))
            || (AllAsked(w, max) && e == Protocol("maximum automatic tool rounds exceeded"))
  {
    if Reached(w, max) {
      NotBefore(w, max, Err(e));
      ReachedAsked(w, max);
    } else {
      var r: nat :| r < max && Reached(w, r) && ConcludesAt(w, r, Err(e));
      ReachedAsked(w, r);
      BreaksHasCause(w, r, e);
    }
  }

  lemma BreaksHasCause(w: World, r: nat, e: Error)
    requires Breaks(w, r, e)
    ensures Cause(w, r, e)
  {
    if Asked(w, r) && Refused(Calls(w, r), e) {
      var calls := Calls(w, r);
      var k: nat :| k < |calls| && FirstUnfit(calls, k) && e == Fault(calls, k);
      assert Blamed(w.completed(r).value.toolCalls, k, e);
    }
  }

  // After a session check that fails nothing is sent or run any more.
  lemma NothingAfterASessionEnds(w: World, originals: seq<Message>, max: nat, log: seq<Action>, r: nat, point: nat)
    requires Complete(w, originals, max, log, max)
    requires w.session(r, point).Some? && point < 2 + 2 * |Calls(w, r)|
    ensures forall a | a in log ::
              a.round < r || (a.round == r && point > 0 && (a.Executed? ==> 2 + 2 * a.index < point))
  {
    EndsTheRound(w, r, point, |Calls(w, r)|);
    assert forall r2: nat :: r < r2 && Reached(w, r2) ==> RoundDone(w, r);
    forall a | a in log
      ensures a.round < r || (a.round == r && point > 0 && (a.Executed? ==> 2 + 2 * a.index < point))
    {
      assert Due(w, originals, max, a);
      if a.round == r && a.Executed? && point < 2 + 2 * a.index {
        EndsTheRound(w, r, point, a.index);
      }
    }
  }

  // Neither is anything after a cancellation was seen.
  lemma NothingAfterCancelling(w: World, originals: seq<Message>, max: nat, log: seq<Action>, r: nat, point: nat)
    requires Complete(w, originals, max, log, max)
    requires w.cancelled(r, point) && point <= 2 * |Calls(w, r)|
    ensures forall a | a in log ::
              a.round < r || (a.round == r && point > 0 && (a.Executed? ==> 1 + 2 * a.index < point))
  {
    CancelsTheRound(w, r, point, |Calls(w, r)|);
    assert forall r2: nat :: r < r2 && Reached(w, r2) ==> RoundDone(w, r);
    forall a | a in log
      ensures a.round < r || (a.round == r && point > 0 && (a.Executed? ==> 1 + 2 * a.index < point))
    {
      assert Due(w, originals, max, a);
      if a.round == r && a.Executed? && point < 1 + 2 * a.index {
        CancelsTheRound(w, r, point, a.index);
      }
    }
  }

  lemma CancelsTheRound(w: World, r: nat, point: nat, n: nat)
    requires w.cancelled(r, point) && point <= 2 * n
    ensures !(Answered(w, r) && CallsDone(w, r, n))
  {
    if point >= 1 {
      var k: nat := (point - 1) / 2;
      assert point == 1 + 2 * k || point == 2 + 2 * k;
      assert !CallDone(w, r, k);
    }
  }

  lemma EndsTheRound(w: World, r: nat, point: nat, n: nat)
    requires w.session(r, point).Some? && point < 2 + 2 * n
    ensures !(Answered(w, r) && CallsDone(w, r, n))
  {
    if point >= 2 {
      var k: nat := point / 2 - 1;
      assert point == 2 + 2 * k || point == 3 + 2 * k;
      assert !CallDone(w, r, k);
    }
  }

  lemma BreaksIsNotDone(w: World, r: nat, e: Error)
    requires Breaks(w, r, e)
    ensures !RoundDone(w, r) && !Final(w, r)
  {
    if k: nat :| k < |Calls(w, r)| && CallsDone(w, r, k) && CallBreaks(w, r, k, e) {
      assert !CallDone(w, r, k);
    }
  }

  // A round that breaks breaks with one error.
  lemma BreaksOnce(w: World, r: nat, e: Error, f: Error)
    requires Breaks(w, r, e) && Breaks(w, r, f)
    ensures e == f
  {
    if Asked(w, r) {
      if Acceptable(Calls(w, r)) {
        var j: nat :| j < |Calls(w, r)| && CallsDone(w, r, j) && CallBreaks(w, r, j, e);
        var k: nat :| k < |Calls(w, r)| && CallsDone(w, r, k) && CallBreaks(w, r, k, f);
        OneBreak(w, r, j, e, k, f);
      } else {
        var j: nat :| j < |Calls(w, r)| && FirstUnfit(Calls(w, r), j) && e == Fault(Calls(w, r), j);
        var k: nat :| k < |Calls(w, r)| && FirstUnfit(Calls(w, r), k) && f == Fault(Calls(w, r), k);
        assert j == k;
      }
    }
  }

  lemma OneBreak(w: World, r: nat, j: nat, e: Error, k: nat, f: Error)
    requires CallsDone(w, r, j) && CallBreaks(w, r, j, e) && CallsDone(w, r, k) && CallBreaks(w, r, k, f)
    ensures e == f
  {
    assert !CallDone(w, r, j) && !CallDone(w, r, k);
    assert j == k;
  }

  lemma ConcludedIsNotDone(w: World, r: nat, result: Result<Completion, Error>)
    requires ConcludesAt(w, r, result)
    ensures !RoundDone(w, r)
  {
    if result.Err? {
      BreaksIsNotDone(w, r, result.error);
    }
  }

  // A world leaves the loop one conclusion, answer or error.
  lemma OneConclusion(w: World, max: nat, a: Result<Completion, Error>, b: Result<Completion, Error>)
    requires Concludes(w, max, a) && Concludes(w, max, b)
    ensures a == b
  {
    if Reached(w, max) {
      NotBefore(w, max, a);
      NotBefore(w, max, b);
    } else {
      var r: nat :| r < max && Reached(w, r) && ConcludesAt(w, r, a);
      var q: nat :| q < max && Reached(w, q) && ConcludesAt(w, q, b);
      ConcludedIsNotDone(w, r, a);
      ConcludedIsNotDone(w, q, b);
      OneStop(w, q, r);
      if a.Err? && b.Err? {
        BreaksOnce(w, r, a.error, b.error);
      } else if a.Err? {
        BreaksIsNotDone(w, r, a.error);
      } else if b.Err? {
        BreaksIsNotDone(w, r, b.error);
      }
    }
  }

  lemma NotBefore(w: World, max: nat, a: Result<Completion, Error>)
    requires Reached(w, max) && Concludes(w, max, a)
    ensures a == Err(TOO_MANY_ROUNDS)
  {
    if r: nat :| r < max && Reached(w, r) && ConcludesAt(w, r, a) {
      ConcludedIsNotDone(w, r, a);
      assert false;
    }
  }

  lemma OneStop(w: World, q: nat, r: nat)
    requires Reached(w, q) && Reached(w, r) && !RoundDone(w, q) && !RoundDone(w, r)
    ensures q == r
  {
  }
}
