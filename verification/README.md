# Verified model of the Sogni client's protocols, codecs and parsers

This project models the parts of the Sogni client whose correctness spans several functions or
whole runs, and proves what the client's documentation and tests promise about them. One command,
`dafny verify dfyconfig.toml`, checks everything.

The form follows the source. Objects that change in place are classes, each method of which is
proved equal to a function on the object's value; loops are methods with invariants. The
theorems are then about those functions: over every run of a step relation, over every sequence of
events, or over every input. A write-lock section, and the code between two awaits, is one step.

| modules | component | what is proved about it |
|---|---|---|
| `Auth`, `AuthManager` | account sessions and their versioned credentials | every run keeps one identity per session, versions are a compare-and-set, `close` is final |
| `RequestGuard` | `RequestSession::run` | who is handed a result and who is refused, in every interleaving of guards, requests, logins and refusals |
| `TokenRefresh` | `headers` and `renew_token` | headers stay with their account; an expired token is renewed first, and only then; one refresh at a time; waiters reuse a commit |
| `Projection` | the account shown to the application | exactly when what is shown was fetched in the session stored beside it; nothing is shown after a sign-out |
| `Lifecycle` | listener tasks | exactly when a `stop` waits for everything; nothing starts afterwards |
| `CalcGrammar`, `CalcLexer`, `CalcParser`, `CalcPrinter`, `CalcText` | the calculator's lexer and recursive-descent parser | the accepted language exactly; lexer, parser and printer round trips |
| `TypeStrings`, `TypeGraph`, `Integers`, `TypedData`, `Encoding`, `Binding`, `SigningDomain` | EIP-712 encoding | the type string is injective, what each word and hash stands for, only value and depth errors remain, and equal signing hashes mean equal types and alike values |
| `Wei`, `Digits`, `Text` | decimal to wei | what is accepted and what it denotes, exactly |
| `Chat` | chat stream events | each stream is told by its own fragments, for every event sequence; other sessions leave no trace |
| `ToolLoop` | the automatic tool loop | what is sent and run, in which order, and that the model is told what each tool answered, in every world |
| `Glob` | the glob compiler | the regular expression means the glob, and exactly when it does not |
| `Permutations` | orderings of a stack | complete, duplicate-free, n!, lexicographic |
| `Attribution` | workload attribution | idempotence, consistent lineage, children name their parents |

Code that cannot be seen, or whose content is not the point, is a parameter every theorem ranges
over: token decoding (`Auth.Decoder`), hashing, UTF-8, JSON rendering and ABI text decoding
(`TypedData.Library`), `f64` parsing (`numeric` in `CalcLexer`), and everything a server or a tool
answers (`ToolLoop.World`, the actions of the step relations).

Properties that turned out not to hold as first expected, each with the exact condition under which it does:

* The projection's stored session is the fetch's session, except where a flow that records cookie
  identities stores an account of another wallet than the session has: that opens the next session,
  and the account is stored under it. Both directions are `Projection.OwnSessionExactlyWhen` for one
  section and `Projection.ShownExactlyWhen` for what a run shows;
  `Projection.CookiesMayOpenTheNextSession` is a run of the exceptional kind. Under token
  authentication it never happens (`Projection.ShownWasFetchedInItsSession`).
* A `stop` leaves nothing running, however the run goes on, exactly when no unfinished task is
  awaited by another `stop` at the moment it takes the list
  (`Lifecycle.CompleteExactlyWhenNoOtherWaits`). The one that takes it first is therefore always
  complete, whatever runs beside it (`Lifecycle.FirstStopIsComplete`); a later one may return early
  (`Lifecycle.SecondStopMayReturnEarly`).
* The glob compiler keeps the meaning of a pattern for all paths exactly when the pattern has no two
  adjacent stars; `**` does not cross a newline in a path, because `.` does not
  (`Glob.GlobRegex`). For paths without a newline it keeps the meaning of every pattern.
* A later tool round carries its own operation id exactly when the client's default attribution
  names no other one (`Attribution.ChildNamesItsParent`).
* The first tool round repeats the logical attribution exactly when the client's defaults, each field
  after its own test, have nothing to add where the logical attribution is silent
  (`Attribution.FirstRoundExactlyWhen`). That is so when the caller's fields were in clean form. It is
  not when a given field was refused and the default comes back, or when an untrimmed name first
  dropped a default version (`Attribution.RefusedRootLetsTheDefaultBack`,
  `Attribution.UntrimmedFrameworkRegainsAVersion`).

## Model

| member | source | states |
|---|---|---|
| Auth.ApplyKeeps | src/auth.rs:263-299 | one lock section of any kind keeps the state consistent (watch value is the session, credentials fit the kind, identity agrees with the token, closed means empty) and never moves a version back |
| Auth.RunKeeps | src/auth.rs:263-299 | in every run of logins, logouts, renewals, refusals and close, every state is consistent and later than all states before it |
| Auth.RunPermits | src/auth.rs:581-612 | in a run an event that acts on a snapshot meets the credentials it was taken from: the version comparison alone guarantees it |
| Auth.SessionHasOneIdentity | src/auth.rs:345-363 | two states of a run with one session number never hold two identities, and an identity is not lost while its session lasts |
| Auth.SessionHasOneWallet | src/auth.rs:581-612 | all tokens stored during one session name one wallet; an API key never changes within a session; empty and non-empty never share a session |
| Auth.EqualVersionEqualCredentials | src/auth.rs:259-299 | equal (session, revision) means equal credentials and equal closedness, anywhere in a run |
| Auth.WatchVersionsAndClose | src/auth.rs:476-506 | the watch value is the session, sessions and revisions never decrease, and after close nothing changes and credentials stay empty |
| Auth.ConsumedOnce | src/auth.rs:553-612 | a refresh snapshot is consumed at most once, whether by commit, by failure or by a malformed success |
| Auth.LateResponseChangesNothing | src/auth.rs:490-506 | a refusal or renewal changes the account exactly when its snapshot is still the current version of an open client |
| Auth.SessionMovesExactlyWhen | src/auth.rs:263-299 | each event opens a new session exactly when it takes effect and names another holder: signing in again or renewing for the same wallet, the same key or cookies keeps the session, a sign-out, refusal or close ends it |
| Auth.StoredAndAnnounced | src/auth.rs:365-397 | in every run the stored expiries are those of the stored tokens, and keys and cookies are announced as an account while nothing stored is not |
| Auth.TokenLoginAnnounced | src/auth.rs:365-397 | a token login is accepted exactly for the kind, non-empty decodable tokens and an open client; it stores them and is announced as authenticated exactly when it then is |
| Auth.OtherLoginsExactly | src/auth.rs:318-343 | a key or cookie login is accepted exactly for its kind on an open client, a key only if not blank, and what it stores |
| Auth.AuthenticatedExactly | src/auth.rs:301-316 | in any state of a run `is_authenticated` answers as the stored credentials say: keys and cookies always, tokens while the refresh token lives, nothing stored never |
| Auth.EventsLeave | src/auth.rs:472-612 | an ended session is empty, a renewed one holds the new pair and is announced, and refreshes queue on a new mutex exactly when a login, sign-out or renewal opened a new session |
| Auth.ClosedExactlyWhen | src/auth.rs:476-488 | in every run the client is closed exactly when it was shut down |
| AuthManager.Manager.constructor | src/auth.rs:214-235 | the initial state, which is consistent |
| AuthManager.Manager.Replace | src/auth.rs:263-299 | the whole new state: credentials, identity carried over only when unchanged, session moved only when changed, and the closed refusal |
| AuthManager.Manager.AuthenticateApiKey | src/auth.rs:318-334 | kind and emptiness are refused without effect; otherwise the trimmed key is installed |
| AuthManager.Manager.AuthenticateCookies | src/auth.rs:336-343 | the wrong kind is refused without effect; otherwise a cookie login |
| AuthManager.Manager.AuthenticateTokens | src/auth.rs:365-397 | the error cases without effect, the installed tokens, and when a renewal follows |
| AuthManager.Manager.SetCookieIdentity | src/auth.rs:345-363 | a changed identity opens a new session, a first one does not |
| AuthManager.Manager.Clear | src/auth.rs:472-474 | a logout, ignored once closed |
| AuthManager.Manager.Shutdown | src/auth.rs:476-488 | close, once |
| AuthManager.Manager.ClearIfVersion | src/auth.rs:490-506 | signs out exactly the expected version, and reports the epoch it opened |
| AuthManager.Manager.CommitRenewal | src/auth.rs:581-612 | commits only to the version it was asked for; a renewal that names another wallet opens a new session |
| RequestGuard.OperationCell.Record | src/auth.rs:178-184 | a rejection is recorded only by a request of the operation's own session |
| RequestGuard.GuardLoop.constructor | src/auth.rs:131-148 | a nested guard joins the enclosing operation exactly when it has its session or the epoch it signed out |
| RequestGuard.GuardLoop.Changed | src/auth.rs:152-164 | the arm taken when the session changes: closed, own rejection, or refused |
| RequestGuard.GuardLoop.Finished | src/auth.rs:165-172 | the arm taken when the future finishes |
| RequestGuard.NextKeeps | src/auth.rs:125-185 | every step of the world keeps the invariant that ties guards, operations, requests and sign-outs together |
| RequestGuard.Reachable | src/auth.rs:125-185 | the invariant holds in every reachable world |
| RequestGuard.ResultOwnership | src/auth.rs:125-176 | in every interleaving a success is handed over only while its session is current and the client open; a result of an ended session only if it is a 401, the guard's own operation ended that session and nothing ended the next one since; a closed error comes only of a closed client, a session-changed error only of a changed session |
| RequestGuard.CurrentResultIsDelivered | src/auth.rs:165-172 | in every reachable world whatever a guard's future produces is handed over while its session is current and the client open |
| RequestGuard.GuardsBegin | src/auth.rs:125-150 | a guard starts exactly for the current session of an open client, and shares the enclosing operation exactly when that has its session or was signed out into it |
| RequestGuard.OthersAreRefused | src/auth.rs:152-172 | a guard whose session ended through someone else is refused, whichever arm runs next and whatever its future produced: with a closed error when the client is closed, a session-changed error when not |
| RequestGuard.OwnRejectionIsDelivered | src/auth.rs:152-172 | once its session ended, a guard is handed its 401, and is not stopped by the change, exactly when its own operation ended that session, the next session is still current and the client open |
| RequestGuard.OneRejectionPerSession | src/auth.rs:490-506 | two operations of one session never both own its rejection |
| RequestGuard.EndedByItsOwnRefusal | src/transport/rest.rs:115-152 | the operation named as having ended a session did: at some step its own request was refused while that session was current, and that step moved it |
| RequestGuard.RefusalEndsItsSession | src/transport/rest.rs:115-152 | a refused request signs its session out exactly when its version is still current on an open client, naming its operation as the cause; otherwise it changes nothing |
| TokenRefresh.NextKeeps | src/auth.rs:508-612 | every step of every header or renewal task, and every account event, keeps the invariant over tasks, mutexes and requests sent |
| TokenRefresh.Reachable | src/auth.rs:399-435 | the invariant holds in every reachable world, with time only moving forward |
| TokenRefresh.HeadersBelongToTheirAccount | src/auth.rs:399-435 | headers that are returned carry the session current at the first read, the same account, identity and wallet, and are never built after close |
| TokenRefresh.ExpiredTokenIsRenewedFirst | src/auth.rs:399-412 | in every run headers whose first read found an expired token are built only after the same task's renewal found an unexpired one or committed a new pair |
| TokenRefresh.FirstReadIsRecorded | src/auth.rs:399-407 | what the theorems call a task's first read, and its time, are the account and the clock at a step of the run in which the task read them |
| TokenRefresh.OnlyExpiredTokensAreRefreshed | src/auth.rs:401-412 | a refresh request of a header task leaves only when its first read found tokens already expired then: live tokens, keys and cookies send none |
| TokenRefresh.RenewalSettles | src/auth.rs:549-612 | a renewal whose snapshot is current stores the pair it brought, in the same session exactly when it names no other wallet; without a valid pair it signs the session out; superseded, it changes nothing |
| TokenRefresh.ExpiredRefreshSignsOut | src/auth.rs:512-535 | with both tokens expired the task holding the mutex signs the session out and sends nothing |
| TokenRefresh.ExpiredAccessIsRefreshed | src/auth.rs:521-549 | with the access token expired and the refresh token live, the task holding the mutex sends the request in its own session |
| TokenRefresh.TasksGoOn | src/auth.rs:399-612 | in every run a task is held up only by the mutex or the server, and fails only if aborted, closed, of a passed session, without usable tokens, without a valid answer or superseded |
| TokenRefresh.UndisturbedHeaders | src/auth.rs:399-435 | from any consistent open account without an expired token, three steps of a header task build the headers from that account and send nothing |
| TokenRefresh.UndisturbedRequest | src/auth.rs:399-549 | with an expired token, a live refresh token and a free mutex six steps send one refresh request for that version |
| TokenRefresh.UndisturbedRenewal | src/auth.rs:549-612 | the pair then brought back for the same wallet is stored with its own expiries, the mutex is free and the headers carry the new token |
| TokenRefresh.OthersMove | src/auth.rs:508-612 | a task that is aborted, or whose session passed before the answer, fails and leaves account and requests alone |
| TokenRefresh.SingleFlight | src/auth.rs:508-511 | among tasks of the current session at most one is past the refresh mutex |
| TokenRefresh.NoAbandonedLock | src/auth.rs:508-511 | a refresh mutex is held only by a task still under way |
| TokenRefresh.OneRequestPerSnapshot | src/auth.rs:508-549 | every refresh request leaves for an expired access token of its task's own current session; of two for one snapshot, the task of the first has given up, so they never overlap |
| TokenRefresh.WaiterReusesTheCommit | src/auth.rs:508-520 | a task waiting for a refresh mutex while another commits: when it has the mutex and looks, with the committed version in place and its token valid, the commit was to its own session, it returns that token and sends nothing |
| TokenRefresh.AcquiredInItsSession | src/auth.rs:509-511 | a task that waited for a mutex acquired it while its own session was current |
| Projection.AccountProjection.BeginInstall | src/account/authentication.rs:117-131 | the first section of an installation |
| Projection.AccountProjection.FinishInstall | src/account/authentication.rs:142-147 | the last section, which leaves the session field alone |
| Projection.AccountProjection.Hydrate | src/account/authentication.rs:194-209 | the last section of a fetch: session, account and flag set together |
| Projection.AccountProjection.Authenticated | src/account/listeners.rs:113-129 | the listener's first section: a new session resets, the skip flag is consumed once, and when a fetch follows |
| Projection.AccountProjection.Deauthenticated | src/account/listeners.rs:148-156 | clears exactly when no longer authenticated |
| Projection.NextKeeps | src/account/authentication.rs:117-148 | every step of every flow, and every account event, keeps the invariant |
| Projection.ShownWasFetchedInItsSession | src/account/authentication.rs:117-148 | with tokens: while hydrated, what is shown was fetched in exactly the stored session, although the last section of an installation does not write that field |
| Projection.CookiesMayOpenTheNextSession | src/account/authentication.rs:194-209 | a run in which a cookie fetch is stored under the session it opened itself |
| Projection.OwnSessionExactlyWhen | src/account/authentication.rs:142-209 | before any last section it is known whether the account will be stored under the session it was fetched in: unless its flow records cookie identities and it names another wallet than the session has; then it is stored under the next one |
| Projection.ShownExactlyWhen | src/account/authentication.rs:117-250 | whatever is shown while hydrated was stored by one section of the run, and lies in its own session exactly when that section did not open the next |
| Projection.ShownIsAtMostOneSessionBehind | src/account/listeners.rs:113-146 | so the stored session is the fetch's, or under cookies the one just after it |
| Projection.UndisturbedInstallation | src/account/authentication.rs:117-148 | an installation of tokens that nothing interferes with ends with its account shown and hydrated under the session it opened; what was shown before stays meanwhile exactly if the session does |
| Projection.FailedInstallation | src/account/authentication.rs:134-141 | if its fetch fails in its own session nothing is shown any more, and the account is signed out exactly if it is to be cleared |
| Projection.FailedFetch | src/account/authentication.rs:194-250 | any other fetch that fails is over and leaves everything else as it is |
| Projection.UndisturbedFetchIsShown | src/account/authentication.rs:194-250 | any other fetch that nothing interferes with, of the wallet the session has, ends with its account shown and hydrated under its session |
| Projection.UndisturbedClear | src/account/authentication.rs:252-278 | refused tokens and a sign-out leave what is shown alone while authenticated and hide it when not |
| Projection.OthersLeaveItShown | src/account/authentication.rs:117-303 | every other step leaves what is shown alone, and only an installation takes the hydrated mark off it |
| Projection.NothingShownUntilStored | src/account/authentication.rs:270-303 | in every run, from a sign-out, a rolled-back installation or a section that claims the projection for another session on, nothing is shown or hydrated until a section stores an account |
| Projection.ListenerFetchesExactlyWhen | src/account/listeners.rs:113-129 | a listener goes on to fetch exactly when its session is current and authenticated, no installation lets the update pass and that session's account is not shown yet |
| Projection.FetchesExactlyWhen | src/account/authentication.rs:117-250 | an installation goes on to fetch exactly while its session is current, a hydration only if also authenticated and nothing is hydrated yet |
| Projection.SkipExactly | src/account/authentication.rs:252-278 | the skip flag is set by an installation alone and stays set until a current listener or a sign-out uses it up |
| Lifecycle.TaskList.Enter | src/account/listeners.rs:44-48 | the check of `spawn` is the CheckFlag step of the interleaving: it gets past exactly when the flag is clear, and never after a list was taken |
| Lifecycle.TaskList.Push | src/account/listeners.rs:49-60 | the rest of `spawn` is the StartAndPush step, keeps the invariant, and runs only while no list was taken |
| Lifecycle.TaskList.Cancel | src/account/listeners.rs:62-63 | setting the flag is the SetFlag step and keeps the invariant |
| Lifecycle.TaskList.Take | src/account/listeners.rs:64-64 | taking the list is the TakeTasks step; a task that is neither finished nor in the taken list is awaited by an earlier taker |
| Lifecycle.NextKeeps | src/account/listeners.rs:43-72 | every step keeps: a task started is finished, listed or awaited, and after a list was taken nothing enters |
| Lifecycle.CompleteExactlyWhenNoOtherWaits | src/account/listeners.rs:62-72 | a stop leaves nothing running in any continuation of the run exactly when, as it takes the list, no unfinished task is awaited by another stop |
| Lifecycle.FirstStopIsComplete | src/account/listeners.rs:62-72 | the stop that takes the list first has, once it returned, left nothing running, however many stops and spawns run beside it |
| Lifecycle.StopIsComplete | src/account/listeners.rs:62-72 | in particular once a single stop has returned every task ever started has finished |
| Lifecycle.NothingStartsAfterwards | src/account/listeners.rs:44-64 | once a stop has taken the list no task is started later, however many calls follow |
| Lifecycle.StoppedMeansFinishedOrAwaited | src/account/listeners.rs:62-72 | with several stops: a task unfinished when one returns is awaited by another |
| Lifecycle.SecondStopMayReturnEarly | src/account/listeners.rs:62-72 | a run in which one of two stops returns while a started task has not finished |
| CalcLexer.Tokenize | examples/workflow_text_chat_tool_calling/calculate.rs:34-88 | the index loop yields the tokens, or the error, of the scan by suffixes |
| CalcLexer.ScanNumber | examples/workflow_text_chat_tool_calling/calculate.rs:41-56 | the number loop stops where the longest number text ends, signs only after an exponent mark |
| CalcLexer.RenderRoundTrip | examples/workflow_text_chat_tool_calling/calculate.rs:34-88 | writing tokens with a space after each and scanning gives the tokens back |
| CalcLexer.LexIsPrintable | examples/workflow_text_chat_tool_calling/calculate.rs:34-88 | every token the scan yields has a text that scans back to it |
| CalcLexer.NormalisedTextScansAlike | examples/workflow_text_chat_tool_calling/calculate.rs:34-88 | rewriting an accepted text with single spaces never changes what it scans to |
| CalcLexer.SignScans | examples/workflow_text_chat_tool_calling/calculate.rs:68-75 | each one-character sign scans to its own token and whitespace to none |
| CalcLexer.StarsScan | examples/workflow_text_chat_tool_calling/calculate.rs:76-84 | two stars together are one power sign, a single one a multiplication |
| CalcLexer.LongestNumber | examples/workflow_text_chat_tool_calling/calculate.rs:44-50 | a number takes every character it can and stops at the first it cannot |
| CalcLexer.CharactersExactly | examples/workflow_text_chat_tool_calling/calculate.rs:41-62 | which characters begin and continue a number and a name |
| CalcParser.Parser.Run | examples/workflow_text_chat_tool_calling/calculate.rs:110-116 | the parser's result is the meaning of the tree of its tokens; on success all tokens are consumed and the depth is back |
| CalcGrammar.NamesIgnoreCase | examples/workflow_text_chat_tool_calling/calculate.rs:243-243 | two names are one name exactly when they differ in ASCII case alone |
| CalcGrammar.KnownExactly | examples/workflow_text_chat_tool_calling/calculate.rs:237-264 | `pow` takes two arguments, the other seventeen functions any number but none, and there are no others |
| CalcParser.Parser.Expression | examples/workflow_text_chat_tool_calling/calculate.rs:118-133 | the loop leaves the left-associated meaning of the longest sum, the index after it, and the depth restored |
| CalcParser.Parser.ProductTerm | examples/workflow_text_chat_tool_calling/calculate.rs:135-154 | the same for products |
| CalcParser.Parser.PowerTerm | examples/workflow_text_chat_tool_calling/calculate.rs:156-164 | the same for the right-associative power |
| CalcParser.Parser.UnaryTerm | examples/workflow_text_chat_tool_calling/calculate.rs:166-178 | the same for signs, which bind tighter than power |
| CalcParser.Parser.PrimaryTerm | examples/workflow_text_chat_tool_calling/calculate.rs:180-205 | the same for numbers, names, calls and parentheses, with the depth limit |
| CalcParser.Parser.CallTerm | examples/workflow_text_chat_tool_calling/calculate.rs:207-221 | the same for a call, with the errors of an unknown function or argument count |
| CalcParser.SumSound | examples/workflow_text_chat_tool_calling/calculate.rs:118-133 | an accepted prefix is exactly the text of its tree, well formed and within the depth limit, and is not empty |
| CalcParser.SumBack | examples/workflow_text_chat_tool_calling/calculate.rs:118-133 | the text of any well-formed tree within the limit parses to that tree and leaves what follows |
| CalcParser.ParsesExactly | examples/workflow_text_chat_tool_calling/calculate.rs:110-235 | a token list parses to a tree if and only if it is the text of that tree and the tree nests at most 63 deep |
| CalcParser.Unambiguous | examples/workflow_text_chat_tool_calling/calculate.rs:110-235 | no token list is the text of two trees |
| CalcPrinter.RoundTrip | examples/workflow_text_chat_tool_calling/calculate.rs:110-235 | printing an expression with as few parentheses as precedence allows and parsing gives it back, with function names in lower case, exactly when its printed form nests at most 63 deep; deeper ones are refused |
| CalcPrinter.MinimalForm | examples/workflow_text_chat_tool_calling/calculate.rs:118-205 | no other text of the same expression is shorter or nests less than the printed one |
| CalcPrinter.ReprintingIsSafe | examples/workflow_text_chat_tool_calling/calculate.rs:110-235 | whatever the parser accepts can be printed and parsed again with the same meaning, with no condition left |
| CalcText.TextRoundTrip | examples/workflow_text_chat_tool_calling/calculate.rs:34-235 | the printed text of an expression whose numbers are scannable scans to its tokens, which parse back to it exactly within the depth limit |
| CalcText.RewritingIsSafe | examples/workflow_text_chat_tool_calling/calculate.rs:34-235 | whatever text is scanned and parsed can be written anew from its expression; the new text scans and parses with the same meaning |
| TypeStrings.SegmentsInjective | src/account/wallet_typed_data.rs:99-115 | equal texts of type lists list the same names in the same order with the same fields |
| TypeGraph.CheckDimensions | src/account/wallet_typed_data.rs:88-97 | accepts exactly the array suffixes that are empty or a positive size |
| TypeGraph.DimensionExactly | src/account/wallet_typed_data.rs:88-97 | a dimension is a closing bracket, with nothing or a positive size before it |
| TypeGraph.ParseUsizeExactly | src/account/wallet_typed_data.rs:92-92 | a size is digits, possibly behind a plus sign, of a number below 2^64 |
| TypeGraph.ScanFields | src/account/wallet_typed_data.rs:78-98 | refuses exactly the field lists with an undefined or malformed kind; otherwise pushes their struct types in order |
| TypeGraph.Collect | src/account/wallet_typed_data.rs:70-99 | the worklist ends on every graph, cyclic or not; it succeeds exactly when everything reachable is defined and well formed, and then holds exactly the reachable types, each once and sorted |
| TypeGraph.EncodeType | src/account/wallet_typed_data.rs:70-117 | the text lists the primary type first and the other reachable types once each in ascending order |
| TypeGraph.EncodableIsHereditary | src/account/wallet_typed_data.rs:70-99 | if encoding succeeds for a type it succeeds for every type reachable from it |
| TypeGraph.EncodedTypeInjective | src/account/wallet_typed_data.rs:70-117 | for names and kinds free of separators, equal texts come from equal primary names, equal reachable sets and equal fields on each reachable type |
| Integers.IntegerTokenAccepts | src/account/wallet_typed_data.rs:261-287 | a signed v is accepted exactly when -2^(bits-1) <= v < 2^(bits-1), an unsigned v without a minus sign exactly when v < 2^bits |
| Integers.IntegerTokenWord | src/account/wallet_typed_data.rs:278-287 | the word is v modulo 2^256 |
| Integers.DenotedReads | src/account/wallet_typed_data.rs:265-270 | digits behind `0x` are read as hexadecimal, others as decimal, and a minus sign before either negates |
| Integers.IntegerTokenInjective | src/account/wallet_typed_data.rs:261-287 | at one width two texts with the same word denote the same number |
| Integers.BytesInjective | src/account/wallet_typed_data.rs:219-223 | big-endian bytes of a fixed length determine the number |
| Integers.NumberOfBytes | src/account/wallet_typed_data.rs:219-223 | the bytes, read most significant first, are the number again |
| Integers.IntegerWordInjective | src/account/wallet_typed_data.rs:168-176 | the encoded word of an accepted integer determines the integer |
| TypedData.RSplitPieces | src/account/wallet_typed_data.rs:140-143 | splitting at the last bracket takes off exactly the last of the dimensions that the type check walks from the left |
| TypedData.HashStruct | src/account/wallet_typed_data.rs:119-134 | the struct encoder computes the specified hash, with its errors in order |
| TypedData.EncodeFields | src/account/wallet_typed_data.rs:129-132 | the field loop yields the first error, or all words end to end |
| TypedData.EncodeWord | src/account/wallet_typed_data.rs:136-224 | arrays, structs, absent structs and primitives, with the depth limit that bounds the recursion |
| TypedData.EncodeItems | src/account/wallet_typed_data.rs:147-151 | the same for the items of an array |
| TypedData.SigningHash | src/account/wallet_typed_data.rs:37-67 | computes the specified hash with its errors: domain first, and no message hash when the domain itself is signed |
| TypedData.StructHashErrors | src/account/wallet_typed_data.rs:119-224 | once the type text of a struct was built, encoding any value under it fails only on the value or its depth: no type lookup fails |
| TypedData.PreimageInjective | src/account/wallet_typed_data.rs:53-66 | the preimage determines the domain hash and the message hash, and whether there is one |
| Encoding.PrimitiveExactly | src/account/wallet_typed_data.rs:160-224 | a primitive value gets a word exactly when the word stands for it: 1 or 0, the natural number, the integer modulo 2^256, the hash of the text or bytes, the listed bytes with zeros behind them, or what the ABI reader answers |
| Encoding.SizedNames | src/account/wallet_typed_data.rs:226-259 | `uint`, `int` and `bytes` with a number name exactly the types of that width, for multiples of 8 up to 256 and lengths 1 to 32 |
| Encoding.PlainNames | src/account/wallet_typed_data.rs:228-234 | the four plain names are the four plain types, and no other name is |
| Encoding.ListsExactly | src/account/wallet_typed_data.rs:184-196 | a list gives bytes exactly when each item is a number below 256, and then those in order |
| Encoding.StructIsItsFields | src/account/wallet_typed_data.rs:119-134 | a struct has a hash exactly within the depth limit, when its type text exists and every field's value, looked up by name with null for an absent one, has a word; the hash covers the type's hash and those words in the order of the type |
| Encoding.ArrayIsItsItems | src/account/wallet_typed_data.rs:140-152 | an array has a word exactly when the value is a list, of the demanded length if one is given, whose items all have words; it is the hash of those in order |
| Encoding.NestedStructExactly | src/account/wallet_typed_data.rs:154-165 | a nested struct is its own hash one level deeper, and 32 zero bytes when left out; any other value is refused |
| Encoding.SigningHashExactly | src/account/wallet_typed_data.rs:37-67 | the signing hash covers 0x19 0x01, the domain's hash and, unless the domain itself is signed, the message's, and exists exactly when they do |
| SigningDomain.DomainNeverTypeError | src/account/wallet_typed_data.rs:37-54 | whatever its fields hold, a domain is never refused for its type |
| Binding.WordBinds | src/account/wallet_typed_data.rs:136-224 | without collisions two values have one word exactly when they are alike: same number, text, truth value, bytes, fixed bytes or parsed address, and so for items and fields, all the way down |
| Binding.FixedBinds | src/account/wallet_typed_data.rs:182-224 | fixed bytes have one word exactly when lists hold the same bytes, texts are read as the same word, or a text is read as the list's bytes padded |
| Binding.StructBinds | src/account/wallet_typed_data.rs:119-134 | two values have one struct hash under one type map exactly when, field by field, what they hold under the field's name is alike, absent counting as null |
| Binding.PresentExactly | src/account/wallet_typed_data.rs:39-52 | the domain's type has exactly the fields whose name the domain holds with a value that is not null, in canonical order |
| Binding.SameStruct | src/account/wallet_typed_data.rs:70-134 | the hash depends on the type map only through the types reachable from the name |
| Binding.HashBinds | src/account/wallet_typed_data.rs:70-134 | struct hashes under two type maps are equal exactly when name, reachable types and values agree |
| Binding.SignatureBinds | src/account/wallet_typed_data.rs:37-67 | two typed values have one signing hash exactly when their domains agree name by name and their primary types, reachable types and messages agree |
| SigningDomain.SomethingIsSignable | src/account/wallet_typed_data.rs:37-67 | the assumptions of that theorem can be met |
| Wei.AmountToWei | src/account/wallet_crypto.rs:113-152 | the padding loop and the checked arithmetic compute the specified result, errors included |
| Wei.ToUnits | src/account/wallet_crypto.rs:131-146 | whole and padded fraction combine to the scaled number, or nothing at the limit |
| Wei.WeiExactly | src/account/wallet_crypto.rs:113-152 | a written decimal is accepted exactly when at most 18 fraction digits are significant and the scaled magnitude is below 2^128, with the error of the bound it breaks; it yields the decimal text of that magnitude behind its sign |
| Wei.RejectedIsNotWritten | src/account/wallet_crypto.rs:114-125 | a text is called malformed exactly when, trimmed, no sign, whole part and fraction write it |
| Wei.ScaledIsExact | src/account/wallet_crypto.rs:131-146 | the scaled number denotes exactly amount times 10^18 |
| Wei.TrailingZerosDoNotMatter | src/account/wallet_crypto.rs:126-141 | more zeros after the point never change the answer |
| Digits.DecimalExactly | src/account/wallet_crypto.rs:147-151 | the decimal text of a number is the one digit string of that value without a leading zero |
| Text.TrimIsTheMiddle | src/account/wallet_crypto.rs:114-114 | trimming leaves the middle of the text: only whitespace goes, and none is left at either end |
| Chat.ChatInner.HandleTokens | src/chat/events.rs:199-251 | a fragment is absorbed by its own active stream and changes nothing else |
| Chat.ChatInner.HandleResult | src/chat/events.rs:253-281 | the stream is completed, leaves the active map and is told of once |
| Chat.ChatInner.HandleError | src/chat/events.rs:283-310 | the stream fails, loses its tool calls, leaves the active map and is told of once |
| Chat.ChatInner.HandleState | src/chat/events.rs:312-335 | only the worker name of an active stream may change |
| Chat.ChatInner.EndPreviousSessions | src/chat/events.rs:87-111 | exactly the active jobs of other sessions fail, in whatever order they are visited |
| Chat.ChatInner.FailActiveAfterLag | src/chat/events.rs:131-166 | every active job fails and the map is empty |
| Chat.ChatInner.HandleChatEvent | src/chat/events.rs:61-85 | a frame of another session changes nothing; any other goes to its handler |
| Chat.ChatInner.GiveUp | src/chat/socket.rs:60-67 | a job that is given up leaves the active map with its stream untouched |
| Chat.StreamIsItsOwnFragments | src/chat/events.rs:199-310 | for every event sequence: while a job lives its content, role, finish reason, usage, tool calls, worker and parts sent are those of exactly its own fragments and states in order, those that name no session or the one current on arrival; the first event that ends it settles it for good, with the error, notice and cleared tool calls of its kind |
| Chat.ForeignFramesLeaveNoTrace | src/chat/events.rs:61-71 | for every event sequence, taking out each socket frame of a session that is not current on arrival leaves the same state |
| Chat.EveryStreamHasAStory | src/chat/events.rs:61-85 | every stream ever started has such a beginning and such an end, or none yet |
| Chat.OneEnding | src/chat/events.rs:253-310 | at most one terminal notice; told exactly when complete; active only while incomplete; inactive and incomplete only if given up |
| Chat.NothingOutlivesItsSession | src/chat/events.rs:30-40 | a job active before the listener handled a session change is active afterwards only if it belongs to the session then current |
| Chat.CallIsItsOwnDeltas | src/chat/events.rs:337-372 | a tool call's arguments are the in-order concatenation of its own index's fragments; its id and name are the last non-empty ones |
| Chat.InterleavingDoesNotMatter | src/chat/events.rs:337-372 | however the deltas of different calls are interleaved the calls come out the same |
| ToolLoop.ValidateCalls | src/chat/auto_tools.rs:188-221 | passes exactly when every call is a function with a fresh non-blank id and a trimmed, non-empty, non-hosted name; otherwise the error is the first bad call's |
| ToolLoop.AcceptableExactly | src/chat/auto_tools.rs:188-221 | what passes, written out: type `function`, an id with a non-space character that no other call has, a name without surrounding whitespace, not starting with `sogni_` and not a hosted tool's, in any ASCII case |
| ToolLoop.ExecuteTool | src/chat/auto_tools.rs:223-260 | a cancelled tool is an error; a failing tool is a result that says so |
| ToolLoop.ExecuteCalls | src/chat/auto_tools.rs:160-169 | the calls run in order up to the first check that stops them |
| ToolLoop.RunRounds | src/chat/auto_tools.rs:143-185 | exactly the requests and calls that are due are made, in order, and the result is the one the first round that is not a round of tools settles |
| ToolLoop.Drive | src/chat/auto_tools.rs:121-186 | bad parameters are refused before anything is sent; otherwise as the rounds run |
| ToolLoop.TranscriptIsPaired | src/chat/auto_tools.rs:262-285 | the messages of a round are the originals followed by assistant messages each answered at once by one tool message per call, same order, id and name |
| ToolLoop.RequestsCarryEveryAnswer | src/chat/auto_tools.rs:262-285 | every request carries the originals and then, for each earlier round, exactly that round's answer with its calls and, call by call, the text its own tool answered or the failure text of its own error; nothing else |
| ToolLoop.ToldCallsWereRun | src/chat/auto_tools.rs:160-182 | every call of every round before an action was run |
| ToolLoop.AnswersWithItsHistory | src/chat/auto_tools.rs:150-182 | an answer is the first completion that asks for no tools, with its text, reason and calls; its history holds each round before it, call by call with its own tool's result |
| ToolLoop.FailuresHaveCauses | src/chat/auto_tools.rs:143-185 | a failure is blamed on the first round that is not a round of tools: a session error, a cancellation, the request's error or the fault of a call; or on `max_tool_rounds` rounds that all asked for tools |
| ToolLoop.RunIsWellBehaved | src/chat/auto_tools.rs:121-186 | at most `max_tool_rounds` requests; every transcript is paired; what is run is a call of its round's completion, and only if all calls of that were fit; rounds are not skipped |
| ToolLoop.NothingAfterASessionEnds | src/chat/auto_tools.rs:143-169 | after a session check that fails nothing is sent or run |
| ToolLoop.NothingAfterCancelling | src/chat/auto_tools.rs:223-233 | after a cancellation was seen nothing is sent or run |
| ToolLoop.OneConclusion | src/chat/auto_tools.rs:121-186 | the same answers of the world leave the loop one conclusion, answer or error |
| Glob.Emit | examples/workflow_creative_agent_cli/context.rs:233-262 | the index loop emits the terms of the pattern |
| Glob.GlobRegex | examples/workflow_creative_agent_cli/context.rs:233-263 | the terms accept exactly the newline-free paths the glob matches, for every pattern; and all paths exactly when the pattern has no adjacent stars |
| Glob.DirectoriesMean | examples/workflow_creative_agent_cli/context.rs:241-244 | the matcher's meaning of `**/`: the rest matches from the start or from just behind some slash |
| Glob.AnythingMeans | examples/workflow_creative_agent_cli/context.rs:243-246 | of `**`: the rest matches from anywhere on |
| Glob.SegmentMeans | examples/workflow_creative_agent_cli/context.rs:247-250 | of `*`: the rest matches behind a stretch without a slash |
| Glob.CharacterMeans | examples/workflow_creative_agent_cli/context.rs:251-258 | `?` is one character but a slash, and every other character is itself |
| Glob.CompileKeepsMeaning | examples/workflow_creative_agent_cli/context.rs:239-258 | the language of the emitted terms is the directly defined glob matcher |
| Glob.DirsStep | examples/workflow_creative_agent_cli/context.rs:241-244 | the optional directory prefix is zero or more whole directories |
| Glob.NewlineBreaksDoubleStars | examples/workflow_creative_agent_cli/context.rs:241-248 | every pattern with adjacent stars means a path that its terms refuse |
| Permutations.Permutations | examples/common/lora.rs:63-78 | the nested loops yield the orderings as specified |
| Permutations.CountIsFactorial | examples/common/lora.rs:63-78 | n! lists |
| Permutations.ExactlyTheRearrangements | examples/common/lora.rs:63-78 | a list is among them if and only if it rearranges the items |
| Permutations.NoOrderingTwice | examples/common/lora.rs:63-78 | for distinct items no list occurs twice |
| Permutations.LexicographicByPosition | examples/common/lora.rs:63-78 | the k-th list is picked by the k-th list of positions, and those come in strictly ascending lexicographic order |
| Attribution.PassedStays | src/attribution/wire.rs:111-154 | a value that passes its test passes again unchanged |
| Attribution.OperationIdExactly | src/attribution/wire.rs:127-136 | an operation id passes, unchanged, exactly when it is 1 to 128 letters, digits, dots, underscores, colons and hyphens with a letter or digit first |
| Attribution.VersionExactly | src/attribution/wire.rs:119-125 | a version passes, trimmed, exactly when that is 1 to 32 letters, digits, dots, plus signs, underscores and hyphens with a digit first |
| Attribution.FrameworkExactly | src/attribution/wire.rs:111-117 | a name passes, trimmed, exactly when that is not empty, has at most 128 bytes in UTF-8 and no control character |
| Attribution.SurfaceExactly | src/attribution/wire.rs:138-154 | a surface passes, trimmed, exactly when it is one of the eleven |
| Attribution.Wire | src/attribution/wire.rs:35-69 | the ten insertions yield exactly the fields that pass |
| Attribution.WireRoundTrip | src/attribution/wire.rs:35-69 | the fields on the wire read back as the cleaned workload |
| Attribution.SanitizeFields | src/attribution/wire.rs:71-101 | every field through its own test, and no framework for traffic of another stated kind |
| Attribution.MergeFields | src/attribution/resolve.rs:23-54 | given fields replace defaults; a new name without a version drops the default version |
| Attribution.SettleFields | src/attribution/resolve.rs:61-91 | fallback id, inferred scope and normalised lineage |
| Attribution.ResolveWorkload | src/attribution/resolve.rs:18-93 | the whole resolution; nothing exactly when the sanitised merge has no wire field |
| Attribution.GivenFieldsWin | src/attribution/resolve.rs:23-54 | given fields that pass win over the defaults, a default version is kept only with the name it came with, and only unstated or agent-mediated traffic names a framework |
| Attribution.DefaultsFillIn | src/attribution/resolve.rs:23-54 | where the override is silent the default's value, after its own test, is the result's; a default version stays with its own name |
| Attribution.LineageExactly | src/attribution/resolve.rs:61-91 | a scope that was asked for stays; otherwise an operation is a child exactly with a parent or a root other than itself, else top level; and which root and parent each scope leaves |
| Attribution.LineageIsConsistent | src/attribution/resolve.rs:61-91 | an operation id has a scope, top level means root is the operation and no parent, a child with a root has a parent |
| Attribution.ResolveTwice | src/attribution/resolve.rs:18-93 | resolving a result again under the same fallback changes nothing |
| Attribution.ResultIsOnTheWire | src/attribution/wire.rs:35-69 | a resolved workload can be read back whole from its wire fields |
| Attribution.ChildNamesItsParent | src/chat/auto_tools.rs:81-94 | the child attribution resolves, under any defaults, to a child of the logical operation under its root; it takes the request's own id exactly when the defaults name no other |
| Attribution.ChildSaysWho | src/chat/auto_tools.rs:81-94 | there is a child attribution exactly for an operation; it says who is asking as the logical one does and claims no id |
| Attribution.ResolvedOverDefaults | src/attribution/resolve.rs:18-93 | a resolved workload resolved once more over any defaults is itself exactly when the defaults, after their own tests, have nothing to add where it is silent |
| Attribution.FirstRoundExactlyWhen | src/chat/auto_tools.rs:57-69 | so the first round's request resolves to exactly the logical attribution if and only if the client's defaults have nothing to add where that is silent |
| Attribution.FirstRoundIsTheLogicalOperation | src/chat/auto_tools.rs:57-69 | which holds whenever what the caller gave was in clean form |
| Attribution.UntrimmedFrameworkRegainsAVersion | src/attribution/resolve.rs:25-30 | an input for which it fails: an untrimmed framework name |
| Attribution.RefusedRootLetsTheDefaultBack | src/attribution/resolve.rs:43-55 | another: a given root that fails its test |

## Left out

- HTTP, WebSocket, cookie jar, files and terminal code: a server's answer is an arbitrary input of a step. Clearing the cookie jar is therefore not represented.
- Interleavings finer than one lock section or one stretch between two awaits.
- The wrap-around of the 64-bit session and revision counters: they are unbounded naturals.
- Keccak, secp256k1, PBKDF2, ABI text decoding, base64 and token decoding: parameters of the model. `Binding` assumes no collision only among the byte strings hashed on the way.
- Floating point: numbers keep their text, operators are constructors of the expression tree, and expiry times are reals.
- The 512-byte limit and the JSON output of `evaluate` in `calculate.rs`, and whether a value is finite.
- The texts of error messages; the errors of the typed-data encoder are three classes (type, value, depth), and `CalcGrammar.Error` has one per kind of refusal.
- Regular-expression text and escaping in `glob_regex`: terms are emitted instead of characters.
- `transport_recovery` and model updates in `src/chat/events.rs`: they do not touch the active map.
- Chat job ids are taken to be drawn fresh; a stream's JSON usage and cost are opaque texts, and a tool-call delta's index fits the machine word.
- `AccountApi` flows of API-key accounts, the subscription projection and its freshness, and `check_cookie_authentication`, which differs from `me` by its own login and skip flag.
- The wiring that gives tool rounds their attribution JSON: `Attribution` proves what the values resolve to, `ToolLoop` what is sent otherwise.
- `parse_stack`, `describe`, the context loader around the glob, attribution headers and the connection query: straight-line code whose contracts would repeat it.
- Binding.SignatureBinds: says nothing of type maps with a separator in a name or kind, for which the type text itself is ambiguous.
- TypedData.HashStruct: JSON objects are finite maps, so duplicate keys and key order are not represented.
