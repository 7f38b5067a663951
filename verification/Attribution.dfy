// Workload attribution: `src/attribution/resolve.rs`, `src/attribution/wire.rs`, and the
// attribution a tool loop gives its rounds (`src/chat/auto_tools.rs`).
module Attribution {
  import opened Wrappers
  import opened Text

  datatype WorkloadKind = Direct | AgentMediated | Service | UnknownKind
  datatype ExecutionMode = Browser | Durable | Server | UnknownMode
  datatype OperationScope = TopLevel | Child | UnknownScope

  // The source's one record of ten fields, in two groups: who is asking, and for which operation.
  datatype Agent = Agent(
    kind: Option<WorkloadKind>,
    framework: Option<string>,
    frameworkVersion: Option<string>,
    surface: Option<string>,
    surfaceVersion: Option<string>,
    mode: Option<ExecutionMode>)

  datatype Lineage = Lineage(
    scope: Option<OperationScope>,
    operation: Option<string>,
    root: Option<string>,
    parent: Option<string>)

  datatype Workload = Workload(agent: Agent, lineage: Lineage)

  const UNATTRIBUTED := Workload(Agent(None, None, None, None, None, None), Lineage(None, None, None, None))

  // ----- valid field values -----

  function Utf8Length(s: string): nat {
    if s == "" then 0
    else
      (if s[0] < '\U{80}' then 1 else if s[0] < '\U{800}' then 2 else if s[0] < '\U{10000}' then 3 else 4) +
      Utf8Length(s[1..])
  }

  predicate IsControl(c: char) { c < ' ' || '\U{7F}' <= c <= '\U{9F}' }

  predicate IsAlphanumeric(c: char) { '0' <= c <= '9' || 'A' <= c <= 'Z' || 'a' <= c <= 'z' }

  function Bounded(value: string, maximum: nat): Option<string> {
    var v := Trim(value);
    if v != "" && Utf8Length(v) <= maximum && (forall i :: 0 <= i < |v| ==> !IsControl(v[i])) then Some(v) else None
  }

  predicate VersionShaped(v: string) {
    v != "" && '0' <= v[0] <= '9' && forall i :: 0 < i < |v| ==> IsAlphanumeric(v[i]) || v[i] in ".+_-"
  }

  predicate OperationShaped(v: string) {
    v != "" && IsAlphanumeric(v[0]) && forall i :: 0 < i < |v| ==> IsAlphanumeric(v[i]) || v[i] in "._:-"
  }

  function ValidVersion(value: string): Option<string> {
    var v := Bounded(value, 32);
    if v.Some? && VersionShaped(v.value) then v else None
  }

  function ValidOperation(value: string): Option<string> {
    if Trim(value) != value then None
    else
      var v := Bounded(value, 128);
      if v.Some? && OperationShaped(v.value) then v else None
  }

  const SURFACES: set<string> :=
    {"native_web", "native_mobile", "native_desktop", "plugin", "personal_skill", "mcp", "cli",
     "sdk", "openai_compatible", "direct_api", "unknown"}

  function ValidSurface(value: string): Option<string> {
    var v := Trim(value);
    if v in SURFACES then Some(v) else None
  }

  function Framework(o: Option<string>): Option<string> { if o.Some? then Bounded(o.value, 128) else None }
  function Version(o: Option<string>): Option<string> { if o.Some? then ValidVersion(o.value) else None }
  function Surface(o: Option<string>): Option<string> { if o.Some? then ValidSurface(o.value) else None }
  function Operation(o: Option<string>): Option<string> { if o.Some? then ValidOperation(o.value) else None }

  // A value that passes once passes again, unchanged.
  lemma PassedStays(o: Option<string>)
    ensures Framework(Framework(o)) == Framework(o) && Version(Version(o)) == Version(o)
    ensures Surface(Surface(o)) == Surface(o) && Operation(Operation(o)) == Operation(o)
  {
    if o.Some? {
      TrimTwice(o.value);
    }
  }

  // UTF-8 as RFC 3629 lays it out.
  function Encoded(c: char): seq<int> {
    var n := c as int;
    if n < 0x80 then [n]
    else if n < 0x800 then [0xC0 + n / 64, 0x80 + n % 64]
    else if n < 0x10000 then [0xE0 + n / 4096, 0x80 + n / 64 % 64, 0x80 + n % 64]
    else [0xF0 + n / 262144, 0x80 + n / 4096 % 64, 0x80 + n / 64 % 64, 0x80 + n % 64]
  }

  function Utf8(s: string): seq<int> {
    if s == "" then [] else Encoded(s[0]) + Utf8(s[1..])
  }

  lemma {:induction false} Utf8LengthIs(s: string)
    ensures Utf8Length(s) == |Utf8(s)|
  {
    if s != "" {
      Utf8LengthIs(s[1..]);
    }
  }

  lemma {:induction false} AsciiLength(s: string)
    requires forall i | 0 <= i < |s| :: s[i] < '\U{80}'
    ensures Utf8Length(s) == |s|
  {
    if s != "" {
      AsciiLength(s[1..]);
    }
  }

  // By their numbers in ASCII.
  predicate Digit(c: char) { 48 <= c as int <= 57 }

  predicate LetterOrDigit(c: char) { Digit(c) || 65 <= c as int <= 90 || 97 <= c as int <= 122 }

  // A name passes trimmed, if that is not empty, has at most 128 bytes and no control character.
  lemma FrameworkExactly(value: string)
    ensures var v := Trim(value);
            Framework(Some(value)) in {None, Some(v)} &&
            (Framework(Some(value)) == Some(v) <==>
               v != "" && |Utf8(v)| <= 128 &&
               forall i | 0 <= i < |v| :: 0x20 <= v[i] as int < 0x7F || 0xA0 <= v[i] as int)
  {
    Utf8LengthIs(Trim(value));
  }

  // An operation id passes exactly as it stands: 1 to 128 letters, digits, dots, underscores,
  // colons and hyphens, a letter or digit first.
  lemma OperationIdExactly(v: string)
    ensures Operation(Some(v)) in {None, Some(v)}
    ensures Operation(Some(v)) == Some(v) <==>
            0 < |v| <= 128 && LetterOrDigit(v[0]) && forall i | 0 < i < |v| :: LetterOrDigit(v[i]) || v[i] in "._:-"
  {
    assert forall c :: IsAlphanumeric(c) <==> LetterOrDigit(c);
    if OperationShaped(v) {
      AsciiLength(v);
      TrimmedStays(v);
    }
  }

  // A version passes trimmed: 1 to 32 letters, digits, dots, plus signs, underscores and
  // hyphens, a digit first.
  lemma VersionExactly(value: string)
    ensures var v := Trim(value);
            Version(Some(value)) in {None, Some(v)} &&
            (Version(Some(value)) == Some(v) <==>
               0 < |v| <= 32 && Digit(v[0]) && forall i | 0 < i < |v| :: LetterOrDigit(v[i]) || v[i] in ".+_-")
  {
    assert forall c :: IsAlphanumeric(c) <==> LetterOrDigit(c);
    var v := Trim(value);
    if VersionShaped(v) {
      AsciiLength(v);
    }
  }

  // A surface passes trimmed, if it is one of the eleven.
  lemma SurfaceExactly(value: string)
    ensures Surface(Some(value)) == if Trim(value) in SURFACES then Some(Trim(value)) else None
  {
  }

  // ----- resolution -----

  // The fields, each passed through its own test.
  function CleanedAgent(a: Agent): Agent {
    a.(framework := Framework(a.framework), frameworkVersion := Version(a.frameworkVersion),
       surface := Surface(a.surface), surfaceVersion := Version(a.surfaceVersion))
  }

  function CleanedLineage(l: Lineage): Lineage {
    l.(operation := Operation(l.operation), root := Operation(l.root), parent := Operation(l.parent))
  }

  function Cleaned(w: Workload): Workload { Workload(CleanedAgent(w.agent), CleanedLineage(w.lineage)) }

  // Only agent-mediated traffic, or traffic of no stated kind, names a framework.
  predicate MaySayFramework(kind: Option<WorkloadKind>) { kind.None? || kind.value == AgentMediated }

  function SanitizeAgent(a: Agent): Agent {
    var c := CleanedAgent(a);
    if MaySayFramework(a.kind) then c else c.(framework := None, frameworkVersion := None)
  }

  function Sanitize(w: Workload): Workload { Workload(SanitizeAgent(w.agent), CleanedLineage(w.lineage)) }

  function OrElse<T>(a: Option<T>, b: Option<T>): Option<T> { if a.Some? then a else b }

  // A version belongs to the name it came with.
  function MergedVersion(name: Option<string>, version: Option<string>, oldName: Option<string>,
                         oldVersion: Option<string>): Option<string> {
    if version.Some? then version
    else if name.Some? && name != oldName then None
    else oldVersion
  }

  function MergeAgent(d: Agent, o: Agent): Agent {
    Agent(OrElse(o.kind, d.kind),
          OrElse(o.framework, d.framework),
          MergedVersion(o.framework, o.frameworkVersion, d.framework, d.frameworkVersion),
          OrElse(o.surface, d.surface),
          MergedVersion(o.surface, o.surfaceVersion, d.surface, d.surfaceVersion),
          OrElse(o.mode, d.mode))
  }

  function MergeLineage(d: Lineage, o: Lineage): Lineage {
    Lineage(OrElse(o.scope, d.scope), OrElse(o.operation, d.operation), OrElse(o.root, d.root), OrElse(o.parent, d.parent))
  }

  function Merge(d: Workload, o: Workload): Workload {
    Workload(MergeAgent(d.agent, o.agent), MergeLineage(d.lineage, o.lineage))
  }

  function Base(d: Option<Workload>): Workload { if d.Some? then d.value else UNATTRIBUTED }

  function Request(d: Option<Workload>, o: Option<Workload>): Workload {
    if o.Some? then Merge(Base(d), o.value) else Base(d)
  }

  function InferredScope(l: Lineage): Option<OperationScope> {
    if l.scope.Some? || l.operation.None? then l.scope
    else if l.parent.Some? || (l.root.Some? && l.root != l.operation) then Some(Child)
    else Some(TopLevel)
  }

  function Settle(l: Lineage, fallback: Option<string>): Lineage {
    var named := l.(operation := OrElse(l.operation, fallback));
    var scoped := named.(scope := InferredScope(named));
    match scoped.scope
    case Some(Child) => scoped.(parent := OrElse(scoped.parent, scoped.root))
    case Some(TopLevel) => scoped.(root := scoped.operation, parent := None)
    case _ => scoped
  }

  function Resolve(d: Option<Workload>, o: Option<Workload>, fallback: Option<string>): Option<Workload> {
    var clean := Sanitize(Request(d, o));
    if clean == UNATTRIBUTED then None
    else Some(clean.(lineage := Settle(clean.lineage, Operation(fallback))))
  }

  // ----- the wire -----

  datatype Field = Kind | FrameworkName | FrameworkVersion | SurfaceName | SurfaceVersion | Mode | Scope
                 | OperationId | RootId | ParentId

  function KindName(k: WorkloadKind): string {
    match k
    case Direct => "direct" case AgentMediated => "agent_mediated" case Service => "service" case UnknownKind => "unknown"
  }

  function ModeName(m: ExecutionMode): string {
    match m
    case Browser => "browser" case Durable => "durable" case Server => "server" case UnknownMode => "unknown"
  }

  function ScopeName(s: OperationScope): string {
    match s
    case TopLevel => "top_level" case Child => "child" case UnknownScope => "unknown"
  }

  function Insert(fields: map<Field, string>, field: Field, value: Option<string>): map<Field, string> {
    if value.Some? then fields[field := value.value] else fields
  }

  // What a workload has to say for one field.
  function Said(w: Workload, field: Field): Option<string> {
    match field
    case Kind => if w.agent.kind.Some? then Some(KindName(w.agent.kind.value)) else None
    case FrameworkName => Framework(w.agent.framework)
    case FrameworkVersion => Version(w.agent.frameworkVersion)
    case SurfaceName => Surface(w.agent.surface)
    case SurfaceVersion => Version(w.agent.surfaceVersion)
    case Mode => if w.agent.mode.Some? then Some(ModeName(w.agent.mode.value)) else None
    case Scope => if w.lineage.scope.Some? then Some(ScopeName(w.lineage.scope.value)) else None
    case OperationId => Operation(w.lineage.operation)
    case RootId => Operation(w.lineage.root)
    case ParentId => Operation(w.lineage.parent)
  }

  const FIELDS: seq<Field> :=
    [Kind, FrameworkName, FrameworkVersion, SurfaceName, SurfaceVersion, Mode, Scope, OperationId, RootId, ParentId]

  function WireOf(w: Workload, fields: seq<Field>): map<Field, string> {
    map f | f in fields && Said(w, f).Some? :: Said(w, f).value
  }

  function WireFields(w: Workload): map<Field, string> { WireOf(w, FIELDS) }

  lemma OneMoreField(w: Workload, fields: seq<Field>, f: Field)
    ensures WireOf(w, fields + [f]) == Insert(WireOf(w, fields), f, Said(w, f))
  {
  }

  method Wire(w: Workload) returns (fields: map<Field, string>)
    ensures fields == WireFields(w)
  {
    fields := map[];
    for i := 0 to |FIELDS|
      invariant fields == WireOf(w, FIELDS[..i])
    {
      OneMoreField(w, FIELDS[..i], FIELDS[i]);
      assert FIELDS[..i + 1] == FIELDS[..i] + [FIELDS[i]];
      fields := Insert(fields, FIELDS[i], Said(w, FIELDS[i]));
    }
    assert FIELDS[..|FIELDS|] == FIELDS;
  }

  lemma GetSaid(w: Workload)
    ensures forall f :: Get(WireFields(w), f) == Said(w, f)
  {
    forall f
      ensures Get(WireFields(w), f) == Said(w, f)
    {
      assert f in FIELDS by {
        match f
        case Kind => assert FIELDS[0] == f;
        case FrameworkName => assert FIELDS[1] == f;
        case FrameworkVersion => assert FIELDS[2] == f;
        case SurfaceName => assert FIELDS[3] == f;
        case SurfaceVersion => assert FIELDS[4] == f;
        case Mode => assert FIELDS[5] == f;
        case Scope => assert FIELDS[6] == f;
        case OperationId => assert FIELDS[7] == f;
        case RootId => assert FIELDS[8] == f;
        case ParentId => assert FIELDS[9] == f;
      }
    }
  }

  function Get(fields: map<Field, string>, field: Field): Option<string> {
    if field in fields then Some(fields[field]) else None
  }

  function KindNamed(s: string): WorkloadKind {
    if s == "direct" then Direct
    else if s == "agent_mediated" then AgentMediated
    else if s == "service" then Service else UnknownKind
  }

  function ModeNamed(s: string): ExecutionMode {
    if s == "browser" then Browser
    else if s == "durable" then Durable
    else if s == "server" then Server else UnknownMode
  }

  function ScopeNamed(s: string): OperationScope {
    if s == "top_level" then TopLevel
    else if s == "child" then Child else UnknownScope
  }

  lemma NamesTell()
    ensures forall k :: KindNamed(KindName(k)) == k
    ensures forall m :: ModeNamed(ModeName(m)) == m
    ensures forall s :: ScopeNamed(ScopeName(s)) == s
  {
  }

  function Mapped<T>(o: Option<string>, read: string -> T): Option<T> {
    if o.Some? then Some(read(o.value)) else None
  }

  // Reading the fields back.
  function FromWire(fields: map<Field, string>): Workload {
    Workload(
      Agent(Mapped(Get(fields, Kind), KindNamed), Get(fields, FrameworkName), Get(fields, FrameworkVersion),
            Get(fields, SurfaceName), Get(fields, SurfaceVersion), Mapped(Get(fields, Mode), ModeNamed)),
      Lineage(Mapped(Get(fields, Scope), ScopeNamed), Get(fields, OperationId), Get(fields, RootId), Get(fields, ParentId)))
  }

  // The wire carries exactly the fields that pass their tests.
  lemma WireRoundTrip(w: Workload)
    ensures FromWire(WireFields(w)) == Cleaned(w)
  {
    GetSaid(w);
    NamesTell();
  }

  lemma NothingOnTheWire(w: Workload)
    ensures WireFields(w) == map[] <==> Cleaned(w) == UNATTRIBUTED
  {
    GetSaid(w);
    var fields := WireFields(w);
    if Cleaned(w) == UNATTRIBUTED {
      forall f
        ensures f !in fields
      {
        assert Get(fields, f) == Said(w, f);
      }
    } else if fields == map[] {
      assert FromWire(fields) == UNATTRIBUTED;
      WireRoundTrip(w);
    }
  }

  // ----- the operation -----

  method SanitizeFields(w: Workload) returns (r: Workload)
    ensures r == Sanitize(w)
  {
    var a, l := w.agent, w.lineage;
    a := a.(framework := Framework(a.framework), frameworkVersion := Version(a.frameworkVersion));
    a := a.(surface := Surface(a.surface), surfaceVersion := Version(a.surfaceVersion));
    l := l.(operation := Operation(l.operation), root := Operation(l.root), parent := Operation(l.parent));
    if a.kind.Some? && a.kind.value != AgentMediated {
      a := a.(framework := None, frameworkVersion := None);
    }
    r := Workload(a, l);
  }

  method MergeFields(d: Workload, o: Workload) returns (r: Workload)
    ensures r == Merge(d, o)
  {
    var a, l, b, m := d.agent, d.lineage, o.agent, o.lineage;
    if b.framework != a.framework && b.framework.Some? && b.frameworkVersion.None? {
      a := a.(frameworkVersion := None);
    }
    if b.surface != a.surface && b.surface.Some? && b.surfaceVersion.None? {
      a := a.(surfaceVersion := None);
    }
    a := a.(kind := OrElse(b.kind, a.kind), framework := OrElse(b.framework, a.framework));
    a := a.(frameworkVersion := OrElse(b.frameworkVersion, a.frameworkVersion), surface := OrElse(b.surface, a.surface));
    a := a.(surfaceVersion := OrElse(b.surfaceVersion, a.surfaceVersion), mode := OrElse(b.mode, a.mode));
    l := l.(scope := OrElse(m.scope, l.scope), operation := OrElse(m.operation, l.operation));
    l := l.(root := OrElse(m.root, l.root), parent := OrElse(m.parent, l.parent));
    r := Workload(a, l);
  }

  method SettleFields(lineage: Lineage, fallback: Option<string>) returns (l: Lineage)
    ensures l == Settle(lineage, Operation(fallback))
  {
    l := lineage;
    if l.operation.None? {
      l := l.(operation := Operation(fallback));
    }
    if l.operation.Some? && l.scope.None? {
      l := l.(scope := if l.parent.Some? || (l.root != l.operation && l.root.Some?) then Some(Child) else Some(TopLevel));
    }
    match l.scope {
      case Some(Child) =>
        if l.parent.None? {
          l := l.(parent := l.root);
        }
      case Some(TopLevel) =>
        l := l.(root := l.operation, parent := None);
      case _ =>
    }
  }

  method ResolveWorkload(d: Option<Workload>, o: Option<Workload>, fallback: Option<string>)
    returns (result: Option<Workload>)
    ensures result == Resolve(d, o, fallback)
    ensures result.None? <==> WireFields(Sanitize(Request(d, o))) == map[]
  {
    var resolved := Base(d);
    if o.Some? {
      resolved := MergeFields(resolved, o.value);
    }
    resolved := SanitizeFields(resolved);
    NothingSaid(Request(d, o));
    var fields := Wire(resolved);
    if fields == map[] {
      return None;
    }
    SettledStaysOnTheWire(resolved, fallback);
    var lineage := SettleFields(resolved.lineage, fallback);
    resolved := resolved.(lineage := lineage);
    fields := Wire(resolved);
    if fields == map[] {
      return None;
    }
    return Some(resolved);
  }

  // ----- what resolution promises -----

  lemma CleanLineageStays(l: Lineage)
    ensures CleanedLineage(CleanedLineage(l)) == CleanedLineage(l)
  {
    PassedStays(l.operation);
    PassedStays(l.root);
    PassedStays(l.parent);
  }

  lemma CleanAgentStays(a: Agent)
    ensures CleanedAgent(SanitizeAgent(a)) == SanitizeAgent(a) && SanitizeAgent(SanitizeAgent(a)) == SanitizeAgent(a)
  {
    PassedStays(a.framework);
    PassedStays(a.frameworkVersion);
    PassedStays(a.surface);
    PassedStays(a.surfaceVersion);
  }

  lemma NothingSaid(w: Workload)
    ensures WireFields(Sanitize(w)) == map[] <==> Sanitize(w) == UNATTRIBUTED
  {
    CleanAgentStays(w.agent);
    CleanLineageStays(w.lineage);
    NothingOnTheWire(Sanitize(w));
  }

  // Settling keeps a lineage clean, and never empties the wire.
  lemma SettledIsClean(l: Lineage, id: Option<string>)
    requires CleanedLineage(l) == l && Operation(id) == id
    ensures CleanedLineage(Settle(l, id)) == Settle(l, id)
    ensures Settle(l, id) == UNATTRIBUTED.lineage ==> l == UNATTRIBUTED.lineage
  {
  }

  lemma SettledStaysOnTheWire(w: Workload, fallback: Option<string>)
    requires WireFields(w) != map[] && CleanedLineage(w.lineage) == w.lineage
    ensures WireFields(w.(lineage := Settle(w.lineage, Operation(fallback)))) != map[]
  {
    PassedStays(fallback);
    SettledIsClean(w.lineage, Operation(fallback));
    NothingOnTheWire(w);
    NothingOnTheWire(w.(lineage := Settle(w.lineage, Operation(fallback))));
  }

  lemma ResultIsClean(d: Option<Workload>, o: Option<Workload>, fallback: Option<string>, w: Workload)
    requires Resolve(d, o, fallback) == Some(w)
    ensures Cleaned(w) == w && Sanitize(w) == w && w != UNATTRIBUTED
  {
    var r := Request(d, o);
    CleanAgentStays(r.agent);
    CleanLineageStays(r.lineage);
    PassedStays(fallback);
    SettledIsClean(CleanedLineage(r.lineage), Operation(fallback));
  }

  // The wire says all of a resolved workload: it can be read back whole.
  lemma ResultIsOnTheWire(d: Option<Workload>, o: Option<Workload>, fallback: Option<string>, w: Workload)
    requires Resolve(d, o, fallback) == Some(w)
    ensures FromWire(WireFields(w)) == w
  {
    ResultIsClean(d, o, fallback, w);
    WireRoundTrip(w);
  }

  ghost predicate ConsistentLineage(l: Lineage) {
    (l.operation.Some? ==> l.scope.Some?) &&
    (l.scope == Some(TopLevel) ==> l.root == l.operation && l.parent.None?) &&
    (l.scope == Some(Child) && l.root.Some? ==> l.parent.Some?)
  }

  lemma SettledIsConsistent(l: Lineage, id: Option<string>)
    ensures ConsistentLineage(Settle(l, id)) && Settle(l, id).operation == OrElse(l.operation, id)
  {
  }

  lemma LineageIsConsistent(d: Option<Workload>, o: Option<Workload>, fallback: Option<string>, w: Workload)
    requires Resolve(d, o, fallback) == Some(w)
    ensures ConsistentLineage(w.lineage)
    ensures w.lineage.operation == OrElse(Operation(Request(d, o).lineage.operation), Operation(fallback))
  {
    SettledIsConsistent(CleanedLineage(Request(d, o).lineage), Operation(fallback));
  }

  // Which scope, root and parent a resolved workload has, from what was asked for.
  lemma LineageExactly(d: Option<Workload>, o: Option<Workload>, fallback: Option<string>, w: Workload)
    requires Resolve(d, o, fallback) == Some(w)
    ensures var asked, l := Request(d, o).lineage, w.lineage;
            var root, parent := Operation(asked.root), Operation(asked.parent);
            && (asked.scope.Some? ==> l.scope == asked.scope)
            && (asked.scope.None? ==>
                  && (l.scope == Some(Child) <==> l.operation.Some? && (parent.Some? || (root.Some? && root != l.operation)))
                  && (l.scope == Some(TopLevel) <==> l.operation.Some? && parent.None? && (root.None? || root == l.operation))
                  && (l.scope == None <==> l.operation.None?))
            && (l.scope == Some(TopLevel) ==> l.root == l.operation && l.parent == None)
            && (l.scope == Some(Child) ==> l.root == root && l.parent == if parent.Some? then parent else root)
            && (l.scope.None? || l.scope == Some(UnknownScope) ==> l.root == root && l.parent == parent)
  {
  }

  // An already consistent lineage is settled.
  lemma SettledStays(l: Lineage, id: Option<string>)
    requires ConsistentLineage(l) && (l.operation.Some? || id.None?)
    ensures Settle(l, id) == l
  {
  }

  lemma ResolveTwice(d: Option<Workload>, o: Option<Workload>, fallback: Option<string>, w: Workload)
    requires Resolve(d, o, fallback) == Some(w)
    ensures Resolve(Some(w), None, fallback) == Some(w)
  {
    ResultIsClean(d, o, fallback, w);
    LineageIsConsistent(d, o, fallback, w);
    SettledStays(w.lineage, Operation(fallback));
  }

  // What the caller gave wins over the defaults wherever it passes its test, and a default
  // version is kept only with the name it came with.
  lemma GivenFieldsWin(d: Option<Workload>, o: Workload, fallback: Option<string>, w: Workload)
    requires Resolve(d, Some(o), fallback) == Some(w)
    ensures (o.agent.kind.Some? ==> w.agent.kind == o.agent.kind) && (o.agent.mode.Some? ==> w.agent.mode == o.agent.mode)
    ensures o.agent.surface.Some? ==> w.agent.surface == Surface(o.agent.surface)
    ensures w.agent.framework.Some? || w.agent.frameworkVersion.Some? ==> (w.agent.kind.None? || w.agent.kind.value == AgentMediated)
    ensures o.agent.framework.Some? && (w.agent.kind.None? || w.agent.kind.value == AgentMediated) ==>
              w.agent.framework == Framework(o.agent.framework)
    ensures w.agent.frameworkVersion.Some? && o.agent.frameworkVersion.None? && o.agent.framework.Some? ==>
              d.Some? && o.agent.framework == d.value.agent.framework
    ensures w.agent.surfaceVersion.Some? && o.agent.surfaceVersion.None? && o.agent.surface.Some? ==>
              d.Some? && o.agent.surface == d.value.agent.surface
    ensures o.lineage.scope.Some? ==> w.lineage.scope == o.lineage.scope
    ensures Operation(o.lineage.operation).Some? ==> w.lineage.operation == Operation(o.lineage.operation)
    ensures w.lineage.scope != Some(TopLevel) && o.lineage.root.Some? ==> w.lineage.root == Operation(o.lineage.root)
    ensures w.lineage.scope != Some(TopLevel) && Operation(o.lineage.parent).Some? ==>
              w.lineage.parent == Operation(o.lineage.parent)
  {
    var clean := Sanitize(Request(d, Some(o)));
    assert w == clean.(lineage := Settle(clean.lineage, Operation(fallback)));
    assert clean.lineage == CleanedLineage(MergeLineage(Base(d).lineage, o.lineage));
  }

  // Where the override is silent the default fills in, as far as it passes its own test; a
  // default version stays with its own name.
  lemma DefaultsFillIn(d: Workload, o: Workload, fallback: Option<string>, w: Workload)
    requires Resolve(Some(d), Some(o), fallback) == Some(w)
    ensures (o.agent.kind.None? ==> w.agent.kind == d.agent.kind) && (o.agent.mode.None? ==> w.agent.mode == d.agent.mode)
    ensures o.agent.surface.None? ==> w.agent.surface == Surface(d.agent.surface)
    ensures o.agent.surfaceVersion.Some? ==> w.agent.surfaceVersion == Version(o.agent.surfaceVersion)
    ensures o.agent.surfaceVersion.None? && (o.agent.surface.None? || o.agent.surface == d.agent.surface) ==>
              w.agent.surfaceVersion == Version(d.agent.surfaceVersion)
    ensures (w.agent.kind.None? || w.agent.kind.value == AgentMediated) ==>
              && (o.agent.framework.None? ==> w.agent.framework == Framework(d.agent.framework))
              && (o.agent.frameworkVersion.Some? ==> w.agent.frameworkVersion == Version(o.agent.frameworkVersion))
              && (o.agent.frameworkVersion.None? && (o.agent.framework.None? || o.agent.framework == d.agent.framework) ==>
                    w.agent.frameworkVersion == Version(d.agent.frameworkVersion))
    ensures o.lineage.scope.None? && d.lineage.scope.Some? ==> w.lineage.scope == d.lineage.scope
    ensures o.lineage.operation.None? && Operation(d.lineage.operation).Some? ==>
              w.lineage.operation == Operation(d.lineage.operation)
    ensures w.lineage.scope != Some(TopLevel) && o.lineage.root.None? ==> w.lineage.root == Operation(d.lineage.root)
    ensures w.lineage.scope != Some(TopLevel) && o.lineage.parent.None? && Operation(d.lineage.parent).Some? ==>
              w.lineage.parent == Operation(d.lineage.parent)
  {
    var clean := Sanitize(Merge(d, o));
    assert w == clean.(lineage := Settle(clean.lineage, Operation(fallback)));
  }

  // ----- the rounds of a tool loop -----

  // The attribution of every round after the first.
  function ChildOf(logical: Workload): Option<Workload> {
    var l := logical.lineage;
    if l.operation.None? then None
    else Some(logical.(lineage := Lineage(Some(Child), None, OrElse(l.root, l.operation), l.operation)))
  }

  // A later round is a child of the logical operation, under its root, whatever the
  // client's defaults; it has the request's own identifier exactly when the defaults name
  // no other operation.
  lemma ChildNamesItsParent(d: Option<Workload>, o: Option<Workload>, fallback: Option<string>, w: Workload,
                            defaults: Option<Workload>, request: Option<string>)
    requires Resolve(d, o, fallback) == Some(w) && w.lineage.operation.Some?
    ensures ChildOf(w).Some?
    ensures var round := Resolve(defaults, ChildOf(w), request);
            round.Some? && IsChild(round.value.lineage, w.lineage) &&
            var own := Operation(Base(defaults).lineage.operation);
            (round.value.lineage.operation == Operation(request) <==> own.None? || own == Operation(request))
  {
    ResultIsClean(d, o, fallback, w);
    var merged := Request(defaults, ChildOf(w));
    var l := CleanedLineage(merged.lineage);
    assert l.root == OrElse(w.lineage.root, w.lineage.operation) && l.parent == w.lineage.operation;
    assert Sanitize(merged).lineage == l;
  }

  // There is one exactly for an operation; it says who is asking as that does, and no id of
  // its own.
  lemma ChildSaysWho(logical: Workload)
    ensures ChildOf(logical).Some? <==> logical.lineage.operation.Some?
    ensures ChildOf(logical).Some? ==>
              ChildOf(logical).value.agent == logical.agent && ChildOf(logical).value.lineage.operation == None
  {
  }

  ghost predicate IsChild(child: Lineage, logical: Lineage) {
    child.scope == Some(Child) && child.parent == logical.operation &&
    child.root == OrElse(logical.root, logical.operation)
  }

  // What the workload leaves out the defaults, as they pass their own tests, leave out too.
  predicate KeepsAgent(d: Agent, w: Agent) {
    && (w.kind.None? ==> d.kind.None?)
    && (w.mode.None? ==> d.mode.None?)
    && (w.surface.None? ==> Surface(d.surface).None?)
    && (w.surfaceVersion.None? ==> Version(MergedVersion(w.surface, None, d.surface, d.surfaceVersion)).None?)
    && (MaySayFramework(w.kind) ==>
          && (w.framework.None? ==> Framework(d.framework).None?)
          && (w.frameworkVersion.None? ==>
                Version(MergedVersion(w.framework, None, d.framework, d.frameworkVersion)).None?))
  }

  predicate KeepsLineage(d: Lineage, w: Lineage, request: Option<string>) {
    && (w.scope.None? ==> d.scope.None?)
    && (w.operation.None? ==> Operation(d.operation).None? && Operation(request).None?)
    && (w.scope != Some(TopLevel) ==>
          && (w.root.None? ==> Operation(d.root).None?)
          && (w.parent.None? ==> Operation(d.parent).None?))
  }

  lemma AgentAgain(d: Agent, w: Agent)
    requires SanitizeAgent(w) == w && (w.kind.None? ==> d.kind.None?)
    ensures SanitizeAgent(MergeAgent(d, w)) == w <==> KeepsAgent(d, w)
  {
    var merged := MergeAgent(d, w);
    assert MaySayFramework(merged.kind) <==> MaySayFramework(w.kind);
  }

  lemma AgentAgainNeedsKind(d: Agent, w: Agent)
    requires SanitizeAgent(MergeAgent(d, w)) == w
    ensures w.kind.None? ==> d.kind.None?
  {
  }

  lemma LineageAgain(d: Lineage, w: Lineage, request: Option<string>)
    requires CleanedLineage(w) == w && ConsistentLineage(w)
    ensures Settle(CleanedLineage(MergeLineage(d, w)), Operation(request)) == w <==> KeepsLineage(d, w, request)
  {
    var m := CleanedLineage(MergeLineage(d, w));
    SettledIsConsistent(m, Operation(request));
    if KeepsLineage(d, w, request) && w.operation.Some? {
      assert m.operation == w.operation && m.scope == w.scope;
    }
  }

  // A resolved workload, resolved once more over any defaults, is itself exactly when the
  // defaults have nothing to add where it is silent.
  lemma ResolvedOverDefaults(defaults: Option<Workload>, w: Workload, request: Option<string>)
    requires Sanitize(w) == w && ConsistentLineage(w.lineage) && w != UNATTRIBUTED
    ensures Resolve(defaults, Some(w), request) == Some(w) <==>
            KeepsAgent(Base(defaults).agent, w.agent) && KeepsLineage(Base(defaults).lineage, w.lineage, request)
  {
    var d := Base(defaults);
    var clean := Sanitize(Merge(d, w));
    if w.agent.kind.None? ==> d.agent.kind.None? {
      AgentAgain(d.agent, w.agent);
    } else if SanitizeAgent(MergeAgent(d.agent, w.agent)) == w.agent {
      AgentAgainNeedsKind(d.agent, w.agent);
    }
    LineageAgain(d.lineage, w.lineage, request);
    if clean == UNATTRIBUTED && clean.agent == w.agent {
      SilentStays(d.lineage, w.lineage, request);
    }
  }

  // A merge that says nothing comes from a lineage that says nothing.
  lemma SilentStays(d: Lineage, w: Lineage, request: Option<string>)
    requires CleanedLineage(w) == w && CleanedLineage(MergeLineage(d, w)) == UNATTRIBUTED.lineage
    ensures w == UNATTRIBUTED.lineage
  {
  }

  // The first round says exactly what the logical operation was resolved to if and only if
  // the defaults have nothing to add where it is silent.
  lemma FirstRoundExactlyWhen(d: Option<Workload>, o: Option<Workload>, fallback: Option<string>, w: Workload,
                              request: Option<string>)
    requires Resolve(d, o, fallback) == Some(w)
    ensures Resolve(d, Some(w), request) == Some(w) <==>
            KeepsAgent(Base(d).agent, w.agent) && KeepsLineage(Base(d).lineage, w.lineage, request)
  {
    ResultIsClean(d, o, fallback, w);
    LineageIsConsistent(d, o, fallback, w);
    ResolvedOverDefaults(d, w, request);
  }

  lemma CleanAgentKeeps(d: Agent, o: Agent)
    requires CleanedAgent(o) == o
    ensures KeepsAgent(d, SanitizeAgent(MergeAgent(d, o)))
  {
    CleanAgentStays(MergeAgent(d, o));
  }

  lemma CleanLineageKeeps(d: Lineage, o: Lineage, id: Option<string>, request: Option<string>)
    requires CleanedLineage(o) == o && Operation(id) == id
    ensures var l := Settle(CleanedLineage(MergeLineage(d, o)), id); l.operation.Some? ==> KeepsLineage(d, l, request)
  {
    CleanLineageStays(MergeLineage(d, o));
    SettledIsConsistent(CleanedLineage(MergeLineage(d, o)), id);
  }

  // That is so whenever what the caller gave was in clean form (absent fields included).
  lemma FirstRoundIsTheLogicalOperation(d: Option<Workload>, o: Option<Workload>, fallback: Option<string>, w: Workload,
                                        request: Option<string>)
    requires Resolve(d, o, fallback) == Some(w) && w.lineage.operation.Some?
    requires o.Some? ==> Cleaned(o.value) == o.value
    ensures Resolve(d, Some(w), request) == Some(w)
  {
    var given := if o.Some? then o.value else UNATTRIBUTED;
    assert Request(d, o) == Merge(Base(d), given);
    PassedStays(fallback);
    CleanAgentKeeps(Base(d).agent, given.agent);
    CleanLineageKeeps(Base(d).lineage, given.lineage, Operation(fallback), request);
    FirstRoundExactlyWhen(d, o, fallback, w, request);
  }

  // Out of clean form it may not: a framework given with a space around it first drops the
  // default version, and its trimmed form then takes that version up again.
  lemma UntrimmedFrameworkRegainsAVersion(id: string)
    requires ValidOperation(id) == Some(id)
    ensures var d := Some(UNATTRIBUTED.(agent := UNATTRIBUTED.agent.(framework := Some("x"), frameworkVersion := Some("1"))));
            var o := Some(UNATTRIBUTED.(agent := UNATTRIBUTED.agent.(framework := Some(" x"))));
            var w := Resolve(d, o, Some(id));
            w.Some? && w.value.agent.frameworkVersion == None &&
            Resolve(d, w, Some(id)).value.agent.frameworkVersion == Some("1")
  {
    assert Trim("x") == "x" && Trim(" x") == "x" && Trim("1") == "1";
    assert Utf8Length("x") == 1 && Utf8Length("1") == 1;
  }

  // Nor with an override that fails its test: it is dropped, and the default comes back.
  lemma RefusedRootLetsTheDefaultBack(id: string, root: string)
    requires ValidOperation(id) == Some(id) && ValidOperation(root) == Some(root)
    ensures var d := Some(UNATTRIBUTED.(lineage := Lineage(Some(Child), None, Some(root), None)));
            var o := Some(UNATTRIBUTED.(lineage := Lineage(None, None, Some(""), None)));
            var w := Resolve(d, o, Some(id));
            w.Some? && w.value.lineage.root == None && Resolve(d, w, Some(id)).value.lineage.root == Some(root)
  {
    assert ValidOperation("") == None;
  }
}
