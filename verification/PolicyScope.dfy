/** internal/policy/policy.go, scope.go and reload.go: the policy snapshot, the
    namespace scopes it decides, and the two kinds of update that replace it. */
module PolicyScope {
  import opened Prelude
  import opened Text

  datatype Mode = Observe | Suggest | Fix | DryRun

  /** A Go float64 as far as validation can see it. */
  datatype Float = Num(r: real) | NaN | PosInf | NegInf

  newtype int32 = x: int | -0x8000_0000 <= x < 0x8000_0000

  datatype Policy = Policy(
    mode: Mode,
    cpuThreshold: Float,
    maxScaleStep: int,
    maxActionsPer10m: int,
    maxReplicas: int32,
    minReplicas: int32,
    cooldownUp: string,
    cooldownDown: string,
    watchAll: bool,
    watchNamespaces: set<string>,
    system: set<string>,
    fixNamespaces: set<string>,
    fixCeiling: set<string>,
    fixAnywhere: bool,
    fixOverride: Option<set<string>>)

  // ---- Scopes of one snapshot ----

  predicate Watched(p: Policy, ns: string) {
    if ns == "" then false
    else if p.watchAll then ns !in p.system
    else ns in p.watchNamespaces
  }

  predicate InCeiling(p: Policy, ns: string) {
    Watched(p, ns) && if p.fixAnywhere then ns !in p.system else ns in p.fixCeiling
  }

  function FixChoice(p: Policy): set<string> {
    if p.fixOverride.Some? then p.fixOverride.value else p.fixNamespaces
  }

  predicate Fixable(p: Policy, ns: string) {
    InCeiling(p, ns) && ns in FixChoice(p)
  }

  /** The chosen namespaces that lie inside the ceiling, in ascending order. */
  method FixScope(p: Policy) returns (out: seq<string>)
    ensures Increasing(out)
    ensures forall ns :: ns in out <==> Fixable(p, ns)
  {
    ghost var listed := SortedOf(FixChoice(p));
    var choice := SortedNames(FixChoice(p));
    ListingUnique(choice, listed);
    out := [];
    for i := 0 to |choice|
      invariant Increasing(out)
      invariant forall ns :: ns in out <==> ns in choice[..i] && InCeiling(p, ns)
    {
      assert choice[..i + 1] == choice[..i] + [choice[i]];
      if InCeiling(p, choice[i]) {
        assert forall k :: 0 <= k < |out| ==> out[k] in choice[..i];
        out := out + [choice[i]];
      }
    }
    assert choice[..|choice|] == choice;
    assert forall ns :: ns in choice <==> ns in Elements(choice);
  }

  method SortedNames(s: set<string>) returns (out: seq<string>)
    ensures Increasing(out) && Elements(out) == s
  {
    var left := s;
    out := [];
    while left != {}
      invariant left <= s && Distinct(out) && Elements(out) == s - left
      decreases left
    {
      var x :| x in left;
      assert x !in Elements(out);
      ElementsAppend(out, [x]);
      out, left := out + [x], left - {x};
    }
    SortSorts(out);
    out := Sort(out);
  }

  // ---- Names, as they are written in the environment and in ConfigMaps ----

  /** A set of names, blanks ignored. */
  function NamespaceSet(names: seq<string>): set<string> {
    (set n | n in names :: TrimSpace(n)) - {""}
  }

  method BuildNamespaceSet(names: seq<string>) returns (s: set<string>)
    ensures s == NamespaceSet(names)
  {
    s := {};
    for i := 0 to |names|
      invariant s == NamespaceSet(names[..i])
    {
      assert names[..i + 1] == names[..i] + [names[i]];
      var n := TrimSpace(names[i]);
      if n != "" {
        s := s + {n};
      }
    }
    assert names[..|names|] == names;
  }

  function ParseNamespaceList(s: string): set<string> {
    NamespaceSet(Split(s, ','))
  }

  predicate IsAll(v: string) {
    var t := TrimSpace(v);
    t == "" || t == "*" || Lower(t) == "all"
  }

  const SCOPE_KEY := "fixNamespaces"

  /** The dashboard choice in the scope ConfigMap: none when the key is absent. */
  function ScopeChoice(data: map<string, string>): Option<set<string>> {
    if SCOPE_KEY !in data then None else Some(ParseNamespaceList(data[SCOPE_KEY]))
  }

  /** How a choice is written there. */
  function ScopeData(choice: Option<seq<string>>): map<string, string> {
    if choice.None? then map[] else map[SCOPE_KEY := Join(choice.value, ",")]
  }

  /** A choice written to the ConfigMap is the choice read back, the empty
      choice and no choice included. */
  lemma {:induction false} ScopeChoiceRoundTrip(choice: Option<seq<string>>)
    requires choice.Some? ==> forall n :: n in choice.value ==> n != "" && TrimSpace(n) == n && ',' !in n
    ensures ScopeChoice(ScopeData(choice)) == if choice.None? then None else Some(Elements(choice.value))
  {
    if choice.Some? {
      var names := choice.value;
      if names == [] {
        assert Split(Join(names, ","), ',') == [""];
        BlankSet([""]);
        assert Elements(names) == {};
      } else {
        SplitJoin(names, ',');
        CleanSet(names);
      }
    }
  }

  lemma {:induction false} BlankSet(names: seq<string>)
    requires forall n :: n in names ==> TrimSpace(n) == ""
    ensures NamespaceSet(names) == {}
  {
  }

  lemma {:induction false} CleanSet(names: seq<string>)
    requires forall n :: n in names ==> n != "" && TrimSpace(n) == n
    ensures NamespaceSet(names) == Elements(names)
  {
  }

  // ---- The two updates ----

  function ToInt32(n: int): int32 {
    var m := n % 0x1_0000_0000;
    (if m >= 0x8000_0000 then m - 0x1_0000_0000 else m) as int32
  }

  /** strconv.Atoi and strconv.ParseFloat; None where they return an error. */
  datatype Parsers = Parsers(atoi: string -> Option<int>, parseFloat: string -> Option<Float>)

  function ModeOf(s: string): Option<Mode> {
    if s == "observe" then Some(Observe)
    else if s == "suggest" then Some(Suggest)
    else if s == "fix" then Some(Fix)
    else if s == "dry-run" then Some(DryRun)
    else None
  }

  function Get(data: map<string, string>, key: string): string {
    if key in data then data[key] else ""
  }

  function IntOr(parse: Parsers, v: string, fallback: int): int {
    if v == "" then fallback
    else var r := parse.atoi(v); if r.Some? then r.value else fallback
  }

  function FloatOr(parse: Parsers, v: string, fallback: Float): Float {
    if v == "" then fallback
    else var r := parse.parseFloat(v); if r.Some? then r.value else fallback
  }

  function ScopeValue(data: map<string, string>, key: string): Option<string> {
    if key in data then Some(data[key])
    else
      var legacy := Get(data, "NAMESPACE_ALLOWLIST");
      if legacy != "" then Some(legacy) else None
  }

  /** The new snapshot a policy ConfigMap asks for, before validation. */
  function ApplyConfigMapData(p: Policy, data: map<string, string>, parse: Parsers): Policy {
    var mode := ModeOf(Get(data, "AUTO_MODE"));
    var watch := ScopeValue(data, "WATCH_NAMESPACES");
    var fix := ScopeValue(data, "FIX_NAMESPACES");
    var maxReplicas := Get(data, "MAX_REPLICAS");
    var minReplicas := Get(data, "MIN_REPLICAS");
    p.(mode := if mode.Some? then mode.value else p.mode,
       cpuThreshold := FloatOr(parse, Get(data, "SCALE_CPU_THRESHOLD"), p.cpuThreshold),
       maxScaleStep := IntOr(parse, Get(data, "MAX_SCALE_STEP"), p.maxScaleStep),
       maxActionsPer10m := IntOr(parse, Get(data, "MAX_ACTIONS_PER_10M"), p.maxActionsPer10m),
       maxReplicas := ToInt32(IntOr(parse, maxReplicas, p.maxReplicas as int)),
       minReplicas := ToInt32(IntOr(parse, minReplicas, p.minReplicas as int)),
       cooldownUp := if Get(data, "COOLDOWN_UP") != "" then Get(data, "COOLDOWN_UP") else p.cooldownUp,
       cooldownDown := if Get(data, "COOLDOWN_DOWN") != "" then Get(data, "COOLDOWN_DOWN") else p.cooldownDown,
       watchAll := if watch.Some? then IsAll(watch.value) else p.watchAll,
       watchNamespaces := if watch.None? then p.watchNamespaces
                          else if IsAll(watch.value) then {}
                          else ParseNamespaceList(watch.value),
       fixNamespaces := if fix.Some? then ParseNamespaceList(fix.value) else p.fixNamespaces)
  }

  /** Validate's comparisons: every one of them is false of NaN. */
  predicate ThresholdRefused(f: Float) {
    match f
    case Num(r) => r <= 0.0 || r > 1.0
    case NaN => false
    case PosInf => true
    case NegInf => true
  }

  predicate Valid(p: Policy) {
    && !(!p.watchAll && p.watchNamespaces == {})
    && !ThresholdRefused(p.cpuThreshold)
    && p.maxScaleStep >= 1
    && p.maxActionsPer10m >= 1
    && p.maxReplicas >= p.minReplicas
  }

  function WithFixOverride(p: Policy, names: Option<seq<string>>): Policy {
    p.(fixOverride := if names.None? then None else Some(NamespaceSet(names.value)))
  }

  /** A reload that fails validation changes nothing. */
  function Reloaded(p: Policy, data: map<string, string>, parse: Parsers): Policy {
    var q := ApplyConfigMapData(p, data, parse);
    if Valid(q) then q else p
  }

  class HotReloader {
    var policy: Policy
    var scopeMap: string

    constructor (initial: Policy)
      ensures policy == initial && scopeMap == ""
    {
      policy := initial;
      scopeMap := "";
    }

    /** From here on the choice comes from the named ConfigMap, and is of no namespace
        while none has been seen. */
    method WatchScope(name: string)
      modifies this
      ensures policy == WithFixOverride(old(policy), Some([])) && scopeMap == name
    {
      policy := policy.(fixOverride := Some(NamespaceSet([])));
      scopeMap := name;
    }

    method SetScope(names: Option<seq<string>>)
      modifies this`policy
      ensures policy == WithFixOverride(old(policy), names)
    {
      match names {
        case None => policy := policy.(fixOverride := None);
        case Some(list) =>
          var chosen := BuildNamespaceSet(list);
          policy := policy.(fixOverride := Some(chosen));
      }
    }

    method Reload(data: map<string, string>, parse: Parsers) returns (accepted: bool)
      modifies this`policy
      ensures policy == Reloaded(old(policy), data, parse)
      ensures accepted <==> Valid(ApplyConfigMapData(old(policy), data, parse))
    {
      var next := ApplyConfigMapData(policy, data, parse);
      accepted := Valid(next);
      if accepted {
        policy := next;
      }
    }
  }

  // ---- Any interleaving of reloads and choices ----

  datatype Update = Reload(data: map<string, string>) | Choose(names: Option<seq<string>>)

  function Apply(p: Policy, u: Update, parse: Parsers): Policy {
    match u
    case Reload(data) => Reloaded(p, data, parse)
    case Choose(names) => WithFixOverride(p, names)
  }

  function Run(p: Policy, us: seq<Update>, parse: Parsers): Policy {
    if us == [] then p else Apply(Run(p, us[..|us| - 1], parse), us[|us| - 1], parse)
  }

  /** The reloads of a run, choices left out. */
  function ReloadsOf(us: seq<Update>): seq<Update> {
    if us == [] then []
    else
      var rest := ReloadsOf(us[..|us| - 1]);
      if us[|us| - 1].Reload? then rest + [us[|us| - 1]] else rest
  }

  /** The override after a run: the last choice made, or the one held before. */
  function LastChoice(us: seq<Update>, held: Option<set<string>>): Option<set<string>> {
    if us == [] then held
    else match us[|us| - 1]
      case Choose(names) => if names.None? then None else Some(NamespaceSet(names.value))
      case Reload(_) => LastChoice(us[..|us| - 1], held)
  }

  /** Neither kind of update undoes the other: a run ends where its reloads
      alone would, with the last choice on top, however they were interleaved. */
  lemma {:induction false} UpdatesCommute(p: Policy, us: seq<Update>, parse: Parsers)
    ensures Run(p, us, parse) == Run(p, ReloadsOf(us), parse).(fixOverride := LastChoice(us, p.fixOverride))
  {
    if us == [] {
      assert p == p.(fixOverride := p.fixOverride);
    } else {
      var front, last := us[..|us| - 1], us[|us| - 1];
      UpdatesCommute(p, front, parse);
      if last.Reload? {
        var rest := ReloadsOf(front);
        RunPush(p, rest, last, parse);
        ReloadIgnoresChoice(Run(p, rest, parse), LastChoice(front, p.fixOverride), last.data, parse);
      }
    }
  }

  lemma {:induction false} RunPush(p: Policy, us: seq<Update>, u: Update, parse: Parsers)
    ensures Run(p, us + [u], parse) == Apply(Run(p, us, parse), u, parse)
  {
  }

  /** A reload neither reads nor writes the choice. */
  lemma {:induction false} ReloadIgnoresChoice(
      p: Policy, choice: Option<set<string>>, data: map<string, string>, parse: Parsers)
    ensures Reloaded(p.(fixOverride := choice), data, parse) == Reloaded(p, data, parse).(fixOverride := choice)
  {
  }

  /** Where writes were granted when the process started. */
  predicate Granted(p: Policy, ns: string) {
    if p.fixAnywhere then ns !in p.system else ns in p.fixCeiling
  }

  /** No run of updates moves the ceiling or installs an invalid snapshot, and
      after any of them the agent acts only where it watches and where writes
      were granted at the start. */
  lemma {:induction false} ScopeSafety(p: Policy, us: seq<Update>, parse: Parsers, ns: string)
    requires Valid(p)
    ensures var q := Run(p, us, parse);
            && Valid(q)
            && q.fixCeiling == p.fixCeiling && q.fixAnywhere == p.fixAnywhere && q.system == p.system
            && (Fixable(q, ns) ==> Granted(p, ns) && Watched(q, ns) && ns != "" && ns in FixChoice(q))
            && (Fixable(q, ns) && (q.watchAll || q.fixAnywhere) ==> ns !in p.system)
  {
    if us != [] { ScopeSafety(p, us[..|us| - 1], parse, ns); }
  }

  /** After WatchScope nothing is fixable, whatever reloads come, until the
      scope ConfigMap is read: then the choice read decides. */
  lemma {:induction false} EmptyUntilRead(p: Policy, us: seq<Update>, parse: Parsers, ns: string)
    requires forall i :: 0 <= i < |us| ==> us[i].Reload?
    ensures !Fixable(Run(WithFixOverride(p, Some([])), us, parse), ns)
  {
    var start := WithFixOverride(p, Some([]));
    BlankSet([]);
    assert FixChoice(start) == {};
    UpdatesCommute(start, us, parse);
    NoChoice(us, start.fixOverride);
  }

  lemma {:induction false} NoChoice(us: seq<Update>, held: Option<set<string>>)
    requires forall i :: 0 <= i < |us| ==> us[i].Reload?
    ensures LastChoice(us, held) == held
  {
    if us != [] { NoChoice(us[..|us| - 1], held); }
  }

  /** Validation promises a threshold in (0, 1]; it keeps that promise exactly
      when the threshold is a number. */
  lemma {:induction false} ThresholdInRangeIffNumber(p: Policy)
    requires Valid(p)
    ensures (p.cpuThreshold.Num? && 0.0 < p.cpuThreshold.r <= 1.0) <==> p.cpuThreshold != NaN
  {
  }

  /** And a reload can install one that is not. */
  lemma {:induction false} NaNIsAccepted(p: Policy, parse: Parsers)
    requires Valid(p) && parse.parseFloat("NaN") == Some(NaN)
    ensures Reloaded(p, map["SCALE_CPU_THRESHOLD" := "NaN"], parse).cpuThreshold == NaN
  {
  }
}
