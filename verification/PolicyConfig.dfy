/** internal/policy/reload.go: what the keys of the policy ConfigMap set. Every setting
    that may be reloaded is written under its key in the form that is read back. */
module PolicyConfig {
  import opened Prelude
  import opened Text
  import opened PolicyScope

  /** A mode as it is spelled in the environment and in the ConfigMap. */
  function ModeWord(m: Mode): string {
    match m
    case Observe => "observe"
    case Suggest => "suggest"
    case Fix => "fix"
    case DryRun => "dry-run"
  }

  /** The ways to write all namespaces. */
  const ALL := {"", "*", "all", "All", "ALL"}

  /** What is written of a policy: lists of names in order, or a word for all. */
  ghost function Written(p: Policy, threshold: string, all: string): map<string, string> {
    map["AUTO_MODE" := ModeWord(p.mode),
        "SCALE_CPU_THRESHOLD" := threshold,
        "MAX_SCALE_STEP" := Decimal(p.maxScaleStep),
        "MAX_ACTIONS_PER_10M" := Decimal(p.maxActionsPer10m),
        "MAX_REPLICAS" := Decimal(p.maxReplicas as int),
        "MIN_REPLICAS" := Decimal(p.minReplicas as int),
        "COOLDOWN_UP" := p.cooldownUp,
        "COOLDOWN_DOWN" := p.cooldownDown,
        "WATCH_NAMESPACES" := if p.watchAll then all else Join(SortedOf(p.watchNamespaces), ","),
        "FIX_NAMESPACES" := Join(SortedOf(p.fixNamespaces), ",")]
  }

  /** Names that a list can hold: Kubernetes names have no blanks and no commas. */
  predicate Listable(names: set<string>) {
    forall n :: n in names ==> n != "" && TrimSpace(n) == n && ',' !in n
  }

  /** Only a set of those can be told from `all`, and no cooldown is written as none. */
  ghost predicate Writable(p: Policy) {
    && p.cooldownUp != "" && p.cooldownDown != "" && Listable(p.fixNamespaces) && Listable(p.watchNamespaces)
    && if p.watchAll then p.watchNamespaces == {} else !IsAll(Join(SortedOf(p.watchNamespaces), ","))
  }

  lemma {:induction false} ListReadBack(names: set<string>)
    requires Listable(names)
    ensures ParseNamespaceList(Join(SortedOf(names), ",")) == names
  {
    var list := SortedOf(names);
    assert forall n :: n in list <==> n in Elements(list);
    ScopeChoiceRoundTrip(Some(list));
  }

  lemma {:induction false} AllIsAll(all: string)
    requires all in ALL
    ensures IsAll(all)
  {
  }

  /** Reading the numbers back gives what was written. */
  predicate ReadsBack(parse: Parsers, p: Policy, threshold: string) {
    && parse.parseFloat(threshold) == Some(p.cpuThreshold) && threshold != ""
    && parse.atoi(Decimal(p.maxScaleStep)) == Some(p.maxScaleStep)
    && parse.atoi(Decimal(p.maxActionsPer10m)) == Some(p.maxActionsPer10m)
    && parse.atoi(Decimal(p.maxReplicas as int)) == Some(p.maxReplicas as int)
    && parse.atoi(Decimal(p.minReplicas as int)) == Some(p.minReplicas as int)
  }

  /** The settings that a reload may not touch. */
  function Fixed(p: Policy, q: Policy): Policy {
    p.(system := q.system, fixCeiling := q.fixCeiling, fixAnywhere := q.fixAnywhere, fixOverride := q.fixOverride)
  }

  /** The ConfigMap says that, key by key. */
  ghost predicate SaysNumbers(data: map<string, string>, p: Policy) {
    && Get(data, "MAX_SCALE_STEP") == Decimal(p.maxScaleStep)
    && Get(data, "MAX_ACTIONS_PER_10M") == Decimal(p.maxActionsPer10m)
    && Get(data, "MAX_REPLICAS") == Decimal(p.maxReplicas as int)
    && Get(data, "MIN_REPLICAS") == Decimal(p.minReplicas as int)
  }

  ghost predicate SaysWords(data: map<string, string>, p: Policy, threshold: string) {
    && Get(data, "AUTO_MODE") == ModeWord(p.mode)
    && Get(data, "SCALE_CPU_THRESHOLD") == threshold
    && Get(data, "COOLDOWN_UP") == p.cooldownUp
    && Get(data, "COOLDOWN_DOWN") == p.cooldownDown
  }

  ghost predicate SaysScopes(data: map<string, string>, p: Policy, all: string) {
    && ScopeValue(data, "WATCH_NAMESPACES")
       == Some(if p.watchAll then all else Join(SortedOf(p.watchNamespaces), ","))
    && ScopeValue(data, "FIX_NAMESPACES") == Some(Join(SortedOf(p.fixNamespaces), ","))
  }

  lemma {:induction false} WrittenNumbers(p: Policy, threshold: string, all: string)
    ensures SaysNumbers(Written(p, threshold, all), p)
  {
  }

  lemma {:induction false} WrittenWords(p: Policy, threshold: string, all: string)
    ensures SaysWords(Written(p, threshold, all), p, threshold)
  {
  }

  lemma {:induction false} WrittenScopes(p: Policy, threshold: string, all: string)
    ensures SaysScopes(Written(p, threshold, all), p, all)
  {
  }

  lemma {:induction false} ModeReadBack(m: Mode)
    ensures ModeOf(ModeWord(m)) == Some(m)
  {
  }

  lemma {:induction false} NumberReadBack(parse: Parsers, n: int, fallback: int)
    requires parse.atoi(Decimal(n)) == Some(n)
    ensures IntOr(parse, Decimal(n), fallback) == n
  {
    DecimalSign(n);
  }

  lemma {:induction false} CountReadBack(parse: Parsers, n: int32, fallback: int32)
    requires parse.atoi(Decimal(n as int)) == Some(n as int)
    ensures ToInt32(IntOr(parse, Decimal(n as int), fallback as int)) == n
  {
    NumberReadBack(parse, n as int, fallback as int);
    WrapKeeps(n as int);
  }

  /** The conversion to 32 bits keeps what fits. */
  lemma {:induction false} WrapKeeps(n: int)
    requires -0x8000_0000 <= n < 0x8000_0000
    ensures ToInt32(n) as int == n
  {
    assert n % 0x1_0000_0000 == if n < 0 then n + 0x1_0000_0000 else n;
  }

  lemma {:induction false} LimitsRead(
      before: Policy, p: Policy, threshold: string, parse: Parsers, data: map<string, string>)
    requires ReadsBack(parse, p, threshold) && SaysNumbers(data, p)
    ensures var q := ApplyConfigMapData(before, data, parse);
            q.maxScaleStep == p.maxScaleStep && q.maxActionsPer10m == p.maxActionsPer10m
  {
    NumberReadBack(parse, p.maxScaleStep, before.maxScaleStep);
    NumberReadBack(parse, p.maxActionsPer10m, before.maxActionsPer10m);
  }

  lemma {:induction false} ReplicasRead(
      before: Policy, p: Policy, threshold: string, parse: Parsers, data: map<string, string>)
    requires ReadsBack(parse, p, threshold) && SaysNumbers(data, p)
    ensures var q := ApplyConfigMapData(before, data, parse);
            q.maxReplicas == p.maxReplicas && q.minReplicas == p.minReplicas
  {
    CountReadBack(parse, p.maxReplicas, before.maxReplicas);
    CountReadBack(parse, p.minReplicas, before.minReplicas);
  }

  lemma {:induction false} WordsRead(
      before: Policy, p: Policy, threshold: string, parse: Parsers, data: map<string, string>)
    requires Writable(p) && ReadsBack(parse, p, threshold) && SaysWords(data, p, threshold)
    ensures var q := ApplyConfigMapData(before, data, parse);
            && q.mode == p.mode && q.cpuThreshold == p.cpuThreshold
            && q.cooldownUp == p.cooldownUp && q.cooldownDown == p.cooldownDown
  {
    ModeReadBack(p.mode);
  }

  lemma {:induction false} ScopesRead(before: Policy, p: Policy, parse: Parsers, data: map<string, string>, all: string)
    requires Writable(p) && SaysScopes(data, p, all) && all in ALL
    ensures var q := ApplyConfigMapData(before, data, parse);
            && q.watchAll == p.watchAll && q.watchNamespaces == p.watchNamespaces
            && q.fixNamespaces == p.fixNamespaces
  {
    ListReadBack(p.fixNamespaces);
    ListReadBack(p.watchNamespaces);
    AllIsAll(all);
  }

  /** A ConfigMap round trip. Whatever policy was in force, the keys written from another
      set every reloadable setting to that other's, and leave the rest. */
  lemma {:induction false} ConfigRoundTrip(before: Policy, p: Policy, threshold: string, parse: Parsers, all: string)
    requires Writable(p) && all in ALL && ReadsBack(parse, p, threshold)
    ensures ApplyConfigMapData(before, Written(p, threshold, all), parse) == Fixed(p, before)
  {
    WrittenNumbers(p, threshold, all);
    WrittenWords(p, threshold, all);
    WrittenScopes(p, threshold, all);
    LimitsRead(before, p, threshold, parse, Written(p, threshold, all));
    ReplicasRead(before, p, threshold, parse, Written(p, threshold, all));
    WordsRead(before, p, threshold, parse, Written(p, threshold, all));
    ScopesRead(before, p, parse, Written(p, threshold, all), all);
  }

  // ---- What is not said ----

  /** Nothing readable is said under that key of a number. */
  predicate Unread(data: map<string, string>, parse: Parsers, key: string) {
    Get(data, key) == "" || parse.atoi(Get(data, key)).None?
  }

  /** What the ConfigMap leaves out, leaves empty, or says so that it cannot be read stays
      as it was. */
  lemma {:induction false} UnreadKeepsAll(p: Policy, data: map<string, string>, parse: Parsers)
    requires ModeOf(Get(data, "AUTO_MODE")).None?
    requires Get(data, "SCALE_CPU_THRESHOLD") == "" || parse.parseFloat(Get(data, "SCALE_CPU_THRESHOLD")).None?
    requires Unread(data, parse, "MAX_SCALE_STEP") && Unread(data, parse, "MAX_ACTIONS_PER_10M")
    requires Unread(data, parse, "MAX_REPLICAS") && Unread(data, parse, "MIN_REPLICAS")
    requires Get(data, "COOLDOWN_UP") == "" && Get(data, "COOLDOWN_DOWN") == ""
    requires "WATCH_NAMESPACES" !in data && "FIX_NAMESPACES" !in data && Get(data, "NAMESPACE_ALLOWLIST") == ""
    ensures ApplyConfigMapData(p, data, parse) == p
  {
  }

  /** The deprecated list stands in for whichever scope has no key of its own; a key that
      is there wins, even when its value is empty. */
  lemma {:induction false} OldListStandsIn(p: Policy, data: map<string, string>, parse: Parsers)
    requires Get(data, "NAMESPACE_ALLOWLIST") != "" && !IsAll(Get(data, "NAMESPACE_ALLOWLIST"))
    ensures var q, list := ApplyConfigMapData(p, data, parse), ParseNamespaceList(Get(data, "NAMESPACE_ALLOWLIST"));
            && ("WATCH_NAMESPACES" !in data ==> !q.watchAll && q.watchNamespaces == list)
            && q.fixNamespaces == (if "FIX_NAMESPACES" !in data then list
                                   else ParseNamespaceList(data["FIX_NAMESPACES"]))
  {
  }

  // ---- What is let through ----

  /** Within the limits that are documented, but for a threshold that is not a number. */
  predicate InRange(p: Policy) {
    && (p.watchAll || p.watchNamespaces != {})
    && (p.cpuThreshold == NaN || (p.cpuThreshold.Num? && 0.0 < p.cpuThreshold.r && p.cpuThreshold.r <= 1.0))
    && p.maxScaleStep >= 1 && p.maxActionsPer10m >= 1 && p.minReplicas <= p.maxReplicas
  }

  lemma {:induction false} ValidIffInRange(p: Policy)
    ensures Valid(p) <==> InRange(p)
  {
  }

  lemma {:induction false} TakenInIffInRange(p: Policy, data: map<string, string>, parse: Parsers)
    ensures var asked := ApplyConfigMapData(p, data, parse);
            Reloaded(p, data, parse) == if InRange(asked) then asked else p
  {
    ValidIffInRange(ApplyConfigMapData(p, data, parse));
  }

  lemma {:induction false} StaysInRange(p: Policy, us: seq<Update>, parse: Parsers)
    requires InRange(p)
    ensures InRange(Run(p, us, parse))
  {
    if us != [] {
      var before, last := Run(p, us[..|us| - 1], parse), us[|us| - 1];
      StaysInRange(p, us[..|us| - 1], parse);
      if last.Reload? {
        TakenInIffInRange(before, last.data, parse);
      } else {
        assert InRange(WithFixOverride(before, last.names));
      }
    }
  }

  /** A reload is taken in exactly when what it comes to is in range; and so over every
      run of reloads and choices the policy in force stays in range. */
  lemma {:induction false} ReloadedIffInRange(p: Policy, us: seq<Update>, data: map<string, string>, parse: Parsers)
    requires InRange(p)
    ensures var before := Run(p, us, parse);
            var asked := ApplyConfigMapData(before, data, parse);
            && InRange(before) && Reloaded(before, data, parse) == if InRange(asked) then asked else before
  {
    StaysInRange(p, us, parse);
    TakenInIffInRange(Run(p, us, parse), data, parse);
  }
}
