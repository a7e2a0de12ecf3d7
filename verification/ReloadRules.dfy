/** internal/kube/reload_policy.go: the annotations that say which changes restart a
    workload, and what the decision comes to in terms of what the workload sees. */
module ReloadRules {
  import opened Prelude
  import opened Text
  import opened PolicyScope
  import opened ReloadRefs

  type Annotations = map<string, string>

  const RELOAD := "auto-agent.io/reload"
  const RELOAD_CONFIGMAPS := "auto-agent.io/reload-configmaps"
  const RELOAD_SECRETS := "auto-agent.io/reload-secrets"
  const RELOAD_ON := "auto-agent.io/reload-on"
  const STAKATER_AUTO := "reloader.stakater.com/auto"
  const STAKATER_CM_AUTO := "configmap.reloader.stakater.com/auto"
  const STAKATER_SECRET_AUTO := "secret.reloader.stakater.com/auto"
  const STAKATER_CM_RELOAD := "configmap.reloader.stakater.com/reload"
  const STAKATER_SECRET_RELOAD := "secret.reloader.stakater.com/reload"
  const STAKATER_SEARCH := "reloader.stakater.com/search"
  const STAKATER_MATCH := "reloader.stakater.com/match"
  const STAKATER_IGNORE := "reloader.stakater.com/ignore"

  // ---- Reading them ----

  /** EqualFold with a word of small ASCII letters: the long s folds to s as well. */
  predicate Spells(v: string, word: string) {
    && |v| == |word|
    && forall i :: 0 <= i < |v| ==> Lower([v[i]]) == [word[i]] || (v[i] == '\U{017F}' && word[i] == 's')
  }

  predicate IsTrue(v: string) {
    Spells(TrimSpace(v), "true")
  }

  predicate IsFalse(v: string) {
    Spells(TrimSpace(v), "false")
  }

  /** The annotations that list objects, with their kinds. */
  function Lists(): seq<(string, Kind)> {
    [(RELOAD_CONFIGMAPS, ConfigMap), (STAKATER_CM_RELOAD, ConfigMap), (RELOAD_SECRETS, Secret),
     (STAKATER_SECRET_RELOAD, Secret)]
  }

  function NamedIn(ann: Annotations): set<ObjRef> {
    set i, n | 0 <= i < 4 && n in ParseNamespaceList(Get(ann, Lists()[i].0)) :: ObjRef(Lists()[i].1, n)
  }

  function OffIn(ann: Annotations): set<Kind> {
    var off := IsFalse(Get(ann, RELOAD)) || IsFalse(Get(ann, STAKATER_AUTO));
    (if off || IsFalse(Get(ann, STAKATER_CM_AUTO)) then {ConfigMap} else {})
    + (if off || IsFalse(Get(ann, STAKATER_SECRET_AUTO)) then {Secret} else {})
  }

  /** Of the values of reload-on only two mean anything; others leave the default. */
  function OnIn(ann: Annotations): On {
    var on := Get(ann, RELOAD_ON);
    if on == "always" then Always else if on == "auto" then Auto else Unset
  }

  /** What a workload's annotations say. */
  function RulesOf(ann: Annotations): Rules {
    Rules(OffIn(ann), NamedIn(ann), IsTrue(Get(ann, STAKATER_SEARCH)), OnIn(ann))
  }

  /** And an object's. */
  function MarksOf(ann: Annotations): Marks {
    Marks(IsTrue(Get(ann, STAKATER_IGNORE)) || IsFalse(Get(ann, RELOAD)), IsTrue(Get(ann, STAKATER_MATCH)))
  }

  /** workloadRules, list by list and name by name. */
  method WorkloadRules(ann: Annotations) returns (r: Rules)
    ensures r == RulesOf(ann)
  {
    var off: set<Kind> := {};
    if IsFalse(Get(ann, RELOAD)) || IsFalse(Get(ann, STAKATER_AUTO)) {
      off := {ConfigMap, Secret};
    }
    if IsFalse(Get(ann, STAKATER_CM_AUTO)) {
      off := off + {ConfigMap};
    }
    if IsFalse(Get(ann, STAKATER_SECRET_AUTO)) {
      off := off + {Secret};
    }
    var named: set<ObjRef> := {};
    for i := 0 to 4
      invariant named == set j, n | 0 <= j < i && n in ParseNamespaceList(Get(ann, Lists()[j].0))
                         :: ObjRef(Lists()[j].1, n)
    {
      var (key, kind) := Lists()[i];
      var names := BuildNamespaceSet(Split(Get(ann, key), ','));
      named := named + set n | n in names :: ObjRef(kind, n);
    }
    r := Rules(off, named, IsTrue(Get(ann, STAKATER_SEARCH)), OnIn(ann));
  }

  // ---- Writing them ----

  ghost function NameList(r: Rules, kind: Kind): string {
    Join(SortedOf(set o | o in r.named && o.kind == kind :: o.name), ",")
  }

  /** Rules as annotations, the lists under either family of names. */
  ghost function Annotated(r: Rules, stakater: bool): Annotations {
    map[STAKATER_CM_AUTO := if ConfigMap in r.off then "false" else "true",
        STAKATER_SECRET_AUTO := if Secret in r.off then "False" else "",
        (if stakater then STAKATER_CM_RELOAD else RELOAD_CONFIGMAPS) := NameList(r, ConfigMap),
        (if stakater then STAKATER_SECRET_RELOAD else RELOAD_SECRETS) := NameList(r, Secret),
        STAKATER_SEARCH := if r.search then "true" else "false",
        RELOAD_ON := if r.on.Always? then "always" else if r.on.Auto? then "auto" else ""]
  }

  ghost predicate Listable(r: Rules) {
    forall o :: o in r.named ==> o.name != "" && TrimSpace(o.name) == o.name && ',' !in o.name
  }

  lemma {:induction false} ListsReadBack(r: Rules, kind: Kind)
    requires Listable(r)
    ensures ParseNamespaceList(NameList(r, kind)) == set o | o in r.named && o.kind == kind :: o.name
    ensures ParseNamespaceList("") == {}
  {
    var names := set o | o in r.named && o.kind == kind :: o.name;
    var list := SortedOf(names);
    assert forall n :: n in list <==> n in Elements(list);
    ScopeChoiceRoundTrip(Some(list));
    ScopeChoiceRoundTrip(Some([]));
  }

  /** The annotations say that, key by key. */
  ghost predicate SaysLists(ann: Annotations, r: Rules, stakater: bool) {
    && Get(ann, RELOAD_CONFIGMAPS) == (if stakater then "" else NameList(r, ConfigMap))
    && Get(ann, STAKATER_CM_RELOAD) == (if stakater then NameList(r, ConfigMap) else "")
    && Get(ann, RELOAD_SECRETS) == (if stakater then "" else NameList(r, Secret))
    && Get(ann, STAKATER_SECRET_RELOAD) == (if stakater then NameList(r, Secret) else "")
  }

  ghost predicate SaysSwitches(ann: Annotations, r: Rules) {
    && Get(ann, RELOAD) == "" && Get(ann, STAKATER_AUTO) == ""
    && Get(ann, STAKATER_CM_AUTO) == (if ConfigMap in r.off then "false" else "true")
    && Get(ann, STAKATER_SECRET_AUTO) == (if Secret in r.off then "False" else "")
    && Get(ann, STAKATER_SEARCH) == (if r.search then "true" else "false")
    && Get(ann, RELOAD_ON) == (if r.on.Always? then "always" else if r.on.Auto? then "auto" else "")
  }

  lemma {:induction false} WrittenLists(r: Rules, stakater: bool)
    ensures SaysLists(Annotated(r, stakater), r, stakater)
  {
  }

  lemma {:induction false} WrittenSwitches(r: Rules, stakater: bool)
    ensures SaysSwitches(Annotated(r, stakater), r)
  {
  }

  lemma {:induction false} Untrimmed()
    ensures TrimSpace("true") == "true" && TrimSpace("false") == "false" && TrimSpace("False") == "False"
    ensures TrimSpace("") == ""
  {
  }

  lemma {:induction false} TrueWords()
    ensures IsTrue("true") && !IsTrue("false") && !IsTrue("")
  {
    Untrimmed();
  }

  lemma {:induction false} FalseWords()
    ensures IsFalse("false") && IsFalse("False") && !IsFalse("true") && !IsFalse("")
  {
    Untrimmed();
    assert Lower("F") == "f";
  }

  /** Of the four lists the one in use names just the objects of its kind, and its twin
      nothing. */
  lemma {:induction false} ListReadBack(r: Rules, stakater: bool, ann: Annotations, i: nat, name: string)
    requires Listable(r) && SaysLists(ann, r, stakater) && i < 4
    ensures name in ParseNamespaceList(Get(ann, Lists()[i].0))
            <==> ObjRef(Lists()[i].1, name) in r.named && (i == 1 || i == 3 <==> stakater)
  {
    ListsReadBack(r, Lists()[i].1);
  }

  lemma {:induction false} NamesReadBack(r: Rules, stakater: bool, ann: Annotations)
    requires Listable(r) && SaysLists(ann, r, stakater)
    ensures NamedIn(ann) == r.named
  {
    forall o: ObjRef ensures o in NamedIn(ann) <==> o in r.named {
      var i := (if o.kind.ConfigMap? then 0 else 2) + if stakater then 1 else 0;
      ListReadBack(r, stakater, ann, i, o.name);
      if o in NamedIn(ann) {
        var j, n :| 0 <= j < 4 && n in ParseNamespaceList(Get(ann, Lists()[j].0)) && o == ObjRef(Lists()[j].1, n);
        ListReadBack(r, stakater, ann, j, n);
      }
    }
  }

  lemma {:induction false} OffReadBack(r: Rules, ann: Annotations)
    requires SaysSwitches(ann, r)
    ensures OffIn(ann) == r.off
  {
    FalseWords();
    forall kind: Kind ensures kind in OffIn(ann) <==> kind in r.off {
      assert IsFalse(Get(ann, STAKATER_CM_AUTO)) <==> ConfigMap in r.off;
      assert IsFalse(Get(ann, STAKATER_SECRET_AUTO)) <==> Secret in r.off;
      assert kind.ConfigMap? || kind.Secret?;
    }
  }

  lemma {:induction false} SwitchesReadBack(r: Rules, ann: Annotations)
    requires SaysSwitches(ann, r)
    ensures IsTrue(Get(ann, STAKATER_SEARCH)) == r.search && OnIn(ann) == r.on
  {
    TrueWords();
  }

  /** Rules written as annotations are read back as they were, under either family of
      names, so a workload annotated for Stakater Reloader means the same here. */
  lemma {:induction false} RulesRoundTrip(r: Rules, stakater: bool)
    requires Listable(r)
    ensures RulesOf(Annotated(r, stakater)) == r
  {
    WrittenLists(r, stakater);
    WrittenSwitches(r, stakater);
    NamesReadBack(r, stakater, Annotated(r, stakater));
    OffReadBack(r, Annotated(r, stakater));
    SwitchesReadBack(r, Annotated(r, stakater));
  }

  // ---- What the decision comes to ----

  /** A workload is restarted for a change exactly when the object did change, neither
      side opts out, and it either asks for the object by name, or sees different content
      of it, is not searching for marked objects only, and always wants a restart or
      needs one to see the difference. */
  lemma {:induction false} ReloadsExactly(
      r: Rules, ref: ObjRef, use: Option<Use>, before: Data, after: Data, changed: seq<string>, marks: Marks,
      byDefault: On)
    requires Elements(changed) == Changed(before, after)
    ensures ShouldReload(r, ref, use, changed, marks, byDefault)
            <==> before != after && ref.kind !in r.off && !marks.ignored
                 && (ref in r.named
                     || (use.Some? && Used(use.value, before) != Used(use.value, after)
                         && (r.search ==> marks.matches)
                         && (use.value.needsRestart || r.on == Always || (r.on == Unset && byDefault == Always))))
  {
    assert changed == [] <==> before == after by {
      if changed != [] {
        assert changed[0] in Elements(changed);
      } else {
        assert forall k :: k in before.Keys + after.Keys ==> k !in Changed(before, after);
        assert before == after;
      }
    }
    if use.Some? {
      AffectsIffUsedDiffers(use.value, before, after, changed);
    }
  }

  /** The annotation that turns restarts off for one kind of object. */
  function AutoKey(kind: Kind): string {
    if kind.ConfigMap? then STAKATER_CM_AUTO else STAKATER_SECRET_AUTO
  }

  /** Read off the annotations: a workload with reload or auto false, for all objects or
      for the kind, and an object marked ignored or with reload false, are never part of
      a restart; and where neither is so, any change of an object that the workload lists
      restarts it. */
  lemma {:induction false} AnnotationsDecide(
      ann: Annotations, ref: ObjRef, use: Option<Use>, before: Data, after: Data, changed: seq<string>,
      objAnn: Annotations, byDefault: On, i: nat)
    requires Elements(changed) == Changed(before, after) && i < 4 && Lists()[i].1 == ref.kind
    ensures var opted := IsFalse(Get(ann, RELOAD)) || IsFalse(Get(ann, STAKATER_AUTO))
                         || IsFalse(Get(ann, AutoKey(ref.kind))) || IsTrue(Get(objAnn, STAKATER_IGNORE))
                         || IsFalse(Get(objAnn, RELOAD));
            var reloads := ShouldReload(RulesOf(ann), ref, use, changed, MarksOf(objAnn), byDefault);
            && (opted ==> !reloads)
            && (!opted && ref.name in ParseNamespaceList(Get(ann, Lists()[i].0)) ==> (reloads <==> before != after))
  {
    ReloadsExactly(RulesOf(ann), ref, use, before, after, changed, MarksOf(objAnn), byDefault);
    assert ref.kind in OffIn(ann) <==> IsFalse(Get(ann, RELOAD)) || IsFalse(Get(ann, STAKATER_AUTO))
                                       || IsFalse(Get(ann, AutoKey(ref.kind)));
    if ref.name in ParseNamespaceList(Get(ann, Lists()[i].0)) {
      assert ObjRef(Lists()[i].1, ref.name) == ref;
      assert ref in NamedIn(ann);
    }
  }

  /** A workload that searches is restarted, for an object it does not list, only if the
      object is marked to match. */
  lemma {:induction false} SearchNeedsMatch(
      ann: Annotations, ref: ObjRef, use: Option<Use>, changed: seq<string>, objAnn: Annotations, byDefault: On)
    requires IsTrue(Get(ann, STAKATER_SEARCH)) && ref !in NamedIn(ann) && !IsTrue(Get(objAnn, STAKATER_MATCH))
    ensures !ShouldReload(RulesOf(ann), ref, use, changed, MarksOf(objAnn), byDefault)
  {
  }
}
