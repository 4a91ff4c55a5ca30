/** Runner pod templates: how two of them are merged, and what the merge means for the pod that is built from it.

    A field that is `None` is nil in the program; loops over maps take the entries in any order.
*/
module Template {
  import opened Machine

  type StringMap = Option<map<string, string>>

  datatype EnvVar = EnvVar(name: string, value: string)

  datatype Toleration = Toleration(key: string, operator: string, value: string, effect: string)

  datatype PodTemplate = PodTemplate(
    labels: StringMap,
    annotations: StringMap,
    nodeSelector: StringMap,
    limits: StringMap,
    requests: StringMap,
    env: Option<seq<EnvVar>>,
    tolerations: Option<seq<Toleration>>)

  // ---------------------------------------------------------------------------------------------
  // What the fields mean
  // ---------------------------------------------------------------------------------------------

  function Entries(m: StringMap): map<string, string> { if m.None? then map[] else m.value }

  function Items<T>(s: Option<seq<T>>): seq<T> { if s.None? then [] else s.value }

  /** The environment a process sees: of two variables of one name the later counts. */
  function Environment(es: seq<EnvVar>): map<string, string> {
    if es == [] then map[] else var e := es[|es| - 1]; Environment(es[..|es| - 1])[e.name := e.value]
  }

  /** The string under which a toleration is merged. */
  function JoinedKey(t: Toleration): string { t.key + ":" + (t.operator + ":" + (t.value + ":" + t.effect)) }

  function ByKey(ts: seq<Toleration>): (m: map<string, Toleration>)
    ensures forall k <- m :: JoinedKey(m[k]) == k && m[k] in ts
    ensures forall t <- ts :: JoinedKey(t) in m
  {
    if ts == [] then map[] else var t := ts[|ts| - 1]; ByKey(ts[..|ts| - 1])[JoinedKey(t) := t]
  }

  /** `t` is what is left of the tolerations with its key. */
  predicate Survives(ts: seq<Toleration>, t: Toleration) { t in ts && ByKey(ts)[JoinedKey(t)] == t }

  lemma EnvironmentPush(es: seq<EnvVar>, e: EnvVar)
    ensures Environment(es + [e]) == Environment(es)[e.name := e.value]
  {
    assert (es + [e])[..|es|] == es;
  }

  lemma {:induction false} EnvironmentConcat(a: seq<EnvVar>, b: seq<EnvVar>)
    ensures Environment(a + b) == Environment(a) + Environment(b)
  {
    if b == [] {
      assert a + b == a;
    } else {
      var c, e := b[..|b| - 1], b[|b| - 1];
      assert a + b == (a + c) + [e];
      EnvironmentConcat(a, c);
      EnvironmentPush(a + c, e);
    }
  }

  lemma ByKeyPush(ts: seq<Toleration>, t: Toleration)
    ensures ByKey(ts + [t]) == ByKey(ts)[JoinedKey(t) := t]
  {
    assert (ts + [t])[..|ts|] == ts;
  }

  // ---------------------------------------------------------------------------------------------
  // The merge
  // ---------------------------------------------------------------------------------------------

  method CopyEntries(out: map<string, string>, m: map<string, string>) returns (r: map<string, string>)
    ensures r == out + m
  {
    r := out;
    var todo := m.Keys;
    while todo != {}
      invariant todo <= m.Keys && r == out + (map k <- m | k !in todo :: m[k])
    {
      var k :| k in todo;
      r := r[k := m[k]];
      todo := todo - {k};
    }
    assert (map k <- m | k !in todo :: m[k]) == m;
  }

  method MergeStringMaps(base: StringMap, override: StringMap) returns (merged: StringMap)
    ensures Entries(merged) == Entries(base) + Entries(override)
    ensures merged.None? <==> Entries(merged) == map[]
  {
    if base.None? && override.None? {
      return None;
    }
    var out := map[];
    out := CopyEntries(out, Entries(base));
    out := CopyEntries(out, Entries(override));
    if |out| == 0 {
      return None;
    }
    return Some(out);
  }

  method CollectEnv(envMap: map<string, string>, es: seq<EnvVar>) returns (r: map<string, string>)
    ensures r == envMap + Environment(es)
  {
    r := envMap;
    var i := 0;
    while i < |es|
      invariant i <= |es| && r == envMap + Environment(es[..i])
    {
      assert es[..i + 1] == es[..i] + [es[i]];
      EnvironmentPush(es[..i], es[i]);
      r := r[es[i].name := es[i].value];
      i := i + 1;
    }
    assert es[..i] == es;
  }

  ghost predicate DistinctNames(es: seq<EnvVar>) { forall i, j :: 0 <= i < j < |es| ==> es[i].name != es[j].name }

  /** A list of the variables of `envMap`, each once, in some order. */
  method ListEnv(envMap: map<string, string>) returns (out: seq<EnvVar>)
    ensures Environment(out) == envMap && DistinctNames(out)
  {
    out := [];
    var todo := envMap.Keys;
    while todo != {}
      invariant todo <= envMap.Keys && Environment(out) == map k <- envMap | k !in todo :: envMap[k]
      invariant DistinctNames(out) && forall e <- out :: e.name !in todo
    {
      var name :| name in todo;
      EnvironmentPush(out, EnvVar(name, envMap[name]));
      out := out + [EnvVar(name, envMap[name])];
      todo := todo - {name};
    }
    assert (map k <- envMap | k !in todo :: envMap[k]) == envMap;
  }

  method CollectBoth(base: seq<EnvVar>, override: seq<EnvVar>) returns (envMap: map<string, string>)
    ensures envMap == Environment(base + override)
  {
    envMap := map[];
    envMap := CollectEnv(envMap, base);
    envMap := CollectEnv(envMap, override);
    EnvironmentConcat(base, override);
  }

  method MergeEnvVars(base: Option<seq<EnvVar>>, override: Option<seq<EnvVar>>) returns (merged: Option<seq<EnvVar>>)
    ensures Environment(Items(merged)) == Environment(Items(base) + Items(override))
    ensures DistinctNames(Items(merged))
    ensures merged.None? <==> Items(base) == [] && Items(override) == []
  {
    var envMap := CollectBoth(Items(base), Items(override));
    EmptyEnvironment(Items(base) + Items(override));
    if |envMap| == 0 {
      return None;
    }
    var out := ListEnv(envMap);
    return Some(out);
  }

  lemma EmptyEnvironment(es: seq<EnvVar>)
    ensures Environment(es) == map[] <==> es == []
  {
    if es != [] {
      assert es[|es| - 1].name in Environment(es);
    }
  }

  lemma NextItem<T>(before: seq<T>, ts: seq<T>, i: nat)
    requires i < |ts|
    ensures before + ts[..i] + [ts[i]] == before + ts[..i + 1]
  {
    assert ts[..i] + [ts[i]] == ts[..i + 1];
  }

  method CollectTolerations(tolerationMap: map<string, Toleration>, ghost before: seq<Toleration>, ts: seq<Toleration>)
      returns (r: map<string, Toleration>)
    requires tolerationMap == ByKey(before)
    ensures r == ByKey(before + ts)
  {
    r := tolerationMap;
    ghost var seen := before;
    NoItems(before, ts);
    var i := 0;
    while i < |ts|
      invariant i <= |ts| && seen == before + ts[..i] && r == ByKey(seen)
    {
      var t := ts[i];
      ByKeyPush(seen, t);
      NextItem(before, ts, i);
      r := r[JoinedKey(t) := t];
      seen := seen + [t];
      i := i + 1;
    }
    AllItems(before, ts);
  }

  lemma NoItems<T>(before: seq<T>, ts: seq<T>)
    ensures before + ts[..0] == before
  {}

  lemma AllItems<T>(before: seq<T>, ts: seq<T>)
    ensures before + ts[..|ts|] == before + ts
  {
    assert ts[..|ts|] == ts;
  }

  ghost predicate DistinctKeys(ts: seq<Toleration>) {
    forall i, j :: 0 <= i < j < |ts| ==> JoinedKey(ts[i]) != JoinedKey(ts[j])
  }

  method ListTolerations(tolerationMap: map<string, Toleration>, ghost all: seq<Toleration>)
      returns (out: seq<Toleration>)
    requires tolerationMap == ByKey(all)
    ensures forall t :: t in out <==> Survives(all, t)
    ensures DistinctKeys(out)
  {
    out := [];
    var todo := tolerationMap.Keys;
    while todo != {}
      invariant todo <= tolerationMap.Keys && DistinctKeys(out)
      invariant forall t :: t in out <==> Survives(all, t) && JoinedKey(t) !in todo
    {
      var k :| k in todo;
      out := out + [tolerationMap[k]];
      todo := todo - {k};
    }
  }

  /** The merge keeps, for every joined key, the last toleration that has it. */
  method MergeTolerations(base: Option<seq<Toleration>>, override: Option<seq<Toleration>>)
      returns (merged: Option<seq<Toleration>>)
    ensures forall t :: t in Items(merged) <==> Survives(Items(base) + Items(override), t)
    ensures DistinctKeys(Items(merged))
    ensures merged.None? <==> Items(base) == [] && Items(override) == []
  {
    var tolerationMap := map[];
    tolerationMap := CollectTolerations(tolerationMap, [], Items(base));
    assert [] + Items(base) == Items(base);
    tolerationMap := CollectTolerations(tolerationMap, Items(base), Items(override));
    ghost var all := Items(base) + Items(override);
    if |tolerationMap| == 0 {
      assert forall t <- all :: JoinedKey(t) in tolerationMap;
      assert all == [];
      return None;
    }
    var k :| k in tolerationMap;
    assert tolerationMap[k] in all;
    var out := ListTolerations(tolerationMap, all);
    return Some(out);
  }

  method CopyTemplateWithCleanMetadata(template: Option<PodTemplate>) returns (copied: Option<PodTemplate>)
    ensures copied == template
  {
    if template.None? {
      return None;
    }
    var labels, annotations: StringMap := None, None;
    if template.value.labels.Some? || template.value.annotations.Some? {
      if template.value.labels.Some? {
        var m := CopyEntries(map[], template.value.labels.value);
        assert map[] + template.value.labels.value == template.value.labels.value;
        labels := Some(m);
      }
      if template.value.annotations.Some? {
        var m := CopyEntries(map[], template.value.annotations.value);
        assert map[] + template.value.annotations.value == template.value.annotations.value;
        annotations := Some(m);
      }
    }
    return Some(template.value.(labels := labels, annotations := annotations));
  }

  /** What a template says, nil or not. */
  datatype Meaning = Meaning(
    labels: map<string, string>,
    annotations: map<string, string>,
    nodeSelector: map<string, string>,
    limits: map<string, string>,
    requests: map<string, string>,
    env: map<string, string>)

  function Says(t: Option<PodTemplate>): Meaning {
    if t.None? then Meaning(map[], map[], map[], map[], map[], map[])
    else Meaning(Entries(t.value.labels), Entries(t.value.annotations), Entries(t.value.nodeSelector),
                 Entries(t.value.limits), Entries(t.value.requests), Environment(Items(t.value.env)))
  }

  function Overlay(a: Meaning, b: Meaning): Meaning {
    Meaning(a.labels + b.labels, a.annotations + b.annotations, a.nodeSelector + b.nodeSelector,
            a.limits + b.limits, a.requests + b.requests, a.env + b.env)
  }

  function TolerationsOf(t: Option<PodTemplate>): seq<Toleration> {
    if t.None? then [] else Items(t.value.tolerations)
  }

  /** The tolerations asked for and those a template lists: all of them, or what is left of them by their keys. */
  ghost predicate Tolerates(ts: seq<Toleration>, base: Option<PodTemplate>, override: Option<PodTemplate>) {
    var all := TolerationsOf(base) + TolerationsOf(override);
    forall t :: t in ts <==> if base.Some? && override.Some? then Survives(all, t) else t in all
  }

  method MergeBoth(base: PodTemplate, override: PodTemplate) returns (merged: PodTemplate)
    ensures Says(Some(merged)) == Overlay(Says(Some(base)), Says(Some(override)))
    ensures Tolerates(Items(merged.tolerations), Some(base), Some(override))
    ensures Entries(merged.limits) == Entries(base.limits) + Entries(override.limits)
    ensures Entries(merged.requests) == Entries(base.requests) + Entries(override.requests)
    ensures Entries(merged.nodeSelector) == Entries(base.nodeSelector) + Entries(override.nodeSelector)
    ensures Entries(merged.labels) == Entries(base.labels) + Entries(override.labels)
    ensures Entries(merged.annotations) == Entries(base.annotations) + Entries(override.annotations)
  {
    var labels := MergeStringMaps(base.labels, override.labels);
    var annotations := MergeStringMaps(base.annotations, override.annotations);
    var nodeSelector := MergeStringMaps(base.nodeSelector, override.nodeSelector);
    var limits := MergeStringMaps(base.limits, override.limits);
    var requests := MergeStringMaps(base.requests, override.requests);
    var env := MergeEnvVars(base.env, override.env);
    EnvironmentConcat(Items(base.env), Items(override.env));
    var tolerations := MergeTolerations(base.tolerations, override.tolerations);
    return PodTemplate(labels, annotations, nodeSelector, limits, requests, env, tolerations);
  }

  lemma NothingToOverlay(m: Meaning)
    ensures Overlay(Says(None), m) == m && Overlay(m, Says(None)) == m
  {
    assert forall f: map<string, string> :: map[] + f == f && f + map[] == f;
  }

  lemma NothingToTolerate(t: Option<PodTemplate>)
    ensures Tolerates(TolerationsOf(t), t, None) && Tolerates(TolerationsOf(t), None, t)
  {
    assert TolerationsOf(t) + TolerationsOf(None) == TolerationsOf(t);
    assert TolerationsOf(None) + TolerationsOf(t) == TolerationsOf(t);
  }

  /** For all four combinations of nil and non-nil templates the merge says what the base says overlaid by what the
      override says. */
  method MergeRunnerTemplates(base: Option<PodTemplate>, override: Option<PodTemplate>)
      returns (merged: Option<PodTemplate>)
    ensures Says(merged) == Overlay(Says(base), Says(override))
    ensures Tolerates(TolerationsOf(merged), base, override)
    ensures merged.None? <==> base.None? && override.None?
    ensures base.None? ==> merged == override
    ensures override.None? ==> merged == base
    ensures base.Some? && override.Some? ==>
      && Entries(merged.value.limits) == Entries(base.value.limits) + Entries(override.value.limits)
      && Entries(merged.value.requests) == Entries(base.value.requests) + Entries(override.value.requests)
      && Entries(merged.value.nodeSelector) == Entries(base.value.nodeSelector) + Entries(override.value.nodeSelector)
      && Entries(merged.value.labels) == Entries(base.value.labels) + Entries(override.value.labels)
      && Entries(merged.value.annotations) == Entries(base.value.annotations) + Entries(override.value.annotations)
  {
    NothingToOverlay(Says(base));
    NothingToOverlay(Says(override));
    NothingToTolerate(base);
    NothingToTolerate(override);
    if base.None? && override.None? {
      return None;
    }
    if base.None? {
      merged := CopyTemplateWithCleanMetadata(override);
      return;
    }
    if override.None? {
      merged := CopyTemplateWithCleanMetadata(base);
      return;
    }
    var both := MergeBoth(base.value, override.value);
    return Some(both);
  }

  // ---------------------------------------------------------------------------------------------
  // When merging tolerations loses none
  // ---------------------------------------------------------------------------------------------

  predicate KeysApart(ts: seq<Toleration>) {
    forall t <- ts, u <- ts :: JoinedKey(t) == JoinedKey(u) ==> t == u
  }

  /** Merging is set union exactly when different tolerations have different joined keys. */
  lemma UnionWhenKeysApart(ts: seq<Toleration>)
    ensures (forall t :: t in ts <==> Survives(ts, t)) <==> KeysApart(ts)
  {
    if forall t :: t in ts <==> Survives(ts, t) {
      forall t, u | t in ts && u in ts && JoinedKey(t) == JoinedKey(u) ensures t == u {
        assert Survives(ts, t) && Survives(ts, u);
      }
    }
  }

  lemma SameHead(a: string, x: string, b: string, y: string)
    requires ':' !in a && ':' !in b && a + ":" + x == b + ":" + y
    ensures a == b && x == y
  {
    NotShorter(a, x, b, y);
    NotShorter(b, y, a, x);
    assert a == (a + ":" + x)[..|a|] == (b + ":" + y)[..|b|] == b;
    assert x == (a + ":" + x)[|a| + 1..] == (b + ":" + y)[|b| + 1..] == y;
  }

  lemma NotShorter(a: string, x: string, b: string, y: string)
    requires ':' !in b && a + ":" + x == b + ":" + y
    ensures |a| >= |b|
  {
    assert (a + ":" + x)[|a|] == ':';
    NoColonWithin(b, y);
  }

  lemma NoColonWithin(b: string, y: string)
    requires ':' !in b
    ensures forall k :: 0 <= k < |b| ==> (b + ":" + y)[k] != ':'
  {
    assert forall k :: 0 <= k < |b| ==> (b + ":" + y)[k] == b[k];
  }

  predicate NoColons(t: Toleration) { ':' !in t.key && ':' !in t.operator && ':' !in t.value }

  /** Without colons in keys, operators and values no two tolerations share a joined key. */
  lemma NoColonsKeysApart(ts: seq<Toleration>)
    requires forall t <- ts :: NoColons(t)
    ensures KeysApart(ts)
  {
    forall t, u | t in ts && u in ts && JoinedKey(t) == JoinedKey(u) ensures t == u {
      SameHead(t.key, t.operator + ":" + (t.value + ":" + t.effect),
               u.key, u.operator + ":" + (u.value + ":" + u.effect));
      SameHead(t.operator, t.value + ":" + t.effect, u.operator, u.value + ":" + u.effect);
      SameHead(t.value, t.effect, u.value, u.effect);
    }
  }

  /** A colon in a key can lose a toleration. */
  lemma ColonLosesToleration()
    ensures var t, u := Toleration("a:b", "c", "d", "e"), Toleration("a", "b:c", "d", "e");
      Survives([t, u], u) && !Survives([t, u], t)
  {
    var t, u := Toleration("a:b", "c", "d", "e"), Toleration("a", "b:c", "d", "e");
    assert JoinedKey(t) == "a:b:c:d:e" == JoinedKey(u);
    ByKeyPush([t], u);
    assert [t] + [u] == [t, u];
  }

  // ---------------------------------------------------------------------------------------------
  // The pod
  // ---------------------------------------------------------------------------------------------

  const RUNNER_NAME: string := "scaleset.actions.github.com/runner-name"
  const RUNNER_STATE: string := "scaleset.actions.github.com/runner-state"
  const AUTOSCALE_SET: string := "scaleset.actions.github.com/autoscaleset"
  const RUNNER_GROUP: string := "scaleset.actions.github.com/runner-group"
  const JIT_ANNOTATION: string := "scaleset.actions.github.com/jit-config"
  const JIT_ENV: string := "ACTIONS_RUNNER_INPUT_JITCONFIG"
  const RESERVED: set<string> := {RUNNER_NAME, RUNNER_STATE, AUTOSCALE_SET, RUNNER_GROUP}

  datatype Runner = Runner(name: string, scaleSetID: string, group: string, jitConfig: string)

  datatype Pod = Pod(
    labels: map<string, string>,
    annotations: map<string, string>,
    env: seq<EnvVar>,
    nodeSelector: map<string, string>,
    tolerations: seq<Toleration>)

  /** The value the system gives a reserved label, if any. */
  function SystemLabel(r: Runner, key: string): Option<string> {
    if key == RUNNER_NAME then Some(r.name)
    else if key == RUNNER_STATE then Some("idle")
    else if key == AUTOSCALE_SET then Some(r.scaleSetID)
    else if key == RUNNER_GROUP && r.group != "" then Some(r.group)
    else None
  }

  function Lookup(m: map<string, string>, k: string): Option<string> { if k in m then Some(m[k]) else None }

  lemma ReservedApart()
    ensures RUNNER_NAME != RUNNER_STATE && RUNNER_NAME != AUTOSCALE_SET && RUNNER_NAME != RUNNER_GROUP
    ensures RUNNER_STATE != AUTOSCALE_SET && RUNNER_STATE != RUNNER_GROUP && AUTOSCALE_SET != RUNNER_GROUP
  {
    assert RUNNER_NAME[28] == 'r' && RUNNER_STATE[28] == 'r' && AUTOSCALE_SET[28] == 'a' && RUNNER_GROUP[28] == 'r';
    assert RUNNER_NAME[35] == 'n' && RUNNER_STATE[35] == 's' && RUNNER_GROUP[35] == 'g';
  }

  ghost predicate LabelsMeant(podLabels: map<string, string>, wanted: map<string, string>, r: Runner) {
    && (forall k <- RESERVED :: Lookup(podLabels, k) == SystemLabel(r, k))
    && (forall k :: k !in RESERVED ==> Lookup(podLabels, k) == Lookup(wanted, k))
  }

  /** The reserved labels, written out. */
  ghost predicate SystemLabels(podLabels: map<string, string>, r: Runner) {
    && Lookup(podLabels, "scaleset.actions.github.com/runner-name") == Some(r.name)
    && Lookup(podLabels, "scaleset.actions.github.com/runner-state") == Some("idle")
    && Lookup(podLabels, "scaleset.actions.github.com/autoscaleset") == Some(r.scaleSetID)
    && Lookup(podLabels, "scaleset.actions.github.com/runner-group") == if r.group == "" then None else Some(r.group)
  }

  lemma SystemLabelsReserved(podLabels: map<string, string>, r: Runner)
    requires forall k <- RESERVED :: Lookup(podLabels, k) == SystemLabel(r, k)
    ensures SystemLabels(podLabels, r)
  {
    ReservedApart();
    assert RUNNER_NAME in RESERVED && RUNNER_STATE in RESERVED && AUTOSCALE_SET in RESERVED && RUNNER_GROUP in RESERVED;
  }

  /** Reserved labels are always the system's; every other label is the template's. */
  method BuildPodLabels(template: Option<PodTemplate>, r: Runner) returns (podLabels: map<string, string>)
    ensures LabelsMeant(podLabels, Says(template).labels, r)
    ensures SystemLabels(podLabels, r)
  {
    ReservedApart();
    podLabels := map[RUNNER_NAME := r.name, RUNNER_STATE := "idle", AUTOSCALE_SET := r.scaleSetID];
    if r.group != "" {
      podLabels := podLabels[RUNNER_GROUP := r.group];
    }
    if template.None? || |Entries(template.value.labels)| == 0 {
      SystemLabelsReserved(podLabels, r);
      return;
    }
    var labels := template.value.labels.value;
    var todo := labels.Keys;
    while todo != {}
      invariant todo <= labels.Keys
      invariant forall k <- RESERVED :: Lookup(podLabels, k) == SystemLabel(r, k)
      invariant forall k :: k !in RESERVED ==> Lookup(podLabels, k) == if k in todo then None else Lookup(labels, k)
    {
      var k :| k in todo;
      todo := todo - {k};
      if k in RESERVED {
        continue;
      }
      podLabels := podLabels[k := labels[k]];
    }
    SystemLabelsReserved(podLabels, r);
  }

  method BuildPodAnnotations(template: Option<PodTemplate>, jitConfig: string)
      returns (podAnnotations: map<string, string>)
    ensures podAnnotations ==
      map["scaleset.actions.github.com/jit-config" := jitConfig] + Says(template).annotations
  {
    podAnnotations := map[JIT_ANNOTATION := jitConfig];
    if template.Some? && |Entries(template.value.annotations)| > 0 {
      podAnnotations := CopyEntries(podAnnotations, template.value.annotations.value);
    }
  }

  method BuildEnvVars(template: Option<PodTemplate>, jitConfig: string) returns (envVars: seq<EnvVar>)
    ensures Environment(envVars) == map[JIT_ENV := jitConfig] + Says(template).env
    ensures |envVars| > 0 && envVars[0] == EnvVar("ACTIONS_RUNNER_INPUT_JITCONFIG", jitConfig)
    ensures envVars[1..] == if template.None? then [] else Items(template.value.env)
  {
    envVars := [EnvVar(JIT_ENV, jitConfig)];
    assert Environment(envVars) == map[JIT_ENV := jitConfig];
    if template.Some? && template.value.env.Some? {
      var env := template.value.env.value;
      var i := 0;
      while i < |env|
        invariant i <= |env| && envVars == [EnvVar(JIT_ENV, jitConfig)] + env[..i]
      {
        envVars := envVars + [EnvVar(env[i].name, env[i].value)];
        i := i + 1;
      }
      assert env[..i] == env;
      EnvironmentConcat([EnvVar(JIT_ENV, jitConfig)], env);
    }
  }

  /** A toleration as the pod has it: without an operator it is an equality. */
  function Effective(t: Toleration): Toleration { if t.operator == "" then t.(operator := "Equal") else t }

  method BuildTolerations(template: Option<PodTemplate>) returns (tolerations: seq<Toleration>)
    ensures |tolerations| == |TolerationsOf(template)|
    ensures forall i :: 0 <= i < |tolerations| ==> tolerations[i] == Effective(TolerationsOf(template)[i])
    ensures forall i :: 0 <= i < |tolerations| ==>
      var t := TolerationsOf(template)[i];
      tolerations[i] == Toleration(t.key, if t.operator == "" then "Equal" else t.operator, t.value, t.effect)
  {
    tolerations := [];
    if template.Some? && |Items(template.value.tolerations)| > 0 {
      var ts := template.value.tolerations.value;
      var i := 0;
      while i < |ts|
        invariant i <= |ts| && |tolerations| == i
        invariant forall j :: 0 <= j < i ==> tolerations[j] == Effective(ts[j])
      {
        var op := ts[i].operator;
        if op == "" {
          op := "Equal";
        }
        tolerations := tolerations + [Toleration(ts[i].key, op, ts[i].value, ts[i].effect)];
        i := i + 1;
      }
    }
  }

  /** What the two templates ask of the pod, whatever the order in which maps were read. */
  ghost predicate Meant(pod: Pod, base: Option<PodTemplate>, override: Option<PodTemplate>, r: Runner) {
    var b, o := Says(base), Says(override);
    && Environment(pod.env) == map["ACTIONS_RUNNER_INPUT_JITCONFIG" := r.jitConfig] + b.env + o.env
    && SystemLabels(pod.labels, r)
    && (forall k <- RESERVED :: Lookup(pod.labels, k) == SystemLabel(r, k))
    && (forall k :: k in o.labels && k !in RESERVED ==> Lookup(pod.labels, k) == Some(o.labels[k]))
    && (forall k :: k !in o.labels && k !in RESERVED ==> Lookup(pod.labels, k) == Lookup(b.labels, k))
    && pod.annotations == map[JIT_ANNOTATION := r.jitConfig] + b.annotations + o.annotations
    && pod.nodeSelector == b.nodeSelector + o.nodeSelector
  }

  /** The tolerations of the pod are those of the two templates together. */
  ghost predicate TolerationsMeant(pod: Pod, base: Option<PodTemplate>, override: Option<PodTemplate>) {
    forall t :: t in pod.tolerations <==>
      exists u :: u in TolerationsOf(base) + TolerationsOf(override) && t == Effective(u)
  }

  lemma TolerationsCarried(ts: seq<Toleration>, built: seq<Toleration>, base: Option<PodTemplate>,
                           override: Option<PodTemplate>)
    requires |built| == |ts| && forall i :: 0 <= i < |ts| ==> built[i] == Effective(ts[i])
    requires Tolerates(ts, base, override) && KeysApart(TolerationsOf(base) + TolerationsOf(override))
    ensures forall t :: t in built <==>
      exists u :: u in TolerationsOf(base) + TolerationsOf(override) && t == Effective(u)
  {
    var all := TolerationsOf(base) + TolerationsOf(override);
    UnionWhenKeysApart(all);
    forall t ensures t in built <==> exists u :: u in all && t == Effective(u) {
      if t in built {
        var i :| 0 <= i < |built| && built[i] == t;
        assert ts[i] in all;
      }
      if u :| u in all && t == Effective(u) {
        var i :| 0 <= i < |ts| && ts[i] == u;
        assert built[i] == t;
      }
    }
  }

  lemma OverlayAssociates(a: map<string, string>, b: map<string, string>, c: map<string, string>)
    ensures a + (b + c) == a + b + c
  {}

  /** Building a pod from the merged template. */
  lemma BuiltFromMerge(pod: Pod, merged: Option<PodTemplate>, base: Option<PodTemplate>, override: Option<PodTemplate>,
                       r: Runner)
    requires Says(merged) == Overlay(Says(base), Says(override))
    requires LabelsMeant(pod.labels, Says(merged).labels, r) && SystemLabels(pod.labels, r)
    requires pod.annotations == map[JIT_ANNOTATION := r.jitConfig] + Says(merged).annotations
    requires Environment(pod.env) == map[JIT_ENV := r.jitConfig] + Says(merged).env
    requires pod.nodeSelector == Says(merged).nodeSelector
    ensures Meant(pod, base, override, r)
  {
    var b, o := Says(base), Says(override);
    OverlayAssociates(map[JIT_ENV := r.jitConfig], b.env, o.env);
    OverlayAssociates(map[JIT_ANNOTATION := r.jitConfig], b.annotations, o.annotations);
  }

  /** From two optional templates to the pod.  The merge happens in the controller, the rest in the scaler. */
  method BuildPod(base: Option<PodTemplate>, override: Option<PodTemplate>, r: Runner) returns (pod: Pod)
    ensures Meant(pod, base, override, r)
    ensures KeysApart(TolerationsOf(base) + TolerationsOf(override)) ==> TolerationsMeant(pod, base, override)
  {
    var template := MergeRunnerTemplates(base, override);
    var labels := BuildPodLabels(template, r);
    var annotations := BuildPodAnnotations(template, r.jitConfig);
    var env := BuildEnvVars(template, r.jitConfig);
    var tolerations := BuildTolerations(template);
    pod := Pod(labels, annotations, env, Says(template).nodeSelector, tolerations);
    BuiltFromMerge(pod, template, base, override, r);
    if KeysApart(TolerationsOf(base) + TolerationsOf(override)) {
      TolerationsCarried(TolerationsOf(template), tolerations, base, override);
    }
  }
}
