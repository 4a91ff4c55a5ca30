/** The labels of a scale set: how the desired ones are built, how they are compared with GitHub's, and why the
    updates that follow come to rest.

    GitHub stores label types in lower case and adds or drops the label "self-hosted" on its own.
*/
module Labels {
  import opened Machine

  datatype Label = Label(kind: string, name: string)

  const SELF_HOSTED: string := "self-hosted"
  const SYSTEM: string := "System"
  const SUFFIX: string := ":self-hosted"

  // ---------------------------------------------------------------------------------------------
  // Normalised labels
  // ---------------------------------------------------------------------------------------------

  function LowerChar(c: char): char { if 'A' <= c <= 'Z' then (c as int + 32) as char else c }

  function ToLower(s: string): (r: string)
    ensures |r| == |s| && forall i :: 0 <= i < |s| ==> r[i] == LowerChar(s[i])
  {
    seq(|s|, i requires 0 <= i < |s| => LowerChar(s[i]))
  }

  /** The same letter, in whatever case. */
  predicate SameLetter(c: char, d: char) {
    c == d || ('A' <= c <= 'Z' && d as int == c as int + 32) || ('A' <= d <= 'Z' && c as int == d as int + 32)
  }

  /** Two strings have the same lower-case form if and only if they differ in nothing but the case of letters. */
  lemma LowerIgnoresCase(s: string, t: string)
    ensures ToLower(s) == ToLower(t) <==> |s| == |t| && forall i :: 0 <= i < |s| ==> SameLetter(s[i], t[i])
    ensures forall i :: 0 <= i < |s| ==> !('A' <= ToLower(s)[i] <= 'Z')
  {
    if ToLower(s) == ToLower(t) {
      assert |s| == |ToLower(s)| == |t|;
      forall i | 0 <= i < |s| ensures SameLetter(s[i], t[i]) {
        assert ToLower(s)[i] == ToLower(t)[i];
      }
    }
  }

  function Normalize(l: Label): string { ToLower(l.kind) + ":" + l.name }

  predicate HasSuffix(s: string, suffix: string) { |suffix| <= |s| && s[|s| - |suffix|..] == suffix }

  predicate Skipped(l: Label) { HasSuffix(Normalize(l), SUFFIX) }

  /** What a list of labels means to the comparison. */
  ghost function LabelSet(labels: seq<Label>): set<string> {
    set l <- labels | !Skipped(l) :: Normalize(l)
  }

  lemma NameEndsNormalized(l: Label, n: nat)
    requires n <= |l.name|
    ensures Normalize(l)[|Normalize(l)| - n..] == l.name[|l.name| - n..]
  {}

  lemma NoColonInside(k: nat)
    requires 0 < k < |SUFFIX|
    ensures SUFFIX[k] != ':'
  {
    assert SUFFIX == [':', 's', 'e', 'l', 'f', '-', 'h', 'o', 's', 't', 'e', 'd'];
  }

  /** The comparison leaves out the label "self-hosted" of every type, and every label whose name ends in
      ":self-hosted"; nothing else. */
  lemma SkippedCharacterised(l: Label)
    ensures Skipped(l) <==> l.name == SELF_HOSTED || HasSuffix(l.name, SUFFIX)
  {
    var s := Normalize(l);
    var n := |l.name|;
    assert SUFFIX == ":" + SELF_HOSTED;
    if n >= |SUFFIX| {
      NameEndsNormalized(l, |SUFFIX|);
    } else if n + 1 == |SUFFIX| {
      assert s[|s| - |SUFFIX|..] == ":" + l.name;
      assert (":" + l.name)[1..] == l.name && SUFFIX[1..] == SELF_HOSTED;
    } else if |s| >= |SUFFIX| {
      NoColonInside(|SUFFIX| - 1 - n);
      assert s[|s| - |SUFFIX|..][|SUFFIX| - 1 - n] == s[|s| - 1 - n] == ':';
    }
  }

  // ---------------------------------------------------------------------------------------------
  // The comparison
  // ---------------------------------------------------------------------------------------------

  lemma LabelSetPush(labels: seq<Label>, l: Label)
    ensures LabelSet(labels + [l]) == LabelSet(labels) + if Skipped(l) then {} else {Normalize(l)}
  {
    assert forall m :: m in labels + [l] <==> m in labels || m == l;
  }

  method BuildLabelSet(labels: seq<Label>) returns (labelSet: set<string>)
    ensures labelSet == LabelSet(labels)
  {
    labelSet := {};
    var i := 0;
    while i < |labels|
      invariant i <= |labels| && labelSet == LabelSet(labels[..i])
    {
      var normalized := Normalize(labels[i]);
      LabelSetPush(labels[..i], labels[i]);
      assert labels[..i + 1] == labels[..i] + [labels[i]];
      if !HasSuffix(normalized, SUFFIX) {
        labelSet := labelSet + {normalized};
      }
      i := i + 1;
    }
    assert labels[..i] == labels;
  }

  lemma IncludedAndAsLarge<T>(a: set<T>, b: set<T>)
    requires a <= b && |a| == |b|
    ensures a == b
  {
    assert |b - a| == |b| - |a|;
    assert b - a == {};
  }

  /** The comparison decides equality of the label sets: it is an equivalence. */
  method LabelsEqual(a: seq<Label>, b: seq<Label>) returns (equal: bool)
    ensures equal <==> LabelSet(a) == LabelSet(b)
  {
    var aSet := BuildLabelSet(a);
    var bSet := BuildLabelSet(b);
    if |aSet| != |bSet| {
      return false;
    }
    var todo := aSet;
    while todo != {}
      invariant todo <= aSet && aSet - todo <= bSet
    {
      var key :| key in todo;
      if key !in bSet {
        return false;
      }
      todo := todo - {key};
    }
    IncludedAndAsLarge(aSet, bSet);
    return true;
  }

  predicate ColonFree(labels: seq<Label>) { forall l <- labels :: ':' !in l.kind }

  lemma NormalizeInjective(l: Label, m: Label)
    requires ':' !in l.kind && ':' !in m.kind
    ensures Normalize(l) == Normalize(m) <==> ToLower(l.kind) == ToLower(m.kind) && l.name == m.name
  {
    if Normalize(l) == Normalize(m) {
      SameKindLength(l, m);
      SameKindLength(m, l);
      assert ToLower(l.kind) == Normalize(l)[..|l.kind|] == Normalize(m)[..|m.kind|] == ToLower(m.kind);
      assert l.name == Normalize(l)[|l.kind| + 1..] == Normalize(m)[|m.kind| + 1..] == m.name;
    }
  }

  lemma SameKindLength(l: Label, m: Label)
    requires ':' !in m.kind && Normalize(l) == Normalize(m)
    ensures |l.kind| >= |m.kind|
  {
    assert Normalize(l)[|l.kind|] == ':';
    if |l.kind| < |m.kind| {
      NoColonInKind(m, |l.kind|);
    }
  }

  lemma NoColonInKind(l: Label, k: nat)
    requires ':' !in l.kind && k < |l.kind|
    ensures Normalize(l)[k] != ':'
  {
    assert l.kind[k] in l.kind;
  }

  /** One label of `ls` has this lower-case type and this name. */
  predicate Offers(ls: seq<Label>, kind: string, name: string) {
    exists l <- ls :: ToLower(l.kind) == kind && l.name == name
  }

  /** The pairs the comparison is about agree in both lists. */
  ghost predicate SameLabels(a: seq<Label>, b: seq<Label>) {
    forall l :: (l in a || l in b) && !Skipped(l) ==>
      Offers(a, ToLower(l.kind), l.name) && Offers(b, ToLower(l.kind), l.name)
  }

  /** The comparison decides what it is meant to. */
  ghost predicate Decided(a: seq<Label>, b: seq<Label>) { LabelSet(a) == LabelSet(b) <==> SameLabels(a, b) }

  /** Labels that are compared by the same string have the same lower-case type and the same name. */
  ghost predicate StringsApart(ls: set<Label>) {
    forall l <- ls, m <- ls :: !Skipped(l) && Normalize(l) == Normalize(m) ==>
      ToLower(l.kind) == ToLower(m.kind) && l.name == m.name
  }

  ghost predicate DrawnFrom(a: seq<Label>, ls: set<Label>) { forall l <- a :: l in ls }

  /** The comparison is right about all lists of labels drawn from a set if and only if the joined strings tell the
      labels of that set apart. */
  lemma DecidedWhenApart(ls: set<Label>)
    ensures (forall a, b :: DrawnFrom(a, ls) && DrawnFrom(b, ls) ==> Decided(a, b)) <==> StringsApart(ls)
  {
    if StringsApart(ls) {
      forall a, b | DrawnFrom(a, ls) && DrawnFrom(b, ls) ensures Decided(a, b) { ApartDecides(ls, a, b); }
    }
    if forall a, b :: DrawnFrom(a, ls) && DrawnFrom(b, ls) ==> Decided(a, b) {
      forall l, m | l in ls && m in ls && !Skipped(l) && Normalize(l) == Normalize(m)
        ensures ToLower(l.kind) == ToLower(m.kind) && l.name == m.name
      {
        assert DrawnFrom([l], ls) && DrawnFrom([m], ls);
        assert Decided([l], [m]);
        SinglesSame(l, m);
      }
    }
  }

  lemma SinglesSame(l: Label, m: Label)
    requires !Skipped(l) && Normalize(l) == Normalize(m) && Decided([l], [m])
    ensures ToLower(l.kind) == ToLower(m.kind) && l.name == m.name
  {
    LabelSetPush([], l);
    LabelSetPush([], m);
    assert [] + [l] == [l] && [] + [m] == [m];
    assert l in [l];
    assert Offers([m], ToLower(l.kind), l.name);
  }

  lemma ApartDecides(ls: set<Label>, a: seq<Label>, b: seq<Label>)
    requires StringsApart(ls) && DrawnFrom(a, ls) && DrawnFrom(b, ls)
    ensures Decided(a, b)
  {
    if LabelSet(a) == LabelSet(b) {
      forall l | (l in a || l in b) && !Skipped(l)
        ensures Offers(a, ToLower(l.kind), l.name) && Offers(b, ToLower(l.kind), l.name)
      {
        assert Normalize(l) in LabelSet(a) && Normalize(l) in LabelSet(b);
        OffersNormalized(ls, a, l);
        OffersNormalized(ls, b, l);
      }
    }
    if SameLabels(a, b) {
      Included(a, b);
      Included(b, a);
    }
  }

  lemma OffersNormalized(ls: set<Label>, a: seq<Label>, l: Label)
    requires StringsApart(ls) && DrawnFrom(a, ls) && l in ls && Normalize(l) in LabelSet(a)
    ensures Offers(a, ToLower(l.kind), l.name)
  {
    var m :| m in a && !Skipped(m) && Normalize(m) == Normalize(l);
    assert m in ls;
  }

  lemma Included(a: seq<Label>, b: seq<Label>)
    requires SameLabels(a, b)
    ensures LabelSet(a) <= LabelSet(b)
  {
    forall s | s in LabelSet(a) ensures s in LabelSet(b) {
      var l :| l in a && !Skipped(l) && Normalize(l) == s;
      var m :| m in b && ToLower(m.kind) == ToLower(l.kind) && m.name == l.name;
      assert Normalize(m) == s && !Skipped(m);
    }
  }

  /** With types free of colons the joined strings lose nothing: equal means the same types (in lower case) and names,
      self-hosted labels aside. */
  lemma ColonFreeComparison(a: seq<Label>, b: seq<Label>)
    requires ColonFree(a) && ColonFree(b)
    ensures LabelSet(a) == LabelSet(b) <==> SameLabels(a, b)
  {
    var ls := (set l | l in a) + set l | l in b;
    forall l, m | l in ls && m in ls && !Skipped(l) && Normalize(l) == Normalize(m)
      ensures ToLower(l.kind) == ToLower(m.kind) && l.name == m.name
    {
      NormalizeInjective(l, m);
    }
    ApartDecides(ls, a, b);
  }

  predicate SameButCase(l: Label, m: Label) {
    && l.name == m.name && |l.kind| == |m.kind|
    && forall k :: 0 <= k < |l.kind| ==> SameLetter(l.kind[k], m.kind[k])
  }

  /** Lists that differ in nothing but the case of their types compare equal. */
  lemma {:induction false} CaseIsIgnored(a: seq<Label>, b: seq<Label>)
    requires |a| == |b| && forall i :: 0 <= i < |a| ==> SameButCase(a[i], b[i])
    ensures LabelSet(a) == LabelSet(b)
  {
    if a != [] {
      var n := |a| - 1;
      CaseIsIgnored(a[..n], b[..n]);
      LowerIgnoresCase(a[n].kind, b[n].kind);
      assert Normalize(a[n]) == Normalize(b[n]);
      LabelSetPush(a[..n], a[n]);
      LabelSetPush(b[..n], b[n]);
      assert a == a[..n] + [a[n]] && b == b[..n] + [b[n]];
    }
  }

  lemma SystemIsSystem(name: string)
    ensures LabelSet([Label("System", name)]) == LabelSet([Label("system", name)])
    ensures ToLower("System") == "system"
  {
    CaseIsIgnored([Label("System", name)], [Label("system", name)]);
  }

  /** A colon in a type defeats the comparison: two different labels count as equal. */
  lemma ColonConfusesLabels()
    ensures LabelSet([Label("a:b", "c")]) == LabelSet([Label("a", "b:c")])
    ensures !SameLabels([Label("a:b", "c")], [Label("a", "b:c")])
  {
    var l, m := Label("a:b", "c"), Label("a", "b:c");
    assert ToLower("a:b") == "a:b" && ToLower("a") == "a";
    assert Normalize(l) == "a:b:c" == Normalize(m);
    SkippedCharacterised(l);
    SkippedCharacterised(m);
    LabelSetPush([], l);
    LabelSetPush([], m);
    assert [] + [l] == [l] && [] + [m] == [m];
    assert l in [l] && !Offers([m], ToLower(l.kind), l.name);
  }

  /** Adding a label to the desired ones changes the comparison exactly when it is not skipped and new: a label named
      `x:self-hosted` is never pushed. */
  lemma AddedLabelNoticed(labels: seq<Label>, l: Label)
    ensures LabelSet(labels + [l]) != LabelSet(labels) <==>
      l.name != SELF_HOSTED && !HasSuffix(l.name, SUFFIX) && Normalize(l) !in LabelSet(labels)
  {
    LabelSetPush(labels, l);
    SkippedCharacterised(l);
  }

  // ---------------------------------------------------------------------------------------------
  // The desired labels
  // ---------------------------------------------------------------------------------------------

  function WithType(l: Label): Label { if l.kind == "" then Label(SYSTEM, l.name) else l }

  function WithTypes(ls: seq<Label>): (r: seq<Label>)
    ensures |r| == |ls|
  {
    seq(|ls|, i requires 0 <= i < |ls| => WithType(ls[i]))
  }

  predicate Names(ls: seq<Label>, name: string) { exists l <- ls :: l.name == name }

  function Desired(spec: seq<Label>, scaleSetName: string): seq<Label> {
    var labels := (if Names(spec, SELF_HOSTED) then [] else [Label(SYSTEM, SELF_HOSTED)]) + WithTypes(spec);
    if |labels| == 1 then labels + [Label(SYSTEM, scaleSetName)] else labels
  }

  method BuildLabels(spec: seq<Label>, scaleSetName: string) returns (labels: seq<Label>)
    ensures labels == Desired(spec, scaleSetName)
  {
    labels := [];
    var hasSelfHosted := false;
    var i := 0;
    while i < |spec|
      invariant i <= |spec| && labels == WithTypes(spec[..i])
      invariant hasSelfHosted <==> Names(spec[..i], SELF_HOSTED)
    {
      var l := spec[i];
      assert spec[..i + 1] == spec[..i] + [l];
      if l.kind == "" {
        l := l.(kind := SYSTEM);
      }
      if l.name == SELF_HOSTED {
        hasSelfHosted := true;
      }
      labels := labels + [l];
      i := i + 1;
    }
    assert spec[..i] == spec;
    if !hasSelfHosted {
      labels := [Label(SYSTEM, SELF_HOSTED)] + labels;
    }
    ghost var all := labels;
    if |labels| == 1 && labels[0].name == SELF_HOSTED {
      labels := labels + [Label(SYSTEM, scaleSetName)];
    }
    OnlySelfHosted(spec, all);
  }

  lemma OnlySelfHosted(spec: seq<Label>, labels: seq<Label>)
    requires labels == (if Names(spec, SELF_HOSTED) then [] else [Label(SYSTEM, SELF_HOSTED)]) + WithTypes(spec)
    ensures |labels| >= 1
    ensures |labels| == 1 ==> labels[0].name == SELF_HOSTED
  {
    if Names(spec, SELF_HOSTED) {
      var l :| l in spec && l.name == SELF_HOSTED;
      assert |labels| == 1 ==> spec == [l];
    }
  }

  lemma TypedSpec(spec: seq<Label>)
    ensures forall l :: l in spec ==> WithType(l) in WithTypes(spec)
    ensures forall m :: m in WithTypes(spec) ==> exists l <- spec :: m == WithType(l)
  {
    forall l | l in spec ensures WithType(l) in WithTypes(spec) {
      var i :| 0 <= i < |spec| && spec[i] == l;
      assert WithTypes(spec)[i] == WithType(l);
    }
  }

  lemma DesiredParts(spec: seq<Label>, scaleSetName: string)
    ensures Names(Desired(spec, scaleSetName), SELF_HOSTED)
    ensures forall l :: l in spec ==> WithType(l) in Desired(spec, scaleSetName)
    ensures forall m :: m in Desired(spec, scaleSetName) ==>
      m in WithTypes(spec) || m == Label(SYSTEM, SELF_HOSTED) || m == Label(SYSTEM, scaleSetName)
  {
    TypedSpec(spec);
    if Names(spec, SELF_HOSTED) {
      var l :| l in spec && l.name == SELF_HOSTED;
      assert WithType(l) in Desired(spec, scaleSetName) && WithType(l).name == SELF_HOSTED;
    } else {
      assert Label(SYSTEM, SELF_HOSTED) in Desired(spec, scaleSetName);
    }
  }

  /** What the controller asks for: every label of the spec, with the type "System" where it gives none, the label
      "self-hosted" whatever the spec says, and for a spec that asks for nothing else the name of the scale set. */
  lemma DesiredOffers(spec: seq<Label>, scaleSetName: string)
    ensures exists m <- Desired(spec, scaleSetName) :: m.name == "self-hosted"
    ensures forall l <- spec :: Label(if l.kind == "" then "System" else l.kind, l.name) in Desired(spec, scaleSetName)
    ensures forall m <- Desired(spec, scaleSetName) ::
      m in WithTypes(spec) || m == Label("System", "self-hosted") || m == Label("System", scaleSetName)
    ensures spec == [] || (|spec| == 1 && spec[0].name == "self-hosted") ==>
      Label("System", scaleSetName) in Desired(spec, scaleSetName)
  {
    DesiredParts(spec, scaleSetName);
    if spec == [] || (|spec| == 1 && spec[0].name == "self-hosted") {
      NameAdded(spec, scaleSetName);
    }
  }

  lemma NameAdded(spec: seq<Label>, scaleSetName: string)
    requires spec == [] || (|spec| == 1 && spec[0].name == "self-hosted")
    ensures Label("System", scaleSetName) in Desired(spec, scaleSetName)
  {
    if spec != [] {
      assert spec[0] in spec;
    }
    assert Desired(spec, scaleSetName)[1] == Label("System", scaleSetName);
  }

  /** A label other than "self-hosted" is asked for exactly when the spec names one, or is so short that the name of
      the scale set (if it is another) is added; a spec that repeats "self-hosted" gets none. */
  lemma DesiredSelectable(spec: seq<Label>, scaleSetName: string)
    ensures (exists l <- Desired(spec, scaleSetName) :: l.name != SELF_HOSTED) <==>
      (exists l <- spec :: l.name != SELF_HOSTED) || (|spec| <= 1 && scaleSetName != SELF_HOSTED)
  {
    TypedSpec(spec);
    DesiredParts(spec, scaleSetName);
    var desired := Desired(spec, scaleSetName);
    if l :| l in spec && l.name != SELF_HOSTED {
      assert WithType(l) in desired;
    } else if |spec| <= 1 {
      assert |spec| == 1 ==> spec[0] in spec && spec[0].name == SELF_HOSTED;
      assert Label(SYSTEM, scaleSetName) in desired;
    } else {
      assert spec[0] in spec && spec[0].name == SELF_HOSTED;
      assert desired == WithTypes(spec);
    }
  }

  // ---------------------------------------------------------------------------------------------
  // Convergence
  // ---------------------------------------------------------------------------------------------

  /** `m` is `l` as the server may store it: with the type in lower case, wholly, partly or not at all. */
  predicate StoredAs(l: Label, m: Label) { ToLower(m.kind) == ToLower(l.kind) && m.name == l.name }

  /** What the server may make of labels it is sent: it keeps each of them up to case, in any order and number, and may
      add or drop labels named "self-hosted". */
  ghost predicate ServerMay(sent: seq<Label>, stored: seq<Label>) { Kept(sent, stored) && Kept(stored, sent) }

  predicate Kept(a: seq<Label>, b: seq<Label>) {
    forall l <- a :: l.name == SELF_HOSTED || exists m <- b :: StoredAs(l, m)
  }

  lemma StoredIncluded(a: seq<Label>, b: seq<Label>)
    requires Kept(a, b)
    ensures LabelSet(a) <= LabelSet(b)
  {
    forall s | s in LabelSet(a) ensures s in LabelSet(b) {
      var l :| l in a && !Skipped(l) && Normalize(l) == s;
      SkippedCharacterised(l);
      var m :| m in b && StoredAs(l, m);
      assert Normalize(m) == s && !Skipped(m);
    }
  }

  /** Whatever the server makes of the labels, the comparison does not see it. */
  lemma ServerIsInvisible(sent: seq<Label>, stored: seq<Label>)
    requires ServerMay(sent, stored)
    ensures LabelSet(stored) == LabelSet(sent)
  {
    StoredIncluded(sent, stored);
    StoredIncluded(stored, sent);
  }

  /** Labels read from the server, and how many updates it had applied by then. */
  datatype Copy = Copy(labels: seq<Label>, after: nat)

  datatype State = State(
    server: seq<Label>,
    applied: nat,             // updates the server has applied
    sent: nat,                // updates the controller has sent
    cache: Option<Copy>,
    inHand: Option<Copy>)     // what the reconcile under way compares

  datatype Reply = Refused | Updated(stored: seq<Label>) | ReplyLost(stored: seq<Label>)

  datatype Event =
    | Rewrite(stored: seq<Label>)   // the server touches its labels on its own
    | Expire                        // the cache entry is invalidated or too old
    | Fetch                         // a reconcile reads the scale set: from the cache, or from GitHub into it
    | Compare(reply: Reply)         // ... and sends an update if the labels differ; `reply` is how that goes

  function Init(server: seq<Label>): State { State(server, 0, 0, None, None) }

  ghost function Step(desired: seq<Label>): (State, Event) -> Option<State> {
    (s: State, e: Event) => StepFor(desired, s, e)
  }

  ghost function StepFor(desired: seq<Label>, s: State, e: Event): Option<State> {
    match e
    case Rewrite(stored) => if ServerMay(s.server, stored) then Some(s.(server := stored)) else None
    case Expire => Some(s.(cache := None))
    case Fetch =>
      var copy := if s.cache.Some? then s.cache.value else Copy(s.server, s.applied);
      Some(s.(cache := Some(copy), inHand := Some(copy)))
    case Compare(reply) =>
      if s.inHand.None? then None
      else if LabelSet(s.inHand.value.labels) == LabelSet(desired) then Some(s.(inHand := None))
      else if reply.Refused? then Some(s.(inHand := None, sent := s.sent + 1))
      else if ServerMay(desired, reply.stored)
        then Some(s.(inHand := None, sent := s.sent + 1, applied := s.applied + 1, server := reply.stored))
      else None
  }

  /** What labels mean that were read after `applied` updates: the `first` ones before any update, then the desired. */
  ghost function MeaningAfter(desired: seq<Label>, first: set<string>, applied: nat): set<string> {
    if applied == 0 then first else LabelSet(desired)
  }

  ghost predicate CopyAgrees(desired: seq<Label>, first: set<string>, c: Option<Copy>, applied: nat) {
    c.Some? ==>
      c.value.after <= applied && LabelSet(c.value.labels) == MeaningAfter(desired, first, c.value.after)
  }

  ghost predicate Settled(desired: seq<Label>, first: set<string>, s: State) {
    && LabelSet(s.server) == MeaningAfter(desired, first, s.applied)
    && CopyAgrees(desired, first, s.cache, s.applied) && CopyAgrees(desired, first, s.inHand, s.applied)
    && s.applied <= s.sent
  }

  lemma StepKeepsSettled(desired: seq<Label>, first: set<string>, s: State, e: Event)
    requires Settled(desired, first, s) && StepFor(desired, s, e).Some?
    ensures Settled(desired, first, StepFor(desired, s, e).value)
  {
    match e
    case Rewrite(stored) => ServerIsInvisible(s.server, stored);
    case Compare(reply) =>
      if StepFor(desired, s, e).value.applied > s.applied {
        ServerIsInvisible(desired, reply.stored);
      }
    case _ =>
  }

  lemma RunKeepsSettled(desired: seq<Label>, server: seq<Label>, es: seq<Event>)
    ensures var r := Exec(Step(desired), Init(server), es); r.Some? ==> Settled(desired, LabelSet(server), r.value)
  {
    var inv := (s: State) => Settled(desired, LabelSet(server), s);
    forall s, e | inv(s) && Step(desired)(s, e).Some? ensures inv(Step(desired)(s, e).value) {
      StepKeepsSettled(desired, LabelSet(server), s, e);
    }
    Invariant(Step(desired), inv, Init(server), es);
  }

  /** A comparison of labels that were read before the first applied update. */
  ghost predicate ComparesOld(s: State, e: Event) { e.Compare? && s.inHand.Some? && s.inHand.value.after == 0 }

  /** Convergence: after the first applied update the server has the desired labels for good, whatever it does to them,
      and in every reachable state an update is sent if and only if labels read before that update are compared and the
      first labels were not the desired ones. */
  lemma UpdatesComeToRest(desired: seq<Label>, server: seq<Label>, es: seq<Event>, e: Event)
    requires var r := Exec(Step(desired), Init(server), es); r.Some? && StepFor(desired, r.value, e).Some?
    ensures var s := Exec(Step(desired), Init(server), es).value;
      var t := StepFor(desired, s, e).value;
      && LabelSet(s.server) == MeaningAfter(desired, LabelSet(server), s.applied)
      && (t.sent > s.sent <==> ComparesOld(s, e) && LabelSet(server) != LabelSet(desired))
  {
    RunKeepsSettled(desired, server, es);
    SendsWhenOld(desired, LabelSet(server), Exec(Step(desired), Init(server), es).value, e);
  }

  lemma SendsWhenOld(desired: seq<Label>, first: set<string>, s: State, e: Event)
    requires Settled(desired, first, s) && StepFor(desired, s, e).Some?
    ensures StepFor(desired, s, e).value.sent > s.sent <==> ComparesOld(s, e) && first != LabelSet(desired)
  {}

  /** An update that the server applies although it has applied one before. */
  ghost predicate Repeats(desired: seq<Label>, first: set<string>, s: State, e: Event) {
    ComparesOld(s, e) && !e.reply.Refused? && s.applied > 0 && first != LabelSet(desired)
  }

  /** Over every run, one applied update is enough if and only if no labels from before it are compared after it and
      lead to an update that is not refused. */
  lemma OneUpdateUnlessStale(desired: seq<Label>, server: seq<Label>, es: seq<Event>)
    requires Exec(Step(desired), Init(server), es).Some?
    ensures Exec(Step(desired), Init(server), es).value.applied <= 1 <==>
      Never(Step(desired), (s: State, e: Event) => Repeats(desired, LabelSet(server), s, e), Init(server), es)
  {
    var first := LabelSet(server);
    var inv := (s: State) => Settled(desired, first, s);
    var good := (s: State) => s.applied <= 1;
    var bad := (s: State, e: Event) => Repeats(desired, LabelSet(server), s, e);
    forall s, e | inv(s) && Step(desired)(s, e).Some? ensures inv(Step(desired)(s, e).value) {
      StepKeepsSettled(desired, first, s, e);
    }
    forall s, e | inv(s) && Step(desired)(s, e).Some?
      ensures good(Step(desired)(s, e).value) <==> good(s) && !bad(s, e)
    {
      StepRepeats(desired, first, s, e);
    }
    GoodAtEnd(Step(desired), inv, good, bad, Init(server), es);
  }

  lemma StepRepeats(desired: seq<Label>, first: set<string>, s: State, e: Event)
    requires Settled(desired, first, s) && StepFor(desired, s, e).Some?
    ensures StepFor(desired, s, e).value.applied <= 1 <==> s.applied <= 1 && !Repeats(desired, first, s, e)
  {}

  /** The copy that makes a second update happen is the cached one: nothing invalidates it after the first. */
  lemma StaleCacheRepeatsUpdate(desired: seq<Label>, server: seq<Label>) returns (es: seq<Event>, s: State)
    requires LabelSet(server) != LabelSet(desired)
    ensures Exec(Step(desired), Init(server), es) == Some(s) && s.applied == 2 && s.sent == 2
  {
    assert ServerMay(desired, desired) by {
      assert forall l :: StoredAs(l, l);
    }
    var update := Compare(Updated(desired));
    es, s := Extend(Step(desired), Init(server), [], Init(server), Fetch);
    es, s := Extend(Step(desired), Init(server), es, s, update);
    es, s := Extend(Step(desired), Init(server), es, s, Fetch);
    es, s := Extend(Step(desired), Init(server), es, s, update);
  }

  /** Runs in which every comparison is made on labels fetched since the last applied update. */
  ghost function FreshStep(desired: seq<Label>): (State, Event) -> Option<State> {
    (s: State, e: Event) =>
      if e.Compare? && s.inHand.Some? && s.inHand.value.after != s.applied then None else StepFor(desired, s, e)
  }

  /** With fresh copies one applied update is enough for good. */
  lemma FreshRunUpdatesOnce(desired: seq<Label>, server: seq<Label>, es: seq<Event>)
    ensures var r := Exec(FreshStep(desired), Init(server), es);
      r.Some? ==> r.value.applied <= if LabelSet(server) == LabelSet(desired) then 0 else 1
  {
    var bound := if LabelSet(server) == LabelSet(desired) then 0 else 1;
    var first := LabelSet(server);
    var inv := (s: State) => Settled(desired, first, s) && AtMost(desired, s, bound);
    forall s, e | inv(s) && FreshStep(desired)(s, e).Some? ensures inv(FreshStep(desired)(s, e).value) {
      StepKeepsSettled(desired, first, s, e);
      FreshStepKeepsBound(desired, first, s, e, bound);
    }
    Invariant(FreshStep(desired), inv, Init(server), es);
  }

  ghost predicate AgreesUnder(desired: seq<Label>, c: Option<Copy>, bound: int) {
    c.Some? && bound == 0 ==> LabelSet(c.value.labels) == LabelSet(desired)
  }

  ghost predicate AtMost(desired: seq<Label>, s: State, bound: int) {
    && s.applied <= bound && (bound == 0 ==> LabelSet(s.server) == LabelSet(desired))
    && AgreesUnder(desired, s.cache, bound) && AgreesUnder(desired, s.inHand, bound)
  }

  lemma FreshStepKeepsBound(desired: seq<Label>, first: set<string>, s: State, e: Event, bound: int)
    requires 0 <= bound <= 1 && Settled(desired, first, s) && AtMost(desired, s, bound)
    requires FreshStep(desired)(s, e).Some?
    ensures AtMost(desired, FreshStep(desired)(s, e).value, bound)
  {
    match e
    case Rewrite(stored) => ServerIsInvisible(s.server, stored);
    case _ =>
  }

  /** A reconcile of the labels, as its steps. */
  method MaybeUpdateScaleSetLabels(spec: seq<Label>, scaleSetName: string, current: seq<Label>, reply: Reply)
      returns (result: seq<Label>, sent: bool, err: bool)
    requires reply.Updated? ==> ServerMay(Desired(spec, scaleSetName), reply.stored)
    ensures sent <==> LabelSet(current) != LabelSet(Desired(spec, scaleSetName))
    ensures err <==> sent && !reply.Updated?
    ensures !err ==> LabelSet(result) == LabelSet(Desired(spec, scaleSetName))
    ensures result == if sent && !err then reply.stored else current
  {
    var desired := BuildLabels(spec, scaleSetName);
    var equal := LabelsEqual(current, desired);
    if equal {
      return current, false, false;
    }
    if !reply.Updated? {
      return current, true, true;
    }
    ServerIsInvisible(desired, reply.stored);
    return reply.stored, true, false;
  }
}
