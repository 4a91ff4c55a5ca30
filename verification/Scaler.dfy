/** The scaler's own loops and decisions, as they run when nothing else touches the fleet meanwhile.

    Every handler that changes the fleet leads from one view of it to the next by a run of the `Fleet` machine, and such
    runs compose (`ExplainedComposes`), so what is proved there of all runs holds of every sequence of these calls.
*/
module Scaler {
  import opened Machine
  import opened Fleet
  import Batch

  /** A pod as a list call returned it. */
  datatype Item = Item(name: string, pod: Pod)

  // ---------------------------------------------------------------------------------------------
  // Lists of pods
  // ---------------------------------------------------------------------------------------------

  /** The elements that satisfy `p`, in order. */
  function Keep<T>(items: seq<T>, p: T -> bool): seq<T> {
    if items == [] then []
    else Keep(items[..|items| - 1], p) + if p(items[|items| - 1]) then [items[|items| - 1]] else []
  }

  function Names(items: seq<Item>): set<string> {
    if items == [] then {} else Names(items[..|items| - 1]) + {items[|items| - 1].name}
  }

  ghost predicate Distinct(items: seq<Item>) {
    forall i, j :: 0 <= i < j < |items| ==> items[i].name != items[j].name
  }

  /** `items` is a list of the pods, in some order. */
  ghost predicate Lists(items: seq<Item>, pods: map<string, Pod>) {
    && Distinct(items) && Names(items) == pods.Keys
    && forall i :: 0 <= i < |items| ==> items[i].name in pods && items[i].pod == pods[items[i].name]
  }

  lemma {:induction false} NamesIn(items: seq<Item>, name: string)
    ensures name in Names(items) <==> exists i :: 0 <= i < |items| && items[i].name == name
  {
    if items != [] {
      NamesIn(items[..|items| - 1], name);
      if i :| 0 <= i < |items| && items[i].name == name {
        assert i < |items| - 1 ==> items[..|items| - 1][i].name == name;
      }
    }
  }

  lemma {:induction false} DistinctSize(items: seq<Item>)
    requires Distinct(items)
    ensures |Names(items)| == |items|
  {
    if items != [] {
      DistinctSize(items[..|items| - 1]);
      NamesIn(items[..|items| - 1], items[|items| - 1].name);
    }
  }

  lemma {:induction false} KeepIn<T>(items: seq<T>, p: T -> bool, x: T)
    ensures x in Keep(items, p) <==> x in items && p(x)
  {
    if items != [] {
      KeepIn(items[..|items| - 1], p, x);
      assert items == items[..|items| - 1] + [items[|items| - 1]];
    }
  }

  lemma {:induction false} KeepDistinct(items: seq<Item>, p: Item -> bool)
    requires Distinct(items)
    ensures Distinct(Keep(items, p))
  {
    if items != [] {
      var front, last := items[..|items| - 1], items[|items| - 1];
      KeepDistinct(front, p);
      forall x | x in Keep(front, p) ensures x.name != last.name { KeepIn(front, p, x); }
    }
  }

  /** A filtered list of all pods has exactly the pods that satisfy the condition, each once. */
  lemma KeepSelects(items: seq<Item>, pods: map<string, Pod>, p: Item -> bool, names: set<string>)
    requires Lists(items, pods)
    requires forall name :: name in names <==> name in pods && p(Item(name, pods[name]))
    ensures Distinct(Keep(items, p)) && Names(Keep(items, p)) == names && |Keep(items, p)| == |names|
    ensures forall x <- Keep(items, p) :: x.name in pods && x.pod == pods[x.name] && p(x)
  {
    KeepDistinct(items, p);
    DistinctSize(Keep(items, p));
    forall x | x in Keep(items, p) ensures x.name in pods && x.pod == pods[x.name] && p(x) { KeepIn(items, p, x); }
    forall name ensures name in Names(Keep(items, p)) <==> name in names {
      NamesIn(Keep(items, p), name);
      NamesIn(items, name);
      if name in names {
        var x := Item(name, pods[name]);
        assert x in items;
        KeepIn(items, p, x);
      }
      if i :| 0 <= i < |Keep(items, p)| && Keep(items, p)[i].name == name {
        assert Keep(items, p)[i] in Keep(items, p);
      }
    }
  }

  lemma {:induction false} KeepShorter<T>(items: seq<T>, p: T -> bool)
    ensures |Keep(items, p)| <= |items|
  {
    if items != [] {
      KeepShorter(items[..|items| - 1], p);
    }
  }

  function ActiveItem(now: int): Item -> bool { (x: Item) => IsActive(x.pod, now) }
  function CleanupItem(now: int): Item -> bool { (x: Item) => NeedsCleanup(x.pod, now) }
  function IdleItem(): Item -> bool { (x: Item) => x.pod.state.Idle? }

  method ClassifyRunnerPods(items: seq<Item>, now: int) returns (activePods: seq<Item>, podsToCleanup: seq<Item>)
    ensures activePods == Keep(items, ActiveItem(now))
    ensures podsToCleanup == Keep(items, CleanupItem(now))
    ensures forall x :: x in activePods || x in podsToCleanup ==> x in items && !x.pod.terminating
    ensures forall x <- items :: !x.pod.terminating && x.pod.phase in {Succeeded, Failed} ==>
      x in podsToCleanup && x !in activePods
    ensures forall x <- items :: !x.pod.terminating && x.pod.phase in {Running, Unknown} ==>
      x in activePods && x !in podsToCleanup
    ensures forall x <- items :: !x.pod.terminating && x.pod.phase == Pending ==>
      if now - x.pod.createdAt <= 300 then x in activePods && x !in podsToCleanup
      else x in podsToCleanup && x !in activePods
  {
    activePods, podsToCleanup := [], [];
    for i := 0 to |items|
      invariant activePods == Keep(items[..i], ActiveItem(now))
      invariant podsToCleanup == Keep(items[..i], CleanupItem(now))
    {
      assert items[..i + 1][..i] == items[..i];
      var pod := items[i].pod;
      if pod.terminating {
        continue;
      }
      if pod.phase == Succeeded || pod.phase == Failed {
        podsToCleanup := podsToCleanup + [items[i]];
        continue;
      }
      if pod.phase == Pending {
        if now - pod.createdAt > PENDING_THRESHOLD {
          podsToCleanup := podsToCleanup + [items[i]];
          continue;
        }
      }
      activePods := activePods + [items[i]];
    }
    assert items[..|items|] == items;
    forall x ensures x in activePods <==> x in items && IsActive(x.pod, now) { KeepIn(items, ActiveItem(now), x); }
    forall x ensures x in podsToCleanup <==> x in items && NeedsCleanup(x.pod, now) {
      KeepIn(items, CleanupItem(now), x);
    }
  }

  method FilterIdlePods(pods: seq<Item>) returns (idlePods: seq<Item>)
    ensures idlePods == Keep(pods, IdleItem())
    ensures forall x :: x in idlePods <==> x in pods && x.pod.state == Idle
  {
    idlePods := [];
    for i := 0 to |pods|
      invariant idlePods == Keep(pods[..i], IdleItem())
    {
      assert pods[..i + 1][..i] == pods[..i];
      if pods[i].pod.state == Idle {
        idlePods := idlePods + [pods[i]];
      }
    }
    assert pods[..|pods|] == pods;
    forall x ensures x in idlePods <==> x in pods && x.pod.state == Idle { KeepIn(pods, IdleItem(), x); }
  }

  // ---------------------------------------------------------------------------------------------
  // Where repeated calls lead
  // ---------------------------------------------------------------------------------------------

  /** The number of runners a call aims for: the target, but never fewer than the active pods that are not idle. */
  function Goal(current: nat, idle: nat, target: int): int {
    if target < current then Max(target, current - idle) else target
  }

  predicate Between(a: int, x: int, b: int) { a <= x <= b || b <= x <= a }

  datatype Counts = Counts(current: nat, idle: nat)

  /** What a call in which no worker fails does to the numbers of active and of idle active pods. */
  ghost predicate QuietCall(c: Counts, d: Counts, target: int) {
    && Between(c.current, d.current, Goal(c.current, c.idle, target))
    && (d.current == c.current ==> c.current == Goal(c.current, c.idle, target))
    && d.current - c.current == d.idle - c.idle
  }

  /** A call leaves the goal where it was. */
  lemma GoalIsStable(c: Counts, d: Counts, target: int)
    requires c.idle <= c.current && QuietCall(c, d, target)
    ensures d.idle <= d.current && Goal(d.current, d.idle, target) == Goal(c.current, c.idle, target)
  {}

  function Distance(c: Counts, target: int): nat {
    var goal := Goal(c.current, c.idle, target);
    if c.current <= goal then goal - c.current else c.current - goal
  }

  /** Repeating a call whose workers do not fail reaches the goal within as many calls as runners are missing or in
      excess, although a single call may stop after one pod; once there it stays. */
  lemma {:induction false} CallsConverge(cs: seq<Counts>, target: int)
    requires |cs| > 0 && cs[0].idle <= cs[0].current
    requires forall i :: 0 <= i < |cs| - 1 ==> QuietCall(cs[i], cs[i + 1], target)
    ensures cs[|cs| - 1].idle <= cs[|cs| - 1].current
    ensures Goal(cs[|cs| - 1].current, cs[|cs| - 1].idle, target) == Goal(cs[0].current, cs[0].idle, target)
    ensures Distance(cs[|cs| - 1], target) <= Max(0, Distance(cs[0], target) - (|cs| - 1))
    ensures |cs| > Distance(cs[0], target) ==> cs[|cs| - 1].current == Goal(cs[0].current, cs[0].idle, target)
  {
    if |cs| > 1 {
      var front := cs[..|cs| - 1];
      assert forall i :: 0 <= i < |front| - 1 ==> QuietCall(front[i], front[i + 1], target);
      CallsConverge(front, target);
      assert QuietCall(cs[|cs| - 2], cs[|cs| - 2 + 1], target);
      GoalIsStable(cs[|cs| - 2], cs[|cs| - 1], target);
    }
  }

  // ---------------------------------------------------------------------------------------------
  // Batches of creations and deletions as runs of the fleet machine
  // ---------------------------------------------------------------------------------------------

  /** The pods after the pods `added` were created. */
  ghost function Created(pods: map<string, Pod>, added: set<string>, now: int): map<string, Pod> {
    pods + map name <- added :: Pod(Pending, now, Idle, name, false)
  }

  /** The pods after the pods `hit` were deleted: they terminate, but are still listed. */
  ghost function Terminated(pods: map<string, Pod>, hit: set<string>): map<string, Pod> {
    map name <- pods :: if name in hit then pods[name].(terminating := true) else pods[name]
  }

  lemma {:induction false} CreateRun(s0: State, es0: seq<Event>, s: State, added: set<string>)
      returns (es: seq<Event>, t: State)
    requires Exec(Step, s0, es0) == Some(s) && s.call.Some? && |added| <= s.call.value && added !! s.used
    ensures Exec(Step, s0, es) == Some(t) && t.call.Some?
    ensures t == s.(pods := Created(s.pods, added, s.now), used := s.used + added, call := t.call)
    decreases added
  {
    if added == {} {
      es, t := es0, s;
      assert s.pods == Created(s.pods, added, s.now) && s.used + added == s.used;
    } else {
      var name :| name in added;
      var es1, t1 := Extend(Step, s0, es0, s, CreateOne(name, name));
      assert t1 == s.(pods := s.pods[name := Pod(Pending, s.now, Idle, name, false)], used := s.used + {name},
                      call := Some(s.call.value - 1));
      es, t := CreateRun(s0, es1, t1, added - {name});
      CreatedStep(s.pods, added, name, s.now);
      SplitUnion(s.used, added, name);
    }
  }

  lemma SplitUnion<T>(a: set<T>, b: set<T>, x: T)
    requires x in b
    ensures a + b == a + {x} + (b - {x})
  {}

  lemma CreatedStep(pods: map<string, Pod>, added: set<string>, name: string, now: int)
    requires name in added
    ensures Created(pods, added, now) ==
      Created(pods[name := Pod(Pending, now, Idle, name, false)], added - {name}, now)
  {}

  lemma {:induction false} DeleteRun(s0: State, es0: seq<Event>, s: State, reason: Reason, listed: map<string, Pod>,
                                     hit: set<string>)
      returns (es: seq<Event>, t: State)
    requires Exec(Step, s0, es0) == Some(s)
    requires forall name <- hit :: name in listed && Task(reason, name, listed[name], s.now) in s.tasks
    ensures Exec(Step, s0, es) == Some(t) && t == s.(pods := Terminated(s.pods, hit), tasks := t.tasks)
    decreases hit
  {
    es, t := es0, s;
    if name :| name in hit {
      var task := Task(reason, name, listed[name], s.now);
      es, t := Extend(Step, s0, es, t, RunTask(task));
      es, t := DeleteRun(s0, es, t, reason, listed, hit - {name});
      assert t.pods == Terminated(s.pods, hit);
    } else {
      assert t.pods == Terminated(s.pods, hit);
    }
  }

  /** `pods` and `used` are where some run of the fleet machine leads that starts in `s`; apart from tasks nothing else
      has changed. */
  ghost predicate Explained(s: State, pods: map<string, Pod>, used: set<string>) {
    exists es :: Leads(s, es, s.(pods := pods, used := used))
  }

  ghost predicate Leads(s: State, es: seq<Event>, t: State) {
    var r := Exec(Step, s, es); r.Some? && r.value.(tasks := t.tasks) == t
  }

  predicate MoreTasks(s: State, t: State) { s.tasks <= t.tasks && t.(tasks := s.tasks) == s }

  lemma StepMoreTasks(s: State, t: State, e: Event)
    requires MoreTasks(s, t) && Step(s, e).Some?
    ensures Step(t, e).Some? && MoreTasks(Step(s, e).value, Step(t, e).value)
  {}

  lemma {:induction false} ExecMoreTasks(s: State, t: State, es: seq<Event>)
    requires MoreTasks(s, t) && Exec(Step, s, es).Some?
    ensures Exec(Step, t, es).Some? && MoreTasks(Exec(Step, s, es).value, Exec(Step, t, es).value)
  {
    if es != [] {
      ExecMoreTasks(s, t, es[..|es| - 1]);
      StepMoreTasks(Exec(Step, s, es[..|es| - 1]).value, Exec(Step, t, es[..|es| - 1]).value, es[|es| - 1]);
    }
  }

  /** Calls one after the other: the run of the second continues the run of the first. */
  lemma ExplainedComposes(s: State, pods1: map<string, Pod>, used1: set<string>, pods2: map<string, Pod>,
                          used2: set<string>)
    requires s.tasks == {} && Explained(s, pods1, used1) && Explained(s.(pods := pods1, used := used1), pods2, used2)
    ensures Explained(s, pods2, used2)
  {
    var s1 := s.(pods := pods1, used := used1);
    var s2 := s.(pods := pods2, used := used2);
    var es1 :| Leads(s, es1, s1);
    var es2 :| Leads(s1, es2, s1.(pods := pods2, used := used2));
    var r1 := Exec(Step, s, es1).value;
    ExecMoreTasks(s1, r1, es2);
    ExecConcat(Step, s, es1, r1, es2);
    assert Leads(s, es1 + es2, s2);
  }

  /** Calls alone, in whatever order and number, never take the fleet beyond the limit it started with. */
  lemma ExplainedWithinLimit(s: State, pods: map<string, Pod>, used: set<string>)
    requires Fresh(s) && Explained(s, pods, used)
    ensures |Active(pods, s.now)| <= Limit(s)
  {
    var es :| Leads(s, es, s.(pods := pods, used := used));
    FleetBound(s, es);
    var r := Exec(Step, s, es).value;
    assert ActivePods(r) == Active(pods, s.now) && ActivePods(r) - r.back == ActivePods(r);
  }

  lemma NothingExplained(s: State)
    ensures Explained(s, s.pods, s.used)
  {
    assert Leads(s, [], s.(pods := s.pods, used := s.used));
  }

  lemma StepExplained(s: State, e: Event, pods: map<string, Pod>)
    requires Step(s, e) == Some(s.(pods := pods))
    ensures Explained(s, pods, s.used)
  {
    var es, t := Extend(Step, s, [], s, e);
    assert Leads(s, es, s.(pods := pods, used := s.used));
  }

  lemma RolloutExplained(s: State, hit: set<string>)
    requires forall name <- hit :: name in s.pods && s.pods[name].state.Idle?
    ensures Explained(s, Terminated(s.pods, hit), s.used)
  {
    var es, t := Extend(Step, s, [], s, ListForRollout);
    es, t := DeleteRun(s, es, t, Rollout, s.pods, hit);
    assert Leads(s, es, s.(pods := Terminated(s.pods, hit), used := s.used));
  }

  lemma ScaleUpExplained(s: State, count: int, added: set<string>)
    requires s.call.None? && s.pods.Keys <= s.used && added !! s.used
    requires |Active(s.pods, s.now)| + |added| <= Target(s.minRunners, s.maxRunners, count)
    ensures Explained(s, Created(s.pods, added, s.now), s.used + added)
  {
    var es, t := Extend(Step, s, [], s, ListForScale(count, {}));
    es, t := CreateRun(s, es, t, added);
    es, t := Extend(Step, s, es, t, EndCall);
    assert Leads(s, es, s.(pods := Created(s.pods, added, s.now), used := s.used + added));
  }

  lemma ScaleDownExplained(s: State, count: int, victims: set<string>, hit: set<string>)
    requires s.call.None? && hit <= victims <= IdleActive(s.pods, s.now)
    requires Target(s.minRunners, s.maxRunners, count) <= |Active(s.pods, s.now)|
    requires |victims| ==
      Surplus(|Active(s.pods, s.now)|, Target(s.minRunners, s.maxRunners, count), |IdleActive(s.pods, s.now)|)
    ensures Explained(s, Terminated(s.pods, hit), s.used)
  {
    var es, t := Extend(Step, s, [], s, ListForScale(count, victims));
    es, t := DeleteRun(s, es, t, ScaleDown, s.pods, hit);
    es, t := Extend(Step, s, es, t, EndCall);
    assert Leads(s, es, s.(pods := Terminated(s.pods, hit), used := s.used));
  }

  /** The idle pods among the active ones of a list are the idle active pods. */
  lemma IdleSelects(items: seq<Item>, pods: map<string, Pod>, now: int)
    requires Lists(items, pods)
    ensures var idle := Keep(Keep(items, ActiveItem(now)), IdleItem());
      Names(idle) == IdleActive(pods, now) && |idle| == |IdleActive(pods, now)|
  {
    var active := Keep(items, ActiveItem(now));
    KeepSelects(items, pods, ActiveItem(now), Active(pods, now));
    var activePods := map name <- Active(pods, now) :: pods[name];
    forall i | 0 <= i < |active| ensures active[i].name in activePods && active[i].pod == activePods[active[i].name] {
      assert active[i] in active;
      NamesIn(active, active[i].name);
    }
    KeepSelects(active, activePods, IdleItem(), IdleActive(pods, now));
  }

  lemma CreatedActive(pods: map<string, Pod>, added: set<string>, now: int)
    requires added !! pods.Keys
    ensures |Active(Created(pods, added, now), now)| == |Active(pods, now)| + |added|
  {
    assert Active(Created(pods, added, now), now) == Active(pods, now) + added;
    assert Active(pods, now) !! added;
  }

  lemma CreatedIdle(pods: map<string, Pod>, added: set<string>, now: int)
    requires added !! pods.Keys
    ensures |IdleActive(Created(pods, added, now), now)| == |IdleActive(pods, now)| + |added|
  {
    assert IdleActive(Created(pods, added, now), now) == IdleActive(pods, now) + added;
    assert IdleActive(pods, now) !! added;
  }

  lemma TerminatedCounts(pods: map<string, Pod>, hit: set<string>, now: int)
    requires hit <= IdleActive(pods, now)
    ensures |Active(Terminated(pods, hit), now)| == |Active(pods, now)| - |hit|
    ensures |IdleActive(Terminated(pods, hit), now)| == |IdleActive(pods, now)| - |hit|
  {
    assert Active(Terminated(pods, hit), now) == Active(pods, now) - hit;
    assert IdleActive(Terminated(pods, hit), now) == IdleActive(pods, now) - hit;
  }

  lemma IdleWithinActive(pods: map<string, Pod>, now: int)
    ensures IdleActive(pods, now) <= Active(pods, now) && |IdleActive(pods, now)| <= |Active(pods, now)|
  {
    SubsetSize(IdleActive(pods, now), Active(pods, now));
  }

  function CountsOf(pods: map<string, Pod>, now: int): Counts {
    Counts(|Active(pods, now)|, |IdleActive(pods, now)|)
  }

  /** What one call on the pods of `s` reports and does; `quiet`: none of its workers failed.  The reported count lies
      between the current count and the goal and equals the goal exactly when there is no error, the true count lies
      between the reported one and the goal, and what happened is a run of the fleet machine.  In a quiet call the
      reported count is the true one and it moves unless the goal was met. */
  ghost predicate CallOutcome(s: State, count: int, pods: map<string, Pod>, used: set<string>, result: int, err: bool,
                              quiet: bool)
  {
    var target := Target(s.minRunners, s.maxRunners, count);
    var c, d := CountsOf(s.pods, s.now), CountsOf(pods, s.now);
    var goal := Goal(c.current, c.idle, target);
    && Explained(s, pods, used)
    && Between(c.current, result, goal) && (err <==> result != goal)
    && Between(result, d.current, goal)
    && (quiet ==> QuietCall(c, d, target) && result == d.current)
  }

  lemma NoChangeOutcome(s: State, count: int)
    requires s.call.None? && Target(s.minRunners, s.maxRunners, count) == |Active(s.pods, s.now)|
    ensures CallOutcome(s, count, s.pods, s.used, |Active(s.pods, s.now)|, false, true)
  {
    NothingExplained(s);
    IdleWithinActive(s.pods, s.now);
  }

  lemma ScaleUpOutcome(s: State, count: int, added: set<string>, result: int, err: bool, quiet: bool)
    requires s.call.None? && s.pods.Keys <= s.used && added !! s.used
    requires var current, target := |Active(s.pods, s.now)|, Target(s.minRunners, s.maxRunners, count);
      && current < target && current <= result <= current + |added| <= target
      && (err <==> result != target) && (quiet ==> current < result == current + |added|)
    ensures CallOutcome(s, count, Created(s.pods, added, s.now), s.used + added, result, err, quiet)
  {
    ScaleUpExplained(s, count, added);
    CreatedActive(s.pods, added, s.now);
    CreatedIdle(s.pods, added, s.now);
  }

  lemma ScaleDownOutcome(s: State, count: int, victims: set<string>, hit: set<string>, result: int, err: bool,
                         quiet: bool)
    requires s.call.None? && hit <= victims <= IdleActive(s.pods, s.now)
    requires var c, target := CountsOf(s.pods, s.now), Target(s.minRunners, s.maxRunners, count);
      && target < c.current && |victims| == Surplus(c.current, target, c.idle)
      && Goal(c.current, c.idle, target) <= c.current - |hit| <= result <= c.current
      && (err <==> result != Goal(c.current, c.idle, target))
      && (quiet ==> result == c.current - |hit| && (c.idle > 0 ==> hit != {}))
    ensures CallOutcome(s, count, Terminated(s.pods, hit), s.used, result, err, quiet)
  {
    ScaleDownExplained(s, count, victims, hit);
    TerminatedCounts(s.pods, hit, s.now);
  }

  // ---------------------------------------------------------------------------------------------
  // The object
  // ---------------------------------------------------------------------------------------------

  lemma CreatedOneMore(before: map<string, Pod>, added: set<string>, name: string, now: int)
    ensures Created(before, added, now)[name := Pod(Pending, now, Idle, name, false)] ==
      Created(before, added + {name}, now)
  {}

  /** The names a batch may still give to its pods, from number `from` on: never used, all different.  They stand for
      the random suffixes. */
  ghost predicate Unused(names: nat -> string, from: nat, used: set<string>) {
    && (forall i: nat :: i >= from ==> names(i) !in used)
    && (forall i: nat, j: nat :: i != j ==> names(i) != names(j))
  }

  function Trues(ok: seq<bool>): nat {
    if ok == [] then 0 else Trues(ok[..|ok| - 1]) + if ok[|ok| - 1] then 1 else 0
  }

  lemma {:induction false} TruesIsTally(ws: seq<Batch.Worker>, ok: seq<bool>)
    requires |ok| == |ws| && forall i :: 0 <= i < |ws| ==> ok[i] == Batch.Succeeded(ws[i])
    ensures Trues(ok) == Batch.Tally(ws, Batch.Succeeded)
  {
    if ws != [] {
      TruesIsTally(ws[..|ws| - 1], ok[..|ok| - 1]);
    }
  }

  /** Runs the batch executor on `count` items and says which workers reported success. */
  method RunBatch(count: int) returns (ok: seq<bool>, succeeded: nat)
    ensures |ok| <= Max(count, 0) && succeeded == Trues(ok) <= |ok|
    ensures count > 0 ==> |ok| > 0
  {
    var batch := new Batch.Executor(count);
    succeeded := batch.Run();
    Batch.ReturnedOutcome(count, batch.events);
    ok := seq(|batch.workers|, i requires 0 <= i < |batch.workers| reads batch => Batch.Succeeded(batch.workers[i]));
    TruesIsTally(batch.workers, ok);
  }

  /** How a delete call goes: answered with success or not-found, refused, or carried out without an answer. */
  datatype Reply = Answered | Refused | AnswerLost

  class KubernetesScaler {
    const minRunners: int
    const maxRunners: int
    var pods: map<string, Pod>          // the cluster
    var now: int
    ghost var used: set<string>

    ghost function View(): State
      reads this
    {
      State(minRunners, maxRunners, pods, now, None, {}, used, {})
    }

    constructor (minRunners: int, maxRunners: int, pods: map<string, Pod>, now: int)
      ensures View() == State(minRunners, maxRunners, pods, now, None, {}, pods.Keys, {})
    {
      this.minRunners, this.maxRunners, this.pods, this.now := minRunners, maxRunners, pods, now;
      this.used := pods.Keys;
    }

    /** The list call: all pods, in any order. */
    method List() returns (items: seq<Item>)
      ensures Lists(items, pods)
    {
      items := [];
      var todo := pods.Keys;
      while todo != {}
        invariant todo <= pods.Keys && Names(items) == pods.Keys - todo && Distinct(items)
        invariant forall i :: 0 <= i < |items| ==> items[i].name in pods && items[i].pod == pods[items[i].name]
        decreases todo
      {
        var name :| name in todo;
        NamesIn(items, name);
        assert (items + [Item(name, pods[name])])[..|items|] == items;
        items := items + [Item(name, pods[name])];
        todo := todo - {name};
      }
    }

    /** `deleteRunnerPod`: a pod that is still there starts to terminate, one that is gone is no error; a call that
        reports any other error may still have taken effect. */
    method DeleteRunnerPod(name: string, reply: Reply) returns (err: bool)
      modifies this`pods
      ensures err <==> !reply.Answered?
      ensures pods == if reply.Refused? then old(pods) else Terminated(old(pods), {name})
      ensures name !in old(pods) ==> pods == old(pods)
    {
      var notFound := name !in pods;
      if !reply.Refused? && !notFound {
        pods := pods[name := pods[name].(terminating := true)];
      }
      return !reply.Answered?;
    }

    /** A batch that began with `before` and `usedBefore` has created `added`, using names below `next`. */
    ghost predicate Creating(before: map<string, Pod>, usedBefore: set<string>, added: set<string>,
                             names: nat -> string, next: nat)
      reads this
    {
      && pods == Created(before, added, now) && used == usedBefore + added && usedBefore !! added
      && Unused(names, next, used)
    }

    /** The create call of the API inside a batch. */
    method CreateRunnerPod(names: nat -> string, i: nat, ghost before: map<string, Pod>, ghost usedBefore: set<string>,
                           ghost added: set<string>)
        returns (ghost added': set<string>)
      requires Creating(before, usedBefore, added, names, i)
      modifies this`pods, this`used
      ensures Creating(before, usedBefore, added', names, i + 1)
      ensures |added'| == |added| + 1
    {
      var name := names(i);
      CreatedOneMore(before, added, name, now);
      pods := pods[name := Pod(Pending, now, Idle, name, false)];
      used := used + {name};
      added' := added + {name};
    }

    /** Every worker that reports success created a pod; one that reports an error may have. */
    method BatchCreateRunnerPods(count: nat, names: nat -> string)
        returns (created: nat, ghost failures: nat, ghost added: set<string>)
      requires Unused(names, 0, used)
      modifies this`pods, this`used
      ensures pods == Created(old(pods), added, now) && used == old(used) + added && old(used) !! added
      ensures created <= |added| <= created + failures <= count
      ensures count > 0 ==> created + failures > 0
    {
      var ok;
      ok, created := RunBatch(count);
      failures := |ok| - created;
      added := {};
      for i := 0 to |ok|
        invariant Creating(old(pods), old(used), added, names, i)
        invariant Trues(ok[..i]) <= |added| <= i
      {
        assert ok[..i + 1][..i] == ok[..i];
        var unreported := *;
        if ok[i] || unreported {
          added := CreateRunnerPod(names, i, old(pods), old(used), added);
        }
      }
      assert ok[..|ok|] == ok;
    }

    /** Every worker that reports success deleted its pod; one that reports an error may have. */
    method BatchDeleteRunnerPods(victims: seq<Item>)
        returns (deleted: nat, ghost failures: nat, ghost hit: set<string>)
      requires Distinct(victims)
      modifies this`pods
      ensures pods == Terminated(old(pods), hit) && hit <= Names(victims)
      ensures deleted <= |hit| <= deleted + failures <= |victims|
      ensures |victims| > 0 ==> deleted + failures > 0
    {
      var ok;
      ok, deleted := RunBatch(|victims|);
      failures := |ok| - deleted;
      hit := {};
      for i := 0 to |ok|
        invariant pods == Terminated(old(pods), hit) && hit <= Names(victims[..i])
        invariant Trues(ok[..i]) <= |hit| <= i
      {
        assert ok[..i + 1][..i] == ok[..i] && victims[..i + 1][..i] == victims[..i];
        NamesIn(victims[..i], victims[i].name);
        var unreported := *;
        var reply := if ok[i] then Answered else if unreported then AnswerLost else Refused;
        var err := DeleteRunnerPod(victims[i].name, reply);
        if !reply.Refused? {
          hit := hit + {victims[i].name};
        }
      }
      assert ok[..|ok|] == ok;
      PrefixNames(victims, |ok|);
    }

    method HandleScaleUp(currentCount: nat, targetCount: int, names: nat -> string)
        returns (count: int, err: bool, ghost failures: nat, ghost added: set<string>)
      requires targetCount > currentCount && Unused(names, 0, used)
      modifies this`pods, this`used
      ensures pods == Created(old(pods), added, now) && used == old(used) + added && old(used) !! added
      ensures currentCount <= count <= currentCount + |added| <= targetCount
      ensures err <==> count != targetCount
      ensures failures == 0 ==> currentCount < count == currentCount + |added|
    {
      var scaleUp := targetCount - currentCount;
      var created;
      created, failures, added := BatchCreateRunnerPods(scaleUp, names);
      if created < scaleUp {
        return currentCount + created, true, failures, added;
      }
      return targetCount, false, failures, added;
    }

    method HandleScaleDown(currentPods: seq<Item>, targetCount: int)
        returns (count: int, err: bool, ghost failures: nat, ghost victims: set<string>, ghost hit: set<string>)
      requires targetCount < |currentPods| && Distinct(currentPods)
      modifies this`pods
      ensures pods == Terminated(old(pods), hit)
      ensures var idle := Keep(currentPods, IdleItem());
        && hit <= victims <= Names(idle) && |victims| == Surplus(|currentPods|, targetCount, |idle|)
        && |victims| <= |idle| && |victims| <= |currentPods| - targetCount
        && (|victims| == |idle| || |victims| == |currentPods| - targetCount)
        && Goal(|currentPods|, |idle|, targetCount) <= |currentPods| - |hit| <= count <= |currentPods|
        && (err <==> count != Goal(|currentPods|, |idle|, targetCount))
        && (failures == 0 ==> count == |currentPods| - |hit| && (idle != [] ==> hit != {}))
    {
      var scaleDown := |currentPods| - targetCount;
      var idlePods := FilterIdlePods(currentPods);
      KeepDistinct(currentPods, IdleItem());
      KeepShorter(currentPods, IdleItem());
      var toDelete := scaleDown;
      if |idlePods| < toDelete {
        toDelete := |idlePods|;
      }
      var deleted;
      victims := Names(idlePods[..toDelete]);
      DistinctSize(idlePods[..toDelete]);
      PrefixNames(idlePods, toDelete);
      deleted, failures, hit := BatchDeleteRunnerPods(idlePods[..toDelete]);
      SubsetSize(hit, victims);
      if deleted < toDelete {
        return |currentPods| - deleted, true, failures, victims, hit;
      }
      return |currentPods| - toDelete, false, failures, victims, hit;
    }

    /** `getRunnerPods`: the active pods and, for the background cleanup, the finished and stuck ones. */
    method GetRunnerPods(listOk: bool) returns (err: bool, activePods: seq<Item>, podsToCleanup: seq<Item>)
      ensures err <==> !listOk
      ensures listOk ==>
        Distinct(activePods) && Names(activePods) == Active(pods, now) && |activePods| == |Active(pods, now)|
      ensures listOk ==> Names(podsToCleanup) == CleanupNames(View())
      ensures var idle := Keep(activePods, IdleItem());
        listOk ==> Names(idle) == IdleActive(pods, now) && |idle| == |IdleActive(pods, now)|
    {
      if !listOk {
        return true, [], [];
      }
      var items := List();
      activePods, podsToCleanup := ClassifyRunnerPods(items, now);
      KeepSelects(items, pods, ActiveItem(now), Active(pods, now));
      KeepSelects(items, pods, CleanupItem(now), CleanupNames(View()));
      IdleSelects(items, pods, now);
      err := false;
    }

    /** One call: lists the pods, clamps the target and scales up or down. */
    method HandleDesiredRunnerCount(count: int, listOk: bool, names: nat -> string)
        returns (result: int, err: bool, ghost failures: nat)
      requires Unused(names, 0, used) && pods.Keys <= used
      modifies this`pods, this`used
      ensures !listOk ==> result == 0 && err && View() == old(View())
      ensures listOk ==> CallOutcome(old(View()), count, pods, used, result, err, failures == 0)
      ensures listOk && |Active(old(pods), now)| <= minRunners + count <= maxRunners ==>
        |Active(old(pods), now)| <= result <= minRunners + count && (err <==> result != minRunners + count)
      ensures listOk && |Active(old(pods), now)| <= maxRunners < minRunners + count ==>
        |Active(old(pods), now)| <= result <= maxRunners && (err <==> result != maxRunners)
      ensures var current, rest := |Active(old(pods), now)|, |Active(old(pods), now)| - |IdleActive(old(pods), now)|;
        listOk && minRunners + count < current && minRunners + count <= maxRunners ==>
          if rest <= minRunners + count
          then minRunners + count <= result <= current && (err <==> result != minRunners + count)
          else rest <= result <= current && (err <==> result != rest)
      ensures var current, rest := |Active(old(pods), now)|, |Active(old(pods), now)| - |IdleActive(old(pods), now)|;
        listOk && maxRunners < current && maxRunners < minRunners + count ==>
          if rest <= maxRunners then maxRunners <= result <= current && (err <==> result != maxRunners)
          else rest <= result <= current && (err <==> result != rest)
    {
      var listErr, currentPods, podsToCleanup := GetRunnerPods(listOk);
      if listErr {
        return 0, true, 0;
      }
      var targetCount := minRunners + count;
      if targetCount > maxRunners {
        targetCount := maxRunners;
      }
      result, err, failures := ScaleTo(currentPods, targetCount, names, count);
    }

    method ScaleTo(currentPods: seq<Item>, targetCount: int, names: nat -> string, ghost count: int)
        returns (result: int, err: bool, ghost failures: nat)
      requires Unused(names, 0, used) && pods.Keys <= used && targetCount == Target(minRunners, maxRunners, count)
      requires Distinct(currentPods) && |currentPods| == |Active(pods, now)|
      requires var idle := Keep(currentPods, IdleItem());
        Names(idle) == IdleActive(pods, now) && |idle| == |IdleActive(pods, now)|
      modifies this`pods, this`used
      ensures CallOutcome(old(View()), count, pods, used, result, err, failures == 0)
    {
      ghost var before := View();
      if targetCount > |currentPods| {
        ghost var added;
        result, err, failures, added := HandleScaleUp(|currentPods|, targetCount, names);
        ScaleUpOutcome(before, count, added, result, err, failures == 0);
        return;
      }
      if targetCount < |currentPods| {
        ghost var victims, hit;
        result, err, failures, victims, hit := HandleScaleDown(currentPods, targetCount);
        ScaleDownOutcome(before, count, victims, hit, result, err, failures == 0);
        return;
      }
      NoChangeOutcome(before, count);
      return |currentPods|, false, 0;
    }

    /** `HandleJobStarted`: the pod carrying the runner's name, if there is one, becomes busy. */
    method HandleJobStarted(runner: string, listOk: bool, updateOk: bool) returns (err: bool, found: Option<string>)
      modifies this`pods
      ensures !listOk ==> err && found == None
      ensures listOk && found.None? ==> !err && forall name <- pods :: pods[name].runner != runner
      ensures listOk && found.Some? ==> (err <==> !updateOk)
      ensures found.Some? ==> found.value in old(pods) && old(pods)[found.value].runner == runner
      ensures if found.Some? && !err then Some(View()) == Step(old(View()), JobStarted(found.value, runner))
              else View() == old(View())
      ensures found.Some? && !err ==>
        pods == old(pods)[found.value := old(pods)[found.value].(state := Busy)]
      ensures Explained(old(View()), pods, used)
    {
      ghost var s := View();
      NothingExplained(s);
      err, found := FindRunnerPod(runner, listOk);
      if err || found.None? {
        return;
      }
      if !updateOk {
        return true, found;
      }
      pods := pods[found.value := pods[found.value].(state := Busy)];
      StepExplained(s, JobStarted(found.value, runner), pods);
    }

    /** `HandleJobCompleted`: the pod carrying the runner's name, if there is one, is deleted. */
    method HandleJobCompleted(runner: string, listOk: bool, reply: Reply) returns (err: bool, found: Option<string>)
      modifies this`pods
      ensures !listOk ==> err && found == None
      ensures listOk && found.None? ==> !err && forall name <- pods :: pods[name].runner != runner
      ensures listOk && found.Some? ==> (err <==> !reply.Answered?)
      ensures found.Some? ==> found.value in old(pods) && old(pods)[found.value].runner == runner
      ensures if found.Some? && !reply.Refused? then Some(View()) == Step(old(View()), JobCompleted(found.value, runner))
              else View() == old(View())
      ensures found.Some? && !reply.Refused? ==>
        pods == old(pods)[found.value := old(pods)[found.value].(terminating := true)]
      ensures Explained(old(View()), pods, used)
    {
      ghost var s := View();
      NothingExplained(s);
      err, found := FindRunnerPod(runner, listOk);
      if err || found.None? {
        return;
      }
      err := DeleteRunnerPod(found.value, reply);
      assert Terminated(s.pods, {found.value}) == s.pods[found.value := s.pods[found.value].(terminating := true)];
      if !reply.Refused? {
        StepExplained(s, JobCompleted(found.value, runner), pods);
      }
    }

    /** `findRunnerPod`: fails with the list call; otherwise finds a pod exactly when one carries the name. */
    method FindRunnerPod(runner: string, listOk: bool) returns (err: bool, found: Option<string>)
      ensures err <==> !listOk
      ensures err ==> found.None?
      ensures found.Some? ==> found.value in pods && pods[found.value].runner == runner
      ensures !err && found.None? ==> forall name <- pods :: pods[name].runner != runner
    {
      if !listOk {
        return true, None;
      }
      if name :| name in pods && pods[name].runner == runner {
        return false, Some(name);
      }
      return false, None;
    }

    /** `rolloutRunnerPods`: a failed list changes nothing; otherwise exactly the idle pods are deleted, except those
        whose delete call is refused, and those without an error are counted. */
    method RolloutRunnerPods(listOk: bool, reply: string -> Reply) returns (err: bool, deletedCount: nat)
      modifies this`pods
      ensures err <==> !listOk
      ensures err ==> pods == old(pods) && deletedCount == 0
      ensures !err ==> pods == Terminated(old(pods), IdlePods(old(pods), Taken(reply)))
      ensures !err ==> deletedCount == |IdlePods(old(pods), Confirmed(reply))|
      ensures pods.Keys == old(pods).Keys && forall name <- pods ::
        pods[name].terminating <==>
          old(pods)[name].terminating || (!err && old(pods)[name].state == Idle && !reply(name).Refused?)
      ensures Explained(old(View()), pods, used)
    {
      ghost var s := View();
      NothingExplained(s);
      if !listOk {
        return true, 0;
      }
      var listed := List();
      ghost var before := pods;
      deletedCount := DeleteIdle(listed, reply);
      RolloutSelects(listed, before, Taken(reply));
      RolloutSelects(listed, before, Confirmed(reply));
      RolloutExplained(s, IdlePods(before, Taken(reply)));
      err := false;
    }

    method DeleteIdle(listed: seq<Item>, reply: string -> Reply) returns (deletedCount: nat)
      modifies this`pods
      ensures pods == Terminated(old(pods), Names(Keep(listed, RolloutItem(Taken(reply)))))
      ensures deletedCount == |Keep(listed, RolloutItem(Confirmed(reply)))|
    {
      ghost var hit := RolloutItem(Taken(reply));
      ghost var counted := RolloutItem(Confirmed(reply));
      deletedCount := 0;
      for i := 0 to |listed|
        invariant pods == Terminated(old(pods), Names(Keep(listed[..i], hit)))
        invariant deletedCount == |Keep(listed[..i], counted)|
      {
        var pod := listed[i];
        KeepNext(listed, hit, i);
        KeepNext(listed, counted, i);
        if pod.pod.state == Idle {
          TerminatedTwice(old(pods), Names(Keep(listed[..i], hit)), pod.name);
          var err := DeleteRunnerPod(pod.name, reply(pod.name));
          if !err {
            deletedCount := deletedCount + 1;
          }
        }
      }
      assert listed[..|listed|] == listed;
    }
  }

  lemma KeepNext(items: seq<Item>, p: Item -> bool, i: nat)
    requires i < |items|
    ensures Keep(items[..i + 1], p) == if p(items[i]) then Keep(items[..i], p) + [items[i]] else Keep(items[..i], p)
    ensures Names(Keep(items[..i + 1], p)) == Names(Keep(items[..i], p)) + if p(items[i]) then {items[i].name} else {}
  {
    var front := Keep(items[..i], p);
    assert items[..i + 1][..i] == items[..i];
    assert (front + [items[i]])[..|front|] == front;
  }

  /** The idle pods that `which` selects. */
  ghost function IdlePods(pods: map<string, Pod>, which: string -> bool): set<string> {
    set name <- pods | pods[name].state.Idle? && which(name)
  }

  lemma RolloutSelects(items: seq<Item>, pods: map<string, Pod>, which: string -> bool)
    requires Lists(items, pods)
    ensures Names(Keep(items, RolloutItem(which))) == IdlePods(pods, which)
    ensures |Keep(items, RolloutItem(which))| == |IdlePods(pods, which)|
  {
    KeepSelects(items, pods, RolloutItem(which), IdlePods(pods, which));
  }

  /** The pods whose delete call takes effect, and those whose delete call reports no error. */
  function Taken(reply: string -> Reply): string -> bool { (name: string) => !reply(name).Refused? }
  function Confirmed(reply: string -> Reply): string -> bool { (name: string) => reply(name).Answered? }

  function RolloutItem(which: string -> bool): Item -> bool { (x: Item) => x.pod.state.Idle? && which(x.name) }

  lemma TerminatedTwice(pods: map<string, Pod>, hit: set<string>, name: string)
    ensures Terminated(Terminated(pods, hit), {name}) == Terminated(pods, hit + {name})
  {}

  lemma {:induction false} PrefixNames(items: seq<Item>, n: nat)
    requires n <= |items|
    ensures Names(items[..n]) <= Names(items)
  {
    if n < |items| {
      PrefixNames(items[..|items| - 1], n);
      assert items[..|items| - 1][..n] == items[..n];
    } else {
      assert items[..n] == items;
    }
  }
}
