/** The fleet of runner pods under one scaler: what scale calls, job events, background cleanup, rollouts and the
    cluster do to it, in any interleaving.

    A scale call first lists the pods and decides; its creations and deletions come later, one worker at a time, with
    anything in between.  Cleanup and rollout also act on a list that was read earlier.  Scale calls do not overlap,
    lists see all earlier writes, and pod and runner names are never reused.
*/
module Fleet {
  import opened Machine

  datatype Phase = Pending | Running | Succeeded | Failed | Unknown

  datatype RunnerState = Idle | Busy

  datatype Pod = Pod(phase: Phase, createdAt: int, state: RunnerState, runner: string, terminating: bool)

  const PENDING_THRESHOLD: int := 300   // seconds

  predicate Terminal(p: Phase) { p.Succeeded? || p.Failed? }

  predicate StuckPending(pod: Pod, now: int) { pod.phase.Pending? && now - pod.createdAt > PENDING_THRESHOLD }

  /** How `classifyRunnerPods` sorts a pod; a terminating pod is neither. */
  predicate IsActive(pod: Pod, now: int) {
    !pod.terminating && !Terminal(pod.phase) && !StuckPending(pod, now)
  }

  predicate NeedsCleanup(pod: Pod, now: int) {
    !pod.terminating && (Terminal(pod.phase) || StuckPending(pod, now))
  }

  datatype Reason = ScaleDown | Cleanup | Rollout

  /** A deletion decided on a list read at `listedAt`, with the pod as it was then. */
  datatype Task = Task(reason: Reason, name: string, pod: Pod, listedAt: int)

  datatype State = State(
    minRunners: int,
    maxRunners: int,
    pods: map<string, Pod>,
    now: int,
    call: Option<nat>,        // the scale call in progress and how many creations it may still start
    tasks: set<Task>,
    used: set<string>,        // every pod name there ever was
    back: set<string>         // the pods that were counted out as stuck in Pending and became active again
  )

  datatype Event =
    | Tick(seconds: nat)
    | SetPhase(name: string, phase: Phase)          // kubelet and scheduler; finished phases are final
    | Terminate(name: string)                       // somebody outside the controller deletes the pod
    | Gone(name: string)                            // the pod object disappears
    | JobStarted(name: string, runner: string)
    | JobCompleted(name: string, runner: string)
    | ListForScale(count: int, victims: set<string>)
    | CreateOne(name: string, runner: string)       // a worker creates a pod, whatever it then reports
    | CreateNone                                    // a worker fails without creating a pod
    | EndCall
    | ListForRollout
    | RunTask(task: Task)                           // the delete call takes effect
    | DropTask(task: Task)                          // it fails, or its loop gives up

  function Active(pods: map<string, Pod>, now: int): set<string> {
    set name <- pods | IsActive(pods[name], now)
  }

  function IdleActive(pods: map<string, Pod>, now: int): set<string> {
    set name <- pods | IsActive(pods[name], now) && pods[name].state.Idle?
  }

  function Min(a: int, b: int): int { if a <= b then a else b }
  function Max(a: int, b: int): int { if a >= b then a else b }

  /** The clamped target of `HandleDesiredRunnerCount`. */
  function Target(minRunners: int, maxRunners: int, count: int): int { Min(minRunners + count, maxRunners) }

  /** How many idle pods a call deletes: the surplus, as far as there are idle pods. */
  function Surplus(current: nat, target: int, idle: nat): nat {
    if target < current then Min(current - target, idle) else 0
  }

  function TasksFor(s: State, reason: Reason, names: set<string>): set<Task> {
    set name <- names | name in s.pods :: Task(reason, name, s.pods[name], s.now)
  }

  function CleanupNames(s: State): set<string> { set name <- s.pods | NeedsCleanup(s.pods[name], s.now) }

  function WithPod(s: State, name: string, pod: Pod): State { s.(pods := s.pods[name := pod]) }

  function Step(s: State, e: Event): Option<State> {
    match e
    case Tick(d) => Some(s.(now := s.now + d))
    case SetPhase(name, phase) =>
      if name !in s.pods || Terminal(s.pods[name].phase) then None
      else
        var pod := s.pods[name].(phase := phase);
        var revives := !IsActive(s.pods[name], s.now) && IsActive(pod, s.now);
        Some(WithPod(s, name, pod).(back := s.back + if revives then {name} else {}))
    case Terminate(name) =>
      if name in s.pods then Some(WithPod(s, name, s.pods[name].(terminating := true))) else None
    case Gone(name) => Some(s.(pods := s.pods - {name}))
    case JobStarted(name, runner) =>
      if name in s.pods && s.pods[name].runner == runner then Some(WithPod(s, name, s.pods[name].(state := Busy)))
      else None
    case JobCompleted(name, runner) =>
      if name in s.pods && s.pods[name].runner == runner then
        Some(WithPod(s, name, s.pods[name].(terminating := true)))
      else None
    case ListForScale(count, victims) =>
      var current := |Active(s.pods, s.now)|;
      var target := Target(s.minRunners, s.maxRunners, count);
      var idle := IdleActive(s.pods, s.now);
      if s.call.Some? || !(victims <= idle) || |victims| != Surplus(current, target, |idle|) then None
      else Some(s.(call := Some(if target > current then target - current else 0),
                   tasks := s.tasks + TasksFor(s, Cleanup, CleanupNames(s)) + TasksFor(s, ScaleDown, victims)))
    case CreateOne(name, runner) =>
      if s.call.None? || s.call.value == 0 || name in s.used then None
      else Some(WithPod(s, name, Pod(Pending, s.now, Idle, runner, false))
                .(call := Some(s.call.value - 1), used := s.used + {name}))
    case CreateNone =>
      if s.call.None? || s.call.value == 0 then None else Some(s.(call := Some(s.call.value - 1)))
    case EndCall =>
      if s.call.None? then None
      else Some(s.(call := None, tasks := set task <- s.tasks | task.reason != ScaleDown))
    case ListForRollout =>
      Some(s.(tasks := s.tasks + TasksFor(s, Rollout, set name <- s.pods | s.pods[name].state.Idle?)))
    case RunTask(task) =>
      if task !in s.tasks then None
      else
        var t := s.(tasks := s.tasks - {task});
        Some(if task.name in s.pods then WithPod(t, task.name, s.pods[task.name].(terminating := true)) else t)
    case DropTask(task) => Some(s.(tasks := s.tasks - {task}))
  }

  // ---------------------------------------------------------------------------------------------
  // The size of the fleet
  // ---------------------------------------------------------------------------------------------

  lemma SubsetSize<T>(a: set<T>, b: set<T>)
    requires a <= b
    ensures |a| <= |b|
  {
    assert b == a + (b - a);
  }

  function Budget(s: State): nat { if s.call.Some? then s.call.value else 0 }

  function ActivePods(s: State): set<string> { Active(s.pods, s.now) }

  /** A phase change that makes a pod active again. */
  predicate Revives(s: State, e: Event) {
    && e.SetPhase? && e.name in s.pods && !Terminal(s.pods[e.name].phase)
    && !IsActive(s.pods[e.name], s.now) && IsActive(s.pods[e.name].(phase := e.phase), s.now)
  }

  /** The only pod a step can add to the active ones. */
  function Newcomer(s: State, e: Event): set<string> {
    if e.CreateOne? then {e.name} else if Revives(s, e) then {e.name} else {}
  }

  lemma StepActive(s: State, e: Event)
    requires Step(s, e).Some?
    ensures var t := Step(s, e).value; ActivePods(t) <= ActivePods(s) + Newcomer(s, e)
  {
    var t := Step(s, e).value;
    forall name | name in ActivePods(t) && name !in Newcomer(s, e) ensures name in ActivePods(s) {
      assert name in t.pods && name in s.pods;
    }
  }

  /** A pod comes back only from being stuck in Pending, and those that came back are exactly the revived ones. */
  lemma RevivedWasStuck(s: State, e: Event)
    requires Step(s, e).Some?
    ensures Step(s, e).value.back == s.back + if Revives(s, e) then {e.name} else {}
    ensures Revives(s, e) ==> StuckPending(s.pods[e.name], s.now) && !e.phase.Pending?
  {}

  /** The active pods that never came back, with those the running call may still create, are within `bound`. */
  ghost predicate Within(s: State, bound: int) {
    |ActivePods(s) - s.back| + Budget(s) <= bound && s.maxRunners <= bound
  }

  lemma StepNewcomers(s: State, e: Event)
    requires Step(s, e).Some?
    ensures var t := Step(s, e).value;
      ActivePods(t) - t.back <= (ActivePods(s) - s.back) + if e.CreateOne? then {e.name} else {}
  {
    StepActive(s, e);
    RevivedWasStuck(s, e);
  }

  lemma StepBudget(s: State, e: Event)
    requires Step(s, e).Some?
    ensures var t := Step(s, e).value;
      && t.maxRunners == s.maxRunners
      && (e.CreateOne? ==> Budget(t) == Budget(s) - 1)
      && (e.ListForScale? ==> Budget(t) == 0 || Budget(t) <= s.maxRunners - |ActivePods(s)|)
      && (!e.ListForScale? ==> Budget(t) <= Budget(s))
  {}

  lemma StepKeepsSize(s: State, e: Event, bound: int)
    requires Within(s, bound) && Step(s, e).Some?
    ensures Within(Step(s, e).value, bound)
  {
    var t := Step(s, e).value;
    var before, after := ActivePods(s) - s.back, ActivePods(t) - t.back;
    var created := if e.CreateOne? then {e.name} else {};
    StepNewcomers(s, e);
    StepBudget(s, e);
    UnionSize(after, before, created);
    SubsetSize(before, ActivePods(s));
  }

  lemma UnionSize<T>(c: set<T>, a: set<T>, b: set<T>)
    requires c <= a + b
    ensures |c| <= |a| + |b|
  {
    SubsetSize(c, a + b);
  }

  /** A scaler that has just started on whatever pods there are. */
  ghost predicate Fresh(s: State) {
    s.call.None? && s.tasks == {} && s.back == {} && s.pods.Keys <= s.used
  }

  /** The limit a run starts with: the maximum, or the number of pods there are if that is larger. */
  function Limit(s0: State): int { Max(|ActivePods(s0)|, s0.maxRunners) }

  /** Whatever happens in whatever order, the active pods, together with those the running call may still create, stay
      within the limit, not counting the pods that came back from being stuck in Pending; so they exceed it at most by
      the number of pods that came back and are active now. */
  lemma FleetBound(s0: State, es: seq<Event>)
    requires Fresh(s0) && Exec(Step, s0, es).Some?
    ensures var s := Exec(Step, s0, es).value;
      && (|ActivePods(s) - s.back| + Budget(s) <= s0.maxRunners
          || |ActivePods(s) - s.back| + Budget(s) <= |ActivePods(s0)|)
      && |ActivePods(s)| + Budget(s) <= Limit(s0) + |ActivePods(s) * s.back|
  {
    var bound := Limit(s0);
    var inv := (s: State) => Within(s, bound);
    assert ActivePods(s0) - s0.back == ActivePods(s0);
    forall s, e | inv(s) && Step(s, e).Some? ensures inv(Step(s, e).value) { StepKeepsSize(s, e, bound); }
    Invariant(Step, inv, s0, es);
    var s := Exec(Step, s0, es).value;
    assert ActivePods(s) == (ActivePods(s) - s.back) + ActivePods(s) * s.back;
  }

  ghost predicate InLimit(s: State, bound: int) { |ActivePods(s)| + Budget(s) <= bound }

  /** A pod comes back while the limit is used up. */
  predicate RevivesAtLimit(s: State, e: Event, bound: int) { Revives(s, e) && |ActivePods(s)| + Budget(s) == bound }

  lemma StepLeavesLimit(s: State, e: Event, bound: int)
    requires InLimit(s, bound) && s.maxRunners <= bound && Step(s, e).Some?
    ensures InLimit(Step(s, e).value, bound) <==> !RevivesAtLimit(s, e, bound)
  {
    var t := Step(s, e).value;
    StepActive(s, e);
    StepBudget(s, e);
    if Revives(s, e) {
      assert ActivePods(t) == ActivePods(s) + {e.name};
    } else {
      UnionSize(ActivePods(t), ActivePods(s), if e.CreateOne? then {e.name} else {});
    }
  }

  /** Over every run the limit is passed at some moment if and only if some pod comes back while it is used up. */
  lemma OvershootComesFromRevival(s0: State, es: seq<Event>)
    requires Fresh(s0) && Exec(Step, s0, es).Some?
    ensures Always(Step, (s: State) => InLimit(s, Limit(s0)), s0, es) <==>
      Never(Step, (s: State, e: Event) => RevivesAtLimit(s, e, Limit(s0)), s0, es)
  {
    var bound := Limit(s0);
    var inv := (s: State) => s.maxRunners <= bound;
    var good := (s: State) => InLimit(s, bound);
    var bad := (s: State, e: Event) => RevivesAtLimit(s, e, bound);
    forall s, e | inv(s) && good(s) && Step(s, e).Some? ensures good(Step(s, e).value) <==> !bad(s, e) {
      StepLeavesLimit(s, e, bound);
    }
    GoodUntilBad(Step, inv, good, bad, s0, es);
    assert good == ((s: State) => InLimit(s, Limit(s0)));
  }

  /** A scaling call that finds one pod stuck in Pending may create another. */
  lemma StuckPodIgnored(s0: State)
    requires Fresh(s0) && s0.minRunners == 0 && s0.maxRunners == 1 && s0.now == 301
    requires s0.pods == map["a" := Pod(Pending, 0, Idle, "ra", false)]
    ensures Active(s0.pods, s0.now) == {}
    ensures var t := Step(s0, ListForScale(1, {})); t.Some? && t.value == s0.(call := Some(1), tasks := t.value.tasks)
  {
    assert Active(s0.pods, s0.now) == {} && IdleActive(s0.pods, s0.now) == {};
  }

  lemma StuckPodStarts(s: State)
    requires s.now == 301 && s.back == {}
    requires s.pods == map["a" := Pod(Pending, 0, Idle, "ra", false), "b" := Pod(Pending, 301, Idle, "rb", false)]
    ensures var t := Step(s, SetPhase("a", Running));
      t.Some? && Active(t.value.pods, t.value.now) == {"a", "b"} && t.value.back == {"a"}
  {}

  /** It does happen: with a maximum of one, a pod stuck in Pending is replaced and then starts after all. */
  lemma StuckPodExceedsMaximum(s0: State) returns (es: seq<Event>, s: State)
    requires Fresh(s0) && s0.minRunners == 0 && s0.maxRunners == 1 && s0.now == 301
    requires s0.pods == map["a" := Pod(Pending, 0, Idle, "ra", false)] && s0.used == {"a"}
    ensures Exec(Step, s0, es) == Some(s) && |Active(s0.pods, s0.now)| == 0
    ensures Active(s.pods, s.now) == {"a", "b"} && |Active(s.pods, s.now)| == 2 && s.back == {"a"}
  {
    StuckPodIgnored(s0);
    es, s := Extend(Step, s0, [], s0, ListForScale(1, {}));
    es, s := Extend(Step, s0, es, s, CreateOne("b", "rb"));
    StuckPodStarts(s);
    es, s := Extend(Step, s0, es, s, SetPhase("a", Running));
  }

  // ---------------------------------------------------------------------------------------------
  // Busy runners
  // ---------------------------------------------------------------------------------------------

  /** One pod before and after a step: same runner and creation time, idle may become busy but never the reverse,
      a finished phase and a deletion are final. */
  predicate Evolves(p: Pod, q: Pod) {
    && q.runner == p.runner && q.createdAt == p.createdAt
    && (p.state.Busy? ==> q.state.Busy?)
    && (Terminal(p.phase) ==> q.phase == p.phase)
    && (p.terminating ==> q.terminating)
  }

  /** Why a pod was put on a list. */
  predicate Justified(task: Task) {
    match task.reason
    case ScaleDown => task.pod.state.Idle? && IsActive(task.pod, task.listedAt)
    case Cleanup => NeedsCleanup(task.pod, task.listedAt)
    case Rollout => task.pod.state.Idle?
  }

  ghost predicate Inv(s: State) {
    && s.pods.Keys <= s.used
    && (forall task <- s.tasks ::
          && Justified(task) && task.name in s.used
          && (task.name in s.pods ==> Evolves(task.pod, s.pods[task.name])))
  }

  lemma StepEvolves(s: State, e: Event, name: string)
    requires s.pods.Keys <= s.used && Step(s, e).Some? && name in s.used
    ensures name in Step(s, e).value.used
    ensures name in Step(s, e).value.pods ==> name in s.pods && Evolves(s.pods[name], Step(s, e).value.pods[name])
  {}

  lemma StepKeepsInv(s: State, e: Event)
    requires Inv(s) && Step(s, e).Some?
    ensures Inv(Step(s, e).value)
  {
    var t := Step(s, e).value;
    forall task | task in t.tasks
      ensures Justified(task) && task.name in t.used
      ensures task.name in t.pods ==> Evolves(task.pod, t.pods[task.name])
    {
      if task in s.tasks {
        StepEvolves(s, e, task.name);
      }
    }
  }

  predicate RunsJob(s: State, name: string) {
    name in s.pods && s.pods[name].phase.Running? && s.pods[name].state.Busy? && !s.pods[name].terminating
  }

  /** Which pods the controller itself can put into termination while they run a job. */
  predicate KillsBusy(s: State, e: Event, name: string) {
    && RunsJob(s, name)
    && Step(s, e).Some? && name in Step(s, e).value.pods && Step(s, e).value.pods[name].terminating
  }

  /** The pod a task deletes is still as it was listed. */
  predicate FreshTask(s: State, task: Task) {
    task.name in s.pods ==>
      s.pods[task.name].phase == task.pod.phase && s.pods[task.name].state == task.pod.state
  }

  /** A task names a pod as it no longer is: an idle pod that took a job since it was listed, or a pod listed as stuck in
      Pending that started since. */
  predicate OutOfDate(s: State, task: Task) {
    !FreshTask(s, task)
    && if task.reason.Cleanup? then StuckPending(task.pod, task.listedAt) else task.pod.state.Idle?
  }

  /** Over every run, the deletions of a pod that runs a job are exactly these: its own job's completion, one from
      outside, and a task for it, whose list is then out of date. */
  lemma BusyPodDeletion(s0: State, es: seq<Event>, e: Event, name: string)
    requires Fresh(s0) && Exec(Step, s0, es).Some? && RunsJob(Exec(Step, s0, es).value, name)
    ensures var s := Exec(Step, s0, es).value;
      && (KillsBusy(s, e, name) <==>
            || e == JobCompleted(name, s.pods[name].runner)
            || e == Terminate(name)
            || (e.RunTask? && e.task in s.tasks && e.task.name == name))
      && (forall task <- s.tasks :: task.name == name ==> OutOfDate(s, task))
  {
    RunKeepsInv(s0, es);
  }

  lemma RunKeepsInv(s0: State, es: seq<Event>)
    requires Fresh(s0)
    ensures var r := Exec(Step, s0, es); r.Some? ==> Inv(r.value)
  {
    forall s, e | Inv(s) && Step(s, e).Some? ensures Inv(Step(s, e).value) { StepKeepsInv(s, e); }
    Invariant(Step, Inv, s0, es);
  }

  /** Runs in which every list is acted on before the listed pods change. */
  function AtomicStep(s: State, e: Event): Option<State> {
    if e.RunTask? && !FreshTask(s, e.task) then None else Step(s, e)
  }

  lemma {:induction false} AtomicRunIsRun(s0: State, es: seq<Event>)
    requires Exec(AtomicStep, s0, es).Some?
    ensures Exec(Step, s0, es) == Exec(AtomicStep, s0, es)
  {
    if es != [] {
      AtomicRunIsRun(s0, es[..|es| - 1]);
    }
  }

  /** If lists are acted on atomically, the controller deletes a pod that runs a job only on that job's completion:
      never for scale-down, cleanup or rollout. */
  lemma AtomicDeletionsSpareBusy(s0: State, es: seq<Event>, e: Event, name: string)
    requires Fresh(s0) && Exec(AtomicStep, s0, es).Some?
    requires var s := Exec(AtomicStep, s0, es).value; AtomicStep(s, e).Some? && KillsBusy(s, e, name)
    ensures e == JobCompleted(name, Exec(AtomicStep, s0, es).value.pods[name].runner) || e == Terminate(name)
  {
    AtomicRunIsRun(s0, es);
    BusyPodDeletion(s0, es, e, name);
  }

  /** Labels over whole runs: a pod that is still there kept its runner, and if it was busy it is busy. */
  lemma {:induction false} BusyStaysBusy(s0: State, es: seq<Event>, name: string)
    requires s0.pods.Keys <= s0.used && name in s0.used && Exec(Step, s0, es).Some?
    ensures var s := Exec(Step, s0, es).value;
      && s.pods.Keys <= s.used && name in s.used
      && (name in s.pods ==> name in s0.pods && Evolves(s0.pods[name], s.pods[name]))
  {
    if es != [] {
      BusyStaysBusy(s0, es[..|es| - 1], name);
      StepEvolves(Exec(Step, s0, es[..|es| - 1]).value, es[|es| - 1], name);
    }
  }

  lemma TaskKills(s: State, task: Task)
    requires RunsJob(s, task.name) && task in s.tasks
    ensures KillsBusy(s, RunTask(task), task.name)
  {}

  /** The list of a scale-down that finds one idle pod too many. */
  lemma IdlePodListed(s0: State)
    requires Fresh(s0) && s0.minRunners == 0 && s0.maxRunners == 1
    requires s0.pods == map["a" := Pod(Running, 0, Idle, "ra", false)]
    ensures var t := Step(s0, ListForScale(0, {"a"}));
      t.Some? && t.value.pods == s0.pods && Task(ScaleDown, "a", s0.pods["a"], s0.now) in t.value.tasks
  {
    assert Active(s0.pods, s0.now) == {"a"} && IdleActive(s0.pods, s0.now) == {"a"};
    assert Task(ScaleDown, "a", s0.pods["a"], s0.now) in TasksFor(s0, ScaleDown, {"a"});
  }

  /** Without atomic lists scale-down does kill a job: the pod takes it after it was listed as idle. */
  lemma ScaleDownRace(s0: State) returns (es: seq<Event>, s: State)
    requires Fresh(s0) && s0.minRunners == 0 && s0.maxRunners == 1
    requires s0.pods == map["a" := Pod(Running, 0, Idle, "ra", false)] && s0.used == {"a"}
    ensures Exec(Step, s0, es) == Some(s) && exists e :: KillsBusy(s, e, "a") && e.RunTask? && e.task.reason.ScaleDown?
  {
    IdlePodListed(s0);
    es, s := Extend(Step, s0, [], s0, ListForScale(0, {"a"}));
    es, s := Extend(Step, s0, es, s, JobStarted("a", "ra"));
    TaskKills(s, Task(ScaleDown, "a", s0.pods["a"], s0.now));
  }

  /** The list of a scaling call that finds one pod stuck in Pending. */
  lemma StuckPodListed(s0: State)
    requires Fresh(s0) && s0.minRunners == 0 && s0.maxRunners == 1 && s0.now == 301
    requires s0.pods == map["a" := Pod(Pending, 0, Idle, "ra", false)]
    ensures var t := Step(s0, ListForScale(0, {}));
      t.Some? && t.value.pods == s0.pods && Task(Cleanup, "a", s0.pods["a"], s0.now) in t.value.tasks
  {
    assert Active(s0.pods, s0.now) == {} && IdleActive(s0.pods, s0.now) == {};
    assert Task(Cleanup, "a", s0.pods["a"], s0.now) in TasksFor(s0, Cleanup, CleanupNames(s0));
  }

  /** Nor does cleanup spare it: the pod starts, and takes a job, after it was listed as stuck in Pending. */
  lemma CleanupRace(s0: State) returns (es: seq<Event>, s: State)
    requires Fresh(s0) && s0.minRunners == 0 && s0.maxRunners == 1 && s0.now == 301
    requires s0.pods == map["a" := Pod(Pending, 0, Idle, "ra", false)] && s0.used == {"a"}
    ensures Exec(Step, s0, es) == Some(s) && exists e :: KillsBusy(s, e, "a") && e.RunTask? && e.task.reason.Cleanup?
  {
    StuckPodListed(s0);
    es, s := Extend(Step, s0, [], s0, ListForScale(0, {}));
    es, s := Extend(Step, s0, es, s, SetPhase("a", Running));
    es, s := Extend(Step, s0, es, s, JobStarted("a", "ra"));
    TaskKills(s, Task(Cleanup, "a", s0.pods["a"], s0.now));
  }

  /** A rollout has the same race. */
  lemma RolloutRace(s0: State) returns (es: seq<Event>, s: State)
    requires Fresh(s0) && s0.pods == map["a" := Pod(Running, 0, Idle, "ra", false)]
    ensures Exec(Step, s0, es) == Some(s) && exists e :: KillsBusy(s, e, "a") && e.RunTask? && e.task.reason.Rollout?
  {
    var task := Task(Rollout, "a", s0.pods["a"], s0.now);
    assert task in Step(s0, ListForRollout).value.tasks;
    es, s := Extend(Step, s0, [], s0, ListForRollout);
    es, s := Extend(Step, s0, es, s, JobStarted("a", "ra"));
    TaskKills(s, task);
  }
}
