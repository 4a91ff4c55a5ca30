/** The registry of listeners, one goroutine each.

    `StartListener` registers a listener under its key and starts its goroutine; when `Run` returns, that goroutine
    deletes the registry entry *by key*.  `StopListener` closes the listener's stop channel and deletes the entry at
    once, long before the goroutine gets to its own delete.  `StopAll` empties the registry under the lock and signals
    the listeners it took afterwards, giving up when its context is done.
*/
module Listeners {
  import opened Machine

  datatype ListenerKey = ListenerKey(namespace: string, name: string, runnerGroup: string)

  datatype Phase = Running | Exited | Cleaned   // Exited: Run returned; Cleaned: the goroutine has deleted by key

  datatype Instance = Instance(
    key: ListenerKey,
    phase: Phase,
    signalled: bool,      // the stop channel is closed
    taken: bool           // removed from the registry by a StopAll
  )

  datatype State = State(
    listeners: map<ListenerKey, nat>,
    instances: seq<Instance>,          // in the order they were started
    sweeps: seq<set<nat>>              // for each StopAll, the listeners it has not reached yet
  )

  datatype Event =
    | Start(key: ListenerKey)
    | Stop(key: ListenerKey)
    | Exit(id: nat)
    | Cleanup(id: nat)
    | TakeAll
    | Signal(sweep: nat, target: nat)
    | Abort(sweep: nat)                // the sweep's context is done

  const INIT := State(map[], [], [])

  function Step(s: State, e: Event): Option<State> {
    match e
    case Start(k) =>
      if k in s.listeners then None
      else Some(s.(listeners := s.listeners[k := |s.instances|],
                   instances := s.instances + [Instance(k, Running, false, false)]))
    case Stop(k) =>
      if k !in s.listeners || s.listeners[k] >= |s.instances| then None
      else
        var id := s.listeners[k];
        Some(s.(listeners := s.listeners - {k}, instances := s.instances[id := s.instances[id].(signalled := true)]))
    case Exit(id) =>
      if id < |s.instances| && s.instances[id].phase.Running? then
        Some(s.(instances := s.instances[id := s.instances[id].(phase := Exited)]))
      else None
    case Cleanup(id) =>
      if id < |s.instances| && s.instances[id].phase.Exited? then
        Some(s.(listeners := s.listeners - {s.instances[id].key},
                instances := s.instances[id := s.instances[id].(phase := Cleaned)]))
      else None
    case TakeAll =>
      var ids := s.listeners.Values;
      Some(s.(listeners := map[],
              instances := seq(|s.instances|, i requires 0 <= i < |s.instances| =>
                                if i in ids then s.instances[i].(taken := true) else s.instances[i]),
              sweeps := s.sweeps + [ids]))
    case Signal(j, id) =>
      if j < |s.sweeps| && id in s.sweeps[j] && id < |s.instances| then
        Some(s.(instances := s.instances[id := s.instances[id].(signalled := true)],
                sweeps := s.sweeps[j := s.sweeps[j] - {id}]))
      else None
    case Abort(j) =>
      if j < |s.sweeps| then Some(s.(sweeps := s.sweeps[j := {}])) else None
  }

  // ---------------------------------------------------------------------------------------------
  // What every run keeps
  // ---------------------------------------------------------------------------------------------

  predicate Registered(s: State, id: nat) {
    id < |s.instances| && s.instances[id].key in s.listeners && s.listeners[s.instances[id].key] == id
  }

  /** Every entry names an untouched listener with that key; only listeners that a StopAll took are in a sweep. */
  ghost predicate Inv(s: State) {
    && (forall k <- s.listeners ::
          && s.listeners[k] < |s.instances|
          && s.instances[s.listeners[k]].key == k
          && !s.instances[s.listeners[k]].signalled
          && !s.instances[s.listeners[k]].taken
          && !s.instances[s.listeners[k]].phase.Cleaned?)
    && (forall j :: 0 <= j < |s.sweeps| ==> InSweep(s.instances, s.sweeps[j]))
  }

  ghost predicate InSweep(instances: seq<Instance>, ids: set<nat>) {
    forall id <- ids :: id < |instances| && instances[id].taken
  }

  /** A listener that is alive and can no longer be reached: not registered, not signalled, not taken by a StopAll. */
  predicate Orphan(s: State, id: nat) {
    && id < |s.instances| && !s.instances[id].phase.Cleaned?
    && !Registered(s, id) && !s.instances[id].signalled && !s.instances[id].taken
  }

  ghost predicate NoOrphan(s: State) { forall id :: 0 <= id < |s.instances| ==> !Orphan(s, id) }

  /** The goroutine of one listener is about to delete the entry of another. */
  predicate Steals(s: State, e: Event) {
    && e.Cleanup? && e.id < |s.instances|
    && s.instances[e.id].key in s.listeners && s.listeners[s.instances[e.id].key] != e.id
  }

  lemma StepKeepsInv(s: State, e: Event)
    requires Inv(s) && Step(s, e).Some?
    ensures Inv(Step(s, e).value)
  {
    var t := Step(s, e).value;
    match e
    case TakeAll =>
      assert InSweep(t.instances, s.listeners.Values);
      forall j | 0 <= j < |s.sweeps| ensures InSweep(t.instances, t.sweeps[j]) {
        assert InSweep(s.instances, s.sweeps[j]);
      }
    case _ =>
      forall j | 0 <= j < |t.sweeps| ensures InSweep(t.instances, t.sweeps[j]) {
        assert InSweep(s.instances, s.sweeps[j]);
      }
  }

  /** Exactly one kind of step makes an orphan. */
  lemma StepMakesOrphan(s: State, e: Event)
    requires Inv(s) && NoOrphan(s) && Step(s, e).Some?
    ensures NoOrphan(Step(s, e).value) <==> !Steals(s, e)
  {
    var t := Step(s, e).value;
    if Steals(s, e) {
      assert Orphan(t, s.listeners[s.instances[e.id].key]);
    } else {
      forall id | 0 <= id < |t.instances| ensures !Orphan(t, id) {
        assert id < |s.instances| ==> !Orphan(s, id);
      }
    }
  }

  lemma RunKeepsInv(es: seq<Event>)
    ensures var r := Exec(Step, INIT, es); r.Some? ==> Inv(r.value)
  {
    forall s, e | Inv(s) && Step(s, e).Some? ensures Inv(Step(s, e).value) { StepKeepsInv(s, e); }
    Invariant(Step, Inv, INIT, es);
  }

  // ---------------------------------------------------------------------------------------------
  // Main results
  // ---------------------------------------------------------------------------------------------

  ghost predicate NeverSteals(es: seq<Event>) { Never(Step, Steals, INIT, es) }

  ghost predicate NeverOrphans(es: seq<Event>) { Always(Step, NoOrphan, INIT, es) }

  /** Over a whole run, a live listener is lost at some moment if and only if some goroutine's delete-by-key removed
      the entry of another listener. */
  lemma OrphansComeFromStealing(es: seq<Event>)
    requires Exec(Step, INIT, es).Some?
    ensures NeverOrphans(es) <==> NeverSteals(es)
  {
    forall s, e | Inv(s) && Step(s, e).Some? ensures Inv(Step(s, e).value) { StepKeepsInv(s, e); }
    forall s, e | Inv(s) && NoOrphan(s) && Step(s, e).Some? ensures NoOrphan(Step(s, e).value) <==> !Steals(s, e) {
      StepMakesOrphan(s, e);
    }
    GoodUntilBad(Step, Inv, NoOrphan, Steals, INIT, es);
  }

  predicate Live(i: Instance) { !i.phase.Cleaned? }

  /** How a live listener is accounted for. */
  datatype Disposition = InRegistry | StopSignalled | TakenByStopAll

  ghost predicate Has(s: State, id: nat, d: Disposition)
    requires id < |s.instances|
  {
    match d
    case InRegistry => Registered(s, id)
    case StopSignalled => s.instances[id].signalled && !s.instances[id].taken
    case TakenByStopAll => s.instances[id].taken
  }

  /** A registered listener was never stopped, whatever happened before; and while no entry was stolen, every live
      listener has exactly one disposition, so outside StopAll a key has at most one unsignalled listener. */
  lemma EveryListenerAccounted(es: seq<Event>)
    requires Exec(Step, INIT, es).Some?
    ensures var s := Exec(Step, INIT, es).value;
      && (forall id :: 0 <= id < |s.instances| && Registered(s, id) ==>
            Live(s.instances[id]) && !s.instances[id].signalled && !s.instances[id].taken)
      && (NeverSteals(es) ==>
            && (forall id :: 0 <= id < |s.instances| && Live(s.instances[id]) ==>
                  exists d :: Has(s, id, d) && forall d' :: Has(s, id, d') ==> d' == d)
            && forall i, j :: 0 <= i < j < |s.instances| && Untouched(s.instances[i]) && Untouched(s.instances[j]) ==>
                  s.instances[i].key != s.instances[j].key)
  {
    RunKeepsInv(es);
    var s := Exec(Step, INIT, es).value;
    if NeverSteals(es) {
      OrphansComeFromStealing(es);
      forall id | 0 <= id < |s.instances| && Live(s.instances[id])
        ensures exists d :: Has(s, id, d) && forall d' :: Has(s, id, d') ==> d' == d
      {
        assert !Orphan(s, id);
        var d := if s.instances[id].taken then TakenByStopAll
                 else if s.instances[id].signalled then StopSignalled else InRegistry;
        assert Has(s, id, d);
        forall d' | Has(s, id, d') ensures d' == d {}
      }
      forall i, j | 0 <= i < j < |s.instances| && Untouched(s.instances[i]) && Untouched(s.instances[j])
        ensures s.instances[i].key != s.instances[j].key
      {
        assert !Orphan(s, i) && !Orphan(s, j);
      }
    }
  }

  /** Nothing has told this listener to stop, and no StopAll is going to. */
  predicate Untouched(i: Instance) { Live(i) && !i.signalled && !i.taken }

  /** An orphan stays one until its own goroutine ends: no later step can signal it. */
  lemma OrphanIsForever(s: State, e: Event, id: nat)
    requires Inv(s) && Orphan(s, id) && Step(s, e).Some?
    ensures var t := Step(s, e).value;
      Orphan(t, id) || (e == Cleanup(id) && t.instances[id].phase.Cleaned? && !t.instances[id].signalled)
  {
    assert forall j :: 0 <= j < |s.sweeps| ==> InSweep(s.instances, s.sweeps[j]);
  }

  /** The key is started again although an earlier goroutine for it has not cleaned up. */
  predicate EarlyStart(s: State, e: Event) {
    e.Start? && exists i :: 0 <= i < |s.instances| && Live(s.instances[i]) && s.instances[i].key == e.key
  }

  /** The goroutine of listener `id` is still going to delete the entry that another listener has under its key. */
  predicate CanSteal(s: State, id: nat) {
    && id < |s.instances| && Live(s.instances[id])
    && s.instances[id].key in s.listeners && s.listeners[s.instances[id].key] != id
  }

  ghost predicate Threatened(s: State) { exists id :: CanSteal(s, id) }

  /** Exactly an early start that is accepted puts an entry at risk. */
  lemma StepThreatens(s: State, e: Event)
    requires Inv(s) && !Threatened(s) && Step(s, e).Some?
    ensures Threatened(Step(s, e).value) <==> EarlyStart(s, e)
  {
    var t := Step(s, e).value;
    if EarlyStart(s, e) {
      var i: nat :| i < |s.instances| && Live(s.instances[i]) && s.instances[i].key == e.key;
      assert CanSteal(t, i);
    } else {
      forall id: nat | CanSteal(t, id) ensures CanSteal(s, id) {}
    }
  }

  /** Over every run, no entry is ever at risk of being stolen if and only if no key is started again before its earlier
      goroutines have cleaned up. */
  lemma ThreatenedByEarlyStarts(es: seq<Event>)
    requires Exec(Step, INIT, es).Some?
    ensures Always(Step, (s: State) => !Threatened(s), INIT, es) <==> Never(Step, EarlyStart, INIT, es)
  {
    var good := (s: State) => !Threatened(s);
    forall s, e | Inv(s) && Step(s, e).Some? ensures Inv(Step(s, e).value) { StepKeepsInv(s, e); }
    forall s, e | Inv(s) && good(s) && Step(s, e).Some? ensures good(Step(s, e).value) <==> !EarlyStart(s, e) {
      StepThreatens(s, e);
    }
    GoodUntilBad(Step, Inv, good, EarlyStart, INIT, es);
  }

  /** At risk means what it says: some continuation of the run steals the entry. */
  lemma ThreatenedCanBeStolen(es0: seq<Event>, s0: State, id: nat) returns (es: seq<Event>, s: State)
    requires Exec(Step, INIT, es0) == Some(s0) && CanSteal(s0, id)
    ensures Exec(Step, INIT, es) == Some(s) && Step(s, Cleanup(id)).Some? && Steals(s, Cleanup(id))
  {
    es, s := es0, s0;
    if s.instances[id].phase.Running? {
      es, s := Extend(Step, INIT, es, s, Exit(id));
    }
  }

  /** The discipline that avoids stealing: a key is started again only when its earlier goroutines are done. */
  function GatedStep(s: State, e: Event): Option<State> {
    if EarlyStart(s, e) then None else Step(s, e)
  }

  ghost predicate OneLivePerKey(s: State) {
    forall i, j :: 0 <= i < j < |s.instances| && Live(s.instances[i]) && Live(s.instances[j]) ==>
      s.instances[i].key != s.instances[j].key
  }

  lemma {:induction false} GatedRunNeverSteals(es: seq<Event>)
    requires Exec(GatedStep, INIT, es).Some?
    ensures Exec(Step, INIT, es) == Exec(GatedStep, INIT, es)
    ensures OneLivePerKey(Exec(Step, INIT, es).value) && NeverSteals(es)
  {
    if es != [] {
      var before := es[..|es| - 1];
      GatedRunNeverSteals(before);
      RunKeepsInv(before);
      GatedStepSteps(Exec(Step, INIT, before).value, es[|es| - 1]);
    }
  }

  lemma GatedStepSteps(s: State, e: Event)
    requires Inv(s) && OneLivePerKey(s) && GatedStep(s, e).Some?
    ensures OneLivePerKey(Step(s, e).value) && !Steals(s, e)
  {
    if e.Cleanup? && s.instances[e.id].key in s.listeners {
      OneLive(s, e.id, s.listeners[s.instances[e.id].key]);
    }
  }

  lemma OneLive(s: State, i: nat, j: nat)
    requires OneLivePerKey(s) && i < |s.instances| && j < |s.instances|
    requires Live(s.instances[i]) && Live(s.instances[j]) && s.instances[i].key == s.instances[j].key
    ensures i == j
  {}

  /** What a rollout can do: Stop and Start on one key, the old goroutine's delete, and one more Start.  Two listeners
      for the same key now run and nothing will ever stop the older one. */
  lemma RolloutDoublesListener(k: ListenerKey) returns (es: seq<Event>, s: State)
    ensures es == [Start(k), Stop(k), Start(k), Exit(0), Cleanup(0), Start(k)]
    ensures Exec(Step, INIT, es) == Some(s) && |s.instances| == 3
    ensures s.instances[1] == s.instances[2] == Instance(k, Running, false, false)
    ensures Orphan(s, 1) && Registered(s, 2)
  {
    es, s := [], INIT;
    es, s := Extend(Step, INIT, es, s, Start(k));
    es, s := Extend(Step, INIT, es, s, Stop(k));
    es, s := Extend(Step, INIT, es, s, Start(k));
    es, s := Extend(Step, INIT, es, s, Exit(0));
    es, s := Extend(Step, INIT, es, s, Cleanup(0));
    es, s := Extend(Step, INIT, es, s, Start(k));
  }

  /** The comparison variant: the goroutine deletes the entry only when it is still its own. */
  function CheckedStep(s: State, e: Event): Option<State> {
    match Step(s, e)
    case None => None
    case Some(t) => Some(if Steals(s, e) then t.(listeners := s.listeners) else t)
  }

  lemma CheckedStepKeeps(s: State, e: Event)
    requires Inv(s) && NoOrphan(s) && CheckedStep(s, e).Some?
    ensures Inv(CheckedStep(s, e).value) && NoOrphan(CheckedStep(s, e).value)
  {
    var t := CheckedStep(s, e).value;
    StepKeepsInv(s, e);
    StepMakesOrphan(s, e);
    if Steals(s, e) {
      forall j | 0 <= j < |t.sweeps| ensures InSweep(t.instances, t.sweeps[j]) {
        assert InSweep(s.instances, s.sweeps[j]);
      }
      forall id | 0 <= id < |t.instances| ensures !Orphan(t, id) {
        assert !Orphan(s, id);
      }
    }
  }

  /** With the identity check no listener is ever lost, without any discipline on restarts. */
  lemma CheckedDeleteNeverOrphans(es: seq<Event>)
    requires Exec(CheckedStep, INIT, es).Some?
    ensures NoOrphan(Exec(CheckedStep, INIT, es).value)
  {
    var inv := (s: State) => Inv(s) && NoOrphan(s);
    forall s, e | inv(s) && CheckedStep(s, e).Some? ensures inv(CheckedStep(s, e).value) {
      CheckedStepKeeps(s, e);
    }
    Invariant(CheckedStep, inv, INIT, es);
  }

  // ---------------------------------------------------------------------------------------------
  // The objects
  // ---------------------------------------------------------------------------------------------

  class RunnerGroupListener {
    ghost const id: nat
    const key: ListenerKey
    var stopClosed: bool       // stopCh
    var onceDone: bool         // sync.Once
    ghost var phase: Phase
    ghost var taken: bool

    constructor (ghost id: nat, key: ListenerKey)
      ensures this.id == id && this.key == key && Describe() == Instance(key, Running, false, false) && !onceDone
    {
      this.id := id;
      this.key := key;
      stopClosed, onceDone, phase, taken := false, false, Running, false;
    }

    ghost function Describe(): Instance
      reads this
    {
      Instance(key, phase, stopClosed, taken)
    }

    /** Closes the stop channel the first time only: closing it twice would panic. */
    method Stop()
      requires onceDone <==> stopClosed
      modifies this`stopClosed, this`onceDone
      ensures stopClosed && onceDone
    {
      if !onceDone {
        onceDone := true;
        stopClosed := true;
      }
    }
  }

  lemma FewerSignalled<T>(taken: set<T>, signalled: set<T>)
    requires signalled <= taken && signalled != taken
    ensures |signalled| < |taken|
  {
    assert |taken| == |signalled| + |taken - signalled|;
    assert taken - signalled != {};
  }

  lemma OneMoreSignalled<T>(taken: set<T>, signalled: set<T>, x: T)
    requires signalled <= taken && x in taken - signalled
    ensures taken - (signalled + {x}) == taken - signalled - {x}
    ensures signalled + {x} <= taken && |signalled + {x}| == |signalled| + 1 <= |taken|
  {
    assert |taken| == |signalled| + |taken - signalled|;
  }

  lemma RunGrows(es: seq<Event>, s: State, e: Event, t: State)
    requires Exec(Step, INIT, es) == Some(s) && Step(s, e) == Some(t)
    ensures Exec(Step, INIT, es + [e]) == Some(t)
  {
    ExecAppend(Step, INIT, es, e);
  }

  class Manager {
    var listeners: map<ListenerKey, RunnerGroupListener>
    ghost var started: seq<RunnerGroupListener>
    ghost var sweeps: seq<set<nat>>
    ghost var run: seq<Event>

    ghost predicate Consistent()
      reads `listeners, `started, started
    {
      && (forall i :: 0 <= i < |started| ==> started[i].id == i && (started[i].onceDone <==> started[i].stopClosed))
      && (forall k <- listeners :: listeners[k] in started)
    }

    ghost function Instances(): (r: seq<Instance>)
      reads `started, started
      ensures |r| == |started|
    {
      var ls := started;
      seq(|ls|, i requires 0 <= i < |ls| reads ls => ls[i].Describe())
    }

    ghost function Entries(): (r: map<ListenerKey, nat>)
      reads `listeners
    {
      map k <- listeners :: listeners[k].id
    }

    ghost function View(): State
      reads `listeners, `started, `sweeps, started
    {
      State(Entries(), Instances(), sweeps)
    }

    /** The history of this object is a run of the machine. */
    ghost predicate Valid()
      reads this, started
    {
      Consistent() && Exec(Step, INIT, run) == Some(View())
    }

    ghost method Record(e: Event, before: State)
      requires Consistent() && Exec(Step, INIT, run) == Some(before) && Step(before, e) == Some(View())
      modifies this`run
      ensures Valid() && run == old(run) + [e] && View() == old(View())
    {
      var t := View();
      RunGrows(run, before, e, t);
      run := run + [e];
      assert View() == t;
    }

    constructor ()
      ensures Valid() && View() == INIT
    {
      listeners, started, sweeps, run := map[], [], [], [];
    }

    method HasListener(key: ListenerKey) returns (found: bool)
      requires Valid()
      ensures found <==> key in View().listeners
    {
      found := key in listeners;
    }

    /** Registers a new listener, unless the key is taken or building the listener fails. */
    method StartListener(key: ListenerKey, buildOk: bool) returns (err: bool)
      requires Valid()
      modifies this
      ensures Valid()
      ensures err <==> key in old(listeners) || !buildOk
      ensures if err then View() == old(View()) else Some(View()) == Step(old(View()), Start(key))
      ensures !err ==> key in listeners && !listeners[key].stopClosed
    {
      err := key in listeners || !buildOk;
      if !err {
        Register(key);
      }
    }

    method Register(key: ListenerKey)
      requires Valid() && key !in listeners
      modifies this
      ensures Valid() && Some(View()) == Step(old(View()), Start(key))
      ensures key in listeners && !listeners[key].stopClosed
    {
      ghost var s := View();
      var l := new RunnerGroupListener(|started|, key);
      listeners := listeners[key := l];
      started := started + [l];
      assert Instances() == s.instances + [Instance(key, Running, false, false)];
      assert Entries() == s.listeners[key := |s.instances|];
      Record(Start(key), s);
    }

    method StopListener(key: ListenerKey) returns (err: bool)
      requires Valid()
      modifies this, started
      ensures Valid() && started == old(started)
      ensures err <==> key !in old(listeners)
      ensures if err then View() == old(View()) else Some(View()) == Step(old(View()), Event.Stop(key))
      ensures !err ==> old(listeners)[key].stopClosed && listeners == old(listeners) - {key}
    {
      err := key !in listeners;
      if !err {
        Deregister(key);
      }
    }

    method Deregister(key: ListenerKey)
      requires Valid() && key in listeners
      modifies this, started
      ensures Valid() && started == old(started)
      ensures Some(View()) == Step(old(View()), Event.Stop(key))
      ensures old(listeners)[key].stopClosed && listeners == old(listeners) - {key}
    {
      ghost var s := View();
      RunKeepsInv(run);
      listeners[key].Stop();
      listeners := listeners - {key};
      assert Entries() == s.listeners - {key};
      assert Instances() == s.instances[s.listeners[key] := s.instances[s.listeners[key]].(signalled := true)];
      Record(Event.Stop(key), s);
    }

    /** `Run` returns in the goroutine of `l`, stopped or not. */
    method RunReturns(l: RunnerGroupListener)
      requires Valid() && l in started && l.phase.Running?
      modifies this`run, l
      ensures Valid() && Some(View()) == Step(old(View()), Exit(l.id))
    {
      ghost var s := View();
      l.phase := Exited;
      assert View() == Step(s, Exit(l.id)).value;
      Record(Exit(l.id), s);
    }

    /** What the goroutine of `l` does after `Run` has returned. */
    method AfterRun(l: RunnerGroupListener)
      requires Valid() && l in started && l.phase.Exited?
      modifies this, l
      ensures Valid() && started == old(started)
      ensures Some(View()) == Step(old(View()), Cleanup(l.id))
      ensures listeners == old(listeners) - {l.key}
    {
      ghost var s := View();
      listeners := listeners - {l.key};
      l.phase := Cleaned;
      assert View() == Step(s, Cleanup(l.id)).value;
      Record(Cleanup(l.id), s);
    }
 
    /** The critical section of `StopAll`: takes every listener out of the registry. */
    method TakeListeners() returns (taken: set<RunnerGroupListener>)
      requires Valid()
      modifies this, started
      ensures Valid() && started == old(started) && Some(View()) == Step(old(View()), TakeAll)
      ensures taken == old(listeners).Values && |sweeps| > 0 && sweeps[|sweeps| - 1] == Ids(taken)
      ensures listeners == map[] && forall l <- taken :: l in started
      ensures forall l <- started :: l.stopClosed == old(l.stopClosed)
    {
      ghost var s := View();
      taken := listeners.Values;
      assert s.listeners.Values == Ids(taken) by { EntryIds(); }
      forall l | l in taken {
        l.taken := true;
      }
      listeners := map[];
      sweeps := sweeps + [s.listeners.Values];
      assert Instances() == Step(s, TakeAll).value.instances;
      assert Entries() == map[];
      Record(TakeAll, s);
    }

    ghost function Ids(ls: set<RunnerGroupListener>): set<nat> { set l <- ls :: l.id }

    lemma EntryIds()
      requires Consistent()
      ensures Entries().Values == Ids(listeners.Values)
    {
      forall id ensures id in Entries().Values <==> id in Ids(listeners.Values) {
        if id in Entries().Values {
          var k :| k in Entries() && Entries()[k] == id;
          assert listeners[k] in listeners.Values;
        }
        if id in Ids(listeners.Values) {
          var l :| l in listeners.Values && l.id == id;
          var k :| k in listeners && listeners[k] == l;
          assert Entries()[k] == id;
        }
      }
    }

    /** One turn of the loop of `StopAll`. */
    method SignalOne(ghost j: nat, l: RunnerGroupListener)
      requires Valid() && l in started && j < |sweeps| && l.id in sweeps[j]
      modifies this`sweeps, this`run, l
      ensures Valid() && Some(View()) == Step(old(View()), Signal(j, l.id))
      ensures l.stopClosed
    {
      ghost var s := View();
      l.Stop();
      sweeps := sweeps[j := sweeps[j] - {l.id}];
      assert Instances() == Step(s, Signal(j, l.id)).value.instances;
      assert Entries() == s.listeners;
      Record(Signal(j, l.id), s);
    }

    ghost predicate Sweeping(j: nat, todo: set<RunnerGroupListener>)
      reads this, started
    {
      Valid() && j < |sweeps| && sweeps[j] == Ids(todo) && forall l <- todo :: l in started
    }

    method SignalNext(ghost j: nat, todo: set<RunnerGroupListener>) returns (l: RunnerGroupListener)
      requires Sweeping(j, todo) && todo != {}
      modifies this`sweeps, this`run, todo
      ensures l in todo && Sweeping(j, todo - {l})
      ensures l.stopClosed && forall m <- todo :: m != l ==> m.stopClosed == old(m.stopClosed)
    {
      l :| l in todo;
      SignalOne(j, l);
      assert Ids(todo) == Ids(todo - {l}) + {l.id};
    }

    /** The loop of `StopAll` returns early: nobody will signal the rest of its listeners. */
    ghost method Abandon(j: nat)
      requires Valid() && j < |sweeps|
      modifies this`sweeps, this`run
      ensures Valid() && Some(View()) == Step(old(View()), Abort(j))
    {
      var s := View();
      sweeps := sweeps[j := {}];
      Record(Abort(j), s);
    }

    /** The loop of `StopAll`, over the listeners it took: stops when the context is done, at check number `doneAt`. */
    method SignalTaken(ghost j: nat, taken: set<RunnerGroupListener>, doneAt: Option<nat>)
        returns (signalled: set<RunnerGroupListener>)
      requires Sweeping(j, taken)
      modifies this`sweeps, this`run, taken
      ensures Valid() && signalled <= taken
      ensures doneAt.None? || doneAt.value >= |taken| ==> signalled == taken
      ensures doneAt.Some? && doneAt.value < |taken| ==> |signalled| == doneAt.value
      ensures forall l <- taken :: l.stopClosed <==> old(l.stopClosed) || l in signalled
    {
      signalled := {};
      assert taken - signalled == taken;
      while signalled != taken
        invariant Sweeping(j, taken - signalled) && signalled <= taken
        invariant doneAt.Some? ==> |signalled| <= doneAt.value
        invariant forall l <- taken :: l.stopClosed <==> old(l.stopClosed) || l in signalled
        decreases taken - signalled
      {
        FewerSignalled(taken, signalled);
        if doneAt == Some(|signalled|) {
          Abandon(j);
          return;
        }
        var l := SignalNext(j, taken - signalled);
        OneMoreSignalled(taken, signalled, l);
        signalled := signalled + {l};
      }
    }

    /** Empties the registry, then signals what it took until the context is done: at check number `doneAt`, or never.
        A context that is already done on entry (`doneAt == Some(0)`) leaves every listener running unsignalled. */
    method StopAll(doneAt: Option<nat>) returns (signalled: set<RunnerGroupListener>)
      requires Valid()
      modifies this, started
      ensures Valid() && started == old(started) && listeners == map[]
      ensures signalled <= old(listeners).Values
      ensures doneAt.None? ==> signalled == old(listeners).Values
      ensures doneAt.Some? && doneAt.value >= |old(listeners).Values| ==> signalled == old(listeners).Values
      ensures doneAt.Some? && doneAt.value < |old(listeners).Values| ==> |signalled| == doneAt.value
      ensures forall l <- started :: l.stopClosed <==> old(l.stopClosed) || l in signalled
    {
      var taken := TakeListeners();
      signalled := SignalTaken(|sweeps| - 1, taken, doneAt);
    }
  }
}
