/** The batch executor behind scale-up and scale-down.

    One goroutine runs the loop of `batchCreateRunnerPods` (`batchDeleteRunnerPods` has the same loop):
    it loads the error counter, then the success counter, stops when errors reach half of the attempts,
    and otherwise hands item `i` to `errgroup`, which blocks while `MAX_WORKERS` slots are taken.
    A worker bumps one counter and only then gives its slot back.
*/
module Batch {
  import opened Machine

  const MAX_WORKERS: nat := 20

  /** Where the loop stands.  The two loads and the test are separate steps: workers run between them. */
  datatype Loc =
    | Top                                        // about to test i < count and load the error counter
    | LoadedErrors(errors: nat)                  // about to load the success counter
    | Loaded(errors: nat, succeeded: nat)        // about to apply the stop test
    | Spawn                                      // inside g.Go, waiting for a slot
    | Wait                                       // left the loop, inside g.Wait
    | Returned(result: nat)

  /** The counter values on which the loop stopped early. */
  datatype Snapshot = Snapshot(errors: nat, succeeded: nat)

  /** One worker: still calling the API, past its counter but holding its slot, or gone. */
  datatype Worker = Running | Finishing(ok: bool) | Released(ok: bool)

  datatype State = State(
    count: int,
    loc: Loc,
    workers: seq<Worker>,       // worker i handles item i; the loop index is |workers|
    created: nat,               // the atomic success counter
    errCount: nat,              // the atomic error counter
    stopped: Option<Snapshot>   // set when the loop left through `break`
  )

  predicate IsRunning(w: Worker) { w.Running? }
  predicate HoldsSlot(w: Worker) { !w.Released? }
  predicate Succeeded(w: Worker) { !w.Running? && w.ok }
  predicate Failed(w: Worker) { !w.Running? && !w.ok }

  /** The number of workers that satisfy `p`. */
  function Tally(ws: seq<Worker>, p: Worker -> bool): (n: nat)
    ensures n <= |ws|
  {
    if ws == [] then 0 else Tally(ws[..|ws| - 1], p) + if p(ws[|ws| - 1]) then 1 else 0
  }

  datatype Event =
    | LoadErrors
    | LoadSucceeded
    | Test
    | Launch
    | LeaveLoop
    | Complete(worker: nat, ok: bool)
    | Release(worker: nat)
    | Return

  /** The loop's test, as written; both operands are counters, so `/` is the truncating division. */
  predicate Stops(errors: nat, succeeded: nat) {
    errors + succeeded > 0 && errors >= (errors + succeeded) / 2
  }

  function Init(count: int): State {
    State(count, Top, [], 0, 0, None)
  }

  function Step(s: State, e: Event): Option<State> {
    match e
    case LoadErrors =>
      if s.loc.Top? && |s.workers| < s.count then Some(s.(loc := LoadedErrors(s.errCount))) else None
    case LeaveLoop =>
      if s.loc.Top? && |s.workers| >= s.count then Some(s.(loc := Wait)) else None
    case LoadSucceeded =>
      if s.loc.LoadedErrors? then Some(s.(loc := Loaded(s.loc.errors, s.created))) else None
    case Test =>
      if !s.loc.Loaded? then None
      else if Stops(s.loc.errors, s.loc.succeeded) then
        Some(s.(loc := Wait, stopped := Some(Snapshot(s.loc.errors, s.loc.succeeded))))
      else Some(s.(loc := Spawn))
    case Launch =>
      if s.loc.Spawn? && Tally(s.workers, HoldsSlot) < MAX_WORKERS then
        Some(s.(loc := Top, workers := s.workers + [Running]))
      else None
    case Complete(w, ok) =>
      if w >= |s.workers| || !s.workers[w].Running? then None
      else
        var t := s.(workers := s.workers[w := Finishing(ok)]);
        Some(if ok then t.(created := s.created + 1) else t.(errCount := s.errCount + 1))
    case Release(w) =>
      if w < |s.workers| && s.workers[w].Finishing? then
        Some(s.(workers := s.workers[w := Released(s.workers[w].ok)]))
      else None
    case Return =>
      if s.loc.Wait? && Tally(s.workers, HoldsSlot) == 0 then Some(s.(loc := Returned(s.created))) else None
  }

  // ---------------------------------------------------------------------------------------------
  // What every run keeps
  // ---------------------------------------------------------------------------------------------

  function Max(a: int, b: int): int { if a >= b then a else b }

  lemma {:induction false} TallyUpdate(ws: seq<Worker>, i: nat, w: Worker, p: Worker -> bool)
    requires i < |ws|
    ensures Tally(ws[i := w], p) == Tally(ws, p) - (if p(ws[i]) then 1 else 0) + if p(w) then 1 else 0
  {
    var n := |ws| - 1;
    if i == n {
      assert ws[i := w][..n] == ws[..n];
    } else {
      assert ws[i := w][..n] == ws[..n][i := w];
      TallyUpdate(ws[..n], i, w, p);
    }
  }

  lemma TallyPush(ws: seq<Worker>, w: Worker, p: Worker -> bool)
    ensures Tally(ws + [w], p) == Tally(ws, p) + if p(w) then 1 else 0
  {
    assert (ws + [w])[..|ws|] == ws;
  }

  /** Every worker is running, succeeded or failed; a running one holds its slot. */
  lemma {:induction false} TallyPartition(ws: seq<Worker>)
    ensures Tally(ws, IsRunning) + Tally(ws, Succeeded) + Tally(ws, Failed) == |ws|
    ensures Tally(ws, IsRunning) <= Tally(ws, HoldsSlot)
  {
    if ws != [] {
      TallyPartition(ws[..|ws| - 1]);
    }
  }

  lemma {:induction false} TallyFind(ws: seq<Worker>, p: Worker -> bool) returns (i: nat)
    requires Tally(ws, p) > 0
    ensures i < |ws| && p(ws[i])
  {
    if p(ws[|ws| - 1]) {
      i := |ws| - 1;
    } else {
      i := TallyFind(ws[..|ws| - 1], p);
    }
  }

  ghost predicate Accounted(s: State) {
    && |s.workers| <= Max(s.count, 0)
    && s.created == Tally(s.workers, Succeeded) && s.errCount == Tally(s.workers, Failed)
    && Tally(s.workers, HoldsSlot) <= MAX_WORKERS
  }

  /** The errors there would be if every running worker failed. */
  function WorstErrors(s: State): nat { s.errCount + Tally(s.workers, IsRunning) }

  ghost predicate Bounded(s: State) {
    && WorstErrors(s) <= Max(s.created, 2) + MAX_WORKERS - 1
    && match s.loc
       case LoadedErrors(e) => e <= s.errCount && WorstErrors(s) <= e + MAX_WORKERS
       case Loaded(e, c) => e <= s.errCount && c <= s.created && WorstErrors(s) <= e + MAX_WORKERS
       case Spawn => WorstErrors(s) <= Max(s.created, 2) + MAX_WORKERS - 2
       case _ => true
  }

  ghost predicate LoopExit(s: State) {
    && (s.loc.LoadedErrors? || s.loc.Loaded? || s.loc.Spawn? ==> |s.workers| < s.count)
    && (s.loc.Returned? ==> Tally(s.workers, HoldsSlot) == 0 && s.loc.result == s.created)
    && (s.stopped.None? && (s.loc.Wait? || s.loc.Returned?) ==> |s.workers| >= s.count)
    && match s.stopped
       case None => true
       case Some(snap) =>
         (s.loc.Wait? || s.loc.Returned?) && |s.workers| < s.count &&
         Stops(snap.errors, snap.succeeded) && snap.errors <= s.errCount && snap.succeeded <= s.created
  }

  ghost predicate Inv(s: State) { Accounted(s) && Bounded(s) && LoopExit(s) }

  lemma StopsCharacterised(errors: nat, succeeded: nat)
    ensures Stops(errors, succeeded) <==> errors + succeeded > 0 && 2 * errors + 1 >= errors + succeeded
  {}

  /** What one event does to the four tallies. */
  lemma StepTallies(s: State, e: Event)
    requires Step(s, e).Some?
    ensures var t := Step(s, e).value;
      && Tally(t.workers, IsRunning) ==
         Tally(s.workers, IsRunning) + (if e.Launch? then 1 else if e.Complete? then -1 else 0)
      && Tally(t.workers, HoldsSlot) ==
         Tally(s.workers, HoldsSlot) + (if e.Launch? then 1 else if e.Release? then -1 else 0)
      && Tally(t.workers, Succeeded) == Tally(s.workers, Succeeded) + (if e.Complete? && e.ok then 1 else 0)
      && Tally(t.workers, Failed) == Tally(s.workers, Failed) + (if e.Complete? && !e.ok then 1 else 0)
  {
    match e
    case Complete(w, ok) =>
      TallyUpdate(s.workers, w, Finishing(ok), IsRunning);
      TallyUpdate(s.workers, w, Finishing(ok), HoldsSlot);
      TallyUpdate(s.workers, w, Finishing(ok), Succeeded);
      TallyUpdate(s.workers, w, Finishing(ok), Failed);
    case Release(w) =>
      TallyUpdate(s.workers, w, Released(s.workers[w].ok), IsRunning);
      TallyUpdate(s.workers, w, Released(s.workers[w].ok), HoldsSlot);
      TallyUpdate(s.workers, w, Released(s.workers[w].ok), Succeeded);
      TallyUpdate(s.workers, w, Released(s.workers[w].ok), Failed);
    case Launch =>
      TallyPush(s.workers, Running, IsRunning);
      TallyPush(s.workers, Running, HoldsSlot);
      TallyPush(s.workers, Running, Succeeded);
      TallyPush(s.workers, Running, Failed);
    case _ =>
  }

  lemma StepKeepsAccounts(s: State, e: Event)
    requires Accounted(s) && LoopExit(s) && Step(s, e).Some?
    ensures Accounted(Step(s, e).value)
  {
    StepTallies(s, e);
  }

  lemma StepKeepsBound(s: State, e: Event)
    requires Accounted(s) && Bounded(s) && Step(s, e).Some?
    ensures Bounded(Step(s, e).value)
  {
    if e.Test? {
      TestKeepsBound(s);
    } else {
      StepTallies(s, e);
      TallyPartition(s.workers);
    }
  }

  lemma TestKeepsBound(s: State)
    requires Accounted(s) && Bounded(s) && s.loc.Loaded?
    ensures Bounded(Step(s, Test).value)
  {
    StopsCharacterised(s.loc.errors, s.loc.succeeded);
  }

  lemma StepKeepsLoopExit(s: State, e: Event)
    requires Bounded(s) && LoopExit(s) && Step(s, e).Some?
    ensures LoopExit(Step(s, e).value)
  {
    if s.loc.Returned? && Step(s, e).value.workers != s.workers {
      StepTallies(s, e);
      TallyPartition(s.workers);
    }
  }

  lemma StepKeepsInv(s: State, e: Event)
    requires Inv(s) && Step(s, e).Some?
    ensures Inv(Step(s, e).value)
  {
    StepKeepsAccounts(s, e);
    StepKeepsBound(s, e);
    StepKeepsLoopExit(s, e);
  }

  lemma RunKeepsInv(count: int, es: seq<Event>)
    ensures var r := Exec(Step, Init(count), es); r.Some? ==> Inv(r.value) && r.value.count == count
  {
    forall s, e | Inv(s) && Step(s, e).Some? ensures Inv(Step(s, e).value) { StepKeepsInv(s, e); }
    Invariant(Step, Inv, Init(count), es);
    Invariant(Step, (s: State) => s.count == count, Init(count), es);
  }

  // ---------------------------------------------------------------------------------------------
  // Main results
  // ---------------------------------------------------------------------------------------------

  lemma StepOutcome(s: State, e: Event, i: nat)
    requires Step(s, e).Some? && i < |Step(s, e).value.workers|
    ensures var w := Step(s, e).value.workers[i];
      && (Succeeded(w) <==> (i < |s.workers| && Succeeded(s.workers[i])) || e == Complete(i, true))
      && (Failed(w) <==> (i < |s.workers| && Failed(s.workers[i])) || e == Complete(i, false))
  {}

  /** Over every run, a worker counts as succeeded exactly if its API call succeeded, and as failed exactly if it
      failed. */
  lemma {:induction false} OutcomesFollowCalls(count: int, es: seq<Event>, i: nat)
    requires var r := Exec(Step, Init(count), es); r.Some? && i < |r.value.workers|
    ensures var w := Exec(Step, Init(count), es).value.workers[i];
      && (Succeeded(w) <==> Complete(i, true) in es)
      && (Failed(w) <==> Complete(i, false) in es)
  {
    var before, e := es[..|es| - 1], es[|es| - 1];
    assert es == before + [e];
    var s := Exec(Step, Init(count), before).value;
    StepOutcome(s, e, i);
    if i < |s.workers| {
      OutcomesFollowCalls(count, before, i);
    } else {
      NoCallYet(count, before, i);
    }
  }

  lemma {:induction false} NoCallYet(count: int, es: seq<Event>, i: nat)
    requires var r := Exec(Step, Init(count), es); r.Some? && i >= |r.value.workers|
    ensures forall ok :: Complete(i, ok) !in es
  {
    if es != [] {
      var before, e := es[..|es| - 1], es[|es| - 1];
      assert es == before + [e];
      WorkersStay(Exec(Step, Init(count), before).value, e);
      NoCallYet(count, before, i);
    }
  }

  lemma WorkersStay(s: State, e: Event)
    requires Step(s, e).Some?
    ensures |s.workers| <= |Step(s, e).value.workers|
    ensures e.Complete? ==> e.worker < |s.workers|
  {}

  /** However the goroutines interleave and whatever fails: at most 20 workers at once, every launched item
      counted once, and errors at most 19 above the successes (or above 2 when there are fewer). */
  lemma FailureBound(count: int, es: seq<Event>)
    requires Exec(Step, Init(count), es).Some?
    ensures var s := Exec(Step, Init(count), es).value;
      var succeeded, failed := Tally(s.workers, Succeeded), Tally(s.workers, Failed);
      && Tally(s.workers, HoldsSlot) <= 20
      && Tally(s.workers, IsRunning) + succeeded + failed == |s.workers|
      && (s.workers != [] ==> |s.workers| <= count)
      && (failed <= succeeded + 19 || failed <= 21)
  {
    RunKeepsInv(count, es);
    TallyPartition(Exec(Step, Init(count), es).value.workers);
  }

  /** A finished batch reports exactly the number of workers that succeeded, no worker is left, and something was
      attempted unless nothing was asked for. */
  lemma ReturnedOutcome(count: int, es: seq<Event>)
    requires var r := Exec(Step, Init(count), es); r.Some? && r.value.loc.Returned?
    ensures var s := Exec(Step, Init(count), es).value;
      && s.loc.result == Tally(s.workers, Succeeded)
      && s.loc.result + Tally(s.workers, Failed) == |s.workers| <= Max(count, 0)
      && (count > 0 ==> |s.workers| > 0)
      && (count <= 0 ==> s.loc.result == 0)
  {
    RunKeepsInv(count, es);
    TallyPartition(Exec(Step, Init(count), es).value.workers);
  }

  /** Over every run the full count was launched exactly if no test stopped the loop early. */
  lemma StoppedOrComplete(count: int, es: seq<Event>)
    requires var r := Exec(Step, Init(count), es); r.Some? && r.value.loc.Returned?
    ensures var s := Exec(Step, Init(count), es).value; s.stopped.None? <==> |s.workers| == Max(count, 0)
  {
    RunKeepsInv(count, es);
  }

  /** The stop test also fires without a single error: a batch whose workers all succeed returns the full count exactly
      if no test saw exactly one completion. */
  lemma AllSuccessOutcome(count: int, es: seq<Event>)
    requires var r := Exec(Step, Init(count), es);
      r.Some? && r.value.loc.Returned? && Tally(r.value.workers, Failed) == 0
    ensures var s := Exec(Step, Init(count), es).value;
      && (s.loc.result == Max(count, 0) <==> s.stopped != Some(Snapshot(0, 1)))
      && (s.stopped != None ==> s.stopped == Some(Snapshot(0, 1)))
      && (count > 0 ==> s.loc.result >= 1)
  {
    RunKeepsInv(count, es);
    ReturnedOutcome(count, es);
    StoppedOrComplete(count, es);
  }

  /** One worker at a time: the loop reads its counters only when no worker is running. */
  function SerialStep(s: State, e: Event): Option<State> {
    if e.LoadErrors? && Tally(s.workers, IsRunning) > 0 then None else Step(s, e)
  }

  ghost predicate SerialShape(s: State) {
    && |s.workers| <= 1
    && match s.loc
       case LoadedErrors(e) => Tally(s.workers, IsRunning) == 0 && e == s.errCount
       case Loaded(e, c) => Tally(s.workers, IsRunning) == 0 && e + c == |s.workers|
       case Spawn => s.workers == []
       case _ => true
  }

  lemma SerialStepKeepsShape(s: State, e: Event)
    requires Accounted(s) && SerialShape(s) && SerialStep(s, e).Some?
    ensures SerialShape(SerialStep(s, e).value)
  {
    StepTallies(s, e);
    TallyPartition(s.workers);
  }

  lemma SerialRunIsRun(count: int, es: seq<Event>)
    ensures Exec(SerialStep, Init(count), es).Some? ==>
      Exec(Step, Init(count), es) == Exec(SerialStep, Init(count), es)
  {}

  /** The fully serial schedule never gets past its first item, even when that item succeeds. */
  lemma SerialRunStopsAtOne(count: int, es: seq<Event>)
    requires var r := Exec(SerialStep, Init(count), es); r.Some? && r.value.loc.Returned?
    ensures var s := Exec(SerialStep, Init(count), es).value;
      && |s.workers| == (if count > 0 then 1 else 0)
      && (Tally(s.workers, Failed) == 0 ==> s.loc.result == if count > 0 then 1 else 0)
  {
    ghost var inv := (s: State) => Inv(s) && SerialShape(s);
    forall s, e | inv(s) && SerialStep(s, e).Some? ensures inv(SerialStep(s, e).value) {
      StepKeepsInv(s, e);
      SerialStepKeepsShape(s, e);
    }
    Invariant(SerialStep, inv, Init(count), es);
    SerialRunIsRun(count, es);
    ReturnedOutcome(count, es);
  }

  // ---------------------------------------------------------------------------------------------
  // Termination
  // ---------------------------------------------------------------------------------------------

  function LocRank(l: Loc): nat {
    match l
    case Top => 4 case LoadedErrors(_) => 3 case Loaded(_, _) => 2 case Spawn => 1 case Wait => 1 case Returned(_) => 0
  }

  function Measure(s: State): int {
    8 * (Max(s.count, 0) - |s.workers|) + LocRank(s.loc) + Tally(s.workers, IsRunning) + Tally(s.workers, HoldsSlot)
  }

  lemma StepDecreasesMeasure(s: State, e: Event)
    requires Inv(s) && Step(s, e).Some?
    ensures Measure(Step(s, e).value) < Measure(s)
  {
    StepTallies(s, e);
  }

  lemma SomeEventEnabled(s: State)
    requires Inv(s) && !s.loc.Returned?
    ensures exists e :: Step(s, e).Some?
  {
    if Tally(s.workers, HoldsSlot) > 0 {
      var w := TallyFind(s.workers, HoldsSlot);
      assert Step(s, if s.workers[w].Running? then Complete(w, true) else Release(w)).Some?;
    } else {
      var e := match s.loc
        case Top => if |s.workers| < s.count then LoadErrors else LeaveLoop
        case LoadedErrors(_) => LoadSucceeded
        case Loaded(_, _) => Test
        case Spawn => Launch
        case _ => Return;
      assert Step(s, e).Some?;
    }
  }

  /** No run is longer than a linear bound, and a run that has not returned can always go on: every batch ends. */
  lemma {:induction false} BatchTerminates(count: int, es: seq<Event>)
    requires Exec(Step, Init(count), es).Some?
    ensures var s := Exec(Step, Init(count), es).value;
      && |es| + Measure(s) <= 8 * Max(count, 0) + 4 && Measure(s) >= 0
      && (!s.loc.Returned? ==> exists e :: Step(s, e).Some?)
  {
    RunKeepsInv(count, es);
    var s := Exec(Step, Init(count), es).value;
    if es != [] {
      var before := es[..|es| - 1];
      BatchTerminates(count, before);
      RunKeepsInv(count, before);
      StepDecreasesMeasure(Exec(Step, Init(count), before).value, es[|es| - 1]);
    }
    if !s.loc.Returned? {
      SomeEventEnabled(s);
    }
  }

  // ---------------------------------------------------------------------------------------------
  // The bound is reached
  // ---------------------------------------------------------------------------------------------

  /** `n` workers start and none of them completes. */
  lemma {:induction false} LaunchOnly(count: int, n: nat) returns (es: seq<Event>, s: State)
    requires n <= MAX_WORKERS && n <= count
    ensures Exec(Step, Init(count), es) == Some(s)
    ensures s.loc == Top && s.count == count && s.created == s.errCount == 0
    ensures |s.workers| == n && forall i :: 0 <= i < n ==> s.workers[i] == Running
  {
    if n == 0 {
      es, s := [], Init(count);
    } else {
      es, s := LaunchOnly(count, n - 1);
      es, s := Extend(Step, Init(count), es, s, LoadErrors);
      es, s := Extend(Step, Init(count), es, s, LoadSucceeded);
      es, s := Extend(Step, Init(count), es, s, Test);
      es, s := Extend(Step, Init(count), es, s, Launch);
    }
  }

  /** Every worker that still holds a slot fails if it has not completed, and gives its slot back. */
  lemma {:induction false} FailAll(count: int, es0: seq<Event>, s0: State) returns (es: seq<Event>, s: State)
    requires Exec(Step, Init(count), es0) == Some(s0)
    ensures Exec(Step, Init(count), es) == Some(s) && Tally(s.workers, HoldsSlot) == 0
    ensures s.loc == s0.loc && s.count == s0.count && |s.workers| == |s0.workers| && s.created == s0.created
    decreases Tally(s0.workers, IsRunning) + Tally(s0.workers, HoldsSlot)
  {
    es, s := es0, s0;
    if Tally(s0.workers, HoldsSlot) > 0 {
      var w := TallyFind(s0.workers, HoldsSlot);
      var e := if s0.workers[w].Running? then Complete(w, false) else Release(w);
      StepTallies(s0, e);
      es, s := Extend(Step, Init(count), es, s, e);
      es, s := FailAll(count, es, s);
    }
  }

  /** A worker fails after the loop has loaded its counters, and its slot goes to one more worker. */
  lemma LateFailure(count: int) returns (es: seq<Event>, s: State)
    requires count > MAX_WORKERS
    ensures Exec(Step, Init(count), es) == Some(s)
    ensures s.loc == Top && s.count == count && |s.workers| == MAX_WORKERS + 1 && s.created == 0
  {
    es, s := LaunchOnly(count, MAX_WORKERS);
    es, s := Extend(Step, Init(count), es, s, LoadErrors);
    es, s := Extend(Step, Init(count), es, s, LoadSucceeded);
    es, s := Extend(Step, Init(count), es, s, Test);
    es, s := Extend(Step, Init(count), es, s, Complete(0, false));
    StepTallies(s, Release(0));
    es, s := Extend(Step, Init(count), es, s, Release(0));
    RunKeepsInv(count, es[..|es| - 1]);
    es, s := Extend(Step, Init(count), es, s, Launch);
  }

  lemma ReturnFrom(count: int, es0: seq<Event>, s0: State) returns (es: seq<Event>, s: State)
    requires Exec(Step, Init(count), es0) == Some(s0) && s0.loc == Top && Tally(s0.workers, HoldsSlot) == 0
    requires |s0.workers| < s0.count ==> Stops(s0.errCount, s0.created)
    ensures Exec(Step, Init(count), es) == Some(s)
    ensures s.loc.Returned? && s.workers == s0.workers
  {
    if |s0.workers| < s0.count {
      es, s := Extend(Step, Init(count), es0, s0, LoadErrors);
      es, s := Extend(Step, Init(count), es, s, LoadSucceeded);
      es, s := Extend(Step, Init(count), es, s, Test);
      es, s := Extend(Step, Init(count), es, s, Return);
    } else {
      es, s := Extend(Step, Init(count), es0, s0, LeaveLoop);
      es, s := Extend(Step, Init(count), es, s, Return);
    }
  }

  /** The bound on errors is the best one: 21 errors and no success are possible. */
  lemma FailureBoundReached(count: int) returns (es: seq<Event>)
    requires count > MAX_WORKERS
    ensures var r := Exec(Step, Init(count), es);
      && r.Some? && r.value.loc.Returned?
      && Tally(r.value.workers, Succeeded) == 0 && Tally(r.value.workers, Failed) == 21
  {
    var s;
    es, s := LateFailure(count);
    es, s := FailAll(count, es, s);
    RunKeepsInv(count, es);
    TallyPartition(s.workers);
    es, s := ReturnFrom(count, es, s);
  }

  // ---------------------------------------------------------------------------------------------
  // The loop itself
  // ---------------------------------------------------------------------------------------------

  /** The loop over its shared counters.  `events` records the run; `Valid` says it is a run of the machine above. */
  class Executor {
    const count: int
    var workers: seq<Worker>
    var created: nat
    var errCount: nat
    ghost var loc: Loc
    ghost var stopped: Option<Snapshot>
    ghost var events: seq<Event>

    ghost function View(): State
      reads this
    {
      State(count, loc, workers, created, errCount, stopped)
    }

    ghost predicate Valid()
      reads this
    {
      Exec(Step, Init(count), events) == Some(View())
    }

    constructor (count: int)
      ensures Valid() && View() == Init(count)
    {
      this.count := count;
      workers, created, errCount := [], 0, 0;
      loc, stopped, events := Top, None, [];
    }

    ghost method Record(e: Event, before: State)
      requires Exec(Step, Init(count), events) == Some(before) && Step(before, e) == Some(View())
      modifies this`events
      ensures Valid() && events == old(events) + [e]
    {
      ExecAppend(Step, Init(count), events, e);
      events := events + [e];
    }

    /** Worker `w` reports its outcome; it keeps its slot until it returns. */
    method Finish(w: nat, ok: bool)
      requires Valid() && w < |workers| && workers[w].Running?
      modifies this`workers, this`created, this`errCount, this`events
      ensures Valid() && workers == old(workers)[w := Finishing(ok)]
    {
      ghost var s := View();
      workers := workers[w := Finishing(ok)];
      if ok {
        created := created + 1;
      } else {
        errCount := errCount + 1;
      }
      Record(Complete(w, ok), s);
    }

    /** Worker `w` returns and gives its slot back. */
    method GiveBack(w: nat)
      requires Valid() && w < |workers| && workers[w].Finishing?
      modifies this`workers, this`events
      ensures Valid() && workers == old(workers)[w := Released(old(workers)[w].ok)]
    {
      ghost var s := View();
      workers := workers[w := Released(workers[w].ok)];
      Record(Release(w), s);
    }

    /** Some worker that holds a slot makes its next move, with whatever outcome its API call has. */
    method WorkerStep()
      requires Valid() && Tally(workers, HoldsSlot) > 0
      modifies this`workers, this`created, this`errCount, this`events
      ensures Valid() && |workers| == |old(workers)|
      ensures Tally(workers, IsRunning) + Tally(workers, HoldsSlot) <
        old(Tally(workers, IsRunning) + Tally(workers, HoldsSlot))
    {
      ghost var i := TallyFind(workers, HoldsSlot);
      var w: nat :| w < |workers| && !workers[w].Released?;
      ghost var before := workers;
      if workers[w].Running? {
        var ok := *;
        Finish(w, ok);
      } else {
        GiveBack(w);
      }
      TallyUpdate(before, w, workers[w], IsRunning);
      TallyUpdate(before, w, workers[w], HoldsSlot);
    }

    /** Any number of worker moves between two steps of the loop. */
    method Interleave()
      requires Valid()
      modifies this`workers, this`created, this`errCount, this`events
      ensures Valid() && |workers| == |old(workers)|
    {
      var more := *;
      while more && Tally(workers, HoldsSlot) > 0
        invariant Valid() && |workers| == |old(workers)|
        decreases Tally(workers, IsRunning) + Tally(workers, HoldsSlot)
      {
        WorkerStep();
        more := *;
      }
    }

    /** `g.Go`: waits for a slot, then starts the next worker. */
    method Go()
      requires Valid() && loc == Spawn
      modifies this`workers, this`created, this`errCount, this`events, this`loc
      ensures Valid() && loc == Top && |workers| == |old(workers)| + 1
    {
      while Tally(workers, HoldsSlot) >= MAX_WORKERS
        invariant Valid() && loc == Spawn && |workers| == |old(workers)|
        decreases Tally(workers, IsRunning) + Tally(workers, HoldsSlot)
      {
        WorkerStep();
      }
      ghost var s := View();
      workers := workers + [Running];
      loc := Top;
      Record(Launch, s);
    }

    /** One pass through the loop up to the test; the caller breaks when it says so. */
    method Check() returns (stop: bool)
      requires Valid() && loc == Top && |workers| < count
      modifies this`workers, this`created, this`errCount, this`events, this`loc, this`stopped
      ensures Valid() && |workers| == |old(workers)| && loc == if stop then Wait else Spawn
    {
      Interleave();
      ghost var s := View();
      var currentErrors := errCount;
      loc := LoadedErrors(currentErrors);
      Record(LoadErrors, s);
      Interleave();
      s := View();
      var currentCreated := created;
      loc := Loaded(currentErrors, currentCreated);
      Record(LoadSucceeded, s);
      s := View();
      var totalAttempted := currentErrors + currentCreated;
      stop := totalAttempted > 0 && currentErrors >= totalAttempted / 2;
      loc := if stop then Wait else Spawn;
      stopped := if stop then Some(Snapshot(currentErrors, currentCreated)) else stopped;
      Record(Test, s);
    }

    /** The whole batch.  Every interleaving and failure pattern of the loop is a run of the machine that returns. */
    method Run() returns (result: nat)
      requires Valid() && View() == Init(count)
      modifies this
      ensures Valid() && loc == Returned(result)
    {
      var i := 0;
      var stop := false;
      while i < count && !stop
        invariant Valid() && |workers| == i && (i <= count || i == 0)
        invariant loc == if stop then Wait else Top
        decreases count - i, !stop
      {
        stop := Check();
        if !stop {
          Go();
          i := i + 1;
        }
      }
      if !stop {
        ghost var s := View();
        loc := Wait;
        Record(LeaveLoop, s);
      }
      while Tally(workers, HoldsSlot) > 0
        invariant Valid() && loc == Wait
        decreases Tally(workers, IsRunning) + Tally(workers, HoldsSlot)
      {
        WorkerStep();
      }
      ghost var s := View();
      result := created;
      loc := Returned(result);
      Record(Return, s);
    }
  }
}
