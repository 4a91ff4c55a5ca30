/** The AutoscaleSet finalizer protocol under optimistic concurrency.

    The API server keeps the versions of one object; a write is accepted only if it was computed from the newest one.
    Reconcilers read through a cache that may lag but never runs backwards.  Between a read and a write of one
    reconciler anything may happen: other writes, a user's delete, GitHub calls of other reconcilers, failures.
*/
module Finalizer {
  import opened Machine

  datatype Object = Object(
    finalizer: bool,              // this controller's finalizer
    others: bool,                 // finalizers of somebody else
    deleting: bool,               // the deletion timestamp is set
    scaleSetID: Option<nat>       // the status field
  )

  /** What a reconciler read, and which version that was. */
  datatype Copy = Copy(at: nat, obj: Object)

  datatype Pc =
    | Idle
    | Adding(copy: Copy)                              // ensureFinalizer, before its Update
    | Deleting(copy: Copy)                            // handleDeletion, before the GitHub delete
    | Removing(copy: Copy)                            // handleDeletion, before its Update
    | Creating(copy: Copy)                            // createScaleSet, before the GitHub create
    | Created(read: Copy, id: nat)                    // before its second Get
    | Recording(read: Copy, copy: Copy, id: nat)      // before its status update
    | Refreshing                                      // updateScaleSet, before its second Get
    | Writing(copy: Copy)                             // before a status update that keeps the ID

  datatype Worker = Worker(seen: nat, pc: Pc)

  datatype State = State(
    history: seq<Option<Object>>,     // all versions; None: the object is gone
    workers: seq<Worker>,
    live: set<nat>,                   // scale sets that exist on GitHub
    deleted: set<nat>,                // scale sets a delete call removed from GitHub, reported or not
    nextID: nat
  )

  datatype Event =
    | Touch(others: bool)                                    // spec edit, or a foreign finalizer comes or goes
    | UserDelete
    | Reconcile(w: nat, at: nat)                             // the first Get, answered from version `at`
    | CommitFinalizer(w: nat)
    | GitHubDelete(w: nat, reported: bool, done: bool)
    | CommitRemoval(w: nat)
    | GitHubCreate(w: nat, reported: bool, done: bool)
    | Reget(w: nat, at: nat)
    | CommitStatus(w: nat)
    | ReportError(w: nat, at: nat)                           // updateStatusError: refetch before its status update
    | Fail(w: nat)

  function Init(workers: nat): State {
    State([Some(Object(false, false, false, None))], seq(workers, i => Worker(0, Idle)), {}, {}, 0)
  }

  function Current(s: State): Option<Object> {
    if s.history == [] then None else s.history[|s.history| - 1]
  }

  function Goto(s: State, w: nat, pc: Pc): State
    requires w < |s.workers|
  {
    s.(workers := s.workers[w := s.workers[w].(pc := pc)])
  }

  function Read(s: State, w: nat, at: nat): State
    requires w < |s.workers|
  {
    s.(workers := s.workers[w := s.workers[w].(seen := at)])
  }

  /** A write computed from version `at`: a conflict unless that is the newest one. */
  function Put(s: State, at: nat, obj: Option<Object>): State {
    if at == |s.history| - 1 then s.(history := s.history + [obj]) else s
  }

  /** Where `Reconcile` goes with the object it read. */
  function Dispatch(copy: Copy): Pc {
    var o := copy.obj;
    if o.deleting then
      if !o.finalizer then Idle else if o.scaleSetID.Some? then Deleting(copy) else Removing(copy)
    else if !o.finalizer then Adding(copy)
    else if o.scaleSetID.None? then Creating(copy)
    else Refreshing
  }

  /** The object after this controller's finalizer is taken off; it is gone if nothing else holds it. */
  function Unfinalized(o: Object): Option<Object> {
    if o.deleting && !o.others then None else Some(o.(finalizer := false))
  }

  function PcOf(s: State, w: nat): Pc { if w < |s.workers| then s.workers[w].pc else Idle }

  /** Version `at` may answer a read of worker `w`. */
  predicate MayRead(s: State, w: nat, at: nat) { w < |s.workers| && s.workers[w].seen <= at < |s.history| }

  function Step(s: State, e: Event): Option<State> {
    match e
    case Touch(others) =>
      if Current(s).None? then None
      else
        var o := Current(s).value;
        if others && o.deleting && !o.others then None
        else if !others && o.deleting && !o.finalizer then Some(s.(history := s.history + [None]))
        else Some(s.(history := s.history + [Some(o.(others := others))]))
    case UserDelete =>
      if Current(s).None? then None
      else
        var o := Current(s).value;
        Some(s.(history := s.history + [if o.finalizer || o.others then Some(o.(deleting := true)) else None]))
    case Reconcile(w, at) =>
      if !MayRead(s, w, at) || !PcOf(s, w).Idle? then None
      else
        var t := Read(s, w, at);
        Some(if s.history[at].None? then t else Goto(t, w, Dispatch(Copy(at, s.history[at].value))))
    case CommitFinalizer(w) =>
      (match PcOf(s, w)
       case Adding(c) => Some(Goto(Put(s, c.at, Some(c.obj.(finalizer := true))), w, Idle))
       case _ => None)
    case GitHubDelete(w, reported, done) =>
      (match PcOf(s, w)
       case Deleting(c) =>
         if c.obj.scaleSetID.None? || (reported && !done) then None
         else
           var id := c.obj.scaleSetID.value;
           var t := if done then s.(live := s.live - {id}, deleted := s.deleted + {id}) else s;
           Some(Goto(t, w, if reported then Removing(c) else Idle))
       case _ => None)
    case CommitRemoval(w) =>
      (match PcOf(s, w)
       case Removing(c) => Some(Goto(Put(s, c.at, Unfinalized(c.obj)), w, Idle))
       case _ => None)
    case GitHubCreate(w, reported, done) =>
      (match PcOf(s, w)
       case Creating(c) =>
         if reported && !done then None
         else
           var t := if done then s.(live := s.live + {s.nextID}, nextID := s.nextID + 1) else s;
           Some(Goto(t, w, if reported then Created(c, s.nextID) else Idle))
       case _ => None)
    case Reget(w, at) =>
      if !MayRead(s, w, at) then None
      else
        var t := Read(s, w, at);
        (match PcOf(s, w)
         case Created(r, id) =>
           Some(Goto(t, w, if s.history[at].None? then Idle else Recording(r, Copy(at, s.history[at].value), id)))
         case Refreshing =>
           Some(Goto(t, w, if s.history[at].None? then Idle else Writing(Copy(at, s.history[at].value))))
         case _ => None)
    case CommitStatus(w) =>
      (match PcOf(s, w)
       case Recording(_, c, id) => Some(Goto(Put(s, c.at, Some(c.obj.(scaleSetID := Some(id)))), w, Idle))
       case Writing(c) => Some(Goto(Put(s, c.at, Some(c.obj)), w, Idle))
       case _ => None)
    case ReportError(w, at) =>
      if !MayRead(s, w, at) || !(PcOf(s, w).Idle? || PcOf(s, w).Creating? || PcOf(s, w).Refreshing?) then None
      else
        Some(Goto(Read(s, w, at), w,
                  if s.history[at].None? then Idle else Writing(Copy(at, s.history[at].value))))
    case Fail(w) =>
      if w < |s.workers| then Some(Goto(s, w, Idle)) else None
  }

  // ---------------------------------------------------------------------------------------------
  // What every run keeps
  // ---------------------------------------------------------------------------------------------

  predicate Faithful(s: State, c: Copy, seen: nat) {
    c.at <= seen && c.at < |s.history| && s.history[c.at] == Some(c.obj)
  }

  /** What is known where a reconciler stands. */
  predicate PcInv(s: State, w: Worker) {
    match w.pc
    case Idle => true
    case Adding(c) => Faithful(s, c, w.seen) && !c.obj.finalizer && !c.obj.deleting
    case Deleting(c) => Faithful(s, c, w.seen) && c.obj.finalizer && c.obj.deleting && c.obj.scaleSetID.Some?
    case Removing(c) =>
      Faithful(s, c, w.seen) && c.obj.finalizer && c.obj.deleting
      && (c.obj.scaleSetID.Some? ==> c.obj.scaleSetID.value in s.deleted)
    case Creating(c) => Faithful(s, c, w.seen) && c.obj.finalizer && !c.obj.deleting && c.obj.scaleSetID.None?
    case Created(r, id) => Faithful(s, r, w.seen) && r.obj.finalizer && !r.obj.deleting
    case Recording(r, c, id) =>
      Faithful(s, r, w.seen) && r.obj.finalizer && !r.obj.deleting && Faithful(s, c, w.seen) && r.at <= c.at
    case Refreshing => true
    case Writing(c) => Faithful(s, c, w.seen)
  }

  ghost predicate Inv(s: State) {
    && s.history != []
    && forall w :: 0 <= w < |s.workers| ==> s.workers[w].seen < |s.history| && PcInv(s, s.workers[w])
  }

  /** The versions so far stay what they are; GitHub deletions are remembered. */
  ghost predicate Extends(s: State, t: State) {
    && |s.history| <= |t.history| && s.deleted <= t.deleted
    && forall i :: 0 <= i < |s.history| ==> t.history[i] == s.history[i]
  }

  lemma StepExtends(s: State, e: Event)
    requires Step(s, e).Some?
    ensures Extends(s, Step(s, e).value) && |Step(s, e).value.workers| == |s.workers|
  {}

  lemma StepKeepsInv(s: State, e: Event)
    requires Inv(s) && Step(s, e).Some?
    ensures Inv(Step(s, e).value)
  {
    StepExtends(s, e);
    var t := Step(s, e).value;
    forall w | 0 <= w < |t.workers| ensures t.workers[w].seen < |t.history| && PcInv(t, t.workers[w]) {
      assert PcInv(s, s.workers[w]);
      if t.workers[w] != s.workers[w] {
        MoverKeepsInv(s, e, w);
      }
    }
  }

  lemma MoverKeepsInv(s: State, e: Event, w: nat)
    requires Step(s, e).Some? && Extends(s, Step(s, e).value) && |Step(s, e).value.workers| == |s.workers|
    requires w < |s.workers| && PcInv(s, s.workers[w]) && Step(s, e).value.workers[w] != s.workers[w]
    ensures PcInv(Step(s, e).value, Step(s, e).value.workers[w])
  {
    match e
    case Reconcile(_, _) => ReadKeepsInv(s, e, w);
    case Reget(_, _) => ReadKeepsInv(s, e, w);
    case ReportError(_, _) => ReadKeepsInv(s, e, w);
    case GitHubDelete(_, _, _) =>
    case GitHubCreate(_, _, _) =>
    case _ =>
  }

  lemma ReadKeepsInv(s: State, e: Event, w: nat)
    requires e.Reconcile? || e.Reget? || e.ReportError?
    requires Step(s, e).Some? && |Step(s, e).value.workers| == |s.workers|
    requires w < |s.workers| && PcInv(s, s.workers[w]) && Step(s, e).value.workers[w] != s.workers[w]
    ensures PcInv(Step(s, e).value, Step(s, e).value.workers[w])
  {
    assert e.w == w && Step(s, e).value.history == s.history && Step(s, e).value.deleted == s.deleted;
  }

  lemma RunKeepsInv(n: nat, es: seq<Event>)
    ensures var r := Exec(Step, Init(n), es); r.Some? ==> Inv(r.value)
  {
    forall s, e | Inv(s) && Step(s, e).Some? ensures Inv(Step(s, e).value) { StepKeepsInv(s, e); }
    Invariant(Step, Inv, Init(n), es);
  }

  // ---------------------------------------------------------------------------------------------
  // Scale set IDs: fresh until recorded
  // ---------------------------------------------------------------------------------------------

  /** The scale set a reconciler has created and not recorded yet. */
  function PendingID(pc: Pc): Option<nat> {
    match pc case Created(_, id) => Some(id) case Recording(_, _, id) => Some(id) case _ => None
  }

  predicate Carries(v: Option<Object>, id: nat) { v.Some? && v.value.scaleSetID == Some(id) }

  ghost predicate Unrecorded(s: State, id: nat) {
    && id !in s.deleted
    && forall i :: 0 <= i < |s.history| ==> !Carries(s.history[i], id)
  }

  ghost predicate PendingFresh(s: State) {
    && (forall id :: id >= s.nextID ==> Unrecorded(s, id) && id !in s.live)
    && (forall w :: 0 <= w < |s.workers| && PendingID(s.workers[w].pc).Some? ==>
          PendingID(s.workers[w].pc).value < s.nextID && Unrecorded(s, PendingID(s.workers[w].pc).value))
    && (forall v, w :: 0 <= v < w < |s.workers| && PendingID(s.workers[v].pc).Some? ==>
          PendingID(s.workers[v].pc) != PendingID(s.workers[w].pc))
  }

  /** The ID a step puts on record for the first time, if any. */
  function Records(s: State, e: Event): Option<nat> {
    if e.CommitStatus? then
      match PcOf(s, e.w) case Recording(_, c, id) => if c.at == |s.history| - 1 then Some(id) else None case _ => None
    else None
  }

  lemma StepRecords(s: State, e: Event, id: nat)
    requires Inv(s) && Step(s, e).Some? && Unrecorded(s, id) && Records(s, e) != Some(id)
    ensures Unrecorded(Step(s, e).value, id)
  {
    StepExtends(s, e);
    var t := Step(s, e).value;
    if |t.history| > |s.history| {
      assert !Carries(Current(s), id);
    }
  }

  lemma StepPending(s: State, e: Event, w: nat)
    requires Step(s, e).Some? && w < |s.workers| == |Step(s, e).value.workers|
    ensures var p := PendingID(Step(s, e).value.workers[w].pc);
      p.None? || p == PendingID(s.workers[w].pc) || (p == Some(s.nextID) && e.GitHubCreate? && e.w == w)
    ensures s.nextID <= Step(s, e).value.nextID
    ensures e.GitHubCreate? && e.reported ==> Step(s, e).value.nextID == s.nextID + 1
    ensures PendingID(Step(s, e).value.workers[w].pc).Some? && e.GitHubCreate? && e.w == w ==> e.reported
  {}

  lemma RecorderForgets(s: State, e: Event, w: nat)
    requires PendingFresh(s) && Step(s, e).Some? && w < |s.workers| == |Step(s, e).value.workers|
    requires PendingID(Step(s, e).value.workers[w].pc).Some?
    ensures Records(s, e) != PendingID(Step(s, e).value.workers[w].pc)
  {
    StepPending(s, e, w);
  }

  lemma StepKeepsFresh(s: State, e: Event)
    requires Inv(s) && PendingFresh(s) && Step(s, e).Some?
    ensures PendingFresh(Step(s, e).value)
  {
    StepExtends(s, e);
    var t := Step(s, e).value;
    forall id | id >= t.nextID ensures Unrecorded(t, id) && id !in t.live {
      BeyondNext(s, e, id);
    }
    forall w | 0 <= w < |t.workers| && PendingID(t.workers[w].pc).Some?
      ensures PendingID(t.workers[w].pc).value < t.nextID && Unrecorded(t, PendingID(t.workers[w].pc).value)
    {
      StepPending(s, e, w);
      RecorderForgets(s, e, w);
      StepRecords(s, e, PendingID(t.workers[w].pc).value);
    }
    forall v, w | 0 <= v < w < |t.workers| && PendingID(t.workers[v].pc).Some?
      ensures PendingID(t.workers[v].pc) != PendingID(t.workers[w].pc)
    {
      StepPending(s, e, v);
      StepPending(s, e, w);
    }
  }

  lemma BeyondNext(s: State, e: Event, id: nat)
    requires Inv(s) && PendingFresh(s) && Step(s, e).Some? && id >= Step(s, e).value.nextID
    ensures Unrecorded(Step(s, e).value, id) && id !in Step(s, e).value.live
  {
    assert id >= s.nextID;
    StepRecords(s, e, id);
  }

  ghost predicate Sound(s: State) { Inv(s) && PendingFresh(s) }

  lemma StepKeepsSound(s: State, e: Event)
    requires Sound(s) && Step(s, e).Some?
    ensures Sound(Step(s, e).value)
  {
    StepKeepsInv(s, e);
    StepKeepsFresh(s, e);
  }

  lemma RunKeepsFresh(n: nat, es: seq<Event>)
    ensures var r := Exec(Step, Init(n), es); r.Some? ==> Sound(r.value)
  {
    forall s, e | Sound(s) && Step(s, e).Some? ensures Sound(Step(s, e).value) { StepKeepsSound(s, e); }
    Invariant(Step, Sound, Init(n), es);
  }

  // ---------------------------------------------------------------------------------------------
  // Main results
  // ---------------------------------------------------------------------------------------------

  /** A reconciler attempts a GitHub creation only on what it has read itself: a version that carried the finalizer,
      was not being deleted and had no ID. */
  lemma CreateNeedsFinalizer(n: nat, es: seq<Event>, w: nat, reported: bool, done: bool)
    requires var r := Exec(Step, Init(n), es); r.Some? && Step(r.value, GitHubCreate(w, reported, done)).Some?
    ensures var s := Exec(Step, Init(n), es).value;
      && w < |s.workers| && s.workers[w].pc.Creating?
      && var c := s.workers[w].pc.copy;
         && Faithful(s, c, s.workers[w].seen)
         && c.obj.finalizer && !c.obj.deleting && c.obj.scaleSetID.None?
  {
    RunKeepsInv(n, es);
    var s := Exec(Step, Init(n), es).value;
    assert PcInv(s, s.workers[w]);
  }

  /** Whenever a removal of the finalizer is accepted, the stored ID is nil or was deleted on GitHub. */
  lemma RemovalCommitIsSafe(n: nat, es: seq<Event>, w: nat)
    requires var r := Exec(Step, Init(n), es); r.Some? && Step(r.value, CommitRemoval(w)).Some?
    requires var s := Exec(Step, Init(n), es).value; |Step(s, CommitRemoval(w)).value.history| > |s.history|
    ensures var s := Exec(Step, Init(n), es).value;
      && Current(s).Some? && Current(s).value.finalizer && Current(s).value.deleting
      && (Current(s).value.scaleSetID.Some? ==> Current(s).value.scaleSetID.value in s.deleted)
  {
    RunKeepsInv(n, es);
    AcceptedRemoval(Exec(Step, Init(n), es).value, w);
  }

  lemma AcceptedRemoval(s: State, w: nat)
    requires Inv(s) && Step(s, CommitRemoval(w)).Some?
    requires |Step(s, CommitRemoval(w)).value.history| > |s.history|
    ensures Current(s).Some? && Current(s).value.finalizer && Current(s).value.deleting
    ensures Current(s).value.scaleSetID.Some? ==> Current(s).value.scaleSetID.value in s.deleted
  {
    assert PcInv(s, s.workers[w]);
  }

  /** Version `i` let go of the scale set `id`: it records the ID, and it has no finalizer or the next version does not
      record the ID any more, because it records another one or the object is gone. */
  predicate LetGo(s: State, i: nat, id: nat) {
    && i < |s.history| && Carries(s.history[i], id)
    && (!s.history[i].value.finalizer || (i + 1 < |s.history| && !Carries(s.history[i + 1], id)))
  }

  /** Some recorded scale set was let go although nobody deleted it on GitHub. */
  ghost predicate Dangling(s: State) { exists i, id :: LetGo(s, i, id) && id !in s.deleted }

  /** A status update that records a new ID on an object whose finalizer is already off. */
  predicate LateRecord(s: State, e: Event) {
    && Records(s, e).Some?
    && Current(s).Some? && !Current(s).value.finalizer
  }

  /** The object records a scale set that was not deleted. */
  predicate RecordsLive(s: State) {
    Current(s).Some? && Current(s).value.scaleSetID.Some? && Current(s).value.scaleSetID.value !in s.deleted
  }

  /** A status update that puts a new ID in the place of one whose scale set was not deleted. */
  predicate Overwrites(s: State, e: Event) { Records(s, e).Some? && RecordsLive(s) }

  predicate LetsGo(s: State, e: Event) { LateRecord(s, e) || Overwrites(s, e) }

  lemma StepDangles(s: State, e: Event)
    requires Inv(s) && PendingFresh(s) && !Dangling(s) && Step(s, e).Some?
    ensures Dangling(Step(s, e).value) <==> LetsGo(s, e)
  {
    var t := Step(s, e).value;
    StepExtends(s, e);
    if LetsGo(s, e) {
      assert PcInv(s, s.workers[e.w]);
      var id := PendingID(s.workers[e.w].pc).value;
      assert Unrecorded(s, id);
      if LateRecord(s, e) {
        assert LetGo(t, |s.history|, id) && id !in t.deleted;
      } else {
        assert LetGo(t, |s.history| - 1, Current(s).value.scaleSetID.value);
      }
    } else {
      forall i, id | LetGo(t, i, id) ensures id in t.deleted { LetGoDeleted(s, e, i, id); }
    }
  }

  lemma LetGoDeleted(s: State, e: Event, i: nat, id: nat)
    requires Inv(s) && !Dangling(s) && Step(s, e).Some? && Extends(s, Step(s, e).value) && !LetsGo(s, e)
    requires LetGo(Step(s, e).value, i, id)
    ensures id in Step(s, e).value.deleted
  {
    var last := |s.history| - 1;
    if LetGo(s, i, id) {
    } else if LetGo(s, last, id) {
    } else if e.CommitRemoval? || e.CommitFinalizer? || e.CommitStatus? {
      assert PcInv(s, s.workers[e.w]);
    }
  }

  ghost predicate NeverLate(n: nat, es: seq<Event>) { Never(Step, LateRecord, Init(n), es) }

  ghost predicate NeverDangles(n: nat, es: seq<Event>) { Always(Step, (s: State) => !Dangling(s), Init(n), es) }

  ghost predicate NeverOverwrites(n: nat, es: seq<Event>) { Never(Step, Overwrites, Init(n), es) }

  /** Over a whole run, a recorded scale set is let go undeleted at some moment if and only if some status update
      recorded a new ID on an object whose finalizer was already off, or over an ID whose scale set was not deleted. */
  lemma DanglingComesFromRecords(n: nat, es: seq<Event>)
    requires Exec(Step, Init(n), es).Some?
    ensures NeverDangles(n, es) <==> NeverLate(n, es) && NeverOverwrites(n, es)
  {
    var good := (s: State) => !Dangling(s);
    forall s, e | Sound(s) && Step(s, e).Some? ensures Sound(Step(s, e).value) { StepKeepsSound(s, e); }
    forall s, e | Sound(s) && good(s) && Step(s, e).Some? ensures good(Step(s, e).value) <==> !LetsGo(s, e) {
      StepDangles(s, e);
    }
    GoodUntilBad(Step, Sound, good, LetsGo, Init(n), es);
    NeverEither(Step, LateRecord, Overwrites, LetsGo, Init(n), es);
  }

  // When an ID is overwritten.

  /** The creation that reconciler `w` is in can end by overwriting the ID of a scale set that was not deleted. */
  predicate CanOverwrite(s: State, w: nat) {
    && RecordsLive(s) && w < |s.workers|
    && var pc := s.workers[w].pc;
       pc.Creating? || pc.Created? || (pc.Recording? && pc.copy.at == |s.history| - 1)
  }

  ghost predicate Exposed(s: State) { exists w :: CanOverwrite(s, w) }

  /** A reconcile that reads a version without an ID, and goes on to create, although the object records a scale set. */
  predicate StaleRead(s: State, e: Event) {
    && e.Reconcile? && MayRead(s, e.w, e.at) && s.history[e.at].Some?
    && Dispatch(Copy(e.at, s.history[e.at].value)).Creating? && RecordsLive(s)
  }

  /** A status update that records a new ID while another reconciler is creating too. */
  ghost predicate Doubles(s: State, e: Event) {
    && Records(s, e).Some?
    && exists w :: 0 <= w < |s.workers| && w != e.w && (s.workers[w].pc.Creating? || s.workers[w].pc.Created?)
  }

  ghost predicate Exposes(s: State, e: Event) { StaleRead(s, e) || Doubles(s, e) }

  /** What the object records changes only when a new ID is recorded or the object disappears. */
  lemma StepKeepsRecord(s: State, e: Event)
    requires Inv(s) && Step(s, e).Some?
    ensures var t := Step(s, e).value;
      && (Current(t).Some? ==> Current(s).Some?)
      && (Current(t).Some? && Records(s, e).Some? ==> Current(t).value.scaleSetID == Records(s, e))
      && (Current(t).Some? && Records(s, e).None? ==> Current(t).value.scaleSetID == Current(s).value.scaleSetID)
      && (Records(s, e).Some? ==> Current(t).Some?)
  {
    if e.CommitRemoval? || e.CommitFinalizer? || e.CommitStatus? {
      assert PcInv(s, s.workers[e.w]);
    }
  }

  lemma StepExposes(s: State, e: Event)
    requires Sound(s) && !Exposed(s) && Step(s, e).Some?
    ensures Exposed(Step(s, e).value) <==> Exposes(s, e)
  {
    var t := Step(s, e).value;
    StepKeepsRecord(s, e);
    StepExtends(s, e);
    if StaleRead(s, e) {
      assert CanOverwrite(t, e.w);
    } else if Doubles(s, e) {
      var w :| 0 <= w < |s.workers| && w != e.w && (s.workers[w].pc.Creating? || s.workers[w].pc.Created?);
      assert Unrecorded(s, Records(s, e).value);
      assert CanOverwrite(t, w);
    } else {
      forall w: nat | CanOverwrite(t, w) ensures CanOverwrite(s, w) { ExposedBefore(s, e, w); }
    }
  }

  lemma RecordExposes(s: State, e: Event, w: nat)
    requires Sound(s) && Step(s, e).Some? && Records(s, e).Some? && CanOverwrite(Step(s, e).value, w)
    ensures Doubles(s, e)
  {
    assert w < |s.workers|;
    assert PcInv(s, s.workers[w]);
    assert w != e.w && (s.workers[w].pc.Creating? || s.workers[w].pc.Created?);
  }

  lemma CreatorBefore(s: State, e: Event, w: nat)
    requires Inv(s) && Step(s, e).Some? && Records(s, e).None? && !StaleRead(s, e) && RecordsLive(s)
    requires CanOverwrite(Step(s, e).value, w)
    ensures CanOverwrite(s, w)
  {
    if e.Reconcile? || e.Reget? || e.GitHubCreate? {
      assert w < |s.workers|;
    } else {
      assert PcInv(s, s.workers[w]);
    }
  }

  lemma ExposedBefore(s: State, e: Event, w: nat)
    requires Sound(s) && Step(s, e).Some? && Extends(s, Step(s, e).value) && !Exposes(s, e)
    requires CanOverwrite(Step(s, e).value, w)
    ensures CanOverwrite(s, w)
  {
    StepKeepsRecord(s, e);
    if Records(s, e).Some? {
      RecordExposes(s, e, w);
    } else {
      CreatorBefore(s, e, w);
    }
  }

  /** Over every run, no creation can ever end by overwriting an undeleted ID if and only if no reconcile starts one on
      a stale read and no two creations overlap. */
  lemma ExposedByStaleReads(n: nat, es: seq<Event>)
    requires Exec(Step, Init(n), es).Some?
    ensures Always(Step, (s: State) => !Exposed(s), Init(n), es) <==> Never(Step, Exposes, Init(n), es)
  {
    var good := (s: State) => !Exposed(s);
    forall s, e | Sound(s) && Step(s, e).Some? ensures Sound(Step(s, e).value) { StepKeepsSound(s, e); }
    forall s, e | Sound(s) && good(s) && Step(s, e).Some? ensures good(Step(s, e).value) <==> !Exposes(s, e) {
      StepExposes(s, e);
    }
    GoodUntilBad(Step, Sound, good, Exposes, Init(n), es);
  }

  lemma CreationGoesOn(s: State, w: nat)
    requires Inv(s) && CanOverwrite(s, w) && !s.workers[w].pc.Recording?
    ensures var e := if s.workers[w].pc.Creating? then GitHubCreate(w, true, true) else Reget(w, |s.history| - 1);
      var t := Step(s, e);
      && t.Some? && CanOverwrite(t.value, w)
      && (if s.workers[w].pc.Creating? then t.value.workers[w].pc.Created? else t.value.workers[w].pc.Recording?)
  {}

  /** Exposed means what it says: some continuation of the run does overwrite. */
  lemma ExposedCanOverwrite(n: nat, es0: seq<Event>, s0: State, w: nat) returns (es: seq<Event>, s: State)
    requires Exec(Step, Init(n), es0) == Some(s0) && CanOverwrite(s0, w)
    ensures Exec(Step, Init(n), es) == Some(s) && Step(s, CommitStatus(w)).Some? && Overwrites(s, CommitStatus(w))
    decreases if s0.workers[w].pc.Creating? then 2 else if s0.workers[w].pc.Created? then 1 else 0
  {
    if s0.workers[w].pc.Recording? {
      es, s := es0, s0;
    } else {
      RunKeepsInv(n, es0);
      CreationGoesOn(s0, w);
      var e := if s0.workers[w].pc.Creating? then GitHubCreate(w, true, true) else Reget(w, |s0.history| - 1);
      es, s := Extend(Step, Init(n), es0, s0, e);
      es, s := ExposedCanOverwrite(n, es, s, w);
    }
  }

  lemma UnexposedNeverOverwrites(n: nat, es: seq<Event>)
    requires Exec(Step, Init(n), es).Some? && Never(Step, Exposes, Init(n), es)
    ensures NeverOverwrites(n, es)
  {
    ExposedByStaleReads(n, es);
    var good := (s: State) => !Exposed(s);
    forall s, e | good(s) ensures !Overwrites(s, e) {
      assert Overwrites(s, e) ==> CanOverwrite(s, e.w);
    }
    GoodPreventsBad(Step, good, Overwrites, Init(n), es);
  }

  /** Runs in which nobody else puts a finalizer on the object. */
  function SoleStep(s: State, e: Event): Option<State> {
    if e == Touch(true) then None else Step(s, e)
  }

  ghost predicate FinalizerStays(s: State) {
    && (forall i :: 0 <= i < |s.history| && s.history[i].Some? ==> !s.history[i].value.others)
    && (forall i, j :: 0 <= i <= j < |s.history| && s.history[i].Some? && s.history[j].Some? ==>
          (s.history[i].value.finalizer ==> s.history[j].value.finalizer))
  }

  lemma SoleStepKeepsFinalizer(s: State, e: Event)
    requires Inv(s) && FinalizerStays(s) && SoleStep(s, e).Some?
    ensures FinalizerStays(SoleStep(s, e).value) && !LateRecord(s, e)
  {
    StepExtends(s, e);
    var t := Step(s, e).value;
    if e.CommitRemoval? || e.CommitFinalizer? || e.CommitStatus? {
      assert PcInv(s, s.workers[e.w]);
    }
    if |t.history| > |s.history| && t.history[|s.history|].Some? {
      assert Current(s).Some? && (Current(s).value.finalizer ==> t.history[|s.history|].value.finalizer);
    }
  }

  lemma {:induction false} SoleRunNeverLate(n: nat, es: seq<Event>)
    requires Exec(SoleStep, Init(n), es).Some?
    ensures Exec(Step, Init(n), es) == Exec(SoleStep, Init(n), es)
    ensures FinalizerStays(Exec(Step, Init(n), es).value) && NeverLate(n, es)
  {
    if es != [] {
      var before := es[..|es| - 1];
      SoleRunNeverLate(n, before);
      RunKeepsInv(n, before);
      SoleStepKeepsFinalizer(Exec(Step, Init(n), before).value, es[|es| - 1]);
    }
  }

  /** If this controller's finalizer is the only one, a recorded scale set is let go undeleted exactly by being
      overwritten, and never if no creation starts on a stale read and no two creations overlap. */
  lemma SoleFinalizerNeverDangles(n: nat, es: seq<Event>)
    requires Exec(SoleStep, Init(n), es).Some?
    ensures NeverDangles(n, es) <==> NeverOverwrites(n, es)
    ensures Never(Step, Exposes, Init(n), es) ==> NeverDangles(n, es)
  {
    SoleRunNeverLate(n, es);
    DanglingComesFromRecords(n, es);
    if Never(Step, Exposes, Init(n), es) {
      UnexposedNeverOverwrites(n, es);
    }
  }

  // With one reconciler at a time.

  /** The version from which a reconciler's creation started. */
  function CreationBase(pc: Pc): Option<nat> {
    match pc
    case Creating(c) => Some(c.at)
    case Created(r, _) => Some(r.at)
    case Recording(r, _, _) => Some(r.at)
    case _ => None
  }

  predicate Over(v: Option<Object>) { v.None? || v.value.deleting }

  ghost predicate DeletionStays(s: State) {
    forall i, j :: 0 <= i <= j < |s.history| && Over(s.history[i]) ==> Over(s.history[j])
  }

  predicate Lacks(v: Option<Object>) { v.Some? && !v.value.finalizer }
  predicate Holds(v: Option<Object>) { v.Some? && v.value.finalizer }

  /** Once the finalizer has gone, every reconciler has seen the deletion. */
  ghost predicate RemovalSeen(s: State) {
    forall i, j :: 0 <= i <= j < |s.history| && Holds(s.history[i]) && Lacks(s.history[j]) ==>
      forall w <- s.workers :: w.seen < |s.history| && Over(s.history[w.seen])
  }

  /** Since the version a creation started from, the finalizer has not gone. */
  ghost predicate BaseHeld(s: State, w: Worker) {
    CreationBase(w.pc).Some? ==> forall j :: CreationBase(w.pc).value <= j < |s.history| ==> !Lacks(s.history[j])
  }

  ghost predicate OneReconciler(s: State) {
    && |s.workers| <= 1 && DeletionStays(s) && RemovalSeen(s)
    && forall w <- s.workers :: BaseHeld(s, w)
  }

  lemma StepKeepsDeletion(s: State, e: Event)
    requires Inv(s) && DeletionStays(s) && Step(s, e).Some?
    ensures DeletionStays(Step(s, e).value)
  {
    StepExtends(s, e);
    if e.CommitRemoval? || e.CommitFinalizer? || e.CommitStatus? {
      assert PcInv(s, s.workers[e.w]);
    }
    var t := Step(s, e).value;
    assert |t.history| > |s.history| && Over(Current(s)) ==> Over(t.history[|s.history|]);
  }

  /** A version without the finalizer is made from one, or by an accepted removal. */
  lemma NewLacks(s: State, e: Event)
    requires Inv(s) && Step(s, e).Some? && |Step(s, e).value.history| > |s.history|
    requires Lacks(Current(Step(s, e).value))
    ensures Lacks(Current(s)) || (e.CommitRemoval? && PcOf(s, e.w).Removing?)
  {
    if e.CommitFinalizer? || e.CommitStatus? {
      assert PcInv(s, s.workers[e.w]);
    }
  }

  lemma StepKeepsRemovalSeen(s: State, e: Event)
    requires Inv(s) && OneReconciler(s) && Step(s, e).Some?
    ensures RemovalSeen(Step(s, e).value)
  {
    var t := Step(s, e).value;
    StepExtends(s, e);
    forall i, j, w | 0 <= i <= j < |t.history| && Holds(t.history[i]) && Lacks(t.history[j]) && 0 <= w < |t.workers|
      ensures t.workers[w].seen < |t.history| && Over(t.history[t.workers[w].seen])
    {
      RemovalSeenBefore(s, e, i, j, w);
      SeenAdvances(s, e, w);
    }
  }

  /** If the finalizer has gone after a step, every reconciler had already seen the deletion before it. */
  lemma RemovalSeenBefore(s: State, e: Event, i: nat, j: nat, w: nat)
    requires Inv(s) && OneReconciler(s) && Step(s, e).Some? && Extends(s, Step(s, e).value) && w < |s.workers|
    requires var h := Step(s, e).value.history; i <= j < |h| && Holds(h[i]) && Lacks(h[j])
    ensures Over(s.history[s.workers[w].seen])
  {
    var last := |s.history| - 1;
    assert s.workers[w] in s.workers;
    if j <= last {
      assert Holds(s.history[i]) && Lacks(s.history[j]);
    } else {
      NewLacks(s, e);
      if Lacks(Current(s)) {
        assert Holds(s.history[i]) && Lacks(s.history[last]);
      } else {
        assert PcInv(s, s.workers[w]) && Over(s.history[s.workers[w].pc.copy.at]);
      }
    }
  }

  lemma SeenAdvances(s: State, e: Event, w: nat)
    requires Step(s, e).Some? && w < |s.workers| == |Step(s, e).value.workers|
    ensures s.workers[w].seen <= Step(s, e).value.workers[w].seen
    ensures Step(s, e).value.workers[w].seen == s.workers[w].seen || Step(s, e).value.workers[w].seen < |s.history|
    ensures Step(s, e).value.workers[w].seen != s.workers[w].seen ==> Step(s, e).value.history == s.history
  {}

  /** A version that may still be read, holds the finalizer and is not being deleted: the finalizer has not gone. */
  lemma ReadableStillHeld(s: State, w: nat, at: nat)
    requires OneReconciler(s) && MayRead(s, w, at) && Holds(s.history[at]) && !Over(s.history[at])
    ensures forall j :: at <= j < |s.history| ==> !Lacks(s.history[j])
  {
    assert s.workers[w] in s.workers;
  }

  lemma StepKeepsBase(s: State, e: Event, w: nat)
    requires Inv(s) && OneReconciler(s) && Step(s, e).Some? && w < |s.workers| == |Step(s, e).value.workers|
    ensures BaseHeld(Step(s, e).value, Step(s, e).value.workers[w])
  {
    var t := Step(s, e).value;
    StepExtends(s, e);
    assert PcInv(s, s.workers[w]) && s.workers[w] in s.workers && BaseHeld(s, s.workers[w]);
    if CreationBase(t.workers[w].pc).Some? {
      NewBase(s, e, w);
      if |t.history| > |s.history| && Lacks(Current(t)) {
        NewLacks(s, e);
      }
    }
  }

  lemma NewBase(s: State, e: Event, w: nat)
    requires Inv(s) && OneReconciler(s) && Step(s, e).Some? && w < |s.workers| == |Step(s, e).value.workers|
    requires CreationBase(Step(s, e).value.workers[w].pc).Some?
    ensures var base := CreationBase(Step(s, e).value.workers[w].pc).value;
      && base < |s.history| && (forall j :: base <= j < |s.history| ==> !Lacks(s.history[j]))
      && !(e.CommitRemoval? && e.w == w)
  {
    var t := Step(s, e).value;
    assert PcInv(s, s.workers[w]) && s.workers[w] in s.workers && BaseHeld(s, s.workers[w]);
    if e.Reconcile? && e.w == w {
      ReadableStillHeld(s, w, e.at);
    }
  }

  lemma OneReconcilerNotLate(s: State, e: Event)
    requires Inv(s) && OneReconciler(s) && Step(s, e).Some?
    ensures !LateRecord(s, e)
  {
    if Records(s, e).Some? {
      assert PcInv(s, s.workers[e.w]) && s.workers[e.w] in s.workers;
    }
  }

  lemma {:induction false} OneReconcilerNeverLate(n: nat, es: seq<Event>)
    requires n <= 1 && Exec(Step, Init(n), es).Some?
    ensures OneReconciler(Exec(Step, Init(n), es).value) && NeverLate(n, es) && Never(Step, Doubles, Init(n), es)
  {
    if es != [] {
      var before := es[..|es| - 1];
      OneReconcilerNeverLate(n, before);
      RunKeepsInv(n, before);
      var s := Exec(Step, Init(n), before).value;
      OneReconcilerNotLate(s, es[|es| - 1]);
      StepExtends(s, es[|es| - 1]);
      StepKeepsDeletion(s, es[|es| - 1]);
      StepKeepsRemovalSeen(s, es[|es| - 1]);
      var t := Exec(Step, Init(n), es).value;
      forall i | 0 <= i < |t.workers| ensures BaseHeld(t, t.workers[i]) { StepKeepsBase(s, es[|es| - 1], i); }
    }
  }

  /** With at most one reconciler working at a time, whatever finalizers others put on the object, a recorded scale set
      is let go undeleted exactly by being overwritten; a creation can overwrite exactly if it starts on a stale read;
      so with fresh reads no recorded scale set is ever let go undeleted. */
  lemma OneReconcilerNeverDangles(n: nat, es: seq<Event>)
    requires n <= 1 && Exec(Step, Init(n), es).Some?
    ensures NeverDangles(n, es) <==> NeverOverwrites(n, es)
    ensures Always(Step, (s: State) => !Exposed(s), Init(n), es) <==> Never(Step, StaleRead, Init(n), es)
    ensures Never(Step, StaleRead, Init(n), es) ==> NeverDangles(n, es)
  {
    OneReconcilerNeverLate(n, es);
    DanglingComesFromRecords(n, es);
    NeverEither(Step, StaleRead, Doubles, Exposes, Init(n), es);
    ExposedByStaleReads(n, es);
    if Never(Step, Exposes, Init(n), es) {
      UnexposedNeverOverwrites(n, es);
    }
  }

  /** With one reconciler and no foreign finalizer it does happen: after the first creation was recorded, a lagging read
      starts a second one, whose ID replaces the first.  The user's delete then removes the second scale set only. */
  lemma StaleReadOverwrites() returns (es: seq<Event>, s: State)
    ensures Exec(Step, Init(1), es) == Some(s) && Current(s).None?
    ensures Dangling(s) && 0 in s.live && 0 !in s.deleted && 1 in s.deleted
  {
    es, s := UntilCreated();
    es, s := RecordTwice(es, s);
    es, s := Extend(Step, Init(1), es, s, UserDelete);
    es, s := Extend(Step, Init(1), es, s, Event.Reconcile(0, 4));
    es, s := Extend(Step, Init(1), es, s, GitHubDelete(0, true, true));
    es, s := Extend(Step, Init(1), es, s, CommitRemoval(0));
    assert LetGo(s, 2, 0);
  }

  lemma RecordTwice(es0: seq<Event>, s0: State) returns (es: seq<Event>, s: State)
    requires Exec(Step, Init(1), es0) == Some(s0) && AfterCreation(s0)
    ensures Exec(Step, Init(1), es) == Some(s)
    ensures |s.history| == 4 && s.history[2] == Some(Object(true, false, false, Some(0)))
    ensures s.history[3] == Some(Object(true, false, false, Some(1)))
    ensures s.workers == [Worker(2, Idle)] && s.live == {0, 1} && s.deleted == {}
  {
    es, s := Extend(Step, Init(1), es0, s0, Reget(0, 1));
    es, s := Extend(Step, Init(1), es, s, CommitStatus(0));
    es, s := Extend(Step, Init(1), es, s, Event.Reconcile(0, 1));
    es, s := Extend(Step, Init(1), es, s, GitHubCreate(0, true, true));
    es, s := Extend(Step, Init(1), es, s, Reget(0, 2));
    es, s := Extend(Step, Init(1), es, s, CommitStatus(0));
  }

  /** With two reconcilers and a foreign finalizer it does happen: one creates a scale set while the other processes
      the deletion, and the first then records its ID on an object that nobody will clean up any more. */
  lemma TwoReconcilersCanDangle() returns (es: seq<Event>, s: State)
    ensures Exec(Step, Init(2), es) == Some(s)
    ensures Dangling(s) && 0 in s.live && Current(s) == Some(Object(false, true, true, Some(0)))
  {
    es, s := UntilRemoving();
    es, s := Extend(Step, Init(2), es, s, CommitRemoval(1));
    es, s := Extend(Step, Init(2), es, s, GitHubCreate(0, true, true));
    es, s := Extend(Step, Init(2), es, s, Reget(0, 4));
    es, s := Extend(Step, Init(2), es, s, CommitStatus(0));
    assert LetGo(s, 5, 0);
  }

  lemma UntilRemoving() returns (es: seq<Event>, s: State)
    ensures Exec(Step, Init(2), es) == Some(s)
    ensures |s.history| == 4 && s.history[3] == Some(Object(true, true, true, None))
    ensures s.workers == [Worker(2, Creating(Copy(2, Object(true, true, false, None)))),
                          Worker(3, Removing(Copy(3, Object(true, true, true, None))))]
    ensures s.live == {} && s.deleted == {} && s.nextID == 0
  {
    es, s := [], Init(2);
    es, s := Extend(Step, Init(2), es, s, Touch(true));
    es, s := Extend(Step, Init(2), es, s, Reconcile(0, 1));
    es, s := Extend(Step, Init(2), es, s, CommitFinalizer(0));
    es, s := Extend(Step, Init(2), es, s, Reconcile(0, 2));
    es, s := Extend(Step, Init(2), es, s, UserDelete);
    es, s := Extend(Step, Init(2), es, s, Reconcile(1, 3));
  }

  // What the protocol does not promise.

  /** A scale set that exists on GitHub, is on no version of the object and in no reconciler's hands. */
  ghost predicate Lost(s: State, id: nat) {
    && id in s.live && id < s.nextID && Unrecorded(s, id)
    && forall w <- s.workers :: PendingID(w.pc) != Some(id)
  }

  /** Once lost, a scale set stays on GitHub for ever: no continuation of the run deletes it. */
  lemma StepKeepsLost(s: State, e: Event, id: nat)
    requires Inv(s) && Lost(s, id) && Step(s, e).Some?
    ensures Lost(Step(s, e).value, id)
  {
    StepExtends(s, e);
    var t := Step(s, e).value;
    forall w | 0 <= w < |t.workers| ensures PendingID(t.workers[w].pc) != Some(id) {
      assert s.workers[w] in s.workers;
      StepPending(s, e, w);
    }
    if Records(s, e).Some? {
      assert s.workers[e.w] in s.workers;
    }
    StepRecords(s, e, id);
    if e.GitHubDelete? {
      assert PcInv(s, s.workers[e.w]);
    }
  }

  /** A scale set that was created and never recorded exists on GitHub. */
  ghost predicate UnrecordedLive(s: State) { forall id: nat :: id < s.nextID && Unrecorded(s, id) ==> id in s.live }

  lemma StepKeepsLive(s: State, e: Event)
    requires Sound(s) && UnrecordedLive(s) && Step(s, e).Some?
    ensures UnrecordedLive(Step(s, e).value)
  {
    var t := Step(s, e).value;
    StepExtends(s, e);
    forall id: nat | id < t.nextID && Unrecorded(t, id) ensures id in t.live {
      assert forall i :: 0 <= i < |s.history| ==> t.history[i] == s.history[i];
      assert Unrecorded(s, id);
    }
  }

  ghost predicate Tracked(s: State) { Sound(s) && UnrecordedLive(s) }

  /** The steps that drop the scale set `id`: a creation that takes effect unreported, a reconciler that gives up with
      the ID in hand, that finds the object gone on its refetch, or whose status update meets a conflict. */
  predicate Drops(s: State, e: Event, id: nat) {
    match e
    case GitHubCreate(w, reported, done) => done && !reported && id == s.nextID
    case Fail(w) => PendingID(PcOf(s, w)) == Some(id)
    case Reget(w, at) =>
      PcOf(s, w).Created? && PcOf(s, w).id == id && at < |s.history| && s.history[at].None?
    case CommitStatus(w) =>
      PcOf(s, w).Recording? && PcOf(s, w).id == id && PcOf(s, w).copy.at != |s.history| - 1
    case _ => false
  }

  lemma DropLoses(s: State, e: Event, id: nat)
    requires Tracked(s) && Step(s, e).Some? && Drops(s, e, id)
    ensures Lost(Step(s, e).value, id)
  {
    var t := Step(s, e).value;
    StepExtends(s, e);
    assert Unrecorded(s, id);
    StepRecords(s, e, id);
    forall w | 0 <= w < |t.workers| ensures PendingID(t.workers[w].pc) != Some(id) {
      StepPending(s, e, w);
    }
  }

  lemma OnlyDropsLose(s: State, e: Event, id: nat)
    requires Tracked(s) && Step(s, e).Some? && !Lost(s, id) && Lost(Step(s, e).value, id)
    ensures Drops(s, e, id)
  {
    var t := Step(s, e).value;
    StepExtends(s, e);
    if id < s.nextID {
      assert Unrecorded(s, id) by {
        assert forall i :: 0 <= i < |s.history| ==> t.history[i] == s.history[i];
      }
      assert id in s.live;
      var v :| v in s.workers && PendingID(v.pc) == Some(id);
      var w :| 0 <= w < |s.workers| && s.workers[w] == v;
      assert t.workers[w] in t.workers;
      HolderLetsGo(s, e, w, id);
      RecordedIsNot(s, e, id);
    } else {
      assert e.GitHubCreate? && id == s.nextID;
      assert t.workers[e.w] in t.workers;
    }
  }

  lemma RecordedIsNot(s: State, e: Event, id: nat)
    requires Step(s, e).Some? && Unrecorded(Step(s, e).value, id)
    ensures Records(s, e) != Some(id)
  {
    if e.CommitStatus? && Records(s, e).Some? {
      assert Carries(Step(s, e).value.history[|s.history|], Records(s, e).value);
    }
  }

  lemma HolderLetsGo(s: State, e: Event, w: nat, id: nat)
    requires Step(s, e).Some? && w < |s.workers| == |Step(s, e).value.workers|
    requires PendingID(s.workers[w].pc) == Some(id) && PendingID(Step(s, e).value.workers[w].pc) != Some(id)
    ensures Drops(s, e, id) || Records(s, e) == Some(id)
  {}

  /** Exactly the drops lose a scale set, and what is lost stays lost. */
  lemma StepLoses(s: State, e: Event, id: nat)
    requires Tracked(s) && Step(s, e).Some?
    ensures Lost(Step(s, e).value, id) <==> Lost(s, id) || Drops(s, e, id)
  {
    if Lost(s, id) {
      StepKeepsLost(s, e, id);
    } else if Drops(s, e, id) {
      DropLoses(s, e, id);
    } else if Lost(Step(s, e).value, id) {
      OnlyDropsLose(s, e, id);
    }
  }

  /** Over every run, a scale set is lost at the end if and only if some step of the run dropped it. */
  lemma LostWhenDropped(n: nat, es: seq<Event>, id: nat)
    requires Exec(Step, Init(n), es).Some?
    ensures Lost(Exec(Step, Init(n), es).value, id) <==> !Never(Step, (s, e) => Drops(s, e, id), Init(n), es)
  {
    var kept := (s: State) => !Lost(s, id);
    var drops := (s: State, e: Event) => Drops(s, e, id);
    forall s, e | Tracked(s) && Step(s, e).Some? ensures Tracked(Step(s, e).value) { StepKeepsTracked(s, e); }
    forall s, e | Tracked(s) && Step(s, e).Some? ensures kept(Step(s, e).value) <==> kept(s) && !drops(s, e) {
      StepLoses(s, e, id);
    }
    GoodAtEnd(Step, Tracked, kept, drops, Init(n), es);
  }

  lemma StepKeepsTracked(s: State, e: Event)
    requires Tracked(s) && Step(s, e).Some?
    ensures Tracked(Step(s, e).value)
  {
    StepKeepsSound(s, e);
    StepKeepsLive(s, e);
  }

  lemma RunKeepsTracked(n: nat, es: seq<Event>)
    ensures var r := Exec(Step, Init(n), es); r.Some? ==> Tracked(r.value)
  {
    forall s, e | Tracked(s) && Step(s, e).Some? ensures Tracked(Step(s, e).value) { StepKeepsTracked(s, e); }
    Invariant(Step, Tracked, Init(n), es);
  }

  // Scale sets that nothing looks after any more.

  predicate Held(s: State, id: nat) { exists w :: 0 <= w < |s.workers| && PendingID(s.workers[w].pc) == Some(id) }

  /** A scale set that was created and not deleted, is not on the current version and in no reconciler's hands. */
  predicate Astray(s: State, id: nat) {
    id < s.nextID && id !in s.deleted && !Carries(Current(s), id) && !Held(s, id)
  }

  /** The steps by which the object stops recording the undeleted scale set `id`: another ID replaces it, or the object
      disappears without this controller's doing. */
  predicate Leaves(s: State, e: Event, id: nat) {
    && Carries(Current(s), id) && id !in s.deleted
    && match e
       case Touch(others) => !others && Current(s).value.deleting && !Current(s).value.finalizer
       case UserDelete => !Current(s).value.finalizer && !Current(s).value.others
       case CommitStatus(_) => Records(s, e).Some?
       case _ => false
  }

  predicate Strays(s: State, e: Event, id: nat) { Drops(s, e, id) || Leaves(s, e, id) }

  /** A reconciler that read an earlier version deletes the scale set after all. */
  predicate Removes(s: State, e: Event, id: nat) {
    e.GitHubDelete? && e.done && PcOf(s, e.w).Deleting? && PcOf(s, e.w).copy.obj.scaleSetID == Some(id)
  }

  lemma StepHeld(s: State, e: Event, id: nat)
    requires Step(s, e).Some? && id < s.nextID
    ensures Held(Step(s, e).value, id) ==> Held(s, id)
    ensures Held(s, id) && !Held(Step(s, e).value, id) ==> Drops(s, e, id) || Records(s, e) == Some(id)
  {
    StepExtends(s, e);
    var t := Step(s, e).value;
    if w: nat :| w < |t.workers| && PendingID(t.workers[w].pc) == Some(id) {
      StepPending(s, e, w);
    }
    if w: nat :| w < |s.workers| && PendingID(s.workers[w].pc) == Some(id) {
      if PendingID(t.workers[w].pc) != Some(id) {
        HolderLetsGo(s, e, w, id);
      }
    }
  }

  lemma StepCarries(s: State, e: Event, id: nat)
    requires Sound(s) && Step(s, e).Some? && Carries(Current(s), id) && id !in s.deleted
    ensures Carries(Current(Step(s, e).value), id) <==> !Leaves(s, e, id)
  {
    StepKeepsRecord(s, e);
    if Records(s, e).Some? {
      assert Unrecorded(s, Records(s, e).value);
    } else if e.CommitRemoval? || e.CommitFinalizer? || e.CommitStatus? {
      assert PcInv(s, s.workers[e.w]);
    }
  }

  lemma StepDeletes(s: State, e: Event, id: nat)
    requires Step(s, e).Some?
    ensures id in Step(s, e).value.deleted <==> id in s.deleted || Removes(s, e, id)
  {}

  lemma AstrayStays(s: State, e: Event, id: nat)
    requires Sound(s) && Step(s, e).Some? && Astray(s, id) && !Removes(s, e, id)
    ensures Astray(Step(s, e).value, id)
  {
    StepHeld(s, e, id);
    StepDeletes(s, e, id);
    StepKeepsRecord(s, e);
    RecordedWasHeld(s, e);
  }

  lemma RecordedWasHeld(s: State, e: Event)
    ensures Records(s, e).Some? ==> Held(s, Records(s, e).value)
  {
    if Records(s, e).Some? {
      assert PendingID(s.workers[e.w].pc) == Records(s, e);
    }
  }

  lemma StraysAreAstray(s: State, e: Event, id: nat)
    requires Tracked(s) && Step(s, e).Some? && Strays(s, e, id)
    ensures Astray(Step(s, e).value, id)
  {
    var t := Step(s, e).value;
    if Drops(s, e, id) {
      DropLoses(s, e, id);
      assert forall w :: 0 <= w < |t.workers| ==> t.workers[w] in t.workers;
      assert t.history != [] ==> !Carries(t.history[|t.history| - 1], id);
    } else {
      assert !Unrecorded(s, id) && !Held(s, id);
      StepCarries(s, e, id);
      StepHeld(s, e, id);
      StepDeletes(s, e, id);
    }
  }

  lemma OnlyStraysAreAstray(s: State, e: Event, id: nat)
    requires Tracked(s) && Step(s, e).Some? && !Astray(s, id) && Astray(Step(s, e).value, id)
    ensures Strays(s, e, id)
  {
    var t := Step(s, e).value;
    StepDeletes(s, e, id);
    if id >= s.nextID {
      assert e.GitHubCreate? && id == s.nextID;
      assert e.w < |t.workers| && PendingID(t.workers[e.w].pc) == Some(id) ==> Held(t, id);
    } else if Carries(Current(s), id) {
      StepCarries(s, e, id);
    } else {
      StepHeld(s, e, id);
      StepKeepsRecord(s, e);
    }
  }

  /** Exactly these steps lead a scale set astray, and only a deletion decided on an earlier version ends it. */
  lemma StepStrays(s: State, e: Event, id: nat)
    requires Tracked(s) && Step(s, e).Some?
    ensures Astray(Step(s, e).value, id) <==> (Astray(s, id) && !Removes(s, e, id)) || Strays(s, e, id)
  {
    StepDeletes(s, e, id);
    if Strays(s, e, id) {
      StraysAreAstray(s, e, id);
    } else if Astray(s, id) {
      if !Removes(s, e, id) {
        AstrayStays(s, e, id);
      }
    } else if Astray(Step(s, e).value, id) {
      OnlyStraysAreAstray(s, e, id);
    }
  }

  /** Over every run, a scale set goes astray at some moment if and only if some step drops it, overwrites its ID, or
      lets the object disappear while it records the ID. */
  lemma AstrayWhenLeft(n: nat, es: seq<Event>, id: nat)
    requires Exec(Step, Init(n), es).Some?
    ensures Always(Step, (s: State) => !Astray(s, id), Init(n), es) <==>
      Never(Step, (s: State, e: Event) => Strays(s, e, id), Init(n), es)
  {
    var good := (s: State) => !Astray(s, id);
    var bad := (s: State, e: Event) => Strays(s, e, id);
    forall s, e | Tracked(s) && Step(s, e).Some? ensures Tracked(Step(s, e).value) { StepKeepsTracked(s, e); }
    forall s, e | Tracked(s) && good(s) && Step(s, e).Some? ensures good(Step(s, e).value) <==> !bad(s, e) {
      StepStrays(s, e, id);
    }
    GoodUntilBad(Step, Tracked, good, bad, Init(n), es);
  }

  /** Where a scale set that was created is now: on the current version, deleted, with a reconciler, left behind by an
      earlier version, or lost without ever being recorded. */
  datatype Whereabouts = OnCurrent | Deleted | InHand(w: nat) | LeftBehind | Unknown

  ghost predicate Found(s: State, id: nat, p: Whereabouts) {
    match p
    case OnCurrent => Carries(Current(s), id) && id !in s.deleted
    case Deleted => id in s.deleted
    case InHand(w) => w < |s.workers| && PendingID(s.workers[w].pc) == Some(id)
    case LeftBehind => !Unrecorded(s, id) && !Carries(Current(s), id) && id !in s.deleted
    case Unknown => Lost(s, id)
  }

  /** Over every run each created scale set is in exactly one of these places; it is astray in the last two; and one that
      an earlier version left behind was let go undeleted. */
  lemma EveryScaleSetAccounted(n: nat, es: seq<Event>, id: nat)
    requires Exec(Step, Init(n), es).Some? && id < Exec(Step, Init(n), es).value.nextID
    ensures var s := Exec(Step, Init(n), es).value;
      && (exists p :: Found(s, id, p) && forall q :: Found(s, id, q) ==> q == p)
      && (Astray(s, id) <==> Found(s, id, LeftBehind) || Found(s, id, Unknown))
      && (Found(s, id, LeftBehind) ==> Dangling(s))
  {
    RunKeepsTracked(n, es);
    var s := Exec(Step, Init(n), es).value;
    OnePlace(s, id);
    AstrayPlaces(s, id);
    if Found(s, id, LeftBehind) {
      var i: nat :| i < |s.history| && Carries(s.history[i], id);
      LastCarrier(s, id, i);
    }
  }

  lemma OnePlace(s: State, id: nat)
    requires Tracked(s) && id < s.nextID
    ensures exists p :: Found(s, id, p) && forall q :: Found(s, id, q) ==> q == p
  {
    if w: nat :| Found(s, id, InHand(w)) {
      HeldOnly(s, id, w);
      assert forall q :: Found(s, id, q) ==> q == InHand(w);
    } else if Unrecorded(s, id) {
      forall v | v in s.workers ensures PendingID(v.pc) != Some(id) {
        var w :| 0 <= w < |s.workers| && s.workers[w] == v;
        assert !Found(s, id, InHand(w));
      }
      CurrentIsVersion(s, id);
      assert Found(s, id, Unknown);
    } else {
      assert Found(s, id, if id in s.deleted then Deleted
                          else if Carries(Current(s), id) then OnCurrent else LeftBehind);
    }
  }

  lemma CurrentIsVersion(s: State, id: nat)
    ensures Carries(Current(s), id) ==> !Unrecorded(s, id)
  {
    if s.history != [] {
      assert Current(s) == s.history[|s.history| - 1];
    }
  }

  lemma HeldOnly(s: State, id: nat, w: nat)
    requires Tracked(s) && Found(s, id, InHand(w))
    ensures Unrecorded(s, id) && !Lost(s, id) && !Carries(Current(s), id)
    ensures forall v: nat :: Found(s, id, InHand(v)) ==> v == w
  {
    assert s.workers[w] in s.workers;
    CurrentIsVersion(s, id);
  }

  lemma AstrayPlaces(s: State, id: nat)
    requires Tracked(s) && id < s.nextID
    ensures Astray(s, id) <==> Found(s, id, LeftBehind) || Found(s, id, Unknown)
  {
    CurrentIsVersion(s, id);
    assert forall w :: 0 <= w < |s.workers| ==> s.workers[w] in s.workers;
    if Held(s, id) {
      var w :| 0 <= w < |s.workers| && PendingID(s.workers[w].pc) == Some(id);
      HeldOnly(s, id, w);
    } else {
      forall v | v in s.workers ensures PendingID(v.pc) != Some(id) {
        var w :| 0 <= w < |s.workers| && s.workers[w] == v;
      }
    }
  }

  lemma {:induction false} LastCarrier(s: State, id: nat, i: nat)
    requires i < |s.history| && Carries(s.history[i], id) && Found(s, id, LeftBehind)
    ensures Dangling(s)
    decreases |s.history| - i
  {
    if i + 1 < |s.history| && Carries(s.history[i + 1], id) {
      LastCarrier(s, id, i + 1);
    } else {
      assert LetGo(s, i, id);
    }
  }

  lemma LostForever(n: nat, es0: seq<Event>, es: seq<Event>, id: nat)
    requires Exec(Step, Init(n), es0).Some? && Lost(Exec(Step, Init(n), es0).value, id)
    requires Exec(Step, Exec(Step, Init(n), es0).value, es).Some?
    ensures Lost(Exec(Step, Exec(Step, Init(n), es0).value, es).value, id)
  {
    RunKeepsInv(n, es0);
    var inv := (s: State) => Inv(s) && Lost(s, id);
    forall s, e | inv(s) && Step(s, e).Some? ensures inv(Step(s, e).value) {
      StepKeepsInv(s, e);
      StepKeepsLost(s, e, id);
    }
    Invariant(Step, inv, Exec(Step, Init(n), es0).value, es);
  }

  /** One reconciler is enough to lose one: its status update meets a conflict with the user's delete, and the next
      reconcile finds no ID to delete, takes the finalizer off and lets the object go. */
  lemma ConflictLosesScaleSet() returns (es: seq<Event>, s: State)
    ensures Exec(Step, Init(1), es) == Some(s) && Current(s).None? && Lost(s, 0)
  {
    es, s := UntilCreated();
    es, s := Extend(Step, Init(1), es, s, UserDelete);
    es, s := Extend(Step, Init(1), es, s, Reget(0, 1));
    es, s := Extend(Step, Init(1), es, s, CommitStatus(0));
    es, s := Extend(Step, Init(1), es, s, Reconcile(0, 2));
    es, s := Extend(Step, Init(1), es, s, CommitRemoval(0));
  }

  /** The first scale set was created, and its reconciler is about to refetch the object. */
  ghost predicate AfterCreation(s: State) {
    && s.history == [Some(Object(false, false, false, None)), Some(Object(true, false, false, None))]
    && s.workers == [Worker(1, Created(Copy(1, Object(true, false, false, None)), 0))]
    && s.live == {0} && s.deleted == {} && s.nextID == 1
  }

  lemma UntilCreated() returns (es: seq<Event>, s: State)
    ensures Exec(Step, Init(1), es) == Some(s) && AfterCreation(s)
  {
    es, s := [], Init(1);
    es, s := Extend(Step, Init(1), es, s, Reconcile(0, 0));
    es, s := Extend(Step, Init(1), es, s, CommitFinalizer(0));
    es, s := Extend(Step, Init(1), es, s, Reconcile(0, 1));
    es, s := Extend(Step, Init(1), es, s, GitHubCreate(0, true, true));
  }

  // ---------------------------------------------------------------------------------------------
  // The reconciler
  // ---------------------------------------------------------------------------------------------

  function Actor(e: Event): Option<nat> {
    match e
    case Touch(_) => None
    case UserDelete => None
    case Reconcile(w, _) => Some(w)
    case CommitFinalizer(w) => Some(w)
    case GitHubDelete(w, _, _) => Some(w)
    case CommitRemoval(w) => Some(w)
    case GitHubCreate(w, _, _) => Some(w)
    case Reget(w, _) => Some(w)
    case CommitStatus(w) => Some(w)
    case ReportError(w, _) => Some(w)
    case Fail(w) => Some(w)
  }

  lemma OthersLeaveAlone(s: State, e: Event, w: nat)
    requires Step(s, e).Some? && Actor(e) != Some(w)
    ensures |Step(s, e).value.workers| == |s.workers| && |s.history| <= |Step(s, e).value.history|
    ensures w < |s.workers| ==> Step(s, e).value.workers[w] == s.workers[w]
  {}

  /** What a reconciler does in a step, whatever version it reads. */
  datatype Deed =
    | ReadObject
    | SaveFinalizer
    | DeleteRemote(reported: bool, done: bool)
    | SaveRemoval
    | CreateRemote(reported: bool, done: bool)
    | Refetch
    | SaveStatus
    | RefetchForError
    | GiveUp

  function DeedOf(e: Event): Deed
    requires Actor(e).Some?
  {
    match e
    case Reconcile(_, _) => ReadObject
    case CommitFinalizer(_) => SaveFinalizer
    case GitHubDelete(_, reported, done) => DeleteRemote(reported, done)
    case CommitRemoval(_) => SaveRemoval
    case GitHubCreate(_, reported, done) => CreateRemote(reported, done)
    case Reget(_, _) => Refetch
    case CommitStatus(_) => SaveStatus
    case ReportError(_, _) => RefetchForError
    case Fail(_) => GiveUp
  }

  /** What reconciler `w` does in a run. */
  function DeedsOf(es: seq<Event>, w: nat): seq<Deed> {
    if es == [] then []
    else
      var e := es[|es| - 1];
      DeedsOf(es[..|es| - 1], w) + if Actor(e) == Some(w) then [DeedOf(e)] else []
  }

  lemma DeedsPush(es: seq<Event>, e: Event, w: nat)
    ensures DeedsOf(es + [e], w) == DeedsOf(es, w) + if Actor(e) == Some(w) then [DeedOf(e)] else []
  {
    assert (es + [e])[..|es|] == es;
  }

  /** How the calls of one reconcile turn out: whether the first read, the refetch and the refetch for an error report
      are answered, a write of the finalizer is sent, the client built, the scale set deleted, created with or without
      a report, or found, its labels brought up to date, the status sent. */
  datatype Luck = Luck(first: bool, second: bool, third: bool, sent: bool, client: bool, deleted: bool, created: bool,
                       silently: bool, found: bool, labels: bool, status: bool)

  function StatusDeeds(l: Luck): seq<Deed> { [if l.status then SaveStatus else GiveUp] }

  function ReportDeeds(l: Luck, gone: bool): seq<Deed> {
    if !l.third then [GiveUp] else [RefetchForError] + if gone then [] else StatusDeeds(l)
  }

  function DeletionDeeds(o: Object, l: Luck): seq<Deed> {
    if !o.finalizer then []
    else if o.scaleSetID.Some? && !l.deleted then [DeleteRemote(false, l.silently)]
    else (if o.scaleSetID.Some? then [DeleteRemote(true, true)] else []) + [if l.sent then SaveRemoval else GiveUp]
  }

  function CreationDeeds(l: Luck, gone: bool): seq<Deed> {
    [CreateRemote(l.created, l.created || l.silently)] +
      if !l.created then ReportDeeds(l, gone)
      else if !l.second then [GiveUp]
      else [Refetch] + if gone then [] else StatusDeeds(l)
  }

  /** `again` is whether the object is gone when it is refetched a second time. */
  function UpdateDeeds(l: Luck, gone: bool, again: bool): seq<Deed> {
    if !l.found then ReportDeeds(l, gone)
    else if !l.second then [GiveUp]
    else [Refetch] + if gone then [] else if l.labels then StatusDeeds(l) else [GiveUp] + ReportDeeds(l, again)
  }

  function ActiveDeeds(o: Object, l: Luck, gone: bool, again: bool): seq<Deed> {
    if !l.client then ReportDeeds(l, gone)
    else if o.scaleSetID.None? then CreationDeeds(l, gone)
    else UpdateDeeds(l, gone, again)
  }

  /** The whole reconcile of an object as it was read. */
  function ObjectDeeds(o: Object, l: Luck, gone: bool, again: bool): seq<Deed> {
    if o.deleting then DeletionDeeds(o, l)
    else if !o.finalizer then [if l.sent then SaveFinalizer else GiveUp]
    else ActiveDeeds(o, l, gone, again)
  }

  predicate Saves(d: Deed) { d.SaveFinalizer? || d.SaveRemoval? || d.SaveStatus? }

  /** Where a step may stand on the path of a reconcile of `o`: the finalizer is put on an object that lacks it and is
      not being deleted, and taken off one that is, right after its scale set, if it records one, was deleted; GitHub is
      asked to create only for an object with the finalizer and no ID, and to delete only for one being deleted with an
      ID; a status is written only from a refetch made just before. */
  predicate Fits(o: Object, ds: seq<Deed>, i: nat)
    requires i < |ds|
  {
    match ds[i]
    case SaveFinalizer => !o.finalizer && !o.deleting
    case SaveRemoval =>
      o.finalizer && o.deleting && (o.scaleSetID.Some? ==> i > 0 && ds[i - 1] == DeleteRemote(true, true))
    case CreateRemote(_, _) => o.finalizer && !o.deleting && o.scaleSetID.None?
    case DeleteRemote(_, _) => o.finalizer && o.deleting && o.scaleSetID.Some?
    case SaveStatus => i > 0 && ds[i - 1] in {Refetch, RefetchForError}
    case _ => true
  }

  lemma DeedFits(o: Object, l: Luck, gone: bool, again: bool, i: nat)
    requires i < |ObjectDeeds(o, l, gone, again)|
    ensures Fits(o, ObjectDeeds(o, l, gone, again), i)
  {}

  lemma NotTwoSaves(o: Object, l: Luck, gone: bool, again: bool, i: nat, j: nat)
    requires i < j < |ObjectDeeds(o, l, gone, again)|
    ensures var ds := ObjectDeeds(o, l, gone, again); !(Saves(ds[i]) && Saves(ds[j]))
  {}

  /** Every path of a reconcile: each step stands where it may, and the object is written at most once. */
  lemma PathsAreSafe(o: Object, l: Luck, gone: bool, again: bool)
    ensures var ds := ObjectDeeds(o, l, gone, again);
      && (forall i :: 0 <= i < |ds| ==> Fits(o, ds, i))
      && (forall i, j :: 0 <= i < j < |ds| ==> !(Saves(ds[i]) && Saves(ds[j])))
  {
    var ds := ObjectDeeds(o, l, gone, again);
    forall i | 0 <= i < |ds| ensures Fits(o, ds, i) { DeedFits(o, l, gone, again, i); }
    forall i, j | 0 <= i < j < |ds| ensures !(Saves(ds[i]) && Saves(ds[j])) { NotTwoSaves(o, l, gone, again, i, j); }
  }

  /** Every call of the reconcile is answered, and with success. */
  predicate AllWell(l: Luck) {
    && l.first && l.second && l.third && l.sent && l.client && l.deleted && l.created && l.found && l.labels
    && l.status
  }

  /** A reconcile gives up only when one of its calls fails; when all succeed and the object stays, it does what the
      object calls for: puts the finalizer on; creates a scale set and records it; refreshes the status; or deletes the
      recorded scale set and takes the finalizer off. */
  lemma SuccessfulPaths(o: Object, l: Luck, gone: bool, again: bool)
    ensures GiveUp in ObjectDeeds(o, l, gone, again) ==> !AllWell(l)
    ensures var ds := ObjectDeeds(o, l, gone, again);
      AllWell(l) && !gone ==>
        && (!o.deleting && !o.finalizer ==> ds == [SaveFinalizer])
        && (!o.deleting && o.finalizer && o.scaleSetID.None? ==> ds == [CreateRemote(true, true), Refetch, SaveStatus])
        && (!o.deleting && o.finalizer && o.scaleSetID.Some? ==> ds == [Refetch, SaveStatus])
        && (o.deleting && o.finalizer && o.scaleSetID.Some? ==> ds == [DeleteRemote(true, true), SaveRemoval])
        && (o.deleting && o.finalizer && o.scaleSetID.None? ==> ds == [SaveRemoval])
        && (o.deleting && !o.finalizer ==> ds == [])
  {}

  /** For an active object that carries the finalizer, a client that cannot be built, a creation that fails, a scale set
      that is not found and labels that cannot be updated end in a status that reports the error, if the object can be
      refetched and the status is accepted. */
  lemma FailuresAreReported(o: Object, l: Luck, gone: bool, again: bool)
    requires !o.deleting && o.finalizer && l.third && l.status && !gone && !again
    requires !l.client || (if o.scaleSetID.None? then !l.created else !l.found || (l.second && !l.labels))
    ensures var ds := ObjectDeeds(o, l, gone, again);
      |ds| >= 2 && ds[|ds| - 2] == RefetchForError && ds[|ds| - 1] == SaveStatus
  {}

  predicate Alone(es: seq<Event>, w: nat) { forall e <- es :: Actor(e) == Some(w) }

  predicate ReadsNewest(s: State, e: Event) {
    e.Reconcile? || e.Reget? || e.ReportError? ==> e.at == |s.history| - 1
  }

  /** Every read of the run is answered with the newest version. */
  predicate FreshReads(s: State, es: seq<Event>)
    decreases |es|
  {
    es == [] || (ReadsNewest(s, es[0]) && Step(s, es[0]).Some? && FreshReads(Step(s, es[0]).value, es[1..]))
  }

  lemma {:induction false} DeedsConcat(es: seq<Event>, fs: seq<Event>, w: nat)
    ensures DeedsOf(es + fs, w) == DeedsOf(es, w) + DeedsOf(fs, w)
  {
    if fs == [] {
      assert es + fs == es;
    } else {
      DeedsConcat(es, fs[..|fs| - 1], w);
      assert es + fs == (es + fs[..|fs| - 1]) + [fs[|fs| - 1]];
      DeedsPush(es + fs[..|fs| - 1], fs[|fs| - 1], w);
    }
  }

  lemma DeedsHead(es: seq<Event>, w: nat)
    requires Alone(es, w) && es != []
    ensures DeedsOf(es, w) == [DeedOf(es[0])] + DeedsOf(es[1..], w)
  {
    DeedsPush([], es[0], w);
    assert [] + [es[0]] == [es[0]] && es == [es[0]] + es[1..];
    DeedsConcat([es[0]], es[1..], w);
  }

  /** The event of a deed that reads, if it does, the newest of `n` versions. */
  function EventOf(w: nat, d: Deed, n: nat): Event
    requires n > 0
  {
    match d
    case ReadObject => Event.Reconcile(w, n - 1)
    case SaveFinalizer => CommitFinalizer(w)
    case DeleteRemote(reported, done) => GitHubDelete(w, reported, done)
    case SaveRemoval => CommitRemoval(w)
    case CreateRemote(reported, done) => GitHubCreate(w, reported, done)
    case Refetch => Reget(w, n - 1)
    case SaveStatus => CommitStatus(w)
    case RefetchForError => ReportError(w, n - 1)
    case GiveUp => Fail(w)
  }

  lemma EventDetermined(s: State, w: nat, e: Event)
    requires Actor(e) == Some(w) && ReadsNewest(s, e) && s.history != []
    ensures e == EventOf(w, DeedOf(e), |s.history|)
  {}

  lemma ExecHead(s: State, es: seq<Event>)
    requires es != [] && Step(s, es[0]).Some?
    ensures Exec(Step, s, es) == Exec(Step, Step(s, es[0]).value, es[1..])
  {
    assert [es[0]][..0] == [] && es == [es[0]] + es[1..];
    assert Exec(Step, s, []) == Some(s);
    ExecAppend(Step, s, [], es[0]);
    assert [] + [es[0]] == [es[0]];
    ExecConcat(Step, s, [es[0]], Step(s, es[0]).value, es[1..]);
  }

  /** The first step of a run in which only `w` acts. */
  lemma QuietStep(s: State, w: nat, es: seq<Event>, ds: seq<Deed>) returns (t: State, rest: seq<Event>)
    requires Alone(es, w) && FreshReads(s, es) && Exec(Step, s, es).Some? && DeedsOf(es, w) == ds && ds != []
    ensures es != [] && Some(t) == Step(s, es[0]) && rest == es[1..] && Exec(Step, t, rest) == Exec(Step, s, es)
    ensures s.history != [] ==> es[0] == EventOf(w, ds[0], |s.history|)
    ensures Alone(rest, w) && FreshReads(t, rest) && DeedsOf(rest, w) == ds[1..]
  {
    t, rest := Step(s, es[0]).value, es[1..];
    DeedsHead(es, w);
    ExecHead(s, es);
    if s.history != [] {
      EventDetermined(s, w, es[0]);
    }
  }

  lemma QuietEnd(s: State, w: nat, es: seq<Event>)
    requires Alone(es, w) && Exec(Step, s, es).Some? && DeedsOf(es, w) == []
    ensures es == [] && Exec(Step, s, es) == Some(s)
  {
    if es != [] {
      DeedsHead(es, w);
    }
  }

  /** What a reconcile of the current object leaves when nobody interferes and every call succeeds. */
  predicate Settles(s: State, t: State, o: Object) {
    && (!o.deleting && !o.finalizer ==> Current(t) == Some(o.(finalizer := true)))
    && (!o.deleting && o.finalizer && o.scaleSetID.None? ==>
          Current(t) == Some(o.(scaleSetID := Some(s.nextID))) && s.nextID in t.live && t.nextID == s.nextID + 1)
    && (!o.deleting && o.finalizer && o.scaleSetID.Some? ==> Current(t) == Some(o) && t.live == s.live)
    && (o.deleting && o.finalizer ==>
          && Current(t) == (if o.others then Some(o.(finalizer := false)) else None)
          && (o.scaleSetID.Some? ==> o.scaleSetID.value !in t.live && o.scaleSetID.value in t.deleted))
    && (o.deleting && !o.finalizer ==> t.history == s.history)
  }

  // The steps of such a reconcile, one by one: `w` stands at a copy of the newest version.

  predicate AtNewest(s: State, w: nat, pc: Pc, o: Object) {
    w < |s.workers| && s.workers[w].pc == pc && Current(s) == Some(o)
  }

  function Newest(s: State, o: Object): Copy { Copy(if s.history == [] then 0 else |s.history| - 1, o) }

  lemma ReadStep(s: State, w: nat, o: Object)
    requires AtNewest(s, w, Idle, o) && Step(s, Event.Reconcile(w, |s.history| - 1)).Some?
    ensures var t := Step(s, Event.Reconcile(w, |s.history| - 1)).value;
      t == s.(workers := t.workers) && AtNewest(t, w, Dispatch(Newest(s, o)), o)
  {}

  lemma SaveStep(s: State, w: nat, o: Object)
    requires AtNewest(s, w, Adding(Newest(s, o)), o)
    ensures Current(Step(s, CommitFinalizer(w)).value) == Some(o.(finalizer := true))
  {}

  lemma DeleteStep(s: State, w: nat, o: Object, id: nat)
    requires AtNewest(s, w, Deleting(Newest(s, o)), o) && o.scaleSetID == Some(id)
    ensures var t := Step(s, GitHubDelete(w, true, true)).value;
      && t == s.(workers := t.workers, live := s.live - {id}, deleted := s.deleted + {id})
      && AtNewest(t, w, Removing(Newest(s, o)), o)
  {}

  lemma RemoveStep(s: State, w: nat, o: Object)
    requires AtNewest(s, w, Removing(Newest(s, o)), o) && o.deleting
    ensures var t := Step(s, CommitRemoval(w)).value;
      && Current(t) == (if o.others then Some(o.(finalizer := false)) else None)
      && t.live == s.live && t.deleted == s.deleted
  {}

  lemma CreateStep(s: State, w: nat, o: Object)
    requires AtNewest(s, w, Creating(Newest(s, o)), o)
    ensures var t := Step(s, GitHubCreate(w, true, true)).value;
      && t == s.(workers := t.workers, live := s.live + {s.nextID}, nextID := s.nextID + 1)
      && AtNewest(t, w, Created(Newest(s, o), s.nextID), o)
  {}

  lemma RefetchStep(s: State, w: nat, pc: Pc, o: Object)
    requires AtNewest(s, w, pc, o) && (pc.Created? || pc.Refreshing?) && Step(s, Reget(w, |s.history| - 1)).Some?
    ensures var t := Step(s, Reget(w, |s.history| - 1)).value;
      && t == s.(workers := t.workers)
      && AtNewest(t, w, if pc.Created? then Recording(pc.read, Newest(s, o), pc.id) else Writing(Newest(s, o)), o)
  {}

  lemma StatusStep(s: State, w: nat, pc: Pc, o: Object)
    requires AtNewest(s, w, pc, o) && (pc.Recording? || pc.Writing?) && pc.copy == Newest(s, o)
    ensures var t := Step(s, CommitStatus(w)).value;
      && Current(t) == Some(if pc.Recording? then o.(scaleSetID := Some(pc.id)) else o)
      && t.live == s.live && t.nextID == s.nextID
  {}

  /** A reconcile that only its own steps make up, that reads the newest versions and whose calls all succeed, gets done
      what the object calls for: afterwards the object carries the finalizer, or records a scale set that exists on
      GitHub, or is let go with its scale set deleted. */
  lemma QuietReconcileSettles(s: State, w: nat, es: seq<Event>, l: Luck, again: bool, o: Object)
    requires AtNewest(s, w, Idle, o) && AllWell(l)
    requires Alone(es, w) && FreshReads(s, es) && Exec(Step, s, es).Some?
    requires DeedsOf(es, w) == [ReadObject] + ObjectDeeds(o, l, false, again)
    ensures Settles(s, Exec(Step, s, es).value, o)
  {
    var ds := ObjectDeeds(o, l, false, again);
    var t, rest := QuietStep(s, w, es, [ReadObject] + ds);
    assert ([ReadObject] + ds)[1..] == ds;
    ReadStep(s, w, o);
    SuccessfulPaths(o, l, false, again);
    if o.deleting {
      QuietDeletion(s, t, w, rest, o);
    } else if !o.finalizer {
      QuietFinalizer(s, t, w, rest, o);
    } else if o.scaleSetID.None? {
      QuietCreation(s, t, w, rest, o);
    } else {
      QuietUpdate(s, t, w, rest, o);
    }
  }

  predicate Began(s: State, t: State, w: nat, es: seq<Event>, o: Object) {
    && Current(s) == Some(o) && t == s.(workers := t.workers) && AtNewest(t, w, Dispatch(Newest(s, o)), o)
    && Alone(es, w) && FreshReads(t, es)
  }

  lemma QuietFinalizer(s: State, t: State, w: nat, es: seq<Event>, o: Object)
    requires !o.deleting && !o.finalizer && Began(s, t, w, es, o) && Exec(Step, t, es).Some?
    requires DeedsOf(es, w) == [SaveFinalizer]
    ensures Settles(s, Exec(Step, t, es).value, o)
  {
    var t1, rest := QuietStep(t, w, es, [SaveFinalizer]);
    SaveStep(t, w, o);
    QuietEnd(t1, w, rest);
  }

  lemma QuietDeletion(s: State, t: State, w: nat, es: seq<Event>, o: Object)
    requires o.deleting && Began(s, t, w, es, o) && Exec(Step, t, es).Some?
    requires DeedsOf(es, w) ==
      if !o.finalizer then [] else if o.scaleSetID.Some? then [DeleteRemote(true, true), SaveRemoval] else [SaveRemoval]
    ensures Settles(s, Exec(Step, t, es).value, o)
  {
    if !o.finalizer {
      QuietEnd(t, w, es);
    } else {
      if o.scaleSetID.Some? {
        QuietRemoteDeletion(t, w, es, o, o.scaleSetID.value);
      } else {
        QuietRemoval(t, w, es, o);
      }
    }
  }

  lemma QuietRemoteDeletion(t: State, w: nat, es: seq<Event>, o: Object, id: nat)
    requires o.deleting && o.scaleSetID == Some(id) && AtNewest(t, w, Deleting(Newest(t, o)), o)
    requires Alone(es, w) && FreshReads(t, es) && Exec(Step, t, es).Some?
    requires DeedsOf(es, w) == [DeleteRemote(true, true), SaveRemoval]
    ensures var u := Exec(Step, t, es).value;
      && Current(u) == (if o.others then Some(o.(finalizer := false)) else None)
      && u.live == t.live - {id} && u.deleted == t.deleted + {id}
  {
    var t1, rest := QuietStep(t, w, es, [DeleteRemote(true, true), SaveRemoval]);
    DeleteStep(t, w, o, id);
    QuietRemoval(t1, w, rest, o);
  }

  lemma QuietRemoval(t: State, w: nat, es: seq<Event>, o: Object)
    requires o.deleting && AtNewest(t, w, Removing(Newest(t, o)), o)
    requires Alone(es, w) && FreshReads(t, es) && Exec(Step, t, es).Some? && DeedsOf(es, w) == [SaveRemoval]
    ensures var u := Exec(Step, t, es).value;
      && Current(u) == (if o.others then Some(o.(finalizer := false)) else None)
      && u.live == t.live && u.deleted == t.deleted
  {
    var u, rest := QuietStep(t, w, es, [SaveRemoval]);
    RemoveStep(t, w, o);
    QuietEnd(u, w, rest);
  }

  lemma QuietCreation(s: State, t: State, w: nat, es: seq<Event>, o: Object)
    requires !o.deleting && o.finalizer && o.scaleSetID.None? && Began(s, t, w, es, o) && Exec(Step, t, es).Some?
    requires DeedsOf(es, w) == [CreateRemote(true, true), Refetch, SaveStatus]
    ensures Settles(s, Exec(Step, t, es).value, o)
  {
    var t1, rest1 := QuietStep(t, w, es, [CreateRemote(true, true), Refetch, SaveStatus]);
    CreateStep(t, w, o);
    QuietRecord(t1, w, rest1, Created(Newest(t, o), s.nextID), o);
  }

  lemma QuietUpdate(s: State, t: State, w: nat, es: seq<Event>, o: Object)
    requires !o.deleting && o.finalizer && o.scaleSetID.Some? && Began(s, t, w, es, o) && Exec(Step, t, es).Some?
    requires DeedsOf(es, w) == [Refetch, SaveStatus]
    ensures Settles(s, Exec(Step, t, es).value, o)
  {
    QuietRecord(t, w, es, Refreshing, o);
  }

  lemma QuietRecord(t: State, w: nat, es: seq<Event>, pc: Pc, o: Object)
    requires AtNewest(t, w, pc, o) && (pc.Created? || pc.Refreshing?)
    requires Alone(es, w) && FreshReads(t, es) && Exec(Step, t, es).Some? && DeedsOf(es, w) == [Refetch, SaveStatus]
    ensures var u := Exec(Step, t, es).value;
      && Current(u) == Some(if pc.Created? then o.(scaleSetID := Some(pc.id)) else o)
      && u.live == t.live && u.nextID == t.nextID
  {
    var t2, rest2 := QuietStep(t, w, es, [Refetch, SaveStatus]);
    RefetchStep(t, w, pc, o);
    QuietSave(t2, w, rest2, if pc.Created? then Recording(pc.read, Newest(t, o), pc.id) else Writing(Newest(t, o)), o);
  }

  lemma QuietSave(t: State, w: nat, es: seq<Event>, pc: Pc, o: Object)
    requires AtNewest(t, w, pc, o) && (pc.Recording? || pc.Writing?) && pc.copy == Newest(t, o)
    requires Alone(es, w) && FreshReads(t, es) && Exec(Step, t, es).Some? && DeedsOf(es, w) == [SaveStatus]
    ensures var u := Exec(Step, t, es).value;
      && Current(u) == Some(if pc.Recording? then o.(scaleSetID := Some(pc.id)) else o)
      && u.live == t.live && u.nextID == t.nextID
  {
    var u, rest := QuietStep(t, w, es, [SaveStatus]);
    StatusStep(t, w, pc, o);
    QuietEnd(u, w, rest);
  }

  lemma SegmentDeeds(es0: seq<Event>, es: seq<Event>, w: nat, ds: seq<Deed>)
    requires es0 <= es && DeedsOf(es, w) == DeedsOf(es0, w) + ds
    ensures DeedsOf(es[|es0|..], w) == ds
  {
    assert es == es0 + es[|es0|..];
    DeedsConcat(es0, es[|es0|..], w);
    assert (DeedsOf(es0, w) + ds)[|DeedsOf(es0, w)|..] == ds;
  }

  /** The same of a reconcile inside a longer run. */
  lemma SegmentSettles(n: nat, es0: seq<Event>, s: State, es: seq<Event>, t: State, w: nat, l: Luck, again: bool,
                       o: Object)
    requires Exec(Step, Init(n), es0) == Some(s) && Exec(Step, Init(n), es) == Some(t) && es0 <= es
    requires w < |s.workers| && s.workers[w].pc.Idle? && AllWell(l)
    requires DeedsOf(es, w) == DeedsOf(es0, w) + ([ReadObject] + ObjectDeeds(o, l, false, again))
    ensures Current(s) == Some(o) && Alone(es[|es0|..], w) && FreshReads(s, es[|es0|..]) ==> Settles(s, t, o)
  {
    SegmentDeeds(es0, es, w, [ReadObject] + ObjectDeeds(o, l, false, again));
    ExecSegment(Step, Init(n), es0, s, es);
    if Current(s) == Some(o) && Alone(es[|es0|..], w) && FreshReads(s, es[|es0|..]) {
      QuietReconcileSettles(s, w, es[|es0|..], l, again, o);
    }
  }

  /** The API server, GitHub and the reconcilers; `run` records what they did. */
  class Cluster {
    const reconcilers: nat
    var state: State
    ghost var run: seq<Event>

    /** The history of this object is a run of the machine. */
    ghost predicate Valid()
      reads this
    {
      Exec(Step, Init(reconcilers), run) == Some(state)
    }

    ghost function Deeds(w: nat): seq<Deed>
      reads this
    {
      DeedsOf(run, w)
    }

    predicate At(w: nat, pc: Pc)
      reads this
    {
      w < |state.workers| && state.workers[w].pc == pc
    }

    constructor (reconcilers: nat)
      ensures Valid() && state == Init(reconcilers) && this.reconcilers == reconcilers
    {
      this.reconcilers := reconcilers;
      state := Init(reconcilers);
      run := [];
    }

    method Do(e: Event, ghost w: nat)
      requires Valid() && Step(state, e).Some?
      modifies this
      ensures Valid() && old(run) <= run && Some(state) == Step(old(state), e)
      ensures Deeds(w) == old(Deeds(w)) + if Actor(e) == Some(w) then [DeedOf(e)] else []
    {
      ExecAppend(Step, Init(reconcilers), run, e);
      DeedsPush(run, e, w);
      state := Step(state, e).value;
      run := run + [e];
    }

    /** Users, foreign controllers and the other reconcilers take any number of steps. */
    method Others(w: nat, rounds: nat)
      requires Valid()
      modifies this
      ensures Valid() && old(run) <= run
      ensures |state.workers| == |old(state).workers| && |old(state).history| <= |state.history|
      ensures w < |state.workers| ==> state.workers[w] == old(state).workers[w]
      ensures Deeds(w) == old(Deeds(w))
    {
      for i := 0 to rounds
        invariant Valid() && old(run) <= run
        invariant |state.workers| == |old(state).workers| && |old(state).history| <= |state.history|
        invariant w < |state.workers| ==> state.workers[w] == old(state).workers[w]
        invariant Deeds(w) == old(Deeds(w))
      {
        var e: Event := *;
        if Actor(e) != Some(w) && Step(state, e).Some? {
          OthersLeaveAlone(state, e, w);
          Do(e, w);
        }
      }
    }

    method Pause(w: nat, pc: Pc)
      requires Valid() && At(w, pc)
      modifies this
      ensures Valid() && old(run) <= run && At(w, pc) && Deeds(w) == old(Deeds(w))
    {
      var rounds: nat := *;
      Others(w, rounds);
    }

    /** Lets others work, then picks the version that answers this reconciler's next read: one that is not older than
        what it has seen. */
    method ChooseVersion(w: nat, pc: Pc) returns (at: nat)
      requires Valid() && At(w, pc)
      modifies this
      ensures Valid() && old(run) <= run && At(w, pc) && MayRead(state, w, at) && Deeds(w) == old(Deeds(w))
    {
      Pause(w, pc);
      RunKeepsInv(reconcilers, run);
      at :| state.workers[w].seen <= at < |state.history|;
    }

    /** One reconcile, with anything happening in between: a run of the machine in which this reconciler does exactly
        the deeds of the path that what it read and the outcome of its calls select. */
    method Reconcile(w: nat, l: Luck) returns (read: Option<Object>, ghost gone: bool, ghost again: bool)
      requires Valid() && At(w, Idle)
      modifies this
      ensures Valid() && old(run) <= run && At(w, Idle)
      ensures Deeds(w) == old(Deeds(w)) + [if l.first then ReadObject else GiveUp] +
        if read.None? then [] else ObjectDeeds(read.value, l, gone, again)
      ensures !l.first ==> read.None?
      ensures var segment := run[|old(run)|..];
        read.Some? && Current(old(state)) == read && AllWell(l) && !gone
        && Alone(segment, w) && FreshReads(old(state), segment) ==>
          Settles(old(state), state, read.value)
    {
      gone, again := false, false;
      var at: nat;
      read, at := ReadForReconcile(w, l);
      if read.Some? {
        gone, again := ReconcileObject(w, Copy(at, read.value), l);
        if AllWell(l) && !gone {
          assert Deeds(w) == old(Deeds(w)) + ([ReadObject] + ObjectDeeds(read.value, l, gone, again));
          SegmentSettles(reconcilers, old(run), old(state), run, state, w, l, again, read.value);
        }
      }
    }

    method ReconcileObject(w: nat, c: Copy, l: Luck) returns (ghost gone: bool, ghost again: bool)
      requires Valid() && At(w, Dispatch(c))
      modifies this
      ensures Valid() && old(run) <= run && At(w, Idle)
      ensures Deeds(w) == old(Deeds(w)) + ObjectDeeds(c.obj, l, gone, again)
    {
      gone, again := false, false;
      Pause(w, Dispatch(c));
      if c.obj.deleting {
        HandleDeletion(w, c, l);
      } else {
        gone, again := ReconcilePresent(w, c, l);
      }
    }

    method ReconcilePresent(w: nat, c: Copy, l: Luck) returns (ghost gone: bool, ghost again: bool)
      requires Valid() && At(w, Dispatch(c)) && !c.obj.deleting
      modifies this
      ensures Valid() && old(run) <= run && At(w, Idle)
      ensures Deeds(w) == old(Deeds(w)) +
        if !c.obj.finalizer then [if l.sent then SaveFinalizer else GiveUp] else ActiveDeeds(c.obj, l, gone, again)
    {
      gone, again := false, false;
      ghost var ds := Deeds(w);
      var done := EnsureFinalizer(w, c, l);
      if !done {
        assert Deeds(w) == ds;
        gone, again := ReconcileActive(w, c, l);
      }
    }

    method ReadForReconcile(w: nat, l: Luck) returns (read: Option<Object>, at: nat)
      requires Valid() && At(w, Idle)
      modifies this
      ensures Valid() && old(run) <= run && At(w, if read.None? then Idle else Dispatch(Copy(at, read.value)))
      ensures Deeds(w) == old(Deeds(w)) + [if l.first then ReadObject else GiveUp]
      ensures !l.first ==> read.None?
    {
      at := ChooseVersion(w, Idle);
      if !l.first {
        Do(Fail(w), w);
        return None, at;
      }
      read := state.history[at];
      Do(Event.Reconcile(w, at), w);
    }

    method EnsureFinalizer(w: nat, c: Copy, l: Luck) returns (done: bool)
      requires Valid() && At(w, Dispatch(c)) && !c.obj.deleting
      modifies this
      ensures Valid() && old(run) <= run && done == !c.obj.finalizer
      ensures At(w, if done then Idle else Dispatch(c))
      ensures Deeds(w) == old(Deeds(w)) + if done then [if l.sent then SaveFinalizer else GiveUp] else []
    {
      if c.obj.finalizer {
        return false;
      }
      Do(if l.sent then CommitFinalizer(w) else Fail(w), w);
      return true;
    }

    method ReconcileActive(w: nat, c: Copy, l: Luck) returns (ghost gone: bool, ghost again: bool)
      requires Valid() && At(w, Dispatch(c)) && !c.obj.deleting && c.obj.finalizer
      modifies this
      ensures Valid() && old(run) <= run && At(w, Idle)
      ensures Deeds(w) == old(Deeds(w)) + ActiveDeeds(c.obj, l, gone, again)
    {
      again := false;
      if !l.client {
        gone := Report(w, Dispatch(c), l);
      } else if c.obj.scaleSetID.None? {
        gone := CreateScaleSet(w, c, l);
      } else {
        gone, again := UpdateScaleSet(w, l);
      }
    }

    method HandleDeletion(w: nat, c: Copy, l: Luck)
      requires Valid() && At(w, Dispatch(c)) && c.obj.deleting
      modifies this
      ensures Valid() && old(run) <= run && At(w, Idle)
      ensures Deeds(w) == old(Deeds(w)) + DeletionDeeds(c.obj, l)
    {
      if !c.obj.finalizer {
        return;
      }
      if c.obj.scaleSetID.Some? {
        Do(GitHubDelete(w, l.deleted, l.deleted || l.silently), w);
        if !l.deleted {
          return;
        }
      }
      RemoveFinalizer(w, c, l);
    }

    method RemoveFinalizer(w: nat, c: Copy, l: Luck)
      requires Valid() && At(w, Removing(c))
      modifies this
      ensures Valid() && old(run) <= run && At(w, Idle)
      ensures Deeds(w) == old(Deeds(w)) + [if l.sent then SaveRemoval else GiveUp]
    {
      Pause(w, Removing(c));
      Do(if l.sent then CommitRemoval(w) else Fail(w), w);
    }

    method CreateScaleSet(w: nat, c: Copy, l: Luck) returns (ghost gone: bool)
      requires Valid() && At(w, Creating(c))
      modifies this
      ensures Valid() && old(run) <= run && At(w, Idle)
      ensures Deeds(w) == old(Deeds(w)) + CreationDeeds(l, gone)
    {
      var id := state.nextID;
      Do(GitHubCreate(w, l.created, l.created || l.silently), w);
      if !l.created {
        gone := Report(w, Idle, l);
        return;
      }
      var got := Reread(w, Created(c, id), l);
      gone := got.None?;
      if got.Some? {
        WriteStatus(w, Recording(c, got.value, id), l);
      }
    }

    method UpdateScaleSet(w: nat, l: Luck) returns (ghost gone: bool, ghost again: bool)
      requires Valid() && At(w, Refreshing)
      modifies this
      ensures Valid() && old(run) <= run && At(w, Idle)
      ensures Deeds(w) == old(Deeds(w)) + UpdateDeeds(l, gone, again)
    {
      again := false;
      if !l.found {
        gone := Report(w, Refreshing, l);
        return;
      }
      var got := Reread(w, Refreshing, l);
      gone := got.None?;
      if got.None? {
        return;
      }
      if l.labels {
        WriteStatus(w, Writing(got.value), l);
      } else {
        Do(Fail(w), w);
        again := Report(w, Idle, l);
      }
    }

    /** Where a refetch leads from `pc`. */
    function AfterReread(pc: Pc, c: Copy): Pc {
      match pc
      case Created(r, id) => Recording(r, c, id)
      case _ => Writing(c)
    }

    method Reread(w: nat, pc: Pc, l: Luck) returns (got: Option<Copy>)
      requires Valid() && At(w, pc) && (pc.Created? || pc.Refreshing?)
      modifies this
      ensures Valid() && old(run) <= run && At(w, if got.None? then Idle else AfterReread(pc, got.value))
      ensures Deeds(w) == old(Deeds(w)) + [if l.second then Refetch else GiveUp]
      ensures !l.second ==> got.None?
    {
      var at := ChooseVersion(w, pc);
      if !l.second {
        Do(Fail(w), w);
        return None;
      }
      got := if state.history[at].None? then None else Some(Copy(at, state.history[at].value));
      Do(Reget(w, at), w);
    }

    /** A status update, accepted or not. */
    method WriteStatus(w: nat, pc: Pc, l: Luck)
      requires Valid() && At(w, pc) && (pc.Recording? || pc.Writing?)
      modifies this
      ensures Valid() && old(run) <= run && At(w, Idle)
      ensures Deeds(w) == old(Deeds(w)) + StatusDeeds(l)
    {
      Pause(w, pc);
      if l.status {
        Do(CommitStatus(w), w);
      } else {
        Do(Fail(w), w);
      }
    }

    /** `updateStatusError`: refetches the object and writes its status. */
    method Report(w: nat, pc: Pc, l: Luck) returns (ghost gone: bool)
      requires Valid() && At(w, pc) && (pc.Idle? || pc.Refreshing? || pc.Creating?)
      modifies this
      ensures Valid() && old(run) <= run && At(w, Idle)
      ensures Deeds(w) == old(Deeds(w)) + ReportDeeds(l, gone)
    {
      var at := ChooseVersion(w, pc);
      if !l.third {
        Do(Fail(w), w);
        return false;
      }
      var got := state.history[at];
      gone := got.None?;
      Do(ReportError(w, at), w);
      if got.Some? {
        WriteStatus(w, Writing(Copy(at, got.value)), l);
      }
    }
  }
}
