/** The debouncing wrapper around `HandleDesiredRunnerCount`.

    Call `n` is the n-th to take the mutex.  It creates a context, a result channel of capacity one and a timer, all
    numbered `n`; the struct's fields name them.  A timer that fired runs its callback in a goroutine of its own, so
    `Stop` can come too late: the callback is then already waiting for the mutex and reads whatever the fields hold
    when it gets it.
*/
module Debounce {
  import opened Machine

  datatype Timer = Armed | Stopped | Fired | Done   // Fired: the callback waits for the mutex; Done: it has had it

  datatype Result = Result(count: int, err: bool)

  datatype Caller = Waiting | Got(res: Result) | GaveUp

  /** The objects one call creates, and the caller blocked on them. */
  datatype Call = Call(
    count: int,
    timer: Timer,
    parentDone: bool,          // the context the caller passed in is done
    cancelled: bool,           // the cancel function of the derived context was called
    buffer: Option<Result>,    // the channel
    caller: Caller
  ) {
    predicate ContextDone() { parentDone || cancelled }
  }

  datatype Phase = Running | Finished(res: Result) | Sent(res: Result)

  /** A call to the inner scaler: the callback that makes it and what that callback read from the fields. */
  datatype Inner = Inner(callback: nat, ctx: nat, ch: nat, count: int, phase: Phase)

  datatype State = State(
    timer: Option<nat>,
    latestCtx: Option<nat>,
    cancelPrev: Option<nat>,
    pending: Option<int>,
    resultCh: Option<nat>,
    calls: seq<Call>,
    inners: seq<Inner>,
    dropped: nat               // results thrown away by the `default` branch
  )

  datatype Event =
    | Accept(count: int)            // the critical section of HandleDesiredRunnerCount
    | ParentDone(call: nat)
    | Fire(call: nat)
    | Claim(call: nat)              // the critical section of the callback
    | Finish(inner: nat, res: Result)
    | Send(inner: nat)
    | Receive(call: nat)            // the select takes the channel
    | GiveUp(call: nat)             // the select takes a context

  const INIT := State(None, None, None, None, None, [], [], 0)

  function StopTimer(calls: seq<Call>, t: Option<nat>): (r: seq<Call>)
    ensures |r| == |calls|
  {
    if t.Some? && t.value < |calls| && calls[t.value].timer.Armed?
    then calls[t.value := calls[t.value].(timer := Stopped)] else calls
  }

  function Cancel(calls: seq<Call>, c: Option<nat>): (r: seq<Call>)
    ensures |r| == |calls|
  {
    if c.Some? && c.value < |calls| then calls[c.value := calls[c.value].(cancelled := true)] else calls
  }

  function Step(s: State, e: Event): Option<State> {
    match e
    case Accept(count) =>
      var n := |s.calls|;
      var earlier := Cancel(StopTimer(s.calls, s.timer), s.cancelPrev);
      Some(s.(timer := Some(n), latestCtx := Some(n), cancelPrev := Some(n), pending := Some(count),
              resultCh := Some(n), calls := earlier + [Call(count, Armed, false, false, None, Waiting)]))
    case ParentDone(n) =>
      if n < |s.calls| then Some(s.(calls := s.calls[n := s.calls[n].(parentDone := true)])) else None
    case Fire(n) =>
      if n < |s.calls| && s.calls[n].timer.Armed? then
        Some(s.(calls := s.calls[n := s.calls[n].(timer := Fired)]))
      else None
    case Claim(n) =>
      if n >= |s.calls| || !s.calls[n].timer.Fired? then None
      else
        var t := s.(calls := s.calls[n := s.calls[n].(timer := Done)]);
        if s.pending.None? then Some(t)
        else if s.latestCtx.None? || s.resultCh.None? then None
        else Some(t.(pending := None,
                     inners := s.inners + [Inner(n, s.latestCtx.value, s.resultCh.value, s.pending.value, Running)]))
    case Finish(i, res) =>
      if i < |s.inners| && s.inners[i].phase.Running? then
        Some(s.(inners := s.inners[i := s.inners[i].(phase := Finished(res))]))
      else None
    case Send(i) =>
      if i >= |s.inners| || !s.inners[i].phase.Finished? || s.inners[i].ch >= |s.calls| then None
      else
        var res, ch := s.inners[i].phase.res, s.inners[i].ch;
        var t := s.(inners := s.inners[i := s.inners[i].(phase := Sent(res))]);
        if s.calls[ch].buffer.None? then Some(t.(calls := s.calls[ch := s.calls[ch].(buffer := Some(res))]))
        else Some(t.(dropped := s.dropped + 1))
    case Receive(n) =>
      if n < |s.calls| && s.calls[n].caller.Waiting? && s.calls[n].buffer.Some? then
        Some(s.(calls := s.calls[n := s.calls[n].(buffer := None, caller := Got(s.calls[n].buffer.value))]))
      else None
    case GiveUp(n) =>
      if n < |s.calls| && s.calls[n].caller.Waiting? && s.calls[n].ContextDone() then
        Some(s.(calls := s.calls[n := s.calls[n].(caller := GaveUp)]))
      else None
  }

  // ---------------------------------------------------------------------------------------------
  // What every run keeps
  // ---------------------------------------------------------------------------------------------

  /** The fields all name the newest call, whose count is pending until a callback claims it. */
  ghost predicate FieldsNameNewest(s: State) {
    if s.calls == [] then s.(calls := [], dropped := 0) == INIT
    else
      var n := |s.calls| - 1;
      && s.timer == s.latestCtx == s.cancelPrev == s.resultCh == Some(n)
      && s.pending in {None, Some(s.calls[n].count)}
      && (s.pending.Some? ==> s.calls[n].timer.Armed? || s.calls[n].timer.Fired?)
  }

  /** Every call but the newest is cancelled and its timer can no longer fire. */
  ghost predicate EarlierSuperseded(s: State) {
    forall n :: 0 <= n < |s.calls| ==>
      && (s.calls[n].cancelled <==> n != |s.calls| - 1)
      && (s.calls[n].timer.Armed? ==> n == |s.calls| - 1)
  }

  /** Inner calls are made for ever newer calls, each with that call's own context, channel and count. */
  ghost predicate ClaimsInOrder(s: State) {
    && (forall i :: 0 <= i < |s.inners| ==>
          && s.inners[i].ch == s.inners[i].ctx < |s.calls|
          && s.inners[i].count == s.calls[s.inners[i].ctx].count)
    && (forall i, j :: 0 <= i < j < |s.inners| ==> s.inners[i].ctx < s.inners[j].ctx)
    && (s.calls != [] ==>
          (s.pending.None? <==> s.inners != [] && s.inners[|s.inners| - 1].ctx == |s.calls| - 1))
  }

  ghost predicate SentFor(s: State, n: nat, res: Result) {
    exists i :: 0 <= i < |s.inners| && s.inners[i].ctx == n && s.inners[i].phase == Sent(res)
  }

  /** What reached caller `n`: the content of its channel or the result it took. */
  predicate Reached(c: Call, res: Result) { c.buffer == Some(res) || c.caller == Got(res) }

  /** A channel holds, or its caller got, only the result of the inner call made for it. */
  ghost predicate Delivered(s: State) {
    forall n :: 0 <= n < |s.calls| ==>
      forall res :: Reached(s.calls[n], res) ==> SentFor(s, n, res)
  }

  predicate NothingDelivered(c: Call) { c.buffer.None? && !c.caller.Got? }

  /** Nothing reached a channel before the inner call made for it sends, or when none was made. */
  ghost predicate Undelivered(s: State) {
    && s.dropped == 0
    && (forall i :: 0 <= i < |s.inners| && !s.inners[i].phase.Sent? && s.inners[i].ctx < |s.calls| ==>
          NothingDelivered(s.calls[s.inners[i].ctx]))
    && (s.pending.Some? && s.calls != [] ==> NothingDelivered(s.calls[|s.calls| - 1]))
  }

  /** A result that was sent stays in the channel while its caller waits. */
  ghost predicate SentWaits(s: State) {
    forall i :: 0 <= i < |s.inners| && s.inners[i].phase.Sent? && s.inners[i].ctx < |s.calls| ==>
      (s.calls[s.inners[i].ctx].caller.Waiting? ==> s.calls[s.inners[i].ctx].buffer.Some?)
  }

  ghost predicate Inv(s: State) {
    && FieldsNameNewest(s) && EarlierSuperseded(s) && ClaimsInOrder(s) && Delivered(s) && Undelivered(s)
    && SentWaits(s)
  }

  lemma StepKeepsFields(s: State, e: Event)
    requires FieldsNameNewest(s) && Step(s, e).Some?
    ensures FieldsNameNewest(Step(s, e).value)
  {}

  lemma StepKeepsSuperseded(s: State, e: Event)
    requires FieldsNameNewest(s) && EarlierSuperseded(s) && Step(s, e).Some?
    ensures EarlierSuperseded(Step(s, e).value)
  {}

  /** Calls and inner calls are only added; counts, identities and sent results are final. */
  ghost predicate Grows(s: State, t: State) {
    && |s.calls| <= |t.calls| && |s.inners| <= |t.inners|
    && (forall n :: 0 <= n < |s.calls| ==> t.calls[n].count == s.calls[n].count)
    && (forall i :: 0 <= i < |s.inners| ==>
          && t.inners[i].(phase := s.inners[i].phase) == s.inners[i]
          && (s.inners[i].phase.Sent? ==> t.inners[i].phase == s.inners[i].phase))
  }

  lemma StepGrows(s: State, e: Event)
    requires Step(s, e).Some?
    ensures Grows(s, Step(s, e).value)
    ensures !e.Claim? ==> |Step(s, e).value.inners| == |s.inners|
    ensures !e.Accept? ==> |Step(s, e).value.calls| == |s.calls|
  {}

  lemma StepKeepsOrder(s: State, e: Event)
    requires FieldsNameNewest(s) && ClaimsInOrder(s) && Step(s, e).Some?
    ensures ClaimsInOrder(Step(s, e).value)
  {
    StepGrows(s, e);
    var t := Step(s, e).value;
    match e
    case Accept(_) => assert t.inners == s.inners;
    case Claim(_) => ClaimKeepsOrder(s, e.call);
    case _ => SameClaims(s, t);
  }

  lemma SameClaims(s: State, t: State)
    requires ClaimsInOrder(s) && Grows(s, t)
    requires |t.inners| == |s.inners| && |t.calls| == |s.calls| && t.pending == s.pending
    ensures ClaimsInOrder(t)
  {
    assert forall i :: 0 <= i < |s.inners| ==> t.inners[i].ctx == s.inners[i].ctx;
  }

  lemma ClaimKeepsOrder(s: State, n: nat)
    requires FieldsNameNewest(s) && ClaimsInOrder(s) && Step(s, Claim(n)).Some?
    ensures ClaimsInOrder(Step(s, Claim(n)).value)
  {
    var t := Step(s, Claim(n)).value;
    if s.pending.None? {
      SameClaims(s, t);
    } else {
      LastClaimOlder(s);
    }
  }

  /** While a count is pending its call is newer than every claimed one. */
  lemma LastClaimOlder(s: State)
    requires FieldsNameNewest(s) && ClaimsInOrder(s) && s.pending.Some?
    ensures forall i :: 0 <= i < |s.inners| ==> s.inners[i].ctx < |s.calls| - 1
  {
    if s.inners != [] {
      var last := |s.inners| - 1;
      assert s.inners[last].ctx < |s.calls|;
      assert forall i :: 0 <= i < last ==> s.inners[i].ctx < s.inners[last].ctx;
    }
  }

  lemma SentForKept(s: State, t: State, n: nat, res: Result)
    requires Grows(s, t) && SentFor(s, n, res)
    ensures SentFor(t, n, res)
  {
    var i :| 0 <= i < |s.inners| && s.inners[i].ctx == n && s.inners[i].phase == Sent(res);
    assert t.inners[i].ctx == n && t.inners[i].phase == Sent(res);
  }

  lemma StepKeepsDelivered(s: State, e: Event)
    requires FieldsNameNewest(s) && ClaimsInOrder(s) && Delivered(s) && Step(s, e).Some?
    ensures Delivered(Step(s, e).value)
  {
    StepGrows(s, e);
    var t := Step(s, e).value;
    forall n, res | 0 <= n < |t.calls| && Reached(t.calls[n], res) ensures SentFor(t, n, res) {
      if n < |s.calls| && Reached(s.calls[n], res) {
        SentForKept(s, t, n, res);
      } else {
        NewlyReached(s, e, n, res);
      }
    }
  }

  lemma NewlyReached(s: State, e: Event, n: nat, res: Result)
    requires ClaimsInOrder(s) && Step(s, e).Some?
    requires n < |Step(s, e).value.calls| && Reached(Step(s, e).value.calls[n], res)
    requires n < |s.calls| ==> !Reached(s.calls[n], res)
    ensures SentFor(Step(s, e).value, n, res)
  {
    var t := Step(s, e).value;
    if e.Send? {
      assert t.inners[e.inner].ctx == n && t.inners[e.inner].phase == Sent(res);
    }
  }

  lemma SendFindsRoom(s: State, i: nat)
    requires ClaimsInOrder(s) && Undelivered(s) && Step(s, Send(i)).Some?
    ensures s.calls[s.inners[i].ch].buffer.None?
  {}

  lemma SendKeepsUndelivered(s: State, i: nat)
    requires FieldsNameNewest(s) && ClaimsInOrder(s) && Undelivered(s) && Step(s, Send(i)).Some?
    ensures Undelivered(Step(s, Send(i)).value)
  {
    var t := Step(s, Send(i)).value;
    SendFindsRoom(s, i);
    forall j | 0 <= j < |t.inners| && !t.inners[j].phase.Sent? ensures NothingDelivered(t.calls[t.inners[j].ctx]) {
      assert t.inners[j] == s.inners[j];
      assert s.inners[j].ctx != s.inners[i].ctx by {
        assert i < j ==> s.inners[i].ctx < s.inners[j].ctx;
        assert j < i ==> s.inners[j].ctx < s.inners[i].ctx;
      }
    }
    if s.pending.Some? {
      LastClaimOlder(s);
    }
  }

  lemma StepKeepsUndelivered(s: State, e: Event)
    requires FieldsNameNewest(s) && ClaimsInOrder(s) && Undelivered(s) && Step(s, e).Some?
    ensures Undelivered(Step(s, e).value)
  {
    match e
    case Send(i) => SendKeepsUndelivered(s, i);
    case Accept(_) =>
    case Claim(_) =>
    case Finish(_, _) =>
    case _ => CallKeepsUndelivered(s, e);
  }

  lemma CallKeepsUndelivered(s: State, e: Event)
    requires ClaimsInOrder(s) && Undelivered(s) && Step(s, e).Some?
    requires !e.Send? && !e.Accept? && !e.Claim? && !e.Finish?
    ensures Undelivered(Step(s, e).value)
  {
    var t := Step(s, e).value;
    assert t.inners == s.inners;
    assert forall n :: 0 <= n < |s.calls| && NothingDelivered(s.calls[n]) ==> NothingDelivered(t.calls[n]);
  }

  lemma StepKeepsSentWaits(s: State, e: Event)
    requires FieldsNameNewest(s) && ClaimsInOrder(s) && SentWaits(s) && Step(s, e).Some?
    ensures SentWaits(Step(s, e).value)
  {
    StepGrows(s, e);
    var t := Step(s, e).value;
    forall i | 0 <= i < |t.inners| && t.inners[i].phase.Sent? && t.calls[t.inners[i].ctx].caller.Waiting?
      ensures t.calls[t.inners[i].ctx].buffer.Some?
    {
      assert t.inners[i].ctx == s.inners[i].ctx && s.calls[s.inners[i].ctx].caller.Waiting?;
    }
  }

  lemma StepKeepsInv(s: State, e: Event)
    requires Inv(s) && Step(s, e).Some?
    ensures Inv(Step(s, e).value)
  {
    StepKeepsFields(s, e);
    StepKeepsSuperseded(s, e);
    StepKeepsOrder(s, e);
    StepKeepsDelivered(s, e);
    StepKeepsUndelivered(s, e);
    StepKeepsSentWaits(s, e);
  }

  lemma RunKeepsInv(es: seq<Event>)
    ensures var r := Exec(Step, INIT, es); r.Some? ==> Inv(r.value)
  {
    forall s, e | Inv(s) && Step(s, e).Some? ensures Inv(Step(s, e).value) { StepKeepsInv(s, e); }
    Invariant(Step, Inv, INIT, es);
  }

  // ---------------------------------------------------------------------------------------------
  // What the events were
  // ---------------------------------------------------------------------------------------------

  /** The counts of the calls, in the order in which they took the mutex. */
  function Requested(es: seq<Event>): seq<int> {
    if es == [] then []
    else
      var e := es[|es| - 1];
      Requested(es[..|es| - 1]) + if e.Accept? then [e.count] else []
  }

  /** Every result in the state was returned by the inner scaler. */
  ghost predicate Returned(s: State, es: seq<Event>) {
    forall i :: 0 <= i < |s.inners| && !s.inners[i].phase.Running? ==> Finish(i, s.inners[i].phase.res) in es
  }

  lemma StepReturned(s: State, es: seq<Event>, e: Event)
    requires Returned(s, es) && Step(s, e).Some?
    ensures Returned(Step(s, e).value, es + [e])
  {
    var t := Step(s, e).value;
    forall i | 0 <= i < |t.inners| && !t.inners[i].phase.Running? ensures Finish(i, t.inners[i].phase.res) in es + [e] {
      if i < |s.inners| && !s.inners[i].phase.Running? {
        assert Finish(i, s.inners[i].phase.res) in es;
      }
    }
  }

  lemma StepRequested(s: State, e: Event)
    requires Step(s, e).Some?
    ensures var t := Step(s, e).value;
      if e.Accept? then |t.calls| == |s.calls| + 1 && t.calls[|s.calls|].count == e.count else |t.calls| == |s.calls|
  {}

  /** Over every run, call `n` asks for the count of the n-th request, and every result an inner call holds, or has sent,
      is one that the inner scaler returned for it. */
  lemma {:induction false} RunFollowsEvents(es: seq<Event>)
    requires Exec(Step, INIT, es).Some?
    ensures var s := Exec(Step, INIT, es).value;
      && |s.calls| == |Requested(es)| && (forall n :: 0 <= n < |s.calls| ==> s.calls[n].count == Requested(es)[n])
      && Returned(s, es)
  {
    if es != [] {
      var before, e := es[..|es| - 1], es[|es| - 1];
      RunFollowsEvents(before);
      var s := Exec(Step, INIT, before).value;
      StepGrows(s, e);
      StepRequested(s, e);
      StepReturned(s, before, e);
      assert es == before + [e];
    }
  }

  // ---------------------------------------------------------------------------------------------
  // Main results
  // ---------------------------------------------------------------------------------------------

  ghost predicate LiveInner(s: State, i: int)
    requires ClaimsInOrder(s)
  {
    0 <= i < |s.inners| && s.inners[i].phase.Running? && !s.calls[s.inners[i].ctx].ContextDone()
  }

  /** Inner calls may overlap, but only one of them can have a live context: the one for the newest call. */
  lemma AtMostOneLiveInner(es: seq<Event>)
    requires Exec(Step, INIT, es).Some?
    ensures var s := Exec(Step, INIT, es).value;
      && ClaimsInOrder(s)
      && forall i :: LiveInner(s, i) ==> i == |s.inners| - 1 && s.inners[i].ctx == |s.calls| - 1
  {
    RunKeepsInv(es);
    var s := Exec(Step, INIT, es).value;
    forall i | LiveInner(s, i) ensures i == |s.inners| - 1 && s.inners[i].ctx == |s.calls| - 1 {
      LaterIsNewer(s, i, |s.inners| - 1);
    }
  }

  lemma LaterIsNewer(s: State, i: nat, j: nat)
    requires ClaimsInOrder(s) && i <= j < |s.inners|
    ensures i < j ==> s.inners[i].ctx < s.inners[j].ctx < |s.calls|
  {}

  /** Each call is forwarded at most once, in increasing order, with its own count, context and channel. */
  lemma ForwardedOnceInOrder(es: seq<Event>)
    requires Exec(Step, INIT, es).Some?
    ensures var s := Exec(Step, INIT, es).value;
      && (forall i, j :: 0 <= i < j < |s.inners| ==> s.inners[i].ctx < s.inners[j].ctx)
      && (forall i :: 0 <= i < |s.inners| ==>
            && s.inners[i].ch == s.inners[i].ctx < |s.calls|
            && s.inners[i].count == s.calls[s.inners[i].ctx].count)
  {
    RunKeepsInv(es);
  }

  /** A caller that returns a result got what the inner scaler returned when it was called for that caller's count, error
      and all, and no result is ever thrown away: the `default` branch of the callback is dead. */
  lemma CallerGetsOwnResult(es: seq<Event>, n: nat)
    requires var r := Exec(Step, INIT, es); r.Some? && n < |r.value.calls|
    ensures var s := Exec(Step, INIT, es).value;
      && s.dropped == 0
      && |s.calls| == |Requested(es)|
      && (s.calls[n].caller.Got? ==>
            exists i :: 0 <= i < |s.inners| && s.inners[i].ctx == n && s.inners[i].count == Requested(es)[n]
                        && s.inners[i].phase == Sent(s.calls[n].caller.res)
                        && Finish(i, s.calls[n].caller.res) in es)
  {
    RunKeepsInv(es);
    RunFollowsEvents(es);
    var s := Exec(Step, INIT, es).value;
    if s.calls[n].caller.Got? {
      assert Reached(s.calls[n], s.calls[n].caller.res);
      var i :| 0 <= i < |s.inners| && s.inners[i].ctx == n && s.inners[i].phase == Sent(s.calls[n].caller.res);
      assert s.inners[i].count == s.calls[n].count;
    }
  }

  /** A caller gives up only when its parent context is done or a newer call took its place. */
  lemma GiveUpMeansSuperseded(es: seq<Event>, n: nat)
    requires var r := Exec(Step, INIT, es); r.Some? && Step(r.value, GiveUp(n)).Some?
    ensures var s := Exec(Step, INIT, es).value; s.calls[n].parentDone || n < |s.calls| - 1
  {
    RunKeepsInv(es);
  }

  // The last request is not lost.

  /** Timers that can still fire count two, callbacks waiting for the mutex one. */
  function Rank(calls: seq<Call>): nat {
    if calls == [] then 0
    else Rank(calls[..|calls| - 1]) + TimerRank(calls[|calls| - 1].timer)
  }

  function TimerRank(t: Timer): nat { match t case Armed => 2 case Fired => 1 case _ => 0 }

  lemma {:induction false} RankUpdate(calls: seq<Call>, n: nat, c: Call)
    requires n < |calls|
    ensures Rank(calls[n := c]) == Rank(calls) - TimerRank(calls[n].timer) + TimerRank(c.timer)
  {
    var m := |calls| - 1;
    if n == m {
      assert calls[n := c][..m] == calls[..m];
    } else {
      assert calls[n := c][..m] == calls[..m][n := c];
      RankUpdate(calls[..m], n, c);
    }
  }

  lemma {:induction false} RankZero(calls: seq<Call>, n: nat)
    requires n < |calls| && Rank(calls) == 0
    ensures TimerRank(calls[n].timer) == 0
  {
    if n < |calls| - 1 {
      RankZero(calls[..|calls| - 1], n);
    }
  }

  predicate Wakes(e: Event) { e.Fire? || e.Claim? }

  function Wakeups(es: seq<Event>): nat {
    if es == [] then 0 else Wakeups(es[..|es| - 1]) + if Wakes(es[|es| - 1]) then 1 else 0
  }

  lemma StepRank(s: State, e: Event)
    requires ClaimsInOrder(s) && Step(s, e).Some? && !e.Accept?
    ensures var t := Step(s, e).value;
      |t.calls| == |s.calls| && Rank(t.calls) + (if Wakes(e) then 1 else 0) == Rank(s.calls)
  {
    var t := Step(s, e).value;
    match e
    case Send(i) =>
      RankUpdate(s.calls, s.inners[i].ch, t.calls[s.inners[i].ch]);
      assert s.calls[s.inners[i].ch := s.calls[s.inners[i].ch]] == s.calls;
    case Finish(_, _) =>
    case ParentDone(n) => RankUpdate(s.calls, n, t.calls[n]);
    case Fire(n) => RankUpdate(s.calls, n, t.calls[n]);
    case Claim(n) => RankUpdate(s.calls, n, t.calls[n]);
    case Receive(n) => RankUpdate(s.calls, n, t.calls[n]);
    case GiveUp(n) => RankUpdate(s.calls, n, t.calls[n]);
  }

  /** While no new call arrives, every firing and every callback uses up one unit of a finite budget. */
  lemma {:induction false} QuietRun(s: State, es: seq<Event>)
    requires Inv(s) && Exec(Step, s, es).Some? && forall e <- es :: !e.Accept?
    ensures var t := Exec(Step, s, es).value;
      Inv(t) && |t.calls| == |s.calls| && Rank(t.calls) + Wakeups(es) == Rank(s.calls)
  {
    if es != [] {
      var before := es[..|es| - 1];
      QuietRun(s, before);
      var t := Exec(Step, s, before).value;
      assert es[|es| - 1] in es;
      StepKeepsInv(t, es[|es| - 1]);
      StepRank(t, es[|es| - 1]);
    }
  }

  ghost predicate NewestCanWake(s: State) {
    exists n: nat :: n + 1 == |s.calls| && (Step(s, Fire(n)).Some? || Step(s, Claim(n)).Some?)
  }

  /** The last inner call is the one for the newest call, with its count. */
  ghost predicate NewestClaimed(s: State) {
    && s.inners != [] && s.calls != []
    && var inner := s.inners[|s.inners| - 1];
       inner.ctx == |s.calls| - 1 && inner.count == s.calls[inner.ctx].count
  }

  lemma PendingIsWakeable(s: State)
    requires Inv(s) && s.calls != []
    ensures if s.pending.Some? then NewestCanWake(s) else NewestClaimed(s)
  {
    if s.pending.Some? {
      var n: nat := |s.calls| - 1;
      assert Step(s, Fire(n)).Some? || Step(s, Claim(n)).Some?;
    }
  }

  /** No lost request.  Once calls stop arriving, as long as the newest count is pending some timer can fire or some
      callback can take the mutex, only finitely many of these can happen, and when none is left the newest count
      has been handed to the inner scaler. */
  lemma LastRequestClaimed(es0: seq<Event>, es: seq<Event>)
    requires Exec(Step, INIT, es0).Some? && Exec(Step, INIT, es0).value.calls != []
    requires Exec(Step, Exec(Step, INIT, es0).value, es).Some? && forall e <- es :: !e.Accept?
    ensures var s := Exec(Step, INIT, es0).value;
      var t := Exec(Step, s, es).value;
      && Wakeups(es) <= Rank(s.calls)
      && (t.pending.Some? ==> NewestCanWake(t))
      && (t.pending.None? || Wakeups(es) == Rank(s.calls) ==> NewestClaimed(t))
  {
    RunKeepsInv(es0);
    var s := Exec(Step, INIT, es0).value;
    QuietRun(s, es);
    var t := Exec(Step, s, es).value;
    PendingIsWakeable(t);
    if Wakeups(es) == Rank(s.calls) {
      RankZero(t.calls, |t.calls| - 1);
    }
  }

  /** Inner call `i` was made for caller `n` and can go on: it returns whatever it returns, or its result is sent. */
  ghost predicate InnerMoves(s: State, n: nat, i: nat) {
    && i < |s.inners| && s.inners[i].ctx == n
    && (Step(s, Send(i)).Some? || forall res :: Step(s, Finish(i, res)).Some?)
  }

  /** What can still happen for a waiting caller: it takes its result or gives up, its count is about to be claimed, or
      the inner call made for it goes on. */
  ghost predicate CanMove(s: State, n: nat) {
    || Step(s, Receive(n)).Some? || Step(s, GiveUp(n)).Some?
    || (n + 1 == |s.calls| && s.pending.Some? && NewestCanWake(s))
    || exists i :: InnerMoves(s, n, i)
  }

  /** No caller is ever stuck: in every reachable state something can happen for each one that waits. */
  lemma NoCallerStuck(es: seq<Event>, n: nat)
    requires var r := Exec(Step, INIT, es); r.Some? && n < |r.value.calls| && r.value.calls[n].caller.Waiting?
    ensures CanMove(Exec(Step, INIT, es).value, n)
  {
    RunKeepsInv(es);
    WaitingCanMove(Exec(Step, INIT, es).value, n);
  }

  lemma WaitingCanMove(s: State, n: nat)
    requires Inv(s) && n < |s.calls| && s.calls[n].caller.Waiting?
    ensures CanMove(s, n)
  {
    if n == |s.calls| - 1 {
      PendingIsWakeable(s);
      if s.pending.None? {
        var i: nat := |s.inners| - 1;
        assert s.inners[i].ctx == n;
        assert s.inners[i].phase.Sent? || InnerMoves(s, n, i);
      }
    }
  }

  // Stop can come too late.

  /** A timer fires, its callback waits for the mutex while a newer call arrives, and then forwards the newer call's
      count at once: the newer call's own window has not passed. */
  lemma StaleCallbackForwardsNewerCall(first: int, second: int) returns (es: seq<Event>, s: State)
    ensures es == [Accept(first), Fire(0), Accept(second), Claim(0)] && Exec(Step, INIT, es) == Some(s)
    ensures |s.calls| == 2
    ensures s.inners == [Inner(0, 1, 1, second, Running)] && s.calls[1].timer.Armed? && s.pending.None?
  {
    es, s := [], INIT;
    es, s := Extend(Step, INIT, es, s, Accept(first));
    es, s := Extend(Step, INIT, es, s, Fire(0));
    es, s := Extend(Step, INIT, es, s, Accept(second));
    es, s := Extend(Step, INIT, es, s, Claim(0));
  }

  predicate CallbackWaiting(s: State) {
    exists n :: 0 <= n < |s.calls| && s.calls[n].timer.Fired?
  }

  /** The callback of another call could claim the newest call's count. */
  predicate ForeignClaim(s: State, n: nat) {
    n < |s.calls| && Step(s, Claim(n)).Some? && s.pending.Some? && s.latestCtx != Some(n)
  }

  ghost predicate OwnClaimsOnly(s: State) { forall n :: !ForeignClaim(s, n) }

  predicate LateStop(s: State, e: Event) { e.Accept? && CallbackWaiting(s) }

  /** Exactly a call accepted while a callback waits for the mutex exposes its count to that callback. */
  lemma StepExposes(s: State, e: Event)
    requires Inv(s) && Step(s, e).Some?
    ensures LateStop(s, e) ==> !OwnClaimsOnly(Step(s, e).value)
    ensures OwnClaimsOnly(s) && !LateStop(s, e) ==> OwnClaimsOnly(Step(s, e).value)
  {
    var t := Step(s, e).value;
    if LateStop(s, e) {
      var n :| 0 <= n < |s.calls| && s.calls[n].timer.Fired?;
      assert ForeignClaim(t, n);
    } else if OwnClaimsOnly(s) {
      forall n: nat | ForeignClaim(t, n) ensures ForeignClaim(s, n) {
        assert n < |s.calls| && s.calls[n].timer.Fired?;
      }
    }
  }

  /** In every reachable state: the next call can be forwarded by a foreign callback, before its own window has passed,
      if and only if a callback waits for the mutex when it is accepted. */
  lemma ExposedWhenLate(es: seq<Event>, count: int)
    requires Exec(Step, INIT, es).Some?
    ensures var s := Exec(Step, INIT, es).value;
      CallbackWaiting(s) <==> !OwnClaimsOnly(Step(s, Accept(count)).value)
  {
    RunKeepsInv(es);
    AcceptExposes(Exec(Step, INIT, es).value, count);
  }

  lemma AcceptExposes(s: State, count: int)
    requires Inv(s)
    ensures CallbackWaiting(s) <==> !OwnClaimsOnly(Step(s, Accept(count)).value)
  {
    StepExposes(s, Accept(count));
    if n: nat :| ForeignClaim(Step(s, Accept(count)).value, n) {
      assert n < |s.calls| && s.calls[n].timer.Fired?;
    }
  }

  /** Over every run, no accepted count can ever be claimed by a foreign callback if and only if no call is accepted
      while a callback waits for the mutex. */
  lemma OwnWindowsUnlessLate(es: seq<Event>)
    requires Exec(Step, INIT, es).Some?
    ensures Always(Step, OwnClaimsOnly, INIT, es) <==> Never(Step, LateStop, INIT, es)
  {
    forall s, e | Inv(s) && Step(s, e).Some? ensures Inv(Step(s, e).value) { StepKeepsInv(s, e); }
    forall s, e | Inv(s) && OwnClaimsOnly(s) && Step(s, e).Some?
      ensures OwnClaimsOnly(Step(s, e).value) <==> !LateStop(s, e)
    {
      StepExposes(s, e);
    }
    GoodUntilBad(Step, Inv, OwnClaimsOnly, LateStop, INIT, es);
  }

  /** Runs in which `Stop` is never late: no call is accepted while a callback waits for the mutex. */
  ghost function PromptStep(s: State, e: Event): Option<State> {
    if e.Accept? && CallbackWaiting(s) then None else Step(s, e)
  }

  ghost predicate OwnCallbacks(s: State) {
    && (forall n :: 0 <= n < |s.calls| - 1 ==> !s.calls[n].timer.Fired?)
    && (forall i :: 0 <= i < |s.inners| ==> s.inners[i].callback == s.inners[i].ctx)
  }

  lemma PromptStepKeepsOwn(s: State, e: Event)
    requires Inv(s) && OwnCallbacks(s) && PromptStep(s, e).Some?
    ensures OwnCallbacks(PromptStep(s, e).value)
  {}

  /** When `Stop` is never late, every count is forwarded by its own timer, so only after its own window. */
  lemma PromptRunUsesOwnTimer(es: seq<Event>)
    requires Exec(PromptStep, INIT, es).Some?
    ensures var s := Exec(PromptStep, INIT, es).value;
      forall i :: 0 <= i < |s.inners| ==> s.inners[i].callback == s.inners[i].ctx
  {
    var inv := (s: State) => Inv(s) && OwnCallbacks(s);
    forall s, e | inv(s) && PromptStep(s, e).Some? ensures inv(PromptStep(s, e).value) {
      StepKeepsInv(s, e);
      PromptStepKeepsOwn(s, e);
    }
    Invariant(PromptStep, inv, INIT, es);
  }

  // ---------------------------------------------------------------------------------------------
  // The object
  // ---------------------------------------------------------------------------------------------

  lemma RunNamesNewest(es: seq<Event>)
    ensures var r := Exec(Step, INIT, es); r.Some? ==> FieldsNameNewest(r.value)
  {
    RunKeepsInv(es);
  }

  /** The struct with the contexts, channels and timers it creates.  Each method is one critical section or one
      channel operation; its contract is the machine's step for it. */
  class DebouncedScaler {
    var timer: Option<nat>
    var latestCtx: Option<nat>
    var cancelPrev: Option<nat>
    var pending: Option<int>
    var resultCh: Option<nat>
    var calls: seq<Call>
    var inners: seq<Inner>
    var dropped: nat
    ghost var run: seq<Event>

    ghost function View(): State
      reads this
    {
      State(timer, latestCtx, cancelPrev, pending, resultCh, calls, inners, dropped)
    }

    /** The history of this object is a run of the machine. */
    ghost predicate Valid()
      reads this
    {
      Exec(Step, INIT, run) == Some(View())
    }

    ghost method Record(e: Event, before: State)
      requires Exec(Step, INIT, run) == Some(before) && Step(before, e) == Some(View())
      modifies this`run
      ensures Valid() && run == old(run) + [e]
    {
      ExecAppend(Step, INIT, run, e);
      run := run + [e];
    }

    constructor ()
      ensures Valid() && View() == INIT
    {
      timer, latestCtx, cancelPrev, pending, resultCh := None, None, None, None, None;
      calls, inners, dropped, run := [], [], 0, [];
    }

    /** The critical section of `HandleDesiredRunnerCount`; `n` names the context and channel the caller waits on. */
    method Accept(count: int) returns (n: nat)
      requires Valid()
      modifies this
      ensures Valid() && Some(View()) == Step(old(View()), Event.Accept(count))
      ensures n == |old(calls)| && calls[n].count == count && pending == Some(count)
    {
      ghost var s := View();
      RunNamesNewest(run);
      if timer.Some? && calls[timer.value].timer.Armed? {
        calls := calls[timer.value := calls[timer.value].(timer := Stopped)];
      }
      if cancelPrev.Some? {
        calls := calls[cancelPrev.value := calls[cancelPrev.value].(cancelled := true)];
      }
      n := |calls|;
      calls := calls + [Call(count, Armed, false, false, None, Waiting)];
      latestCtx := Some(n);
      cancelPrev := Some(n);
      pending := Some(count);
      resultCh := Some(n);
      timer := Some(n);
      Record(Event.Accept(count), s);
    }

    /** What the runtime does: timer `n` fires and its callback goes to wait for the mutex, the context of caller `n`
        ends, the inner scaler returns. */
    method TimerFires(n: nat)
      requires Valid() && n < |calls| && calls[n].timer.Armed?
      modifies this
      ensures Valid() && Some(View()) == Step(old(View()), Fire(n))
    {
      ghost var s := View();
      calls := calls[n := calls[n].(timer := Fired)];
      Record(Fire(n), s);
    }

    method ContextEnds(n: nat)
      requires Valid() && n < |calls|
      modifies this
      ensures Valid() && Some(View()) == Step(old(View()), ParentDone(n))
    {
      ghost var s := View();
      calls := calls[n := calls[n].(parentDone := true)];
      Record(ParentDone(n), s);
    }

    method InnerReturns(i: nat, res: Result)
      requires Valid() && i < |inners| && inners[i].phase.Running?
      modifies this
      ensures Valid() && Some(View()) == Step(old(View()), Finish(i, res))
      ensures inners == old(inners)[i := old(inners)[i].(phase := Finished(res))]
    {
      ghost var s := View();
      inners := inners[i := inners[i].(phase := Finished(res))];
      Record(Finish(i, res), s);
    }

    /** The critical section of timer `n`'s callback; `started` says whether it goes on to call the inner scaler. */
    method Callback(n: nat) returns (started: bool)
      requires Valid() && n < |calls| && calls[n].timer.Fired?
      modifies this
      ensures Valid() && Some(View()) == Step(old(View()), Claim(n))
      ensures started <==> old(pending).Some?
      ensures pending.None?
      ensures started ==> inners == old(inners) + [Inner(n, |calls| - 1, |calls| - 1, calls[|calls| - 1].count, Running)]
    {
      ghost var s := View();
      RunNamesNewest(run);
      calls := calls[n := calls[n].(timer := Timer.Done)];
      var pendingCount, pendingCtx, pendingCh := pending, latestCtx, resultCh;
      pending := None;
      started := pendingCount.Some?;
      if started {
        inners := inners + [Inner(n, pendingCtx.value, pendingCh.value, pendingCount.value, Running)];
      }
      Record(Claim(n), s);
    }

    /** The callback's non-blocking send of a result; `sent` is false when it takes the `default` branch. */
    method Deliver(i: nat) returns (sent: bool)
      requires i < |inners| && inners[i].phase.Finished? && inners[i].ch < |calls|
      modifies this
      ensures Some(View()) == Step(old(View()), Event.Send(i))
      ensures sent <==> old(calls)[old(inners)[i].ch].buffer.None?
      ensures sent ==> calls[old(inners)[i].ch].buffer == Some(old(inners)[i].phase.res)
      ensures inners == old(inners)[i := old(inners)[i].(phase := Phase.Sent(old(inners)[i].phase.res))]
      ensures old(Valid()) ==> Valid() && sent
    {
      ghost var s := View();
      var res, ch := inners[i].phase.res, inners[i].ch;
      inners := inners[i := inners[i].(phase := Phase.Sent(res))];
      if calls[ch].buffer.None? {
        calls := calls[ch := calls[ch].(buffer := Some(res))];
        sent := true;
      } else {
        dropped := dropped + 1;
        sent := false;
      }
      if Exec(Step, INIT, run) == Some(s) {
        RunKeepsInv(run);
        SendFindsRoom(s, i);
        Record(Event.Send(i), s);
      }
    }

    /** The caller's `select`, once one of its cases is ready; when several are, either may be taken. */
    method Select(n: nat) returns (got: Option<Result>)
      requires Valid() && n < |calls| && calls[n].caller.Waiting?
      requires calls[n].buffer.Some? || calls[n].ContextDone()
      modifies this
      ensures Valid() && Some(View()) == Step(old(View()), if got.Some? then Receive(n) else GiveUp(n))
      ensures got.Some? ==> got == old(calls)[n].buffer && SentFor(View(), n, got.value)
      ensures got.None? ==> old(calls)[n].parentDone || n < |calls| - 1
    {
      ghost var s := View();
      RunKeepsInv(run);
      var first := *;
      if calls[n].buffer.Some? && (first || !calls[n].ContextDone()) {
        got := calls[n].buffer;
        assert Reached(calls[n], got.value);
        calls := calls[n := calls[n].(buffer := None, caller := Got(got.value))];
        Record(Receive(n), s);
      } else {
        got := None;
        calls := calls[n := calls[n].(caller := GaveUp)];
        Record(GiveUp(n), s);
      }
    }
  }
}
