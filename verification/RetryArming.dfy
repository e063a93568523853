// Exactly when a retry is armed.
module RetryArming {
  import opened Commons
  import opened FlushRuns
  import opened FlushFlow
  import opened FlushFlowProofs
  import opened FreshnessProofs
  import opened FlushHistories
  import opened RetryProofs

  // The steps in which the worker calls scheduleRetry, always for the run it executes.
  predicate Schedules(f: Flow, e: Event) {
    match e
    case PassReturns(o, _) => o == Failed
    case PassThrows => true
    case Decide(recent) =>
      recent && f.worker.GotOutcome? && f.worker.run < |f.slots.runs| && f.slots.runs[f.worker.run].outcome == Failed
    case _ => false
  }

  // The lock block of a retry timer that is not stale.
  predicate RetriesNow(f: Flow, e: Event) {
    e.Retry? && e.timer < |f.slots.timers| && f.slots.timers[e.timer].epoch == f.slots.epoch
  }

  predicate NoLaterTimer(s: Slots) {
    forall t :: 0 <= t < |s.timers| ==> s.timers[t].epoch <= s.epoch
  }

  predicate NoCurrentTimer(s: Slots) {
    forall t :: 0 <= t < |s.timers| ==> s.timers[t].epoch < s.epoch
  }

  // The active run cannot arm a retry: it is cancelled, or the epoch has moved past it.
  predicate Outdated(s: Slots) {
    s.WellFormed() && s.active.Some? && (s.runs[s.active.value].cancelled || s.runs[s.active.value].epoch != s.epoch)
  }

  // A timer in the slot that is not stale is live, and there is none while the active run is outdated.
  predicate SlotInv(s: Slots) {
    && s.WellFormed() && NoLaterTimer(s)
    && (s.slot.Some? && s.timers[s.slot.value].epoch == s.epoch ==> Armed(s))
    && (Outdated(s) ==> NoCurrentTimer(s))
  }

  // ---------- What scheduleRetry arms ----------

  // scheduleRetry for run r leaves a live retry of the current epoch behind: the run is neither
  // cancelled nor stale, and the slot is free or already holds such a retry.
  predicate WillArm(s: Slots, r: nat) {
    && s.WellFormed() && r < |s.runs|
    && !s.runs[r].cancelled && s.runs[r].epoch == s.epoch
    && (s.slot.Some? ==> s.timers[s.slot.value].IsDone() || s.timers[s.slot.value].epoch == s.epoch)
  }

  lemma {:induction false} ScheduleArmsIff(s: Slots, r: nat)
    requires SlotInv(s) && s.active == Some(r)
    ensures Armed(ScheduleRetry(s, r)) <==> WillArm(s, r)
    ensures SlotInv(ScheduleRetry(s, r))
  {
  }

  lemma {:induction false} SchedulingStep(f: Flow, e: Event, now: nat)
    requires LaunchInv(f) && SlotInv(f.slots) && Enabled(f, e) && Schedules(f, e)
    ensures Armed(Step(f, e, now).slots) <==> WillArm(f.slots, f.worker.run)
    ensures SlotInv(Step(f, e, now).slots)
  {
    var r := f.worker.run;
    assert Executing(f) == f.slots.active == Some(r);
    match e
    case PassReturns(o, seen) =>
      ScheduleArmsIff(f.slots, r);
      OutcomeSame(ScheduleRetry(f.slots, r), r, o);
    case PassThrows =>
      OutcomeSame(f.slots, r, Failed);
      ScheduleArmsIff(WithOutcome(f.slots, r, Failed), r);
    case Decide(recent) => ScheduleArmsIff(f.slots, r);
  }

  lemma {:induction false} OutcomeSame(s: Slots, r: nat, o: Outcome)
    requires s.WellFormed() && r < |s.runs|
    ensures var s' := WithOutcome(s, r, o);
            && s'.WellFormed() && (Armed(s') <==> Armed(s)) && (SlotInv(s) ==> SlotInv(s'))
            && (WillArm(s', r) <==> WillArm(s, r))
  {
  }

  // ---------- Every other step ----------

  // Between two scheduling steps a retry stays armed exactly until something disturbs it or it starts.
  predicate Undone(f: Flow, e: Event) {
    Disturbs(f, e) || RetriesNow(f, e)
  }

  lemma {:induction false} EnteredSlot(s: Slots, force: bool, l: Option<Listener>, explicit: bool)
    requires SlotInv(s) && (!explicit ==> s.slot.None?)
    ensures var s' := Entered(s, force, l, explicit).slots;
            SlotInv(s') && (Armed(s') <==> Armed(s) && s.active.Some?)
  {
  }

  lemma {:induction false} FlushSlot(f: Flow, force: bool, listens: bool, now: nat)
    requires SlotInv(f.slots)
    ensures var s := Flushed(f, force, listens, now).slots;
            SlotInv(s) && (Armed(s) <==> Armed(f.slots) && f.slots.active.Some?)
  {
    EnteredSlot(f.slots, force, if listens then Some(|f.joinedAt|) else None, true);
  }

  // The timer leaves; the slot is emptied unless the timer is stale.
  lemma {:induction false} RetrySlot(f: Flow, t: nat)
    requires SlotInv(f.slots) && Enabled(f, Retry(t))
    ensures SlotInv(Retried(f, t).slots)
    ensures Armed(Retried(f, t).slots) <==> Armed(f.slots) && f.slots.timers[t].epoch != f.slots.epoch
  {
    var s := SetPhase(f.slots, t, Left);
    if f.slots.timers[t].epoch == f.slots.epoch {
      assert SlotInv(s.(slot := None));
      EnteredSlot(s.(slot := None), true, None, false);
    } else {
      assert Retried(f, t).slots == s;
    }
  }

  lemma {:induction false} CancelSlot(s: Slots, target: Option<nat>)
    requires SlotInv(s)
    ensures var s' := Cancel(s, target).slots;
            SlotInv(s') && (Armed(s') <==> Armed(s) && target.Some? && s.active != target)
  {
  }

  lemma {:induction false} PhaseSlot(s: Slots, t: nat, before: Phase, after: Phase)
    requires SlotInv(s) && t < |s.timers| && s.timers[t].phase == before
    requires (before == Waiting && after == Firing) || (before == Left && after == Ended)
    ensures SlotInv(SetPhase(s, t, after)) && (Armed(SetPhase(s, t, after)) <==> Armed(s))
  {
  }

  lemma {:induction false} HandOverSlot(s: Slots)
    requires SlotInv(s) && (s.pending.Some? ==> s.ActiveCancelled())
    ensures SlotInv(HandOver(s)) && (Armed(HandOver(s)) <==> Armed(s))
  {
  }

  lemma {:induction false} WorkerSlot(f: Flow, e: Event, now: nat)
    requires LaunchInv(f) && SlotInv(f.slots) && Enabled(f, e) && !Schedules(f, e)
    requires e.PassReturns? || e.Decide? || e.FinallyBlock?
    ensures SlotInv(Step(f, e, now).slots) && (Armed(Step(f, e, now).slots) <==> Armed(f.slots))
  {
    HandOverSlot(f.slots);
    if e.PassReturns? {
      OutcomeSame(f.slots, f.worker.run, e.outcome);
    }
  }

  // The steps that leave the slots alone.
  lemma {:induction false} QuietSlot(f: Flow, e: Event, now: nat)
    requires Enabled(f, e)
    requires e.Skip? || e.TellOwed? || e.Submit? || e.Take? || e.LoopHead? || e.TellOne? || e.EndRun?
    ensures Step(f, e, now).slots == f.slots && !Undone(f, e)
  {
  }

  lemma {:induction false} TimerSlot(f: Flow, e: Event, now: nat)
    requires SlotInv(f.slots) && Enabled(f, e) && (e.Fire? || e.EndTask?)
    ensures SlotInv(Step(f, e, now).slots)
    ensures !Undone(f, e) && (Armed(Step(f, e, now).slots) <==> Armed(f.slots))
  {
    if e.Fire? {
      PhaseSlot(f.slots, e.timer, Waiting, Firing);
    } else {
      PhaseSlot(f.slots, e.timer, Left, Ended);
    }
  }

  lemma {:induction false} CallerSlot(f: Flow, e: Event, now: nat)
    requires SlotInv(f.slots) && Enabled(f, e) && (e.Flush? || e.Retry? || e.CancelAll? || e.CancelRun?)
    ensures SlotInv(Step(f, e, now).slots)
    ensures Armed(Step(f, e, now).slots) <==> Armed(f.slots) && !Undone(f, e)
  {
    match e
    case Flush(force, listens) => FlushSlot(f, force, listens, now);
    case Retry(t) => RetrySlot(f, t);
    case CancelAll => CancelSlot(f.slots, None);
    case CancelRun(r) => CancelSlot(f.slots, Some(r));
  }

  lemma {:induction false} OtherStep(f: Flow, e: Event, now: nat)
    requires LaunchInv(f) && SlotInv(f.slots) && Enabled(f, e) && !Schedules(f, e)
    ensures SlotInv(Step(f, e, now).slots)
    ensures Armed(Step(f, e, now).slots) <==> Armed(f.slots) && !Undone(f, e)
  {
    if e.Flush? || e.Retry? || e.CancelAll? || e.CancelRun? {
      CallerSlot(f, e, now);
    } else if e.Fire? || e.EndTask? {
      TimerSlot(f, e, now);
    } else if e.PassReturns? || e.Decide? || e.FinallyBlock? {
      WorkerSlot(f, e, now);
    } else {
      QuietSlot(f, e, now);
    }
  }

  // ---------- Over histories ----------

  lemma {:induction false} SlotHistory(h: seq<Timed>)
    requires After(h).Some?
    ensures SlotInv(After(h).value.slots)
  {
    if h != [] {
      SlotHistory(h[..|h| - 1]);
      var f, e, now := LastStep(h);
      if Schedules(f, e) {
        SchedulingStep(f, e, now);
      } else {
        OtherStep(f, e, now);
      }
    }
  }

  // A call of scheduleRetry: which event of a history it was part of, and the state before.
  datatype Asked = Asked(at: nat, f: Flow)

  // The last one in a history.
  function LastAsked(h: seq<Timed>): Option<Asked> {
    if h == [] || After(h[..|h| - 1]).None? then None
    else
      var f := After(h[..|h| - 1]).value;
      if Schedules(f, h[|h| - 1].event) then Some(Asked(|h| - 1, f)) else LastAsked(h[..|h| - 1])
  }

  // The run of such a call; scheduleRetry is called by the worker only.
  function Asker(a: Asked): Option<nat> {
    if a.f.worker.Idle? then None else Some(a.f.worker.run)
  }

  // It leaves a live retry behind.
  predicate AskedInTime(a: Asked) {
    Asker(a).Some? && WillArm(a.f.slots, Asker(a).value)
  }

  // Since event i nothing disturbed the retry and it did not start.
  predicate QuietSince(h: seq<Timed>, i: nat) {
    forall k :: i < k < |h| ==> Reached(h, k) && !Undone(At(h, k), h[k].event)
  }

  lemma {:induction false} ReachedLonger(h: seq<Timed>, step: Timed, k: nat)
    requires k <= |h|
    ensures Reached(h + [step], k) <==> Reached(h, k)
    ensures Reached(h, k) ==> At(h + [step], k) == At(h, k)
  {
    assert (h + [step])[..k] == h[..k];
  }

  lemma {:induction false} QuietOneMore(h: seq<Timed>, step: Timed, i: nat)
    requires After(h).Some? && i < |h|
    ensures QuietSince(h + [step], i) <==> QuietSince(h, i) && !Undone(After(h).value, step.event)
  {
    var h' := h + [step];
    forall k | 0 <= k <= |h|
      ensures Reached(h', k) <==> Reached(h, k)
      ensures Reached(h, k) ==> At(h', k) == At(h, k)
    {
      ReachedLonger(h, step, k);
    }
    PrefixReached(h, |h|);
    assert h[..|h|] == h && h'[|h|] == step;
    assert forall k :: i < k < |h| ==> h'[k] == h[k];
  }

  lemma {:induction false} AskedWhen(h: seq<Timed>)
    requires After(h).Some? && LastAsked(h).Some?
    ensures var a := LastAsked(h).value;
            a.at < |h| && Reached(h, a.at) && At(h, a.at) == a.f && Schedules(a.f, h[a.at].event)
  {
    var before, step := h[..|h| - 1], h[|h| - 1];
    assert h == before + [step];
    var f, e, now := LastStep(h);
    if !Schedules(f, e) {
      AskedWhen(before);
      ReachedLonger(before, step, LastAsked(before).value.at);
    }
  }

  lemma {:induction false} AskedSteps(f: Flow, e: Event, now: nat)
    requires LaunchInv(f) && SlotInv(f.slots) && Enabled(f, e)
    ensures Armed(Step(f, e, now).slots) <==>
            if Schedules(f, e) then AskedInTime(Asked(0, f)) else Armed(f.slots) && !Undone(f, e)
  {
    if Schedules(f, e) {
      SchedulingStep(f, e, now);
    } else {
      OtherStep(f, e, now);
    }
  }

  // Exactly when a retry of the current epoch is armed: the last call of scheduleRetry came from a run
  // that was neither cancelled nor stale and found the slot free, done or current, and since then nobody
  // cancelled the active run or globally, nobody opened a run explicitly, and no current retry ran.
  lemma {:induction false} RetryArmedIff(h: seq<Timed>, f: Flow)
    requires After(h) == Some(f)
    ensures Armed(f.slots) <==>
            LastAsked(h).Some? && AskedInTime(LastAsked(h).value) && QuietSince(h, LastAsked(h).value.at)
  {
    if h != [] {
      var before, step := h[..|h| - 1], h[|h| - 1];
      assert h == before + [step];
      var f0, e, now := LastStep(h);
      RetryArmedIff(before, f0);
      SlotHistory(before);
      AskedSteps(f0, e, now);
      if !Schedules(f0, e) && LastAsked(before).Some? {
        AskedWhen(before);
        QuietOneMore(before, step, LastAsked(before).value.at);
      }
    }
  }

  // ---------- After a failure ----------

  function LastAsker(h: seq<Timed>): Option<nat> {
    if LastAsked(h).Some? then Asker(LastAsked(h).value) else None
  }

  predicate FailedRun(f: Flow, r: nat) {
    r < |f.slots.runs| && f.slots.runs[r].outcome == Failed && !f.slots.runs[r].cancelled
  }

  // A failed run that nobody cancelled was the last one to call scheduleRetry: while the worker has it,
  // and while no other run has been opened since.
  predicate FailureInv(f: Flow, who: Option<nat>) {
    && (f.last.Some? ==> f.last.value < |f.slots.runs|)
    && (f.worker.GotOutcome? && FailedRun(f, f.worker.run) ==> who == Some(f.worker.run))
    && (f.worker.Leaving? && f.slots.active == Some(f.worker.run) && FailedRun(f, f.worker.run) ==>
          who == Some(f.worker.run))
    && (f.slots.active.None? && f.last.Some? && FailedRun(f, f.last.value) ==> who == f.last)
  }

  lemma {:induction false} FailurePass(f: Flow, who: Option<nat>, e: Event, now: nat)
    requires LaunchInv(f) && FailureInv(f, who) && Enabled(f, e) && (e.PassReturns? || e.PassThrows?)
    ensures FailureInv(Step(f, e, now), if Schedules(f, e) then Some(f.worker.run) else who)
  {
    assert Executing(f) == f.slots.active == Some(f.worker.run);
    assert ScheduleRetry(f.slots, f.worker.run).runs == f.slots.runs;
  }

  lemma {:induction false} FailureDecide(f: Flow, who: Option<nat>, recent: bool)
    requires LaunchInv(f) && FailureInv(f, who) && Enabled(f, Decide(recent))
    ensures FailureInv(Decided(f, recent), if Schedules(f, Decide(recent)) then Some(f.worker.run) else who)
  {
    assert Executing(f) == f.slots.active == Some(f.worker.run);
    assert ScheduleRetry(f.slots, f.worker.run).runs == f.slots.runs;
  }

  lemma {:induction false} FailureLoopHead(f: Flow, who: Option<nat>, now: nat)
    requires LaunchInv(f) && FailureInv(f, who) && Enabled(f, LoopHead)
    ensures FailureInv(Step(f, LoopHead, now), who)
  {
    assert Executing(f) == f.slots.active == Some(f.worker.run);
  }

  lemma {:induction false} FailureFinally(f: Flow, who: Option<nat>)
    requires LaunchInv(f) && FailureInv(f, who) && Enabled(f, FinallyBlock)
    ensures FailureInv(Finished(f), who)
  {
  }

  // Steps of callers and cancellers: a failed run stays what it is or gets cancelled.
  predicate NoNewFailure(f: Flow, g: Flow) {
    && g.worker == f.worker && g.last == f.last
    && (g.slots.active == f.slots.active || (f.slots.active.None? && g.slots.active == Some(|f.slots.runs|)))
    && |f.slots.runs| <= |g.slots.runs|
    && (forall r :: 0 <= r < |f.slots.runs| && FailedRun(g, r) ==> FailedRun(f, r))
  }

  lemma {:induction false} FailureCaller(f: Flow, g: Flow, who: Option<nat>)
    requires LaunchInv(f) && FailureInv(f, who) && NoNewFailure(f, g)
    ensures FailureInv(g, who)
  {
  }

  lemma {:induction false} FailureStarted(f: Flow, g: Flow, r: Started, who: Option<nat>)
    requires LaunchInv(f) && FailureInv(f, who) && StartEffect(f.slots, r) && ContentEffect(f.slots, r)
    requires g.worker == f.worker && g.last == f.last && g.slots == r.slots
    ensures FailureInv(g, who)
  {
    FailureCaller(f, g, who);
  }

  lemma {:induction false} FailureFlush(f: Flow, force: bool, listens: bool, now: nat, who: Option<nat>)
    requires LaunchInv(f) && FailureInv(f, who)
    ensures FailureInv(Flushed(f, force, listens, now), who)
  {
    var l := if listens then Some(|f.joinedAt|) else None;
    StartHasEffect(f.slots, force, l, None);
    StartContent(f.slots, force, l, None);
    FailureStarted(f, Flushed(f, force, listens, now), Start(f.slots, force, l, None), who);
  }

  lemma {:induction false} FailureRetry(f: Flow, t: nat, who: Option<nat>)
    requires LaunchInv(f) && FailureInv(f, who) && t < |f.slots.timers|
    ensures FailureInv(Retried(f, t), who)
  {
    RetryHasEffect(f.slots, t);
    StartContent(SetPhase(f.slots, t, Left), true, None, Some(f.slots.timers[t].epoch));
    FailureStarted(f, Retried(f, t), RetryStart(f.slots, t), who);
  }

  lemma {:induction false} FailureCancelled(f: Flow, target: Option<nat>, who: Option<nat>)
    requires LaunchInv(f) && FailureInv(f, who)
    ensures FailureInv(CancelledBy(f, target), who)
  {
    FailureCaller(f, CancelledBy(f, target), who);
  }

  lemma {:induction false} FailureQuiet(f: Flow, e: Event, now: nat, who: Option<nat>)
    requires LaunchInv(f) && FailureInv(f, who) && Enabled(f, e)
    requires e.Skip? || e.Fire? || e.EndTask? || e.TellOwed? || e.Submit? || e.Take? || e.TellOne? || e.EndRun?
    ensures FailureInv(Step(f, e, now), who)
  {
  }

  lemma {:induction false} FailureStep(f: Flow, e: Event, now: nat, who: Option<nat>)
    requires LaunchInv(f) && FailureInv(f, who) && Enabled(f, e)
    ensures FailureInv(Step(f, e, now), if Schedules(f, e) then Some(f.worker.run) else who)
  {
    if e.Flush? {
      FailureFlush(f, e.force, e.listens, now, who);
    } else if e.Retry? {
      FailureRetry(f, e.timer, who);
    } else if e.CancelAll? || e.CancelRun? {
      FailureCancelled(f, if e.CancelAll? then None else Some(e.run), who);
    } else if e.PassReturns? || e.PassThrows? {
      FailurePass(f, who, e, now);
    } else if e.Decide? {
      FailureDecide(f, who, e.recent);
    } else if e.FinallyBlock? {
      FailureFinally(f, who);
    } else if e.LoopHead? {
      FailureLoopHead(f, who, now);
    } else {
      FailureQuiet(f, e, now, who);
    }
  }

  lemma {:induction false} FailureHistory(h: seq<Timed>)
    requires After(h).Some?
    ensures FailureInv(After(h).value, LastAsker(h))
  {
    if h != [] {
      FailureHistory(h[..|h| - 1]);
      var f, e, now := LastStep(h);
      FailureStep(f, e, now, LastAsker(h[..|h| - 1]));
    }
  }

  // The run called scheduleRetry in time: its epoch was still current, and the slot was free or held a
  // retry that was done or current.
  predicate AsksInTime(s: Slots, r: nat) {
    && s.WellFormed() && r < |s.runs| && s.runs[r].epoch == s.epoch
    && (s.slot.Some? ==> s.timers[s.slot.value].IsDone() || s.timers[s.slot.value].epoch == s.epoch)
  }

  lemma {:induction false} CancelledLater(h: seq<Timed>, i: nat)
    requires After(h).Some? && i <= |h|
    ensures Reached(h, i) && CancelledKeeps(At(h, i).slots, After(h).value.slots)
    decreases |h|
  {
    if i == |h| {
      assert h[..i] == h;
    } else {
      var before, step := h[..|h| - 1], h[|h| - 1];
      assert h == before + [step];
      CancelledLater(before, i);
      ReachedLonger(before, step, i);
      var f, e, now := LastStep(h);
      CancelledSticks(f, e, now);
      CancelledTwice(At(h, i).slots, f.slots, After(h).value.slots);
    }
  }

  lemma {:induction false} CancelledTwice(a: Slots, b: Slots, c: Slots)
    requires CancelledKeeps(a, b) && CancelledKeeps(b, c)
    ensures CancelledKeeps(a, c)
  {
  }

  lemma {:induction false} AskedAfterFailure(a: Asked, r: nat)
    requires Asker(a) == Some(r)
    requires r < |a.f.slots.runs| ==> !a.f.slots.runs[r].cancelled
    ensures AskedInTime(a) <==> AsksInTime(a.f.slots, r)
  {
  }

  // ---------- After a cancelled run ----------

  // A cancelled run that has left the active slot leaves no current timer behind.
  predicate LastOutdated(f: Flow) {
    f.slots.active.None? && f.last.Some? && f.last.value < |f.slots.runs| && f.slots.runs[f.last.value].cancelled ==>
      NoCurrentTimer(f.slots)
  }

  lemma {:induction false} OutdatedCaller(f: Flow, e: Event, now: nat)
    requires LaunchInv(f) && SlotInv(f.slots) && LastOutdated(f) && Enabled(f, e) && (e.Flush? || e.Retry?)
    ensures LastOutdated(Step(f, e, now))
  {
  }

  lemma {:induction false} OutdatedCancel(f: Flow, target: Option<nat>)
    requires LaunchInv(f) && SlotInv(f.slots) && LastOutdated(f)
    ensures LastOutdated(CancelledBy(f, target))
  {
  }

  lemma {:induction false} OutdatedWorker(f: Flow, e: Event, now: nat)
    requires LaunchInv(f) && SlotInv(f.slots) && LastOutdated(f) && Enabled(f, e)
    requires e.PassReturns? || e.PassThrows? || e.Decide? || e.FinallyBlock?
    ensures LastOutdated(Step(f, e, now))
  {
    assert Executing(f).Some? ==> Executing(f) == f.slots.active;
  }

  lemma {:induction false} OutdatedQuiet(f: Flow, e: Event, now: nat)
    requires LastOutdated(f) && Enabled(f, e)
    requires e.Skip? || e.Fire? || e.EndTask? || e.TellOwed? || e.Submit? || e.Take? || e.LoopHead? || e.TellOne? || e.EndRun?
    ensures LastOutdated(Step(f, e, now))
  {
  }

  lemma {:induction false} OutdatedHistory(h: seq<Timed>, f: Flow)
    requires After(h) == Some(f)
    ensures LastOutdated(f)
  {
    if h != [] {
      var f0, e, now := LastStep(h);
      OutdatedHistory(h[..|h| - 1], f0);
      SlotHistory(h[..|h| - 1]);
      if e.Flush? || e.Retry? {
        OutdatedCaller(f0, e, now);
      } else if e.CancelAll? || e.CancelRun? {
        OutdatedCancel(f0, if e.CancelAll? then None else Some(e.run));
      } else if e.PassReturns? || e.PassThrows? || e.Decide? || e.FinallyBlock? {
        OutdatedWorker(f0, e, now);
      } else {
        OutdatedQuiet(f0, e, now);
      }
    }
  }

  // ---------- The result ----------

  // After a failure, whatever happened before: when the system is idle after a run failed, a live retry is
  // armed exactly if nobody cancelled that run, it was the last to call scheduleRetry, it called in time,
  // and nothing disturbed the retry since. A failed run that nobody cancelled always was the last to call.
  lemma {:induction false} FailureArmsRetry(h: seq<Timed>, f: Flow)
    requires After(h) == Some(f) && IdleAfterFailure(f)
    ensures var r, asked := f.last.value, LastAsked(h);
            && (Armed(f.slots) <==>
                  && !f.slots.runs[r].cancelled && asked.Some? && Asker(asked.value) == f.last
                  && AsksInTime(asked.value.f.slots, r) && QuietSince(h, asked.value.at))
            && (!f.slots.runs[r].cancelled ==> asked.Some? && Asker(asked.value) == f.last)
  {
    RetryArmedIff(h, f);
    if f.slots.runs[f.last.value].cancelled {
      OutdatedHistory(h, f);
    } else {
      var a := FailureAsked(h, f);
    }
  }

  lemma {:induction false} FailureAsked(h: seq<Timed>, f: Flow) returns (a: Asked)
    requires After(h) == Some(f) && IdleAfterFailure(f) && !f.slots.runs[f.last.value].cancelled
    ensures LastAsked(h) == Some(a) && Asker(a) == f.last
    ensures a.at < |h| && Reached(h, a.at) && At(h, a.at) == a.f
    ensures AskedInTime(a) <==> AsksInTime(a.f.slots, f.last.value)
  {
    FailureHistory(h);
    a := LastAsked(h).value;
    AskedWhen(h);
    CancelledLater(h, a.at);
    AskedAfterFailure(a, f.last.value);
  }
}
