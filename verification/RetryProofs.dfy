// Retry timers and the cancellation epoch.
module RetryProofs {
  import opened Commons
  import opened FlushRuns
  import opened FlushFlow
  import opened FlushFlowProofs
  import opened FlushHistories

  // ---------- Epochs only grow, and timers keep the epoch they were armed with ----------

  function Rank(p: Phase): nat {
    match p case Waiting => 0 case Firing => 1 case Left => 2 case Ended => 3
  }

  predicate TimersAge(s: Slots, s': Slots) {
    && s.epoch <= s'.epoch
    && |s.timers| <= |s'.timers|
    && forall t :: 0 <= t < |s.timers| ==>
         && s'.timers[t].epoch == s.timers[t].epoch
         && Rank(s.timers[t].phase) <= Rank(s'.timers[t].phase)
         && (s.timers[t].revoked ==> s'.timers[t].revoked)
  }

  // The events after which an armed timer must not start a run.
  predicate Disturbs(f: Flow, e: Event) {
    match e
    case CancelAll => true
    case CancelRun(r) => f.slots.active == Some(r)
    case Flush(_, _) => f.slots.active.None?
    case _ => false
  }

  lemma {:induction false} EnteredAges(s: Slots, force: bool, l: Option<Listener>, explicit: bool)
    requires s.WellFormed()
    ensures TimersAge(s, Entered(s, force, l, explicit).slots)
    ensures s.active.None? && explicit ==> Entered(s, force, l, explicit).slots.epoch == s.epoch + 1
  {
  }

  lemma {:induction false} CancelAges(s: Slots, target: Option<nat>)
    requires s.WellFormed()
    ensures TimersAge(s, Cancel(s, target).slots)
    ensures target.None? || s.active == target ==> Cancel(s, target).slots.epoch == s.epoch + 1
  {
  }

  lemma {:induction false} RetryAges(f: Flow, t: nat)
    requires Enabled(f, Retry(t))
    ensures TimersAge(f.slots, Retried(f, t).slots)
    ensures Rank(Retried(f, t).slots.timers[t].phase) >= 2
    ensures Retried(f, t).activated != f.activated ==> f.slots.timers[t].epoch == f.slots.epoch
  {
    var s := SetPhase(f.slots, t, Left);
    if f.slots.timers[t].epoch == f.slots.epoch {
      EnteredAges(s.(slot := None), true, None, false);
    }
  }

  lemma {:induction false} StepAges(f: Flow, e: Event, now: nat)
    requires Enabled(f, e)
    ensures TimersAge(f.slots, Step(f, e, now).slots)
    ensures Disturbs(f, e) ==> f.slots.epoch < Step(f, e, now).slots.epoch
  {
    match e
    case Flush(force, listens) => EnteredAges(f.slots, force, if listens then Some(|f.joinedAt|) else None, true);
    case Retry(t) => RetryAges(f, t);
    case CancelAll => CancelAges(f.slots, None);
    case CancelRun(r) => CancelAges(f.slots, Some(r));
    case _ =>
  }

  // ---------- The same over histories ----------

  predicate Reached(h: seq<Timed>, i: nat) {
    i <= |h| && After(h[..i]).Some?
  }

  function At(h: seq<Timed>, i: nat): Flow
    requires Reached(h, i)
  {
    After(h[..i]).value
  }

  lemma {:induction false} PrefixReached(h: seq<Timed>, i: nat)
    requires After(h).Some? && i <= |h|
    ensures Reached(h, i)
  {
    if i < |h| {
      PrefixReached(h[..|h| - 1], i);
      assert h[..|h| - 1][..i] == h[..i];
    } else {
      assert h[..i] == h;
    }
  }

  lemma {:induction false} StepAt(h: seq<Timed>, i: nat)
    requires After(h).Some? && i < |h|
    ensures Reached(h, i) && Reached(h, i + 1)
    ensures Possible(At(h, i), h[i].event, h[i].at)
    ensures At(h, i + 1) == Step(At(h, i), h[i].event, h[i].at)
  {
    PrefixReached(h, i);
    PrefixReached(h, i + 1);
    assert h[..i + 1][..i] == h[..i];
  }

  lemma {:induction false} AgesBetween(h: seq<Timed>, i: nat, j: nat)
    requires After(h).Some? && i <= j <= |h|
    ensures Reached(h, i) && Reached(h, j)
    ensures TimersAge(At(h, i).slots, At(h, j).slots)
    decreases j - i
  {
    PrefixReached(h, i);
    if i < j {
      StepAt(h, i);
      StepAges(At(h, i), h[i].event, h[i].at);
      AgesBetween(h, i + 1, j);
    }
  }

  // Event i armed timer t; event j is the timer's lock block and starts a run.
  predicate ArmedAndStarted(h: seq<Timed>, i: nat, j: nat, t: nat) {
    && i < j < |h| && Reached(h, i) && Reached(h, i + 1) && Reached(h, j) && Reached(h, j + 1)
    && |At(h, i).slots.timers| == t < |At(h, i + 1).slots.timers|
    && h[j].event == Retry(t)
    && At(h, j + 1).activated != At(h, j).activated
  }

  // Only scheduleRetry creates timers.
  lemma {:induction false} ArmedWithCurrentEpoch(f: Flow, e: Event, now: nat)
    requires Enabled(f, e) && |Step(f, e, now).slots.timers| > |f.slots.timers|
    ensures var s := Step(f, e, now).slots;
            |s.timers| == |f.slots.timers| + 1 && s.timers[|f.slots.timers|].epoch == s.epoch == f.slots.epoch
  {
    match e
    case Retry(t) => RetryArmsNothing(f, t);
    case Flush(force, listens) => FlushArmsNothing(f, force, listens, now);
    case CancelAll => CancelArmsNothing(f.slots, None);
    case CancelRun(r) => CancelArmsNothing(f.slots, Some(r));
    case _ =>
  }

  lemma {:induction false} FlushArmsNothing(f: Flow, force: bool, listens: bool, now: nat)
    requires f.slots.WellFormed()
    ensures |Flushed(f, force, listens, now).slots.timers| == |f.slots.timers|
  {
  }

  lemma {:induction false} CancelArmsNothing(s: Slots, target: Option<nat>)
    requires s.WellFormed()
    ensures |Cancel(s, target).slots.timers| == |s.timers|
  {
  }

  lemma {:induction false} RetryArmsNothing(f: Flow, t: nat)
    requires Enabled(f, Retry(t))
    ensures |Retried(f, t).slots.timers| == |f.slots.timers|
  {
  }

  lemma {:induction false} ArmingEpoch(h: seq<Timed>, i: nat)
    requires After(h).Some? && i < |h| && Reached(h, i) && Reached(h, i + 1)
    requires |At(h, i).slots.timers| < |At(h, i + 1).slots.timers|
    ensures At(h, i + 1).slots.timers[|At(h, i).slots.timers|].epoch == At(h, i + 1).slots.epoch
  {
    StepAt(h, i);
    ArmedWithCurrentEpoch(At(h, i), h[i].event, h[i].at);
  }

  lemma {:induction false} StartingEpoch(h: seq<Timed>, j: nat, t: nat)
    requires After(h).Some? && j < |h| && h[j].event == Retry(t) && Reached(h, j) && Reached(h, j + 1)
    requires At(h, j + 1).activated != At(h, j).activated
    ensures t < |At(h, j).slots.timers| && At(h, j).slots.timers[t].epoch == At(h, j).slots.epoch
  {
    StepAt(h, j);
    RetryAges(At(h, j), t);
  }

  predicate EpochIs(h: seq<Timed>, k: nat, epoch: nat) {
    Reached(h, k) && At(h, k).slots.epoch == epoch
  }

  // Between arming and starting the epoch does not move.
  lemma {:induction false} EpochStands(h: seq<Timed>, i: nat, j: nat, t: nat, k: nat, epoch: nat)
    requires After(h).Some? && ArmedAndStarted(h, i, j, t) && i < k <= j && epoch == At(h, i + 1).slots.epoch
    ensures EpochIs(h, k, epoch)
  {
    ArmingEpoch(h, i);
    StartingEpoch(h, j, t);
    AgesBetween(h, i + 1, k);
    AgesBetween(h, k, j);
  }

  // A retry timer starts a run only if, since it was armed, nobody cancelled the active run, nobody
  // cancelled globally, and no explicit flush opened a run.
  lemma {:induction false} RetryStartsUndisturbed(h: seq<Timed>, i: nat, j: nat, t: nat, k: nat)
    requires After(h).Some? && ArmedAndStarted(h, i, j, t) && i < k < j
    ensures Reached(h, k) && !Disturbs(At(h, k), h[k].event)
  {
    var epoch, next := At(h, i + 1).slots.epoch, k + 1;
    EpochStands(h, i, j, t, k, epoch);
    EpochStands(h, i, j, t, next, epoch);
    StepKeepsEpoch(h, k, next, epoch);
  }

  lemma {:induction false} StepKeepsEpoch(h: seq<Timed>, k: nat, next: nat, epoch: nat)
    requires After(h).Some? && k < |h| && next == k + 1 && EpochIs(h, k, epoch) && EpochIs(h, next, epoch)
    ensures Reached(h, k) && !Disturbs(At(h, k), h[k].event)
  {
    StepAt(h, k);
    StepAges(At(h, k), h[k].event, h[k].at);
  }

  lemma {:induction false} RetryLeaves(h: seq<Timed>, j: nat, t: nat)
    requires After(h).Some? && j < |h| && h[j].event == Retry(t)
    ensures Reached(h, j) && t < |At(h, j).slots.timers| && At(h, j).slots.timers[t].phase == Firing
    ensures Reached(h, j + 1) && t < |At(h, j + 1).slots.timers| && Rank(At(h, j + 1).slots.timers[t].phase) >= 2
  {
    StepAt(h, j);
    RetryAges(At(h, j), t);
  }

  // A retry timer reaches its lock block at most once, so it starts at most one run.
  lemma {:induction false} RetryRunsOnce(h: seq<Timed>, j: nat, k: nat, t: nat)
    requires After(h).Some? && j < |h| && k < |h|
    requires h[j].event == Retry(t) && h[k].event == Retry(t)
    ensures j == k
  {
    if j < k {
      RetriedBefore(h, j, k, t);
    } else if k < j {
      RetriedBefore(h, k, j, t);
    }
  }

  lemma {:induction false} RetriedBefore(h: seq<Timed>, j: nat, k: nat, t: nat)
    requires After(h).Some? && j < k < |h| && h[j].event == Retry(t)
    ensures h[k].event != Retry(t)
  {
    RetryLeaves(h, j, t);
    AgesBetween(h, j + 1, k);
    StepAt(h, k);
    assert Rank(At(h, k).slots.timers[t].phase) >= 2;
  }

  // ---------- What it means that a retry is armed ----------

  // A retry is armed that will start a run when it fires.
  predicate Armed(s: Slots) {
    && s.slot.Some? && s.slot.value < |s.timers|
    && s.timers[s.slot.value].epoch == s.epoch
    && !s.timers[s.slot.value].revoked
    && (s.timers[s.slot.value].phase == Waiting || s.timers[s.slot.value].phase == Firing)
  }

  predicate IdleAfterFailure(f: Flow) {
    && f.slots.active.None?
    && f.last.Some? && f.last.value < |f.slots.runs| && f.slots.runs[f.last.value].outcome == Failed
  }

  // ---------- At most one retry is armed ----------

  // The timer can still start a run.
  predicate CanStart(t: Timer) {
    !t.revoked && (t.phase == Waiting || t.phase == Firing)
  }

  // Only the timer in the slot can, and no timer of the current epoch has been revoked.
  predicate OnlyInSlot(timers: seq<Timer>, slot: Option<nat>, epoch: nat) {
    && (forall i :: 0 <= i < |timers| ==>
          timers[i].epoch <= epoch && (timers[i].revoked ==> timers[i].epoch < epoch))
    && (forall i :: 0 <= i < |timers| && CanStart(timers[i]) ==> slot == Some(i))
  }

  predicate SlotInv(s: Slots) {
    s.WellFormed() && OnlyInSlot(s.timers, s.slot, s.epoch)
  }

  lemma {:induction false} EnteredSlot(s: Slots, force: bool, l: Option<Listener>, explicit: bool)
    requires SlotInv(s) && (explicit || s.slot.None?)
    ensures SlotInv(Entered(s, force, l, explicit).slots)
  {
    EnteredHasEffect(s, force, l, explicit);
    ClearedSlot(s, explicit, TimerCleared(s, explicit));
  }

  lemma {:induction false} ClearedSlot(s: Slots, explicit: bool, s': Slots)
    requires SlotInv(s) && (explicit || s.slot.None?) && s' == TimerCleared(s, explicit)
    ensures OnlyInSlot(s'.timers, s'.slot, s'.epoch)
  {
  }

  lemma {:induction false} RetrySlot(s: Slots, t: nat)
    requires SlotInv(s) && t < |s.timers| && s.timers[t].phase == Firing
    ensures SlotInv(RetryStart(s, t).slots)
  {
    var s' := SetPhase(s, t, Left);
    if s.timers[t].epoch == s.epoch {
      assert CanStart(s.timers[t]);
      EnteredSlot(s'.(slot := None), true, None, false);
    }
  }

  lemma {:induction false} CancelSlot(s: Slots, target: Option<nat>)
    requires SlotInv(s)
    ensures SlotInv(Cancel(s, target).slots)
  {
  }

  lemma {:induction false} PassSlot(f: Flow, e: Event, now: nat)
    requires SlotInv(f.slots) && Enabled(f, e) && (e.PassReturns? || e.PassThrows?)
    ensures SlotInv(Step(f, e, now).slots)
  {
    ScheduleSlot(f.slots, f.worker.run);
    ScheduleSlot(WithOutcome(f.slots, f.worker.run, Failed), f.worker.run);
  }

  lemma {:induction false} DecideSlot(f: Flow, recent: bool)
    requires SlotInv(f.slots) && Enabled(f, Decide(recent))
    ensures SlotInv(Decided(f, recent).slots)
  {
    ScheduleSlot(f.slots, f.worker.run);
  }

  lemma {:induction false} ScheduleSlot(s: Slots, r: nat)
    requires SlotInv(s) && r < |s.runs|
    ensures SlotInv(ScheduleRetry(s, r))
  {
  }

  lemma {:induction false} SlotStep(f: Flow, e: Event, now: nat)
    requires SlotInv(f.slots) && Enabled(f, e)
    ensures SlotInv(Step(f, e, now).slots)
  {
    match e
    case Flush(force, listens) => EnteredSlot(f.slots, force, if listens then Some(|f.joinedAt|) else None, true);
    case Retry(t) => RetrySlot(f.slots, t);
    case CancelAll => CancelSlot(f.slots, None);
    case CancelRun(r) => CancelSlot(f.slots, Some(r));
    case PassReturns(_, _) => PassSlot(f, e, now);
    case PassThrows => PassSlot(f, e, now);
    case Decide(recent) => DecideSlot(f, recent);
    case _ =>
  }

  lemma {:induction false} SlotHistory(h: seq<Timed>)
    requires After(h).Some?
    ensures SlotInv(After(h).value.slots)
  {
    if h != [] {
      SlotHistory(h[..|h| - 1]);
      var f, e, now := LastStep(h);
      SlotStep(f, e, now);
    }
  }

  // However often passes fail, at most one timer can still start a run.
  lemma {:induction false} OneRetryArmed(h: seq<Timed>, i: nat, j: nat)
    requires After(h).Some? && i < |After(h).value.slots.timers| && j < |After(h).value.slots.timers|
    requires CanStart(After(h).value.slots.timers[i]) && CanStart(After(h).value.slots.timers[j])
    ensures i == j
  {
    SlotHistory(h);
  }

  // A global cancellation leaves no timer that can start a run, and neither does a caller that opens one.
  lemma {:induction false} DisarmsAll(h: seq<Timed>, i: nat)
    requires After(h).Some? && h != [] && After(h[..|h| - 1]).Some?
    requires h[|h| - 1].event == CancelAll ||
             (h[|h| - 1].event.Flush? && After(h[..|h| - 1]).value.slots.active.None?)
    requires i < |After(h).value.slots.timers|
    ensures !CanStart(After(h).value.slots.timers[i])
  {
    SlotHistory(h);
    var f, e, now := LastStep(h);
    EmptiesSlot(f, e, now);
  }

  lemma {:induction false} EmptiesSlot(f: Flow, e: Event, now: nat)
    requires Enabled(f, e) && (e.CancelAll? || (e.Flush? && f.slots.active.None?))
    ensures Step(f, e, now).slots.slot.None?
  {
  }
}
