// The state that NativeTelemetrySync guards with FLUSH_LOCK, and the blocks it runs under that lock.
//
// Every `synchronized (FLUSH_LOCK)` block of the program appears twice: as a function on the value
// `Slots`, which the protocol proofs use, and as a method of class `TelemetrySync` that updates the
// heap objects in place and is proved to do exactly what the function says.
module FlushRuns {
  import opened Commons

  // One registration of a FlushListener. A listener object registered twice is two registrations.
  type Listener = nat

  datatype Outcome = Drained | Failed | Cancelled | Unconfigured

  // A FlushRun. Its runId is its position in Slots.runs plus one.
  datatype Run = Run(
    epoch: nat,
    force: bool,
    cancelled: bool,
    drainRequested: bool,
    listeners: seq<Listener>,
    outcome: Outcome)

  // A task handed to the retry scheduler. `Firing` is the time between the timer going off and its
  // lock block; `Left` is the time between that block and the end of the task.
  datatype Phase = Waiting | Firing | Left | Ended

  datatype Timer = Timer(epoch: nat, phase: Phase, revoked: bool) {
    // ScheduledFuture.isDone: a cancelled future is done even if its task is still running.
    predicate IsDone() {
      revoked || phase == Ended
    }
  }

  // `runs` and `timers` hold every object ever created; `active`, `pending` and `slot` are
  // activeRun, pendingRun and scheduledRetry.
  datatype Slots = Slots(
    runs: seq<Run>,
    active: Option<nat>,
    pending: Option<nat>,
    epoch: nat,
    timers: seq<Timer>,
    slot: Option<nat>)
  {
    predicate WellFormed() {
      && (active.Some? ==> active.value < |runs|)
      && (pending.Some? ==> pending.value < |runs| && pending != active)
      && (slot.Some? ==> slot.value < |timers|)
    }

    predicate ActiveCancelled()
      requires WellFormed()
    {
      active.Some? && runs[active.value].cancelled
    }
  }

  const INITIAL := Slots([], None, None, 1, [], None)

  function NewRun(epoch: nat, force: bool): Run {
    Run(epoch, force, false, false, [], Failed)
  }

  function Joined(r: Run, l: Option<Listener>, force: bool): Run {
    r.(listeners := if l.Some? then r.listeners + [l.value] else r.listeners, force := r.force || force)
  }

  function Revoked(s: Slots): Slots
    requires s.WellFormed()
  {
    if s.slot.None? then s
    else s.(timers := s.timers[s.slot.value := s.timers[s.slot.value].(revoked := true)], slot := None)
  }

  // The caller joins the pending run behind a cancelled active one, creating it if need be.
  function Queued(s: Slots, force: bool, l: Option<Listener>): (s': Slots)
    requires s.WellFormed() && s.active.Some?
    ensures s'.WellFormed() && s'.pending.Some?
  {
    var s1 := if s.pending.None?
              then s.(runs := s.runs + [NewRun(s.epoch, force)], pending := Some(|s.runs|))
              else s;
    var p := s1.pending.value;
    s1.(runs := s1.runs[p := Joined(s1.runs[p], l, force)])
  }

  // The caller opens a new active run.
  function Opened(s: Slots, force: bool, l: Option<Listener>): (s': Slots)
    ensures s'.active == Some(|s.runs|)
  {
    s.(runs := s.runs + [Joined(NewRun(s.epoch, force), l, force)], active := Some(|s.runs|))
  }

  // An explicit flush starts a fresh epoch; any opening of a run disarms the retry timer.
  function TimerCleared(s: Slots, explicit: bool): Slots
    requires s.WellFormed()
  {
    Revoked(if explicit then s.(epoch := s.epoch + 1) else s)
  }

  datatype StartStatus = StaleEpoch | QueuedBehindCancelled | AlreadyRunning | FlushStarted

  datatype Started = Started(slots: Slots, status: StartStatus, run: nat)

  function Entered(s: Slots, force: bool, l: Option<Listener>, explicit: bool): Started
    requires s.WellFormed()
  {
    if s.active.Some? then
      if s.ActiveCancelled() then
        var s1 := Queued(s, force, l);
        Started(s1, QueuedBehindCancelled, s1.pending.value)
      else
        var a := s.active.value;
        Started(s.(runs := s.runs[a := Joined(s.runs[a], l, force).(drainRequested := true)]), AlreadyRunning, a)
    else
      var s1 := Opened(TimerCleared(s, explicit), force, l);
      Started(s1, FlushStarted, s1.active.value)
  }

  // The lock block of flushInternalStart. `expected` is the epoch a retry timer was armed with.
  // `run` is the run the caller joined or opened (0 for a stale timer); a run is handed to the
  // network executor by this caller exactly when the status is FlushStarted.
  function Start(s: Slots, force: bool, l: Option<Listener>, expected: Option<nat>): Started
    requires s.WellFormed()
  {
    if expected.Some? && expected.value != s.epoch then
      Started(s, StaleEpoch, 0)
    else
      Entered(if expected.Some? then s.(slot := None) else s, force, l, expected.None?)
  }

  datatype CancelResult = CancelResult(slots: Slots, notify: seq<Listener>)

  function DropPending(s: Slots): CancelResult
    requires s.WellFormed()
  {
    if s.pending.None? then CancelResult(s, [])
    else
      var p := s.pending.value;
      CancelResult(
        s.(runs := s.runs[p := s.runs[p].(cancelled := true)], pending := None),
        s.runs[p].listeners)
  }

  function CancelActive(s: Slots): Slots
    requires s.WellFormed()
  {
    if s.active.None? then s
    else s.(runs := s.runs[s.active.value := s.runs[s.active.value].(cancelled := true)])
  }

  // The lock block of requestCancelFlush; `target` None is the global form.
  function Cancel(s: Slots, target: Option<nat>): CancelResult
    requires s.WellFormed()
  {
    if target.Some? then
      var s0 := if s.active == target then CancelActive(s.(epoch := s.epoch + 1)) else s;
      if s0.pending == target then DropPending(s0) else CancelResult(s0, [])
    else
      var dropped := DropPending(CancelActive(s.(epoch := s.epoch + 1)));
      dropped.(slots := Revoked(dropped.slots))
  }

  // The lock block of scheduleRetry, called by the worker for its own run r.
  function ScheduleRetry(s: Slots, r: nat): Slots
    requires s.WellFormed() && r < |s.runs|
  {
    if s.runs[r].cancelled || s.runs[r].epoch != s.epoch then s
    else if s.slot.Some? && !s.timers[s.slot.value].IsDone() then s
    else s.(timers := s.timers + [Timer(s.epoch, Waiting, false)], slot := Some(|s.timers|))
  }

  // A run leaves the active slot and the pending run, if any, takes it.
  function HandOver(s: Slots): Slots {
    s.(active := s.pending, pending := None)
  }

  datatype DrainResult = DrainResult(slots: Slots, again: bool, next: Option<nat>)

  // The lock block of executeRun after a DRAINED pass.
  function AfterDrained(s: Slots, r: nat): DrainResult
    requires s.WellFormed() && r < |s.runs|
  {
    if s.runs[r].drainRequested && !s.runs[r].cancelled then
      DrainResult(s.(runs := s.runs[r := s.runs[r].(drainRequested := false)]), true, None)
    else if s.active == Some(r) then
      DrainResult(HandOver(s), false, s.pending)
    else
      DrainResult(s, false, None)
  }

  datatype FinishResult = FinishResult(slots: Slots, notify: seq<Listener>, next: Option<nat>)

  // The lock block of executeRun's finally clause; `next` is the run handed over earlier, if any.
  function Finish(s: Slots, r: nat, next: Option<nat>): FinishResult
    requires s.WellFormed() && r < |s.runs|
  {
    if s.active == Some(r) then
      FinishResult(HandOver(s), s.runs[r].listeners, s.pending)
    else
      FinishResult(s, s.runs[r].listeners, next)
  }

  class FlushRun {
    const runId: nat
    const epoch: nat
    var force: bool
    var cancelled: bool
    var drainRequested: bool
    var listeners: seq<Listener>
    var outcome: Outcome

    constructor (runId: nat, epoch: nat, force: bool)
      ensures this.runId == runId && Value() == NewRun(epoch, force)
    {
      this.runId := runId;
      this.epoch := epoch;
      this.force := force;
      cancelled, drainRequested, listeners, outcome := false, false, [], Failed;
    }

    ghost function Value(): Run
      reads this
    {
      Run(epoch, force, cancelled, drainRequested, listeners, outcome)
    }

    method Add(listener: Option<Listener>, force: bool)
      modifies this
      ensures Value() == Joined(old(Value()), listener, force)
    {
      if listener.Some? {
        listeners := listeners + [listener.value];
      }
      this.force := this.force || force;
    }
  }

  // A ScheduledFuture together with its task; `number` orders the futures by creation.
  class RetryTask {
    ghost const number: nat
    const epoch: nat
    var phase: Phase
    var revoked: bool

    constructor (ghost number: nat, epoch: nat)
      ensures this.number == number && Value() == Timer(epoch, Waiting, false)
    {
      this.number := number;
      this.epoch := epoch;
      phase, revoked := Waiting, false;
    }

    ghost function Value(): Timer
      reads this
    {
      Timer(epoch, phase, revoked)
    }
  }

  class TelemetrySync {
    var activeRun: FlushRun?
    var pendingRun: FlushRun?
    var nextRunId: nat
    var currentEpoch: nat
    var scheduledRetry: RetryTask?
    ghost var runs: seq<FlushRun>    // every run created, in order
    ghost var tasks: seq<RetryTask>  // every retry task created, in order
    ghost var State: Slots           // the value of all of the above

    // `run` is the object behind State.runs[id].
    ghost predicate IsRun(run: FlushRun?, id: Option<nat>)
      reads this`runs, this`State, run
    {
      if run == null then id.None?
      else
        && id.Some? && id.value < |runs| == |State.runs|
        && run.runId == id.value + 1 && runs[id.value] == run && run.Value() == State.runs[id.value]
    }

    ghost predicate IsTask(task: RetryTask?, id: Option<nat>)
      reads this`tasks, this`State, task
    {
      if task == null then id.None?
      else
        && id.Some? && id.value < |tasks| == |State.timers|
        && task.number == id.value && tasks[id.value] == task && task.Value() == State.timers[id.value]
    }

    ghost predicate Valid()
      reads this, activeRun, pendingRun, scheduledRetry
    {
      && State.WellFormed()
      && nextRunId == |runs| + 1 == |State.runs| + 1
      && |tasks| == |State.timers|
      && currentEpoch == State.epoch
      && IsRun(activeRun, State.active)
      && IsRun(pendingRun, State.pending)
      && IsTask(scheduledRetry, State.slot)
    }

    constructor ()
      ensures Valid() && State == INITIAL
      ensures runs == [] && tasks == []
    {
      activeRun, pendingRun, scheduledRetry := null, null, null;
      nextRunId, currentEpoch := 1, 1;
      runs, tasks, State := [], [], INITIAL;
    }

    // scheduledRetry.cancel(false); scheduledRetry = null
    method RevokeRetry()
      requires Valid()
      modifies this`scheduledRetry, this`State, scheduledRetry
      ensures Valid() && State == Revoked(old(State))
    {
      if scheduledRetry != null {
        scheduledRetry.revoked := true;
        scheduledRetry := null;
      }
      State := Revoked(State);
    }

    method NewFlushRun(force: bool) returns (run: FlushRun)
      requires Valid()
      modifies this`nextRunId, this`runs, this`State
      ensures Valid() && fresh(run)
      ensures IsRun(run, Some(|old(runs)|))
      ensures State == old(State).(runs := old(State).runs + [NewRun(currentEpoch, force)])
    {
      run := new FlushRun(nextRunId, currentEpoch, force);
      nextRunId := nextRunId + 1;
      runs := runs + [run];
      State := State.(runs := State.runs + [NewRun(currentEpoch, force)]);
    }

    // The caller joins the active run, whose worker must then drain once more.
    method JoinActive(listener: Option<Listener>, force: bool) returns (runId: nat)
      requires Valid() && activeRun != null
      modifies this`State, activeRun
      ensures Valid()
      ensures var a := old(State).active.value;
              State == old(State).(runs :=
                old(State).runs[a := Joined(old(State).runs[a], listener, force).(drainRequested := true)])
      ensures runId == old(State).active.value + 1
    {
      activeRun.drainRequested := true;
      activeRun.Add(listener, force);
      State := State.(runs := State.runs[State.active.value := activeRun.Value()]);
      runId := activeRun.runId;
    }

    method QueueBehindCancelled(force: bool, listener: Option<Listener>) returns (runId: nat)
      requires Valid() && State.active.Some?
      modifies this`pendingRun, this`nextRunId, this`runs, this`State, pendingRun
      ensures Valid()
      ensures State == Queued(old(State), force, listener) && runId == State.pending.value + 1
    {
      if pendingRun == null {
        pendingRun := NewFlushRun(force);
        State := State.(pending := Some(|State.runs| - 1));
      }
      pendingRun.Add(listener, force);
      State := State.(runs := State.runs[State.pending.value := pendingRun.Value()]);
      runId := pendingRun.runId;
    }

    method ClearTimer(explicit: bool)
      requires Valid()
      modifies this`currentEpoch, this`scheduledRetry, this`State, scheduledRetry
      ensures Valid()
      ensures State == TimerCleared(old(State), explicit) && activeRun == old(activeRun)
    {
      if explicit {
        currentEpoch := currentEpoch + 1; // retries armed before are stale now
        State := State.(epoch := State.epoch + 1);
      }
      RevokeRetry();
    }

    method OpenRun(force: bool, listener: Option<Listener>) returns (runId: nat)
      requires Valid() && State.active.None?
      modifies this
      ensures Valid()
      ensures State == Opened(old(State), force, listener) && runId == State.active.value + 1
    {
      activeRun := new FlushRun(nextRunId, currentEpoch, force);
      nextRunId := nextRunId + 1;
      activeRun.Add(listener, force);
      runs := runs + [activeRun];
      State := Opened(State, force, listener);
      runId := activeRun.runId;
    }

    // The lock block of flushInternalStart: the run joined or opened, and whether the caller must
    // hand it to the network executor.
    method FlushInternalStart(force: bool, listener: Option<Listener>, expectedEpoch: Option<nat>)
      returns (status: StartStatus, runId: nat)
      requires Valid()
      modifies this, activeRun, pendingRun, scheduledRetry
      ensures Valid()
      ensures var r := Start(old(State), force, listener, expectedEpoch);
              State == r.slots && status == r.status && (status != StaleEpoch ==> runId == r.run + 1)
    {
      if expectedEpoch.Some? && expectedEpoch.value != currentEpoch {
        return StaleEpoch, 0;
      }
      if expectedEpoch.Some? {
        scheduledRetry := null;
        State := State.(slot := None);
      }
      status, runId := JoinOrOpen(force, listener, expectedEpoch.None?);
    }

    method JoinOrOpen(force: bool, listener: Option<Listener>, explicit: bool)
      returns (status: StartStatus, runId: nat)
      requires Valid()
      modifies this, activeRun, pendingRun, scheduledRetry
      ensures Valid()
      ensures runId > 0
      ensures Started(State, status, runId - 1) == Entered(old(State), force, listener, explicit)
    {
      if activeRun != null {
        if activeRun.cancelled {
          // wait behind the run that is ending
          runId := QueueBehindCancelled(force, listener);
          status := QueuedBehindCancelled;
        } else {
          runId := JoinActive(listener, force);
          status := AlreadyRunning;
        }
      } else {
        ClearTimer(explicit);
        runId := OpenRun(force, listener);
        status := FlushStarted;
      }
    }

    method CancelActiveRun()
      requires Valid()
      modifies this`State, activeRun
      ensures Valid() && State == CancelActive(old(State))
    {
      if activeRun != null {
        activeRun.cancelled := true;
      }
      State := CancelActive(State);
    }

    method CancelPendingRun() returns (notify: seq<Listener>)
      requires Valid()
      modifies this`State, this`pendingRun, pendingRun
      ensures Valid() && CancelResult(State, notify) == DropPending(old(State))
    {
      notify := [];
      if pendingRun != null {
        pendingRun.cancelled := true;
        notify := pendingRun.listeners;
        pendingRun := null;
      }
      State := DropPending(State).slots;
    }

    // A targeted cancellation.
    method CancelOneRun(targetRunId: nat) returns (notify: seq<Listener>)
      requires Valid() && targetRunId > 0
      modifies this, activeRun, pendingRun
      ensures Valid() && CancelResult(State, notify) == Cancel(old(State), Some(targetRunId - 1))
    {
      notify := [];
      if activeRun != null && activeRun.runId == targetRunId {
        currentEpoch := currentEpoch + 1;
        State := State.(epoch := State.epoch + 1);
        CancelActiveRun();
      }
      if pendingRun != null && pendingRun.runId == targetRunId {
        notify := CancelPendingRun();
      }
    }

    method CancelAllRuns() returns (notify: seq<Listener>)
      requires Valid()
      modifies this, activeRun, pendingRun, scheduledRetry
      ensures Valid() && CancelResult(State, notify) == Cancel(old(State), None)
    {
      currentEpoch := currentEpoch + 1;
      State := State.(epoch := State.epoch + 1);
      CancelActiveRun();
      notify := CancelPendingRun();
      RevokeRetry();
    }

    // The lock block of requestCancelFlush; `notify` are the listeners it tells `false` afterwards.
    method RequestCancelFlush(targetRunId: Option<nat>) returns (notify: seq<Listener>)
      requires Valid()
      requires targetRunId.Some? ==> targetRunId.value > 0
      modifies this, activeRun, pendingRun, scheduledRetry
      ensures Valid()
      ensures var target := if targetRunId.Some? then Some(targetRunId.value - 1) else None;
              CancelResult(State, notify) == Cancel(old(State), target)
    {
      if targetRunId.Some? {
        notify := CancelOneRun(targetRunId.value);
      } else {
        notify := CancelAllRuns();
      }
    }

    method ScheduleRetryFor(run: FlushRun)
      requires Valid() && 0 < run.runId && IsRun(run, Some(run.runId - 1))
      modifies this
      ensures Valid()
      ensures State == ScheduleRetry(old(State), run.runId - 1)
    {
      if run.cancelled || run.epoch != currentEpoch {
        return;
      }
      if scheduledRetry != null && !(scheduledRetry.revoked || scheduledRetry.phase == Ended) {
        return;
      }
      scheduledRetry := new RetryTask(|tasks|, currentEpoch);
      tasks := tasks + [scheduledRetry];
      State := ScheduleRetry(State, run.runId - 1);
    }

    // activeRun = pendingRun; nextRun = activeRun; pendingRun = null
    method PromotePending() returns (nextRun: FlushRun?)
      requires Valid()
      modifies this`activeRun, this`pendingRun, this`State
      ensures Valid() && State == HandOver(old(State)) && IsRun(nextRun, old(State).pending)
    {
      activeRun := pendingRun;
      nextRun := activeRun;
      pendingRun := null;
      State := HandOver(State);
    }

    // The lock block of executeRun after a DRAINED pass.
    method HandOverIfDrained(currentRun: FlushRun) returns (shouldContinue: bool, nextRun: FlushRun?)
      requires Valid() && 0 < currentRun.runId && IsRun(currentRun, Some(currentRun.runId - 1))
      modifies this, currentRun
      ensures Valid()
      ensures var r := AfterDrained(old(State), currentRun.runId - 1);
              State == r.slots && shouldContinue == r.again && IsRun(nextRun, r.next)
    {
      shouldContinue, nextRun := false, null;
      if currentRun.drainRequested && !currentRun.cancelled {
        currentRun.drainRequested := false;
        State := State.(runs := State.runs[currentRun.runId - 1 := currentRun.Value()]);
        shouldContinue := true;
      } else if activeRun == currentRun {
        nextRun := PromotePending();
      }
    }

    // The lock block of executeRun's finally clause.
    method FinishRun(currentRun: FlushRun, handedOver: FlushRun?, ghost next: Option<nat>)
      returns (notify: seq<Listener>, nextRun: FlushRun?)
      requires Valid() && 0 < currentRun.runId && IsRun(currentRun, Some(currentRun.runId - 1))
      requires IsRun(handedOver, next)
      modifies this
      ensures Valid()
      ensures var r := Finish(old(State), currentRun.runId - 1, next);
              State == r.slots && notify == r.notify && IsRun(nextRun, r.next)
    {
      notify, nextRun := currentRun.listeners, handedOver;
      if activeRun == currentRun {
        nextRun := PromotePending();
      }
    }
  }
}
