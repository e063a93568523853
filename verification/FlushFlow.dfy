// The life of flush runs: callers, cancellers, the retry scheduler and the single network worker,
// interleaved at the granularity of FLUSH_LOCK blocks.
//
// What happens inside flushInternal is seen here only as its outcome; module Delivery puts the
// outbox and the batch loop in its place.
module FlushFlow {
  import opened Commons
  import opened FlushRuns

  // Where the network worker is in executeRun. `next` is the local variable nextRun.
  datatype Worker =
    | Idle
    | AtLoop(run: nat)
    | InPass(run: nat)
    | GotOutcome(run: nat)
    | Leaving(run: nat, next: Option<nat>)
    | Notifying(run: nat, todo: seq<Listener>, ok: bool, next: Option<nat>)

  // One call of onComplete. `run` is None when no run was involved: a skipped start or a cancelled
  // pending run. `began` and `seen` tell when the worker's last pass began, and when its last
  // DRAINED pass found the outbox empty.
  datatype Call = Call(listener: Listener, ok: bool, run: Option<nat>, began: nat, seen: nat)

  // `launching` are runs opened by a caller that has not yet handed them to the executor, `queue`
  // is the executor's queue, `owed` are listeners a canceller has still to tell `false`.
  // The rest is history: when each listener registered, the runs in the order they became active
  // and in the order they were submitted, how many cancellations hit a run or were global, how often
  // a retry fired while a run was active, and the run that last left the active slot.
  datatype Flow = Flow(
    slots: Slots,
    worker: Worker,
    launching: seq<nat>,
    queue: seq<nat>,
    owed: seq<Listener>,
    calls: seq<Call>,
    joinedAt: seq<nat>,
    began: nat,
    seen: nat,
    activated: seq<nat>,
    submitted: seq<nat>,
    cancels: nat,
    early: nat,
    last: Option<nat>)

  const START := Flow(INITIAL, Idle, [], [], [], [], [], 0, 0, [], [], 0, 0, None)

  datatype Event =
    | Skip(listens: bool)                          // backoff after a failure, before the lock
    | Flush(force: bool, listens: bool)            // explicit flush: the lock block
    | Fire(timer: nat)                             // a retry timer goes off
    | Retry(timer: nat)                            // its lock block
    | EndTask(timer: nat)                          // its task ends
    | CancelAll
    | CancelRun(run: nat)
    | TellOwed(i: nat)                             // a canceller tells one listener
    | Submit                                       // a caller hands its run to the executor
    | Take                                         // the worker takes a run from the executor
    | LoopHead                                     // while (!currentRun.cancelled)
    | PassReturns(outcome: Outcome, seen: nat)     // flushInternal returns
    | PassThrows
    | Decide(recent: bool)                         // what executeRun does with the outcome
    | FinallyBlock
    | TellOne                                      // the worker tells one listener
    | EndRun                                       // the worker submits nextRun, if any, and is free

  predicate Enabled(f: Flow, e: Event)
  {
    && f.slots.WellFormed()
    && match e
       case Skip(_) => true
       case Flush(_, _) => true
       case Fire(t) => t < |f.slots.timers| && f.slots.timers[t].phase == Waiting && !f.slots.timers[t].revoked
       case Retry(t) => t < |f.slots.timers| && f.slots.timers[t].phase == Firing
       case EndTask(t) => t < |f.slots.timers| && f.slots.timers[t].phase == Left
       case CancelAll => true
       case CancelRun(_) => true
       case TellOwed(i) => i < |f.owed|
       case Submit => f.launching != []
       case Take => f.worker.Idle? && f.queue != []
       case LoopHead => f.worker.AtLoop? && f.worker.run < |f.slots.runs|
       case PassReturns(_, _) => f.worker.InPass? && f.worker.run < |f.slots.runs|
       case PassThrows => f.worker.InPass? && f.worker.run < |f.slots.runs|
       case Decide(_) => f.worker.GotOutcome? && f.worker.run < |f.slots.runs|
       case FinallyBlock => f.worker.Leaving? && f.worker.run < |f.slots.runs|
       case TellOne => f.worker.Notifying? && f.worker.todo != []
       case EndRun => f.worker.Notifying? && f.worker.todo == []
  }

  function Register(f: Flow, listens: bool, now: nat): Flow {
    if listens then f.(joinedAt := f.joinedAt + [now]) else f
  }

  function Skipped(f: Flow, listens: bool, now: nat): Flow {
    if listens then
      Register(f, true, now).(calls := f.calls + [Call(|f.joinedAt|, false, None, f.began, f.seen)])
    else f
  }

  function Launched(f: Flow, r: Started): Flow {
    var f1 := f.(slots := r.slots);
    if r.status == FlushStarted then
      f1.(launching := f1.launching + [r.run], activated := f1.activated + [r.run])
    else f1
  }

  function Flushed(f: Flow, force: bool, listens: bool, now: nat): Flow
    requires f.slots.WellFormed()
  {
    var l := if listens then Some(|f.joinedAt|) else None;
    Launched(Register(f, listens, now), Start(f.slots, force, l, None))
  }

  function SetPhase(s: Slots, t: nat, phase: Phase): Slots
    requires t < |s.timers|
  {
    s.(timers := s.timers[t := s.timers[t].(phase := phase)])
  }

  // The task of a retry timer calls flushInternalStart with force and the epoch it was armed with.
  function RetryStart(s: Slots, t: nat): Started
    requires s.WellFormed() && t < |s.timers|
  {
    Start(SetPhase(s, t, Left), true, None, Some(s.timers[t].epoch))
  }

  function Retried(f: Flow, t: nat): Flow
    requires f.slots.WellFormed() && t < |f.slots.timers|
  {
    var r := RetryStart(f.slots, t);
    var joined := r.status == AlreadyRunning || r.status == QueuedBehindCancelled;
    Launched(f.(early := if joined then f.early + 1 else f.early), r)
  }

  function CancelledBy(f: Flow, target: Option<nat>): Flow
    requires f.slots.WellFormed()
  {
    var r := Cancel(f.slots, target);
    f.(slots := r.slots, owed := f.owed + r.notify, cancels := if r.slots == f.slots then f.cancels else f.cancels + 1)
  }

  function WithOutcome(s: Slots, r: nat, o: Outcome): Slots
    requires r < |s.runs|
  {
    s.(runs := s.runs[r := s.runs[r].(outcome := o)])
  }

  // flushInternal calls scheduleRetry right before every return of FAILED.
  function PassReturned(f: Flow, o: Outcome, seen: nat): Flow
    requires f.slots.WellFormed() && f.worker.InPass? && f.worker.run < |f.slots.runs|
  {
    var r := f.worker.run;
    var s := if o == Failed then ScheduleRetry(f.slots, r) else f.slots;
    f.(slots := WithOutcome(s, r, o), worker := GotOutcome(r), seen := if o == Drained then seen else f.seen)
  }

  function PassThrew(f: Flow): Flow
    requires f.slots.WellFormed() && f.worker.InPass? && f.worker.run < |f.slots.runs|
  {
    var r := f.worker.run;
    f.(slots := ScheduleRetry(WithOutcome(f.slots, r, Failed), r), worker := Leaving(r, None))
  }

  // `left` is the run that a lock block removed from the active slot, `next` the one it put there.
  function HandedOver(f: Flow, s: Slots, r: nat, next: Option<nat>): Flow {
    var f1 := f.(slots := s);
    if f.slots.active == Some(r) then
      f1.(last := Some(r), activated := if next.Some? then f.activated + [next.value] else f.activated)
    else f1
  }

  // `recent` is the clock comparison with lastFailureElapsed.
  function Decided(f: Flow, recent: bool): Flow
    requires f.slots.WellFormed() && f.worker.GotOutcome? && f.worker.run < |f.slots.runs|
  {
    var r := f.worker.run;
    match f.slots.runs[r].outcome
    case Cancelled => f.(worker := Leaving(r, None))
    case Unconfigured => f.(worker := Leaving(r, None))
    case Drained =>
      var d := AfterDrained(f.slots, r);
      if d.again then f.(slots := d.slots, worker := AtLoop(r))
      else HandedOver(f, d.slots, r, d.next).(worker := Leaving(r, d.next))
    case Failed =>
      if recent then f.(slots := ScheduleRetry(f.slots, r), worker := Leaving(r, None))
      else f.(worker := AtLoop(r))
  }

  function Finished(f: Flow): Flow
    requires f.slots.WellFormed() && f.worker.Leaving? && f.worker.run < |f.slots.runs|
  {
    var r := f.worker.run;
    var d := Finish(f.slots, r, f.worker.next);
    HandedOver(f, d.slots, r, d.next).(
      worker := Notifying(r, d.notify, f.slots.runs[r].outcome == Drained, d.next))
  }

  function Step(f: Flow, e: Event, now: nat): Flow
    requires Enabled(f, e)
  {
    match e
    case Skip(listens) => Skipped(f, listens, now)
    case Flush(force, listens) => Flushed(f, force, listens, now)
    case Fire(t) => f.(slots := SetPhase(f.slots, t, Firing))
    case Retry(t) => Retried(f, t)
    case EndTask(t) => f.(slots := SetPhase(f.slots, t, Ended))
    case CancelAll => CancelledBy(f, None)
    case CancelRun(r) => CancelledBy(f, Some(r))
    case TellOwed(i) =>
      f.(owed := f.owed[..i] + f.owed[i + 1..],
         calls := f.calls + [Call(f.owed[i], false, None, f.began, f.seen)])
    case Submit =>
      f.(launching := f.launching[1..], queue := f.queue + [f.launching[0]],
         submitted := f.submitted + [f.launching[0]])
    case Take => f.(queue := f.queue[1..], worker := AtLoop(f.queue[0]))
    case LoopHead =>
      if f.slots.runs[f.worker.run].cancelled then f.(worker := Leaving(f.worker.run, None))
      else f.(worker := InPass(f.worker.run), began := now)
    case PassReturns(o, seen) => PassReturned(f, o, seen)
    case PassThrows => PassThrew(f)
    case Decide(recent) => Decided(f, recent)
    case FinallyBlock => Finished(f)
    case TellOne =>
      var w := f.worker;
      f.(worker := w.(todo := w.todo[1..]),
         calls := f.calls + [Call(w.todo[0], w.ok, Some(w.run), f.began, f.seen)])
    case EndRun =>
      var next := f.worker.next;
      if next.None? then f.(worker := Idle)
      else f.(worker := Idle, queue := f.queue + [next.value], submitted := f.submitted + [next.value])
  }
}
