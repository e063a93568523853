// A cancelled run sends nothing more than the request that is under way.
module CancelProofs {
  import opened Commons
  import F = FlushFlow
  import FlushFlowProofs
  import R = FlushRuns
  import opened FlushPass
  import D = Delivery
  import opened DeliveryProofs

  // The worker is busy with run r.
  predicate WithRun(w: D.World, r: nat) {
    !w.flow.worker.Idle? && w.flow.worker.run == r
  }

  predicate RunCancelled(f: F.Flow, r: nat) {
    r < |f.slots.runs| && f.slots.runs[r].cancelled
  }

  // The requests that are under way.
  function UnderWay(p: Pass): nat {
    if p.Sending? && p.waiting then 1 else 0
  }

  lemma {:induction false} PassStops(b: Box, p: Pass, e: Event, now: nat, n: nat)
    requires Enabled(p, e, true) && !e.Begin? && |b.posts| + UnderWay(p) <= n
    ensures var r := Step(b, p, e, true, now);
            b.posts <= r.box.posts && |r.box.posts| + UnderWay(r.pass) <= n
  {
  }

  // Captures send nothing.
  lemma {:induction false} OffStays(b: Box, e: Event, cancelled: bool, now: nat)
    requires Enabled(Off, e, cancelled) && !e.Begin?
    ensures var r := Step(b, Off, e, cancelled, now); r.box.posts == b.posts && r.pass == Off
  {
  }

  // No run is ever uncancelled.
  predicate KeepsCancelled(s: R.Slots, s': R.Slots) {
    |s.runs| <= |s'.runs| && forall r :: 0 <= r < |s.runs| && s.runs[r].cancelled ==> s'.runs[r].cancelled
  }

  // Run r is cancelled in g if it was active, and gone with its listeners owed an answer if it was pending.
  predicate Hit(f: F.Flow, g: F.Flow, r: nat)
    requires f.slots.WellFormed()
  {
    && (f.slots.active == Some(r) ==> RunCancelled(g, r))
    && (f.slots.pending == Some(r) ==>
          RunCancelled(g, r) && g.slots.pending.None? && forall l :: l in f.slots.runs[r].listeners ==> l in g.owed)
  }

  // A targeted cancellation hits its target and touches no other run; a global one hits both runs.
  lemma {:induction false} CancelHits(f: F.Flow, target: nat, now: nat)
    requires f.slots.WellFormed()
    ensures var g := F.Step(f, F.CancelRun(target), now);
            && Hit(f, g, target) && |g.slots.runs| == |f.slots.runs|
            && (forall i :: 0 <= i < |f.slots.runs| && i != target ==> g.slots.runs[i] == f.slots.runs[i])
            && (f.slots.pending != Some(target) ==> g.slots.pending == f.slots.pending && g.owed == f.owed)
    ensures forall r :: Hit(f, F.Step(f, F.CancelAll, now), r)
  {
  }

  lemma {:induction false} CallerKeeps(f: F.Flow, e: F.Event, now: nat)
    requires F.Enabled(f, e) && (e.Flush? || e.Retry? || e.CancelAll? || e.CancelRun?)
    ensures KeepsCancelled(f.slots, F.Step(f, e, now).slots)
  {
    match e
    case Flush(force, listens) =>
      FlushFlowProofs.StartKeepsRuns(f.slots, force, if listens then Some(|f.joinedAt|) else None, None);
    case Retry(t) =>
      FlushFlowProofs.StartKeepsRuns(F.SetPhase(f.slots, t, R.Left), true, None, Some(f.slots.timers[t].epoch));
    case CancelAll => FlushFlowProofs.CancelHasEffect(f.slots, None);
    case CancelRun(x) => FlushFlowProofs.CancelHasEffect(f.slots, Some(x));
  }

  lemma {:induction false} WorkerKeeps(f: F.Flow, e: F.Event, now: nat)
    requires F.Enabled(f, e) && (e.PassReturns? || e.PassThrows? || e.Decide?)
    ensures KeepsCancelled(f.slots, F.Step(f, e, now).slots)
  {
    FlushFlowProofs.SteadyRetry(f.slots, f.worker.run);
    FlushFlowProofs.SteadyRetry(F.WithOutcome(f.slots, f.worker.run, R.Failed), f.worker.run);
  }

  lemma {:induction false} CancelledStays(f: F.Flow, e: F.Event, now: nat, r: nat)
    requires F.Enabled(f, e) && RunCancelled(f, r)
    ensures RunCancelled(F.Step(f, e, now), r)
  {
    match e
    case Flush(_, _) => CallerKeeps(f, e, now);
    case Retry(_) => CallerKeeps(f, e, now);
    case CancelAll => CallerKeeps(f, e, now);
    case CancelRun(_) => CallerKeeps(f, e, now);
    case PassReturns(_, _) => WorkerKeeps(f, e, now);
    case PassThrows => WorkerKeeps(f, e, now);
    case Decide(_) => WorkerKeeps(f, e, now);
    case _ =>
  }

  lemma {:induction false} WorldStops(w: D.World, e: D.Event, now: nat, r: nat, n: nat, w': D.World)
    requires D.Enabled(w, e) && LinkInv(w, now) && WithRun(w, r) && RunCancelled(w.flow, r) && !e.Die?
    requires |w.box.posts| + UnderWay(w.pass) <= n && w' == D.Step(w, e, now)
    ensures w.box.posts <= w'.box.posts && |w'.box.posts| + UnderWay(w'.pass) <= n
    ensures RunCancelled(w'.flow, r)
  {
    if D.FlowEvent(w, e).Some? {
      CancelledStays(w.flow, D.FlowEvent(w, e).value, now, r);
    }
    if e.Work? {
      if w.pass.Off? {
        OffStays(w.box, e.p, D.Cancelled(w), now);
      } else {
        PassStops(w.box, w.pass, e.p, now, n);
      }
    }
  }

  // From step t on the worker has been busy with run r.
  predicate Busy(h: seq<D.Event>, t: nat, r: nat)
    requires D.Possible(h)
  {
    WithRun(D.After(h).value, r) && (t < |h| ==> Busy(h[..|h| - 1], t, r))
  }

  // Nothing was sent since but the requests that were under way then.
  predicate Stopped(v: D.World, w: D.World, r: nat) {
    && RunCancelled(w.flow, r) && v.box.posts <= w.box.posts
    && |w.box.posts| + UnderWay(w.pass) <= |v.box.posts| + UnderWay(v.pass)
  }

  lemma {:induction false} StopsNext(v: D.World, h: seq<D.Event>, before: seq<D.Event>, r: nat)
    requires D.Possible(h) && h != [] && before == h[..|h| - 1] && !h[|h| - 1].Die?
    requires D.Possible(before) && WithRun(D.After(before).value, r) && Stopped(v, D.After(before).value, r)
    ensures Stopped(v, D.After(h).value, r)
  {
    Projects(before);
    WorldStops(D.After(before).value, h[|h| - 1], |h| - 1, r, |v.box.posts| + UnderWay(v.pass), D.After(h).value);
  }

  lemma {:induction false} StopsWithin(h: seq<D.Event>, t: nat, r: nat)
    requires D.Possible(h) && t <= |h| && Busy(h, t, r)
    requires D.Possible(h[..t]) && RunCancelled(D.At(h, t).flow, r)
    ensures Stopped(D.At(h, t), D.After(h).value, r)
  {
    if t == |h| {
      assert h[..t] == h;
    } else {
      var before := h[..|h| - 1];
      assert before[..t] == h[..t];
      StopsWithin(before, t, r);
      StopsNext(D.At(h, t), h, before, r);
    }
  }

  // After its run has been cancelled the worker gets the answer to the request under way, if there is one,
  // and sends nothing more for this run.
  lemma {:induction false} CancelledSendsNothing(h: seq<D.Event>, t: nat, r: nat)
    requires D.Possible(h) && t <= |h| && Busy(h, t, r)
    requires D.Possible(h[..t]) && RunCancelled(D.At(h, t).flow, r)
    ensures var before, after := D.At(h, t).box.posts, D.After(h).value.box.posts;
            before <= after && |after| <= |before| + UnderWay(D.At(h, t).pass) <= |before| + 1
  {
    StopsWithin(h, t, r);
  }
}
