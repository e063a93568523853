// What holds in every reachable state of the native delivery pipeline.
module DeliveryProofs {
  import opened Commons
  import opened Outbox
  import F = FlushFlow
  import FlushHistories
  import P = FlushPass
  import Fifo = FifoProofs
  import Quarantine = QuarantineProofs
  import Coverage = CoverageProofs
  import opened Delivery

  // ---------- The pipeline runs the flush-run protocol ----------

  // Since when the worker's cursor, or what it led to, dates.
  function Since(p: P.Pass): Option<nat> {
    match p
    case Window(_, _, _, at) => Some(at)
    case Isolating(_, _, _, _, _, at) => Some(at)
    case Returned(_, _, _, _, _, at) => Some(at)
    case Over(_, at) => Some(at)
    case _ => None
  }

  predicate LinkInv(w: World, now: nat) {
    && (w.flow.worker.InPass? <==> !w.pass.Off?)
    && (w.flow.worker.InPass? ==> w.flow.began < now)
    && (Since(w.pass).Some? ==> w.flow.began <= Since(w.pass).value < now)
  }

  lemma {:induction false} ProtocolKeepsPass(f: F.Flow, e: F.Event, now: nat)
    requires F.Enabled(f, e) && !e.LoopHead? && !e.PassReturns? && !e.PassThrows?
    ensures F.Step(f, e, now).worker.InPass? <==> f.worker.InPass?
    ensures f.worker.InPass? ==> F.Step(f, e, now).worker == f.worker
    ensures F.Step(f, e, now).began == f.began
  {
  }

  lemma {:induction false} PassMoves(b: P.Box, p: P.Pass, e: P.Event, cancelled: bool, now: nat)
    requires P.Enabled(p, e, cancelled)
    ensures var q := P.Step(b, p, e, cancelled, now).pass;
            && (q.Off? ==> p.Off? && P.Step(b, p, e, cancelled, now).pass == p)
            && (p.Off? && !e.Begin? ==> q.Off?)
            && (Since(q).Some? ==> Since(q) == Since(p) || Since(q).value == now)
  {
  }

  lemma {:induction false} LinkStep(w: World, e: Event, now: nat)
    requires LinkInv(w, now) && Enabled(w, e)
    ensures LinkInv(Step(w, e, now), now + 1)
  {
    match e
    case Protocol(f) => ProtocolKeepsPass(w.flow, f, now);
    case Enter(n) =>
    case Work(p) => PassMoves(w.box, w.pass, p, Cancelled(w), now);
    case _ =>
  }

  // The history of the flush-run protocol inside a history of the pipeline, since the last restart.
  function Project(h: seq<Event>): seq<FlushHistories.Timed> {
    if h == [] || h[|h| - 1].Die? || !Possible(h[..|h| - 1]) then []
    else
      var before, e := h[..|h| - 1], h[|h| - 1];
      var f := FlowEvent(After(before).value, e);
      if f.Some? then Project(before) + [FlushHistories.Timed(f.value, |h| - 1)] else Project(before)
  }

  lemma {:induction false} Projects(h: seq<Event>)
    requires Possible(h)
    ensures FlushHistories.After(Project(h)) == Some(After(h).value.flow)
    ensures FlushHistories.Clock(Project(h)) <= |h|
    ensures LinkInv(After(h).value, |h|)
  {
    if h != [] {
      var before, e := h[..|h| - 1], h[|h| - 1];
      Projects(before);
      LinkStep(After(before).value, e, |h| - 1);
      if !e.Die? {
        ProjectsStep(Project(before), After(before).value, e, |h| - 1);
      }
    }
  }

  lemma {:induction false} FlowPossible(w: World, e: Event, now: nat)
    requires LinkInv(w, now) && Enabled(w, e) && FlowEvent(w, e).Some?
    ensures FlushHistories.Possible(w.flow, FlowEvent(w, e).value, now)
  {
  }

  lemma {:induction false} ProjectsStep(p: seq<FlushHistories.Timed>, w: World, e: Event, now: nat)
    requires FlushHistories.After(p) == Some(w.flow) && FlushHistories.Clock(p) <= now
    requires LinkInv(w, now) && Enabled(w, e) && !e.Die?
    ensures var f := FlowEvent(w, e);
            var p' := if f.Some? then p + [FlushHistories.Timed(f.value, now)] else p;
            FlushHistories.After(p') == Some(Step(w, e, now).flow) && FlushHistories.Clock(p') <= now + 1
  {
    var f := FlowEvent(w, e);
    if f.Some? {
      FlowPossible(w, e, now);
      FlushHistories.AfterOneMore(p, FlushHistories.Timed(f.value, now));
    }
  }

  // ---------- The outbox ----------

  ghost predicate BoxInv(b: P.Box, p: P.Pass, c: Capture) {
    && Fifo.FifoInv(b, p)
    && Quarantine.QuarantineInv(b, p)
    && Coverage.CoverInv(b, p, c)
  }

  lemma {:induction false} CapturesGrow(b: P.Box, p: P.Pass, e: P.Event, cancelled: bool, now: nat)
    requires P.Enabled(p, e, cancelled)
    ensures b.captured <= P.Step(b, p, e, cancelled, now).box.captured
  {
  }

  lemma {:induction false} BoxWork(b: P.Box, p: P.Pass, e: P.Event, cancelled: bool, now: nat, c: Capture)
    requires P.Enabled(p, e, cancelled) && BoxInv(b, p, c)
    requires e.Begin? ==> p.Off?
    ensures var r := P.Step(b, p, e, cancelled, now); BoxInv(r.box, r.pass, c)
  {
    Fifo.FifoStep(b, p, e, cancelled, now);
    Quarantine.QuarantineStep(b, p, e, cancelled, now);
    Coverage.CoverStep(b, p, e, cancelled, now, c);
  }

  lemma {:induction false} BoxStep(w: World, e: Event, now: nat, c: Capture)
    requires BoxInv(w.box, w.pass, c) && Enabled(w, e)
    ensures var w' := Step(w, e, now); BoxInv(w'.box, w'.pass, c)
  {
    var p := PassEvent(w, e);
    if p.Some? {
      BoxWork(w.box, w.pass, p.value, Cancelled(w), now, c);
    } else if e.Return? || e.Throw? {
      BoxOff(w.box, w.pass, c);
    } else if e.Die? {
      BoxRestarted(w, c);
    }
  }

  lemma {:induction false} BoxOff(b: P.Box, p: P.Pass, c: Capture)
    requires BoxInv(b, p, c)
    ensures BoxInv(b, P.Off, c)
  {
  }

  // Order, justification and coverage survive a restart wherever it happens.
  lemma {:induction false} BoxRestarted(w: World, c: Capture)
    requires BoxInv(w.box, w.pass, c)
    ensures BoxInv(Restarted(w).box, P.Off, c)
  {
    var b := Restarted(w).box;
    assert forall i :: 0 <= i < |b.isolated| ==> Quarantine.Justified(w.box.posts, w.box.isolated[i]);
  }

  lemma {:induction false} BoxHistory(h: seq<Event>, w: World, c: Capture)
    requires After(h) == Some(w)
    ensures BoxInv(w.box, w.pass, c)
  {
    if h != [] {
      var before, e := h[..|h| - 1], h[|h| - 1];
      BoxHistory(before, After(before).value, c);
      BoxStep(After(before).value, e, |h| - 1, c);
    }
  }
}
