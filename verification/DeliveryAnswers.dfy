// Which answer a listener gets for what flushInternal found, over all histories of the pipeline.
module DeliveryAnswers {
  import opened Commons
  import FlushRuns
  import F = FlushFlow
  import FlushFlowProofs
  import FlushHistories
  import ListenerProofs
  import FreshnessProofs
  import SuccessProofs
  import Answers = AnswerProofs
  import opened Delivery
  import opened DeliveryProofs

  // In state w, event e ends a pass of run r.
  predicate EndsPass(w: World, e: Event, r: nat) {
    w.flow.worker == F.InPass(r) && (e.Return? || e.Throw?)
  }

  // The last pass of run r that ended since the process started came back, and came back with DRAINED.
  predicate PassDrained(h: seq<Event>, r: nat) {
    h != [] && !h[|h| - 1].Die? &&
    var before, e := After(h[..|h| - 1]), h[|h| - 1];
    if before.Some? && EndsPass(before.value, e, r) then
      e.Return? && before.value.pass.Over? && before.value.pass.outcome == FlushRuns.Drained
    else PassDrained(h[..|h| - 1], r)
  }

  lemma {:induction false} LastOfMore(p: seq<FlushHistories.Timed>, f: F.Flow, t: FlushHistories.Timed, r: nat)
    requires FlushHistories.After(p) == Some(f)
    ensures Answers.LastDrained(p + [t], r) ==
            if Answers.EndsPass(f, t.event, r) then Answers.ReturnsDrained(t.event) else Answers.LastDrained(p, r)
  {
    assert (p + [t])[..|p|] == p;
  }

  lemma {:induction false} SamePass(w: World, e: Event, r: nat)
    requires Enabled(w, e) && !e.Die?
    ensures var f := FlowEvent(w, e);
            if f.None? then !EndsPass(w, e, r)
            else
              && EndsPass(w, e, r) == Answers.EndsPass(w.flow, f.value, r)
              && (EndsPass(w, e, r) ==>
                    Answers.ReturnsDrained(f.value) == (e.Return? && w.pass.Over? && w.pass.outcome == FlushRuns.Drained))
  {
  }

  lemma {:induction false} SameAnswer(h: seq<Event>, r: nat)
    requires Possible(h)
    ensures PassDrained(h, r) == Answers.LastDrained(Project(h), r)
  {
    if h != [] && !h[|h| - 1].Die? {
      var before, e := h[..|h| - 1], h[|h| - 1];
      var w := After(before).value;
      SameAnswer(before, r);
      SamePass(w, e, r);
      Projects(before);
      if FlowEvent(w, e).Some? {
        LastOfMore(Project(before), w.flow, FlushHistories.Timed(FlowEvent(w, e).value, |h| - 1), r);
      }
    }
  }

  // The worker tells success for a run if and only if the run's last pass returned DRAINED; whoever else
  // tells a listener something tells it failure.
  lemma {:induction false} AnswerIsLastPass(h: seq<Event>, w: World, i: nat)
    requires After(h) == Some(w) && i < |w.flow.calls|
    ensures var c := w.flow.calls[i];
            c.ok <==> c.run.Some? && PassDrained(h, c.run.value)
  {
    var c := w.flow.calls[i];
    Projects(h);
    SuccessProofs.DrainedHistory(Project(h));
    if c.run.Some? {
      SameAnswer(h, c.run.value);
      Answers.AnswerHistory(Project(h), c.run.value);
    }
  }

  // ---------- The run a listener joined ----------

  // A flush at time t registers a listener, and the process lives on.
  predicate Joins(h: seq<Event>, t: nat) {
    && t < |h| && h[t].Protocol? && h[t].f.Flush? && h[t].f.listens && Possible(h[..t])
    && forall m :: t < m < |h| ==> !h[m].Die?
  }

  function Joiner(h: seq<Event>, t: nat): FlushRuns.Listener
    requires Joins(h, t)
  {
    |At(h, t).flow.joinedAt|
  }

  // The run it joins.
  function JoinedRun(h: seq<Event>, t: nat): nat
    requires Joins(h, t)
  {
    var f := At(h, t).flow;
    if f.slots.WellFormed() then FlushRuns.Start(f.slots, h[t].f.force, Some(|f.joinedAt|), None).run else 0
  }

  predicate Serves(w: World, l: FlushRuns.Listener, r: nat) {
    Answers.JoinedTo(w.flow, l, r)
  }

  lemma {:induction false} FlowSound(h: seq<Event>)
    requires Possible(h)
    ensures var f := After(h).value.flow;
            && FlushFlowProofs.LaunchInv(f) && FreshnessProofs.FreshInv(f, |h|)
            && ListenerProofs.ListenerInv(f, |f.joinedAt|)
  {
    var f := After(h).value.flow;
    Projects(h);
    FlushHistories.Invariants(Project(h), |f.joinedAt|);
    FlushHistories.FreshLater(f, FlushHistories.Clock(Project(h)), |h|);
  }

  lemma {:induction false} ServesFirst(w: World, e: Event, now: nat, l: FlushRuns.Listener, r: nat, w': World)
    requires Enabled(w, e) && e.Protocol? && e.f.Flush? && e.f.listens && w' == Step(w, e, now)
    requires FlushFlowProofs.LaunchInv(w.flow) && FreshnessProofs.FreshInv(w.flow, now)
    requires ListenerProofs.ListenerInv(w.flow, l)
    requires l == |w.flow.joinedAt| && r == FlushRuns.Start(w.flow.slots, e.f.force, Some(l), None).run
    ensures Serves(w', l, r)
  {
    Answers.JoinsRun(w.flow, e.f.force, now);
  }

  lemma {:induction false} ServesOn(w: World, e: Event, now: nat, l: FlushRuns.Listener, r: nat, w': World)
    requires Enabled(w, e) && !e.Die? && w' == Step(w, e, now)
    requires FlushFlowProofs.LaunchInv(w.flow) && Serves(w, l, r)
    ensures Serves(w', l, r)
  {
    if FlowEvent(w, e).Some? {
      Answers.JoinedStep(w.flow, FlowEvent(w, e).value, now, l, r);
    }
  }

  lemma {:induction false} ServedNow(h: seq<Event>, t: nat)
    requires Possible(h) && Joins(h, t) && t == |h| - 1
    ensures Serves(After(h).value, Joiner(h, t), JoinedRun(h, t))
  {
    FlowSound(h[..t]);
    ServesFirst(At(h, t), h[t], t, Joiner(h, t), JoinedRun(h, t), After(h).value);
  }

  lemma {:induction false} SameJoin(h: seq<Event>, t: nat)
    requires Joins(h, t) && t < |h| - 1
    ensures var before := h[..|h| - 1];
            Joins(before, t) && Joiner(before, t) == Joiner(h, t) && JoinedRun(before, t) == JoinedRun(h, t)
  {
    assert h[..|h| - 1][..t] == h[..t];
  }

  lemma {:induction false} Served(h: seq<Event>, t: nat)
    requires Possible(h) && Joins(h, t)
    ensures Serves(After(h).value, Joiner(h, t), JoinedRun(h, t))
  {
    if t == |h| - 1 {
      ServedNow(h, t);
    } else {
      SameJoin(h, t);
      Served(h[..|h| - 1], t);
      ServedNext(h, h[..|h| - 1], Joiner(h, t), JoinedRun(h, t));
    }
  }

  lemma {:induction false} ServedNext(h: seq<Event>, before: seq<Event>, l: FlushRuns.Listener, r: nat)
    requires Possible(h) && h != [] && before == h[..|h| - 1] && !h[|h| - 1].Die?
    requires Possible(before) && Serves(After(before).value, l, r)
    ensures Serves(After(h).value, l, r)
  {
    FlowSound(before);
    ServesOn(After(before).value, h[|h| - 1], |h| - 1, l, r, After(h).value);
  }

  // A listener is told success if and only if the last pass of the run it joined returned DRAINED.
  lemma {:induction false} AnswerOfJoinedRun(h: seq<Event>, w: World, t: nat, i: nat)
    requires After(h) == Some(w) && Joins(h, t) && i < |w.flow.calls| && w.flow.calls[i].listener == Joiner(h, t)
    ensures w.flow.calls[i].ok <==> PassDrained(h, JoinedRun(h, t))
  {
    Served(h, t);
    Projects(h);
    SameAnswer(h, JoinedRun(h, t));
    Answers.AnswerHistory(Project(h), JoinedRun(h, t));
  }
}
