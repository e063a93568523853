// The whole native delivery pipeline: captures, callers, cancellers, retry timers and the worker,
// with flushInternal working on the outbox, over any number of process deaths.
module Delivery {
  import opened Commons
  import F = FlushFlow
  import P = FlushPass

  datatype World = World(flow: F.Flow, box: P.Box, pass: P.Pass)

  const START := World(F.START, P.EMPTY_BOX, P.Off)

  datatype Event =
    | Protocol(f: F.Event)       // any step of callers, cancellers, timers and of executeRun
    | Enter(n: nat)              // the head of executeRun's loop; flushInternal finds n targets
    | Work(p: P.Event)           // a capture, or a step inside flushInternal
    | Return                     // flushInternal returns
    | Throw                      // flushInternal throws
    | Die                        // the process dies and is started again

  // run.cancelled, as flushInternal reads it
  predicate Cancelled(w: World) {
    w.flow.worker.InPass? && w.flow.worker.run < |w.flow.slots.runs| && w.flow.slots.runs[w.flow.worker.run].cancelled
  }

  predicate Enabled(w: World, e: Event) {
    match e
    case Protocol(f) => F.Enabled(w.flow, f) && !f.LoopHead? && !f.PassReturns? && !f.PassThrows?
    case Enter(_) => F.Enabled(w.flow, F.LoopHead) && w.pass.Off?
    case Work(p) => P.Enabled(w.pass, p, Cancelled(w)) && !p.Begin?
    case Return => w.pass.Over? && F.Enabled(w.flow, F.PassReturns(w.pass.outcome, w.pass.at))
    case Throw => !w.pass.Off? && F.Enabled(w.flow, F.PassThrows)
    case Die => true
  }

  // The step of the flush-run protocol that an event is, if any.
  function FlowEvent(w: World, e: Event): Option<F.Event> {
    match e
    case Protocol(f) => Some(f)
    case Enter(_) => Some(F.LoopHead)
    case Work(_) => None
    case Return => if w.pass.Over? then Some(F.PassReturns(w.pass.outcome, w.pass.at)) else None
    case Throw => Some(F.PassThrows)
    case Die => None
  }

  // The step of the batch loop that an event is, if any; entering a cancelled run begins no pass.
  function PassEvent(w: World, e: Event): Option<P.Event>
    requires Enabled(w, e)
  {
    match e
    case Work(p) => Some(p)
    case Enter(n) =>
      if w.flow.slots.runs[w.flow.worker.run].cancelled then None else Some(P.Begin(n))
    case _ => None
  }

  // The database outlives the process; runs, listeners, timers and the count of dropped events do not.
  // What the box holds as history stays, too.
  function Restarted(w: World): World {
    World(F.START, w.box.(tables := w.box.tables.(dropped := 0)), P.Off)
  }

  function Step(w: World, e: Event, now: nat): World
    requires Enabled(w, e)
  {
    if e.Die? then Restarted(w) else Lived(w, e, now)
  }

  function Lived(w: World, e: Event, now: nat): World
    requires Enabled(w, e) && !e.Die?
  {
    var flow := var f := FlowEvent(w, e); if f.Some? then F.Step(w.flow, f.value, now) else w.flow;
    var p := PassEvent(w, e);
    if p.Some? then
      var r := P.Step(w.box, w.pass, p.value, Cancelled(w), now);
      World(flow, r.box, r.pass)
    else
      World(flow, w.box, if e.Return? || e.Throw? then P.Off else w.pass)
  }

  // The state after a history, None if the history is impossible. Event i happens at time i.
  function After(h: seq<Event>): Option<World> {
    if h == [] then Some(START)
    else
      var before, e := After(h[..|h| - 1]), h[|h| - 1];
      if before.Some? && Enabled(before.value, e) then Some(Step(before.value, e, |h| - 1)) else None
  }

  predicate Possible(h: seq<Event>) {
    After(h).Some?
  }

  function At(h: seq<Event>, i: nat): World
    requires i <= |h| && Possible(h[..i])
  {
    After(h[..i]).value
  }

  lemma {:induction false} PrefixPossible(h: seq<Event>, i: nat)
    requires Possible(h) && i <= |h|
    ensures Possible(h[..i])
  {
    if i < |h| {
      PrefixPossible(h[..|h| - 1], i);
      assert h[..|h| - 1][..i] == h[..i];
    } else {
      assert h[..i] == h;
    }
  }

  lemma {:induction false} StepAt(h: seq<Event>, i: nat)
    requires Possible(h) && i < |h|
    ensures Possible(h[..i]) && Possible(h[..i + 1])
    ensures Enabled(At(h, i), h[i]) && At(h, i + 1) == Step(At(h, i), h[i], i)
  {
    PrefixPossible(h, i);
    PrefixPossible(h, i + 1);
    assert h[..i + 1][..i] == h[..i];
  }
}
