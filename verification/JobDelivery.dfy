// What a finished job means for the events: the job service on top of the whole delivery pipeline.
module JobDelivery {
  import opened Commons
  import opened Outbox
  import F = FlushFlow
  import FlushHistories
  import P = FlushPass
  import J = JobService
  import opened Delivery
  import opened DeliveryProofs
  import opened DeliveryResults
  import A = DeliveryAnswers

  // `past` is the history of the pipeline so far, and `job` the job service of the running process.
  // `starts` tells when onStartJob ran for each generation: before which event of the pipeline.
  datatype State = State(past: seq<Event>, job: J.Job, starts: map<nat, nat>)

  const IDLE := State([], J.START, map[])

  datatype Move =
    | Pipe(e: Event)     // any step of the pipeline
    | OnStartJob
    | OnStopJob
    | Complete           // the looper runs the next completion

  // The step of the job service that a move is, if any.
  function JobEvent(s: State, m: Move): Option<J.Event>
    requires Possible(s.past)
  {
    match m
    case Pipe(e) =>
      var f := FlowEvent(After(s.past).value, e);
      if f.Some? then Some(J.Other(f.value)) else None
    case OnStartJob => Some(J.OnStartJob)
    case OnStopJob => Some(J.OnStopJob)
    case Complete => Some(J.Complete)
  }

  // The step of the pipeline that a move is, if any.
  function PipeEvent(s: State, m: Move): Option<Event> {
    match m
    case Pipe(e) => Some(e)
    case OnStartJob => Some(Protocol(F.Flush(true, true)))
    case OnStopJob => if s.job.runId > 0 then Some(Protocol(F.CancelRun(s.job.runId - 1))) else None
    case Complete => None
  }

  predicate Can(s: State, m: Move) {
    && Possible(s.past)
    && (PipeEvent(s, m).Some? ==> Enabled(After(s.past).value, PipeEvent(s, m).value))
    && (m == Complete ==> s.job.ran < |s.job.posted|)
  }

  // The service and the pipeline run the same protocol, and every generation has its start.
  predicate Joint(s: State) {
    && Possible(s.past) && s.job.flow == After(s.past).value.flow
    && J.JobInv(s.job) && Started(s.job, s.starts, |s.past|)
  }

  // The listener of each generation joined when the generation started.
  predicate Started(job: J.Job, starts: map<nat, nat>, now: nat) {
    forall l :: l in job.gens ==> l < |job.flow.joinedAt| && job.gens[l] in starts &&
                                  starts[job.gens[l]] == job.flow.joinedAt[l] < now
  }

  function Moved(s: State, m: Move): State
    requires Can(s, m) && JobCan(s, m)
  {
    var past := if PipeEvent(s, m).Some? then s.past + [PipeEvent(s, m).value] else s.past;
    if m == Pipe(Die) then State(past, J.START, map[])
    else
      var e := JobEvent(s, m);
      State(past, if e.Some? then J.Step(s.job, e.value, |s.past|) else s.job,
            if m == OnStartJob then s.starts[s.job.generation + 1 := |s.past|] else s.starts)
  }

  // What the job service demands on top; NothingBlocked shows that it always holds.
  predicate JobCan(s: State, m: Move)
    requires Possible(s.past)
  {
    var e := JobEvent(s, m);
    e.Some? ==> J.Enabled(s.job, e.value, |s.past|) && (m == Complete ==> s.job.posted[s.job.ran].call < |s.job.flow.calls|)
  }

  lemma {:induction false} CanMove(s: State, m: Move)
    requires Joint(s) && Can(s, m)
    ensures JobCan(s, m)
  {
    FlowKnown(s);
    if m == Complete {
      assert J.Genuine(s.job, s.job.posted[s.job.ran]);
    } else if JobEvent(s, m).Some? {
      CanFlow(s, m);
    }
  }

  lemma {:induction false} FlowKnown(s: State)
    requires Joint(s)
    ensures LinkInv(After(s.past).value, |s.past|) && s.job.flow.slots.WellFormed()
  {
    Projects(s.past);
    FlushHistories.Invariants(Project(s.past), 0);
  }

  lemma {:induction false} CanFlow(s: State, m: Move)
    requires Possible(s.past) && Can(s, m) && JobEvent(s, m).Some? && s.job.flow == After(s.past).value.flow
    requires LinkInv(After(s.past).value, |s.past|)
    ensures var f := J.FlowEvent(s.job, JobEvent(s, m).value);
            f.Some? ==> FlushHistories.Possible(s.job.flow, f.value, |s.past|)
  {
    var w := After(s.past).value;
    SameFlowEvent(s, m);
    if PipeEvent(s, m).Some? && FlowEvent(w, PipeEvent(s, m).value).Some? {
      FlowPossible(w, PipeEvent(s, m).value, |s.past|);
    }
  }

  // What the pipeline and the job service do to the protocol is the same.
  lemma {:induction false} SameFlowEvent(s: State, m: Move)
    requires Possible(s.past) && JobEvent(s, m).Some?
    ensures J.FlowEvent(s.job, JobEvent(s, m).value) ==
            if PipeEvent(s, m).Some? then FlowEvent(After(s.past).value, PipeEvent(s, m).value) else None
  {
  }

  // The state after some moves, None if they are impossible.
  function Run(ms: seq<Move>): Option<State> {
    if ms == [] then Some(IDLE)
    else
      var before, m := Run(ms[..|ms| - 1]), ms[|ms| - 1];
      if before.Some? && Can(before.value, m) && JobCan(before.value, m) then Some(Moved(before.value, m)) else None
  }

  // ---------- The invariant ----------

  lemma {:induction false} JoinsKept(f: F.Flow, e: F.Event, now: nat)
    requires F.Enabled(f, e)
    ensures f.joinedAt <= F.Step(f, e, now).joinedAt
  {
  }

  lemma {:induction false} StartedStep(j: J.Job, e: J.Event, starts: map<nat, nat>, now: nat, later: nat)
    requires J.JobInv(j) && Started(j, starts, now) && now <= later && !e.OnStartJob?
    requires J.Enabled(j, e, now) && (e.Complete? ==> j.posted[j.ran].call < |j.flow.calls|)
    ensures Started(J.Step(j, e, now), starts, later)
  {
    if J.FlowEvent(j, e).Some? {
      JoinsKept(j.flow, J.FlowEvent(j, e).value, now);
    }
  }

  lemma {:induction false} StartedStart(j: J.Job, starts: map<nat, nat>, now: nat)
    requires J.JobInv(j) && Started(j, starts, now) && J.Enabled(j, J.OnStartJob, now)
    ensures Started(J.Step(j, J.OnStartJob, now), starts[j.generation + 1 := now], now + 1)
  {
    JoinsKept(j.flow, F.Flush(true, true), now);
    var k := J.Step(j, J.OnStartJob, now);
    assert k.flow.joinedAt == j.flow.joinedAt + [now];
  }

  lemma {:induction false} PipeMoves(s: State, m: Move)
    requires Can(s, m)
    ensures var past := if PipeEvent(s, m).Some? then s.past + [PipeEvent(s, m).value] else s.past;
            && Possible(past)
            && After(past).value == if PipeEvent(s, m).Some? then Step(After(s.past).value, PipeEvent(s, m).value, |s.past|)
                                    else After(s.past).value
  {
    if PipeEvent(s, m).Some? {
      OneMore(s.past, After(s.past).value, PipeEvent(s, m).value);
    }
  }

  // The protocol state moves the same way on both sides.
  lemma {:induction false} FlowMoves(s: State, m: Move)
    requires Joint(s) && Can(s, m) && JobCan(s, m) && m != Pipe(Die)
    ensures Possible(Moved(s, m).past) && Moved(s, m).job.flow == After(Moved(s, m).past).value.flow
  {
    PipeMoves(s, m);
    if JobEvent(s, m).Some? {
      SameFlowEvent(s, m);
      JobFlow(s.job, JobEvent(s, m).value, |s.past|);
    }
  }

  lemma {:induction false} JobFlow(j: J.Job, e: J.Event, now: nat)
    requires J.Enabled(j, e, now) && (e.Complete? ==> j.posted[j.ran].call < |j.flow.calls|)
    ensures var f := J.FlowEvent(j, e); J.Step(j, e, now).flow == if f.Some? then F.Step(j.flow, f.value, now) else j.flow
  {
  }

  // The move of the service, if it makes one.
  lemma {:induction false} JobMoves(j: J.Job, e: Option<J.Event>, starts: map<nat, nat>, now: nat, later: nat,
                                    j': J.Job, starts': map<nat, nat>)
    requires J.JobInv(j) && J.CallsRegistered(j.flow) && Started(j, starts, now)
    requires now <= later && (e == Some(J.OnStartJob) ==> later == now + 1)
    requires e.Some? ==> J.Enabled(j, e.value, now) && (e.value.Complete? ==> j.posted[j.ran].call < |j.flow.calls|)
    requires j' == if e.Some? then J.Step(j, e.value, now) else j
    requires starts' == if e == Some(J.OnStartJob) then starts[j.generation + 1 := now] else starts
    ensures J.JobInv(j') && Started(j', starts', later)
  {
    if e.Some? {
      ServiceMoves(j, e.value, starts, now, later);
    }
  }

  lemma {:induction false} JointRegistered(s: State)
    requires Joint(s)
    ensures J.CallsRegistered(s.job.flow)
  {
    Projects(s.past);
    J.Registered(Project(s.past), s.job.flow);
  }

  lemma {:induction false} MovedIs(s: State, m: Move)
    requires Can(s, m) && JobCan(s, m) && m != Pipe(Die)
    ensures var s', e := Moved(s, m), JobEvent(s, m);
            && s'.job == (if e.Some? then J.Step(s.job, e.value, |s.past|) else s.job)
            && s'.starts == (if e == Some(J.OnStartJob) then s.starts[s.job.generation + 1 := |s.past|] else s.starts)
            && |s.past| <= |s'.past| && (e == Some(J.OnStartJob) ==> |s'.past| == |s.past| + 1)
  {
  }

  lemma {:induction false} ServiceMoves(j: J.Job, e: J.Event, starts: map<nat, nat>, now: nat, later: nat)
    requires J.JobInv(j) && J.CallsRegistered(j.flow) && Started(j, starts, now)
    requires now <= later && (e.OnStartJob? ==> later == now + 1)
    requires J.Enabled(j, e, now) && (e.Complete? ==> j.posted[j.ran].call < |j.flow.calls|)
    ensures J.JobInv(J.Step(j, e, now))
    ensures Started(J.Step(j, e, now), if e.OnStartJob? then starts[j.generation + 1 := now] else starts, later)
  {
    J.JobStep(j, e, now);
    if e.OnStartJob? {
      StartedStart(j, starts, now);
    } else {
      StartedStep(j, e, starts, now, later);
    }
  }

  lemma {:induction false} JointRun(ms: seq<Move>, s: State)
    requires Run(ms) == Some(s)
    ensures Joint(s)
  {
    if ms == [] {
      assert Possible([]);
    } else {
      var before, m := Run(ms[..|ms| - 1]).value, ms[|ms| - 1];
      JointRun(ms[..|ms| - 1], before);
      if m == Pipe(Die) {
        JointDies(before, s);
      } else {
        FlowMoves(before, m);
        MovedIs(before, m);
        CompletesOnly(before, m);
        ServiceKeeps(before, JobEvent(before, m), s, |before.past|, |s.past|);
      }
    }
  }

  lemma {:induction false} JointDies(s: State, s': State)
    requires Joint(s) && Can(s, Pipe(Die)) && s' == State(s.past + [Die], J.START, map[])
    ensures Joint(s')
  {
    PipeMoves(s, Pipe(Die));
  }

  lemma {:induction false} ServiceKeeps(s: State, e: Option<J.Event>, s': State, now: nat, later: nat)
    requires Joint(s) && now == |s.past| && later == |s'.past|
    requires now <= later && (e == Some(J.OnStartJob) ==> later == now + 1)
    requires e.Some? ==> J.Enabled(s.job, e.value, now) &&
                         (e.value.Complete? ==> s.job.posted[s.job.ran].call < |s.job.flow.calls|)
    requires s'.job == if e.Some? then J.Step(s.job, e.value, now) else s.job
    requires s'.starts == if e == Some(J.OnStartJob) then s.starts[s.job.generation + 1 := now] else s.starts
    ensures J.JobInv(s'.job) && Started(s'.job, s'.starts, later)
  {
    JointRegistered(s);
    JobMoves(s.job, e, s.starts, now, later, s'.job, s'.starts);
  }

  lemma {:induction false} CompletesOnly(s: State, m: Move)
    requires Possible(s.past)
    ensures JobEvent(s, m) == Some(J.Complete) <==> m == Complete
  {
  }

  // ---------- The result ----------

  // When the service has finished generation `gen` without asking to be rescheduled, every event committed
  // before onStartJob ran for it is settled, unless the run it waited for was cut short.
  lemma {:induction false} FinishedMeansDelivered(ms: seq<Move>, s: State, w: World, i: nat, k: nat, c: Capture)
    requires Run(ms) == Some(s) && After(s.past) == Some(w)
    requires i < |s.job.finished| && !s.job.finished[i].reschedule
    requires k < |s.past| && s.past[k] == Work(P.Appended(c, NoFault))
    ensures var gen, call := s.job.finished[i].post.gen, s.job.finished[i].post.call;
            && gen in s.starts && call < |w.flow.calls| && w.flow.calls[call].ok
            && (k < s.starts[gen] && !CutShort(s.past, w.flow, call) ==> Done(w.box, c))
  {
    var gen, call := s.job.finished[i].post.gen, s.job.finished[i].post.call;
    JointRun(ms, s);
    assert J.FinishOk(s.job, s.job.finished[i]);
    if k < s.starts[gen] && !CutShort(s.past, w.flow, call) {
      SuccessMeansDelivered(s.past, w, call, k, c);
    }
  }

  // Listener l joined with the onStartJob at time t.
  predicate Waiting(past: seq<Event>, t: nat, l: nat) {
    A.Joins(past, t) && A.Joiner(past, t) == l && past[t].f.force
  }

  predicate AllWaiting(past: seq<Event>, gens: map<nat, nat>, starts: map<nat, nat>) {
    forall l :: l in gens ==> gens[l] in starts && Waiting(past, starts[gens[l]], l)
  }

  lemma {:induction false} WaitingOn(past: seq<Event>, e: Event, t: nat, l: nat)
    requires Waiting(past, t, l) && e != Die
    ensures Waiting(past + [e], t, l)
  {
    assert (past + [e])[..t] == past[..t];
  }

  lemma {:induction false} AllWaitOn(past: seq<Event>, e: Event, gens: map<nat, nat>, starts: map<nat, nat>)
    requires AllWaiting(past, gens, starts) && e != Die
    ensures AllWaiting(past + [e], gens, starts)
  {
    forall l | l in gens
      ensures gens[l] in starts && Waiting(past + [e], starts[gens[l]], l)
    {
      WaitingOn(past, e, starts[gens[l]], l);
    }
  }

  lemma {:induction false} OneMoreWaits(past: seq<Event>, gens: map<nat, nat>, starts: map<nat, nat>, l: nat, gen: nat)
    requires Possible(past) && l == |After(past).value.flow.joinedAt|
    requires AllWaiting(past, gens, starts) && forall m :: m in gens ==> gens[m] < gen
    ensures AllWaiting(past + [Protocol(F.Flush(true, true))], gens[l := gen], starts[gen := |past|])
  {
    var e := Protocol(F.Flush(true, true));
    AllWaitOn(past, e, gens, starts);
    assert (past + [e])[..|past|] == past;
  }

  lemma {:induction false} GensMove(j: J.Job, e: J.Event, now: nat, k: J.Job)
    requires J.Enabled(j, e, now) && (e.Complete? ==> j.posted[j.ran].call < |j.flow.calls|) && k == J.Step(j, e, now)
    ensures k.gens == if e.OnStartJob? then j.gens[|j.flow.joinedAt| := j.generation + 1] else j.gens
  {
  }

  lemma {:induction false} WaitMoves(s: State, m: Move, past: seq<Event>, gens: map<nat, nat>, starts: map<nat, nat>)
    requires Joint(s) && Can(s, m) && JobCan(s, m) && m != Pipe(Die)
    requires AllWaiting(s.past, s.job.gens, s.starts)
    requires past == Moved(s, m).past && gens == Moved(s, m).job.gens && starts == Moved(s, m).starts
    ensures AllWaiting(past, gens, starts)
  {
    GensMoved(s, m, gens, starts);
    if m.OnStartJob? {
      OneMoreWaits(s.past, s.job.gens, s.starts, |s.job.flow.joinedAt|, s.job.generation + 1);
    } else if PipeEvent(s, m).Some? {
      AllWaitOn(s.past, PipeEvent(s, m).value, s.job.gens, s.starts);
    }
  }

  lemma {:induction false} GensMoved(s: State, m: Move, gens: map<nat, nat>, starts: map<nat, nat>)
    requires Can(s, m) && JobCan(s, m) && m != Pipe(Die)
    requires gens == Moved(s, m).job.gens && starts == Moved(s, m).starts
    ensures gens == if m.OnStartJob? then s.job.gens[|s.job.flow.joinedAt| := s.job.generation + 1] else s.job.gens
    ensures starts == if m.OnStartJob? then s.starts[s.job.generation + 1 := |s.past|] else s.starts
  {
    MovedIs(s, m);
    if JobEvent(s, m).Some? {
      GensMove(s.job, JobEvent(s, m).value, |s.past|, Moved(s, m).job);
    }
  }

  lemma {:induction false} WaitingRun(ms: seq<Move>, s: State)
    requires Run(ms) == Some(s)
    ensures AllWaiting(s.past, s.job.gens, s.starts)
  {
    if ms != [] {
      var before, m := Run(ms[..|ms| - 1]).value, ms[|ms| - 1];
      WaitingRun(ms[..|ms| - 1], before);
      JointRun(ms[..|ms| - 1], before);
      if m != Pipe(Die) {
        WaitMoves(before, m, s.past, s.job.gens, s.starts);
      }
    }
  }

  // A finished generation asked to be rescheduled if and only if the last pass of the run that
  // onStartJob joined for it did not drain the outbox.
  lemma {:induction false} RescheduledUnlessDrained(ms: seq<Move>, s: State, i: nat)
    requires Run(ms) == Some(s) && i < |s.job.finished|
    ensures var gen := s.job.finished[i].post.gen;
            && gen in s.starts && A.Joins(s.past, s.starts[gen])
            && (s.job.finished[i].reschedule <==> !A.PassDrained(s.past, A.JoinedRun(s.past, s.starts[gen])))
  {
    JointRun(ms, s);
    WaitingRun(ms, s);
    assert J.FinishOk(s.job, s.job.finished[i]);
    var post := s.job.finished[i].post;
    var l := s.job.flow.calls[post.call].listener;
    A.AnswerOfJoinedRun(s.past, After(s.past).value, s.starts[post.gen], post.call);
  }

  // Every move the pipeline allows is possible for the service, too.
  lemma {:induction false} NothingBlocked(ms: seq<Move>, s: State, m: Move)
    requires Run(ms) == Some(s) && Can(s, m)
    ensures Run(ms + [m]).Some?
  {
    JointRun(ms, s);
    CanMove(s, m);
    assert (ms + [m])[..|ms|] == ms;
  }
}
