// TelemetrySyncJobService: generation tokens over onStartJob, onStopJob and completions posted to the
// main looper, on top of the flush-run protocol.
module JobService {
  import opened Commons
  import opened FlushRuns
  import F = FlushFlow
  import FlushHistories
  import FlushFlowProofs
  import ListenerProofs
  import FreshnessProofs
  import AnswerProofs

  // A completion posted to the main looper for generation `gen`; `call` is the position of the call of
  // onComplete that posted it.
  datatype Posted = Posted(gen: nat, call: nat)

  // A call of jobFinished.
  datatype Finish = Finish(post: Posted, reschedule: bool)

  // `generation` and `runId` are currentGeneration and activeRunId. `gens` says which registered
  // listeners belong to which generation. The looper runs `posted` in order and has run the first `ran`.
  datatype Job = Job(
    flow: F.Flow,
    generation: nat,
    runId: int,
    gens: map<Listener, nat>,
    posted: seq<Posted>,
    ran: nat,
    finished: seq<Finish>)

  const START := Job(F.START, 0, -1, map[], [], 0, [])

  datatype Event =
    | Other(f: F.Event)   // any step of the flush-run protocol
    | OnStartJob
    | OnStopJob
    | Complete            // the looper runs the next completion

  function FlowEvent(j: Job, e: Event): Option<F.Event> {
    match e
    case Other(f) => Some(f)
    case OnStartJob => Some(F.Flush(true, true))
    case OnStopJob => if j.runId > 0 then Some(F.CancelRun(j.runId - 1)) else None
    case Complete => None
  }

  predicate Enabled(j: Job, e: Event, now: nat) {
    && j.flow.slots.WellFormed()
    && (FlowEvent(j, e).Some? ==> FlushHistories.Possible(j.flow, FlowEvent(j, e).value, now))
    && (e.Complete? ==> j.ran < |j.posted|)
  }

  // The completions posted by the calls of onComplete from position `from` on.
  function Posts(gens: map<Listener, nat>, calls: seq<F.Call>, from: nat): seq<Posted> {
    if |calls| <= from then []
    else
      var rest := Posts(gens, calls[..|calls| - 1], from);
      var l := calls[|calls| - 1].listener;
      if l in gens then rest + [Posted(gens[l], |calls| - 1)] else rest
  }

  function Moved(j: Job, e: Event, now: nat): Job
    requires Enabled(j, e, now)
  {
    var f := FlowEvent(j, e);
    if f.None? then j
    else
      var flow := F.Step(j.flow, f.value, now);
      j.(flow := flow, posted := j.posted + Posts(j.gens, flow.calls, |j.flow.calls|))
  }

  function Completed(j: Job): Job
    requires j.ran < |j.posted| && j.posted[j.ran].call < |j.flow.calls|
  {
    var post := j.posted[j.ran];
    if j.generation != post.gen then j.(ran := j.ran + 1)
    else
      j.(ran := j.ran + 1, generation := j.generation + 1,
         finished := j.finished + [Finish(post, !j.flow.calls[post.call].ok)])
  }

  function Step(j: Job, e: Event, now: nat): Job
    requires Enabled(j, e, now) && (e.Complete? ==> j.posted[j.ran].call < |j.flow.calls|)
  {
    match e
    case Other(_) => Moved(j, e, now)
    case OnStartJob =>
      var l := |j.flow.joinedAt|;
      Moved(j, e, now).(
        generation := j.generation + 1,
        gens := j.gens[l := j.generation + 1],
        runId := Start(j.flow.slots, true, Some(l), None).run + 1)
    case OnStopJob => Moved(j, e, now).(generation := j.generation + 1)
    case Complete => Completed(j)
  }

  // ---------- Invariants ----------

  predicate Genuine(j: Job, p: Posted) {
    && p.call < |j.flow.calls| && j.flow.calls[p.call].listener in j.gens
    && j.gens[j.flow.calls[p.call].listener] == p.gen
  }

  predicate GensInv(j: Job) {
    && (forall l :: l in j.gens ==> l < |j.flow.joinedAt| && j.gens[l] <= j.generation)
    && (forall l, m :: l in j.gens && m in j.gens && j.gens[l] == j.gens[m] ==> l == m)
  }

  predicate PostedInv(j: Job) {
    && j.ran <= |j.posted|
    && (forall i :: 0 <= i < |j.posted| ==> Genuine(j, j.posted[i]))
    && (forall i :: 0 <= i < j.ran ==> j.posted[i].gen < j.generation)
    && (forall c :: 0 <= c < |j.flow.calls| && j.flow.calls[c].listener in j.gens ==>
          Posted(j.gens[j.flow.calls[c].listener], c) in j.posted)
  }

  predicate FinishOk(j: Job, f: Finish) {
    f.post.gen < j.generation && Genuine(j, f.post) && f.reschedule == !j.flow.calls[f.post.call].ok
  }

  predicate FinishedInv(j: Job) {
    && (forall i :: 0 <= i < |j.finished| ==> FinishOk(j, j.finished[i]))
    && (forall i, k :: 0 <= i < k < |j.finished| ==> j.finished[i].post.gen < j.finished[k].post.gen)
  }

  predicate JobInv(j: Job) {
    GensInv(j) && PostedInv(j) && FinishedInv(j)
  }

  // Listeners are told only after they registered.
  predicate CallsRegistered(f: F.Flow) {
    forall c :: 0 <= c < |f.calls| ==> f.calls[c].listener < |f.joinedAt|
  }

  lemma {:induction false} PostsAre(gens: map<Listener, nat>, calls: seq<F.Call>, from: nat)
    ensures forall i :: 0 <= i < |Posts(gens, calls, from)| ==>
              var p := Posts(gens, calls, from)[i];
              from <= p.call < |calls| && calls[p.call].listener in gens && gens[calls[p.call].listener] == p.gen
    ensures forall c :: from <= c < |calls| && calls[c].listener in gens ==>
              Posted(gens[calls[c].listener], c) in Posts(gens, calls, from)
  {
    if |calls| > from {
      PostsAre(gens, calls[..|calls| - 1], from);
    }
  }

  lemma {:induction false} FlowGrows(f: F.Flow, e: F.Event, now: nat)
    requires F.Enabled(f, e)
    ensures |f.joinedAt| <= |F.Step(f, e, now).joinedAt|
    ensures f.calls <= F.Step(f, e, now).calls
  {
  }

  lemma {:induction false} FlushRegisters(f: F.Flow, now: nat)
    requires f.slots.WellFormed()
    ensures var g := F.Step(f, F.Flush(true, true), now);
            |g.joinedAt| == |f.joinedAt| + 1 && g.calls == f.calls
  {
  }

  lemma {:induction false} MovedKeeps(j: Job, e: Event, now: nat)
    requires JobInv(j) && Enabled(j, e, now)
    ensures JobInv(Moved(j, e, now))
    ensures j.flow.calls <= Moved(j, e, now).flow.calls
  {
    var f := FlowEvent(j, e);
    if f.Some? {
      var flow := F.Step(j.flow, f.value, now);
      FlowGrows(j.flow, f.value, now);
      PostsAre(j.gens, flow.calls, |j.flow.calls|);
      MovedPosted(j, flow);
    }
  }

  lemma {:induction false} MovedPosted(j: Job, flow: F.Flow)
    requires JobInv(j) && j.flow.calls <= flow.calls && |j.flow.joinedAt| <= |flow.joinedAt|
    ensures JobInv(j.(flow := flow, posted := j.posted + Posts(j.gens, flow.calls, |j.flow.calls|)))
  {
    var more := Posts(j.gens, flow.calls, |j.flow.calls|);
    var k := j.(flow := flow, posted := j.posted + more);
    PostsAre(j.gens, flow.calls, |j.flow.calls|);
    forall p | Genuine(j, p)
      ensures Genuine(k, p)
    {
      assert flow.calls[p.call] == j.flow.calls[p.call];
    }
    forall c | 0 <= c < |flow.calls| && flow.calls[c].listener in j.gens
      ensures Posted(j.gens[flow.calls[c].listener], c) in k.posted
    {
      if c < |j.flow.calls| {
        assert flow.calls[c] == j.flow.calls[c];
      }
    }
  }

  lemma {:induction false} StartKeeps(j: Job, now: nat)
    requires JobInv(j) && Enabled(j, OnStartJob, now) && CallsRegistered(j.flow)
    ensures JobInv(Step(j, OnStartJob, now))
  {
    MovedKeeps(j, OnStartJob, now);
    FlushRegisters(j.flow, now);
    var l, gen := |j.flow.joinedAt|, j.generation + 1;
    Renumbered(Moved(j, OnStartJob, now), Step(j, OnStartJob, now), l, gen);
  }

  // A new listener that nobody has called gets a new generation.
  lemma {:induction false} Renumbered(m: Job, k: Job, l: Listener, gen: nat)
    requires JobInv(m) && l !in m.gens && gen == m.generation + 1
    requires k == m.(generation := gen, gens := m.gens[l := gen], runId := k.runId)
    requires l < |m.flow.joinedAt| && forall c :: 0 <= c < |m.flow.calls| ==> m.flow.calls[c].listener != l
    ensures JobInv(k)
  {
    assert forall p :: Genuine(m, p) ==> Genuine(k, p);
  }

  lemma {:induction false} CompleteKeeps(j: Job)
    requires JobInv(j) && j.ran < |j.posted|
    ensures j.posted[j.ran].call < |j.flow.calls| && JobInv(Completed(j))
  {
    assert Genuine(j, j.posted[j.ran]);
    var k := Completed(j);
    forall i | 0 <= i < |k.finished|
      ensures FinishOk(k, k.finished[i])
    {
      assert i < |j.finished| ==> FinishOk(j, j.finished[i]);
    }
    assert forall i :: 0 <= i < |k.posted| ==> Genuine(j, k.posted[i]) ==> Genuine(k, k.posted[i]);
  }

  lemma {:induction false} JobStep(j: Job, e: Event, now: nat)
    requires JobInv(j) && Enabled(j, e, now) && CallsRegistered(j.flow)
    ensures e.Complete? ==> j.posted[j.ran].call < |j.flow.calls|
    ensures JobInv(Step(j, e, now))
  {
    match e
    case Other(_) => MovedKeeps(j, e, now);
    case OnStartJob => StartKeeps(j, now);
    case OnStopJob => MovedKeeps(j, e, now);
    case Complete => CompleteKeeps(j);
  }

  // ---------- Histories ----------

  // The state after a history, None if it is impossible. Event i happens at time i.
  function After(h: seq<Event>): Option<Job> {
    if h == [] then Some(START)
    else
      var before, e, now := After(h[..|h| - 1]), h[|h| - 1], |h| - 1;
      if before.Some? && Enabled(before.value, e, now) &&
         (e.Complete? ==> before.value.posted[before.value.ran].call < |before.value.flow.calls|)
      then Some(Step(before.value, e, now)) else None
  }

  function Project(h: seq<Event>): seq<FlushHistories.Timed> {
    if h == [] || After(h[..|h| - 1]).None? then []
    else
      var before, e := h[..|h| - 1], h[|h| - 1];
      var f := FlowEvent(After(before).value, e);
      if f.Some? then Project(before) + [FlushHistories.Timed(f.value, |h| - 1)] else Project(before)
  }

  lemma {:induction false} Projects(h: seq<Event>)
    requires After(h).Some?
    ensures FlushHistories.After(Project(h)) == Some(After(h).value.flow)
    ensures FlushHistories.Clock(Project(h)) <= |h|
  {
    if h != [] {
      var before, e := h[..|h| - 1], h[|h| - 1];
      Projects(before);
      var f := FlowEvent(After(before).value, e);
      if f.Some? {
        FlushHistories.AfterOneMore(Project(before), FlushHistories.Timed(f.value, |h| - 1));
      }
    }
  }

  lemma {:induction false} Registered(h: seq<FlushHistories.Timed>, f: F.Flow)
    requires FlushHistories.After(h) == Some(f)
    ensures CallsRegistered(f)
  {
    forall c | 0 <= c < |f.calls|
      ensures f.calls[c].listener < |f.joinedAt|
    {
      FlushHistories.Invariants(h, f.calls[c].listener);
      FlushHistories.ToldIfCalled(f.calls, c);
    }
  }

  lemma {:induction false} JobHistory(h: seq<Event>)
    requires After(h).Some?
    ensures JobInv(After(h).value)
  {
    if h != [] {
      var before := h[..|h| - 1];
      JobHistory(before);
      Projects(before);
      Registered(Project(before), After(before).value.flow);
      JobStep(After(before).value, h[|h| - 1], |h| - 1);
    }
  }

  // ---------- Results ----------

  // No generation is finished twice, and generations finish in the order in which they started.
  lemma {:induction false} FinishedAtMostOnce(h: seq<Event>, i: nat, k: nat)
    requires After(h).Some? && i < k < |After(h).value.finished|
    ensures After(h).value.finished[i].post.gen < After(h).value.finished[k].post.gen
  {
    JobHistory(h);
  }

  // Event s starts a job.
  predicate Starts(h: seq<Event>, s: nat) {
    s < |h| && h[s] == OnStartJob && After(h[..s]).Some?
  }

  function GenOf(h: seq<Event>, s: nat): nat
    requires Starts(h, s)
  {
    After(h[..s]).value.generation + 1
  }

  function ListenerOf(h: seq<Event>, s: nat): Listener
    requires Starts(h, s)
  {
    |After(h[..s]).value.flow.joinedAt|
  }

  predicate Finished(j: Job, gen: nat) {
    exists i :: 0 <= i < |j.finished| && j.finished[i].post.gen == gen
  }

  // The system neither stopped the job started at s nor started another one since.
  predicate Undisturbed(h: seq<Event>, s: nat) {
    forall k :: s < k < |h| ==> h[k] != OnStartJob && h[k] != OnStopJob
  }

  lemma {:induction false} GenerationGrows(h: seq<Event>, s: nat)
    requires After(h).Some? && s <= |h|
    ensures After(h[..s]).Some? && After(h[..s]).value.generation <= After(h).value.generation
  {
    if s == |h| {
      assert h[..s] == h;
    } else {
      GenerationGrows(h[..|h| - 1], s);
      assert h[..|h| - 1][..s] == h[..s];
    }
  }

  // While a job is undisturbed its generation is current until it finishes.
  // Generation gen of listener l is current, or finished.
  predicate Pursued(j: Job, l: Listener, gen: nat) {
    l in j.gens && j.gens[l] == gen && (j.generation == gen || Finished(j, gen))
  }

  lemma {:induction false} CurrentOrFinished(h: seq<Event>, s: nat)
    requires After(h).Some? && Starts(h, s) && Undisturbed(h, s)
    ensures Pursued(After(h).value, ListenerOf(h, s), GenOf(h, s))
  {
    var before, e := h[..|h| - 1], h[|h| - 1];
    if s == |h| - 1 {
      assert before == h[..s];
    } else {
      assert before[..s] == h[..s] && forall k :: s < k < |before| ==> before[k] == h[k];
      CurrentOrFinished(before, s);
      assert GenOf(before, s) == GenOf(h, s) && ListenerOf(before, s) == ListenerOf(h, s);
      PursuedStep(After(before).value, e, |h| - 1, ListenerOf(h, s), GenOf(h, s));
    }
  }

  lemma {:induction false} PursuedStep(j: Job, e: Event, now: nat, l: Listener, gen: nat)
    requires Enabled(j, e, now) && (e.Complete? ==> j.posted[j.ran].call < |j.flow.calls|)
    requires !e.OnStartJob? && !e.OnStopJob? && Pursued(j, l, gen)
    ensures Pursued(Step(j, e, now), l, gen)
  {
    FinishedStep(j, e, now, gen);
  }

  lemma {:induction false} FinishedStep(j: Job, e: Event, now: nat, gen: nat)
    requires Enabled(j, e, now) && (e.Complete? ==> j.posted[j.ran].call < |j.flow.calls|)
    requires !e.OnStartJob? && !e.OnStopJob?
    ensures var k := Step(j, e, now);
            && k.gens == j.gens
            && (Finished(j, gen) ==> Finished(k, gen))
            && (j.generation == gen ==> k.generation == gen || Finished(k, gen))
  {
    var k := Step(j, e, now);
    assert j.finished <= k.finished;
    if Finished(j, gen) {
      var i :| 0 <= i < |j.finished| && j.finished[i].post.gen == gen;
      assert k.finished[i] == j.finished[i];
    }
    if k.generation != j.generation {
      assert k.finished[|j.finished|].post.gen == j.generation;
    }
  }

  // A generation that had started and not finished when the system stopped the job, or started it
  // anew, never finishes. (PastGeneration: every generation started before is covered.)
  lemma {:induction false} NeverFinishedAfter(h: seq<Event>, t: nat, gen: nat)
    requires After(h).Some? && t < |h| && (h[t] == OnStartJob || h[t] == OnStopJob)
    requires After(h[..t]).Some? && gen <= After(h[..t]).value.generation && !Finished(After(h[..t]).value, gen)
    ensures !Finished(After(h).value, gen)
  {
    Interrupted(h, t, gen);
    StaysUnfinished(h, t + 1, gen);
  }

  lemma {:induction false} PastGeneration(h: seq<Event>, s: nat, t: nat)
    requires Starts(h, s) && s < t <= |h| && After(h[..t]).Some?
    ensures GenOf(h, s) <= After(h[..t]).value.generation
  {
    var past, start := h[..t], h[..s + 1];
    assert past[..s + 1] == start && start[..s] == h[..s];
    GenerationGrows(past, s + 1);
    StartedGeneration(start, GenOf(h, s));
  }

  lemma {:induction false} StartedGeneration(h: seq<Event>, gen: nat)
    requires h != [] && Starts(h, |h| - 1) && GenOf(h, |h| - 1) == gen && After(h).Some?
    ensures After(h).value.generation == gen
  {
  }

  lemma {:induction false} Interrupted(h: seq<Event>, t: nat, gen: nat)
    requires After(h).Some? && t < |h| && (h[t] == OnStartJob || h[t] == OnStopJob)
    requires After(h[..t]).Some? && gen <= After(h[..t]).value.generation && !Finished(After(h[..t]).value, gen)
    ensures After(h[..t + 1]).Some? && gen < After(h[..t + 1]).value.generation
    ensures !Finished(After(h[..t + 1]).value, gen)
  {
    StepAt(h, t);
    InterruptStep(After(h[..t]).value, h[t], t, gen);
  }

  lemma {:induction false} StepAt(h: seq<Event>, t: nat)
    requires After(h).Some? && t < |h| && After(h[..t]).Some?
    ensures Enabled(After(h[..t]).value, h[t], t)
    ensures h[t].Complete? ==> After(h[..t]).value.posted[After(h[..t]).value.ran].call < |After(h[..t]).value.flow.calls|
    ensures After(h[..t + 1]) == Some(Step(After(h[..t]).value, h[t], t))
  {
    GenerationGrows(h, t + 1);
    assert h[..t + 1][..t] == h[..t];
  }

  lemma {:induction false} InterruptStep(j: Job, e: Event, now: nat, gen: nat)
    requires Enabled(j, e, now) && (e.OnStartJob? || e.OnStopJob?)
    requires gen <= j.generation && !Finished(j, gen)
    ensures gen < Step(j, e, now).generation && !Finished(Step(j, e, now), gen)
  {
    assert Step(j, e, now).finished == j.finished;
  }

  lemma {:induction false} StaysUnfinished(h: seq<Event>, t: nat, gen: nat)
    requires After(h).Some? && t <= |h| && After(h[..t]).Some?
    requires gen < After(h[..t]).value.generation && !Finished(After(h[..t]).value, gen)
    ensures !Finished(After(h).value, gen)
  {
    if t == |h| {
      assert h[..t] == h;
    } else {
      var before, e := h[..|h| - 1], h[|h| - 1];
      assert before[..t] == h[..t];
      StaysUnfinished(before, t, gen);
      GenerationGrows(before, t);
      UnfinishedStep(After(before).value, e, |h| - 1, gen);
    }
  }

  lemma {:induction false} UnfinishedStep(j: Job, e: Event, now: nat, gen: nat)
    requires Enabled(j, e, now) && (e.Complete? ==> j.posted[j.ran].call < |j.flow.calls|)
    requires gen < j.generation && !Finished(j, gen)
    ensures !Finished(Step(j, e, now), gen)
  {
    var k := Step(j, e, now);
    forall i | 0 <= i < |k.finished|
      ensures k.finished[i].post.gen != gen
    {
      if i < |j.finished| {
        assert k.finished[i] == j.finished[i];
      }
    }
  }

  lemma {:induction false} CalledIfTold(cs: seq<F.Call>, l: Listener) returns (c: nat)
    requires ListenerProofs.Told(cs, l) >= 1
    ensures c < |cs| && cs[c].listener == l
  {
    if cs[|cs| - 1].listener == l {
      c := |cs| - 1;
    } else {
      c := CalledIfTold(cs[..|cs| - 1], l);
    }
  }

  lemma {:induction false} CalledTwice(cs: seq<F.Call>, c: nat, d: nat)
    requires c < d < |cs| && cs[c].listener == cs[d].listener
    ensures ListenerProofs.Told(cs, cs[c].listener) >= 2
  {
    if d == |cs| - 1 {
      FlushHistories.ToldIfCalled(cs[..d], c);
    } else {
      CalledTwice(cs[..|cs| - 1], c, d);
    }
  }

  // The run that the job started at s waits for.
  function RunOf(h: seq<Event>, s: nat): nat
    requires Starts(h, s)
  {
    var f := After(h[..s]).value.flow;
    if f.slots.WellFormed() then Start(f.slots, true, Some(|f.joinedAt|), None).run else 0
  }

  // The listener of the job is served by run r.
  predicate Awaits(j: Job, l: Listener, r: nat) {
    AnswerProofs.JoinedTo(j.flow, l, r)
  }

  lemma {:induction false} SameStart(h: seq<Event>, s: nat)
    requires Starts(h, s) && s < |h| - 1
    ensures var before := h[..|h| - 1];
            Starts(before, s) && ListenerOf(before, s) == ListenerOf(h, s) && RunOf(before, s) == RunOf(h, s)
  {
    assert h[..|h| - 1][..s] == h[..s];
  }

  lemma {:induction false} WaitsNow(h: seq<Event>, s: nat)
    requires After(h).Some? && Starts(h, s) && s == |h| - 1
    ensures Awaits(After(h).value, ListenerOf(h, s), RunOf(h, s))
  {
    FlowSound(h[..s]);
    WaitsAtFirst(After(h[..s]).value, s, ListenerOf(h, s), RunOf(h, s), After(h).value);
  }

  lemma {:induction false} WaitsFor(h: seq<Event>, s: nat)
    requires After(h).Some? && Starts(h, s)
    ensures Awaits(After(h).value, ListenerOf(h, s), RunOf(h, s))
  {
    if s == |h| - 1 {
      WaitsNow(h, s);
    } else {
      var before := h[..|h| - 1];
      SameStart(h, s);
      WaitsFor(before, s);
      FlowSound(before);
      WaitsOn(After(before).value, h[|h| - 1], |h| - 1, ListenerOf(h, s), RunOf(h, s), After(h).value);
    }
  }

  lemma {:induction false} FlowSound(h: seq<Event>)
    requires After(h).Some?
    ensures var f := After(h).value.flow;
            && FlushFlowProofs.LaunchInv(f) && FreshnessProofs.FreshInv(f, |h|)
            && ListenerProofs.ListenerInv(f, |f.joinedAt|)
  {
    var f := After(h).value.flow;
    Projects(h);
    FlushHistories.Invariants(Project(h), |f.joinedAt|);
    FlushHistories.FreshLater(f, FlushHistories.Clock(Project(h)), |h|);
  }

  lemma {:induction false} WaitsAtFirst(j: Job, now: nat, l: Listener, r: nat, k: Job)
    requires Enabled(j, OnStartJob, now) && k == Step(j, OnStartJob, now)
    requires l == |j.flow.joinedAt| && r == Start(j.flow.slots, true, Some(l), None).run
    requires FlushFlowProofs.LaunchInv(j.flow) && FreshnessProofs.FreshInv(j.flow, now)
    requires ListenerProofs.ListenerInv(j.flow, l)
    ensures Awaits(k, l, r)
  {
    AnswerProofs.JoinsRun(j.flow, true, now);
  }

  lemma {:induction false} WaitsOn(j: Job, e: Event, now: nat, l: Listener, r: nat, k: Job)
    requires Enabled(j, e, now) && (e.Complete? ==> j.posted[j.ran].call < |j.flow.calls|) && k == Step(j, e, now)
    requires FlushFlowProofs.LaunchInv(j.flow) && Awaits(j, l, r)
    ensures Awaits(k, l, r)
  {
    if FlowEvent(j, e).Some? {
      AnswerProofs.JoinedStep(j.flow, FlowEvent(j, e).value, now, l, r);
    }
  }

  // Whatever the service is told about the run it waits for is what the last pass of that run returned.
  lemma {:induction false} ToldTheLastPass(h: seq<Event>, s: nat, c: nat)
    requires After(h).Some? && Starts(h, s)
    requires c < |After(h).value.flow.calls| && After(h).value.flow.calls[c].listener == ListenerOf(h, s)
    ensures After(h).value.flow.calls[c].ok <==> AnswerProofs.LastPassDrained(Project(h), RunOf(h, s))
  {
    WaitsFor(h, s);
    Projects(h);
    AnswerProofs.AnswerHistory(Project(h), RunOf(h, s));
    AnswerProofs.LastDrainedIs(Project(h), RunOf(h, s));
  }

  lemma {:induction false} RunIdIs(h: seq<Event>, s: nat)
    requires After(h).Some? && Starts(h, s) && forall k :: s < k < |h| ==> h[k] != OnStartJob
    ensures After(h).value.runId == RunOf(h, s) + 1
  {
    if s == |h| - 1 {
      FlowSound(h[..s]);
    } else {
      SameStart(h, s);
      RunIdIs(h[..|h| - 1], s);
    }
  }

  // Run r is not pending and, if it is active, cancelled.
  predicate Stopped(f: F.Flow, r: nat) {
    && f.slots.WellFormed() && f.slots.pending != Some(r)
    && (f.slots.active == Some(r) ==> f.slots.runs[r].cancelled)
  }

  lemma {:induction false} BeforeStop(h: seq<Event>, s: nat) returns (j: Job)
    requires After(h).Some? && Starts(h, s) && s < |h| - 1 && h[|h| - 1] == OnStopJob
    requires forall k :: s < k < |h| ==> h[k] != OnStartJob
    ensures j.flow.slots.WellFormed() && j.runId == RunOf(h, s) + 1
    ensures Enabled(j, OnStopJob, |h| - 1) && After(h) == Some(Step(j, OnStopJob, |h| - 1))
  {
    var before := h[..|h| - 1];
    SameStart(h, s);
    RunIdIs(before, s);
    FlowSound(before);
    j := After(before).value;
  }

  // Once the system has stopped the job, the run it was waiting for will not be started, or is cancelled if
  // it has been.
  lemma {:induction false} StopCancels(h: seq<Event>, s: nat)
    requires After(h).Some? && Starts(h, s) && s < |h| - 1 && h[|h| - 1] == OnStopJob
    requires forall k :: s < k < |h| ==> h[k] != OnStartJob
    ensures Stopped(After(h).value.flow, RunOf(h, s))
  {
    var j := BeforeStop(h, s);
    StopHits(j, RunOf(h, s), |h| - 1, After(h).value);
  }

  lemma {:induction false} StopHits(j: Job, r: nat, now: nat, k: Job)
    requires j.flow.slots.WellFormed() && j.runId == r + 1 && Enabled(j, OnStopJob, now) && k == Step(j, OnStopJob, now)
    ensures Stopped(k.flow, r)
  {
  }

  // If the system leaves the job alone, its flush has come to rest and the looper has run all
  // completions, then jobFinished was called for it exactly once, asking to reschedule if and only if
  // the last pass of the run it waited for did not drain the outbox.
  lemma {:induction false} FinishedExactlyOnce(h: seq<Event>, s: nat) returns (i: nat)
    requires After(h).Some? && Starts(h, s) && Undisturbed(h, s)
    requires FlushHistories.Quiescent(After(h).value.flow) && After(h).value.ran == |After(h).value.posted|
    ensures var j := After(h).value;
            && i < |j.finished| && j.finished[i].post.gen == GenOf(h, s)
            && (forall k :: 0 <= k < |j.finished| && k != i ==> j.finished[k].post.gen != GenOf(h, s))
            && (j.finished[i].reschedule <==> !AnswerProofs.LastPassDrained(Project(h), RunOf(h, s)))
  {
    var j, gen, l := After(h).value, GenOf(h, s), ListenerOf(h, s);
    JobHistory(h);
    CurrentOrFinished(h, s);
    Projects(h);
    FlushHistories.RestMeansAllTold(Project(h), l);
    var c := CalledIfTold(j.flow.calls, l);
    i := FinishOf(j, gen, l, c);
    ToldTheLastPass(h, s, c);
  }

  lemma {:induction false} FinishOf(j: Job, gen: nat, l: Listener, c: nat) returns (i: nat)
    requires JobInv(j) && j.ran == |j.posted|
    requires l in j.gens && j.gens[l] == gen && (j.generation == gen || Finished(j, gen))
    requires c < |j.flow.calls| && j.flow.calls[c].listener == l && ListenerProofs.Told(j.flow.calls, l) <= 1
    ensures i < |j.finished| && j.finished[i].post.gen == gen
    ensures forall k :: 0 <= k < |j.finished| && k != i ==> j.finished[k].post.gen != gen
    ensures j.finished[i].reschedule == !j.flow.calls[c].ok
  {
    assert Posted(gen, c) in j.posted;
    i :| 0 <= i < |j.finished| && j.finished[i].post.gen == gen;
    var d := j.finished[i].post.call;
    assert Genuine(j, j.finished[i].post);
    if d < c {
      CalledTwice(j.flow.calls, d, c);
    } else if c < d {
      CalledTwice(j.flow.calls, c, d);
    }
  }

  // The service object. The looper hands Complete the generation and the success flag that the
  // listener of that generation was told.
  class TelemetrySyncJobService {
    const sync: TelemetrySync
    var currentGeneration: nat
    var activeRunId: int
    ghost var finishes: seq<(nat, bool)>   // calls of jobFinished: the generation, wantsReschedule

    constructor (sync: TelemetrySync)
      ensures this.sync == sync && currentGeneration == 0 && activeRunId == -1 && finishes == []
    {
      this.sync := sync;
      currentGeneration, activeRunId, finishes := 0, -1, [];
    }

    // `listener` is the registration of the callback that reports for generation `gen`.
    method OnStartJob(listener: Listener) returns (gen: nat)
      requires sync.Valid()
      modifies this, sync, sync.activeRun, sync.pendingRun, sync.scheduledRetry
      ensures sync.Valid() && gen == currentGeneration == old(currentGeneration) + 1
      ensures var r := Start(old(sync.State), true, Some(listener), None);
              sync.State == r.slots && activeRunId == r.run + 1
      ensures finishes == old(finishes)
    {
      currentGeneration := currentGeneration + 1;
      gen := currentGeneration;
      var status;
      status, activeRunId := sync.FlushInternalStart(true, Some(listener), None);
    }

    method OnStopJob() returns (notify: seq<Listener>)
      requires sync.Valid() && (activeRunId == -1 || activeRunId > 0)
      modifies this, sync, sync.activeRun, sync.pendingRun, sync.scheduledRetry
      ensures sync.Valid() && currentGeneration == old(currentGeneration) + 1
      ensures activeRunId == old(activeRunId) && finishes == old(finishes)
      ensures if activeRunId == -1 then sync.State == old(sync.State) && notify == []
              else CancelResult(sync.State, notify) == Cancel(old(sync.State), Some(activeRunId - 1))
    {
      currentGeneration := currentGeneration + 1;
      notify := [];
      if activeRunId != -1 {
        notify := sync.RequestCancelFlush(Some(activeRunId));
      }
    }

    method Complete(gen: nat, success: bool)
      modifies this
      ensures activeRunId == old(activeRunId)
      ensures if gen == old(currentGeneration)
              then currentGeneration == gen + 1 && finishes == old(finishes) + [(gen, !success)]
              else currentGeneration == old(currentGeneration) && finishes == old(finishes)
    {
      if currentGeneration != gen {
        return;
      }
      currentGeneration := currentGeneration + 1;
      finishes := finishes + [(gen, !success)];
    }
  }
}
