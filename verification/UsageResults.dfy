// What holds of the usage queue in every reachable state and over whole histories, and what does not.
module UsageResults {
  import opened Commons
  import opened UsageQueue
  import opened UsageActors
  import opened UsageOrder
  import opened UsageCoverage

  // ---------- Nothing raw is sent ----------

  predicate NoneRaw(q: seq<Item>) {
    forall x :: x in q ==> !Raw(x.event)
  }

  predicate CleanInv(s: State) {
    NoneRaw(Body(s.flusher)) && (forall b :: b in s.sent ==> NoneRaw(b)) && (forall b :: b in s.bodies ==> b in s.sent)
  }

  lemma {:induction false} CleanStep(s: State, e: Event)
    requires CleanInv(s) && Enabled(s, e)
    ensures CleanInv(Step(s, e))
  {
  }

  // No body ever sent, whatever became of it, holds an untriaged background capture.
  lemma {:induction false} RawNeverSent(h: seq<Event>)
    requires After(h).Some?
    ensures CleanInv(After(h).value)
  {
    if h != [] {
      RawNeverSent(h[..|h| - 1]);
      CleanStep(After(h[..|h| - 1]).value, h[|h| - 1]);
    }
  }

  // ---------- What becomes of a stored event ----------

  predicate AllTried(q: seq<Item>) {
    forall x :: x in q ==> x.event.triaged != Untried
  }

  predicate TriedInv(s: State) {
    && LockInv(s)
    && (forall op :: op in s.waiting ==> (op.Patch? ==> AllTried(op.updated)))
    && (forall t :: t in s.triagers ==> AllTried(t.updated))
  }

  lemma {:induction false} TriedStep(s: State, e: Event)
    requires TriedInv(s) && Enabled(s, e)
    ensures TriedInv(Step(s, e))
  {
    match e
    case Look(k, v) => assert s.triagers[k] in s.triagers;
    case EndTriage(k) => assert s.triagers[k] in s.triagers;
    case _ =>
  }

  lemma {:induction false} TriedHistory(h: seq<Event>)
    requires After(h).Some?
    ensures TriedInv(After(h).value)
  {
    if h != [] {
      TriedHistory(h[..|h| - 1]);
      TriedStep(After(h[..|h| - 1]).value, h[|h| - 1]);
    }
  }

  // y was stored before, and is as it was or triaged by now.
  predicate ComesFrom(q: seq<Item>, y: Item) {
    exists x :: x in q && x.num == y.num && (y == x || y.event.triaged != Untried)
  }

  lemma {:induction false} WriteTraces(s: State, ok: bool, y: Item)
    requires TriedInv(s) && Enabled(s, LockedWrite(ok)) && y in Step(s, LockedWrite(ok)).stored
    ensures ComesFrom(s.stored, y) || (y.num == |s.recorded| < |Step(s, LockedWrite(ok)).recorded|)
  {
    var s', op := Step(s, LockedWrite(ok)), s.waiting[0];
    if y !in s.stored {
      if op.Record? {
        assert y in s.stored + [Item(|s.recorded|, op.event)];
      } else {
        var i :| 0 <= i < |s'.stored| && s'.stored[i] == y;
        assert y == UsageQueue.Patch(s.stored[i], op.updated);
        assert s.stored[i] in s.stored;
      }
    }
  }

  lemma {:induction false} StepTraces(s: State, e: Event, y: Item)
    requires TriedInv(s) && Enabled(s, e) && y in Step(s, e).stored
    ensures ComesFrom(s.stored, y) || (y.num == |s.recorded| < |Step(s, e).recorded|)
  {
    if e.LockedWrite? {
      WriteTraces(s, e.ok, y);
    }
  }

  lemma {:induction false} PrefixPossible(h: seq<Event>, t: nat)
    requires After(h).Some? && t <= |h|
    ensures After(h[..t]).Some? && After(h[..t]).value.recorded <= After(h).value.recorded
  {
    if t == |h| {
      assert h[..t] == h;
    } else {
      PrefixPossible(h[..|h| - 1], t);
      assert h[..|h| - 1][..t] == h[..t];
      RecordedGrows(After(h[..|h| - 1]).value, h[|h| - 1]);
    }
  }

  // An event that has left the queue never comes back, in particular not through a patch.
  lemma {:induction false} GoneForGood(h: seq<Event>, t: nat, n: nat)
    requires After(h).Some? && t <= |h| && After(h[..t]).Some?
    requires n < |After(h[..t]).value.recorded| && !Has(After(h[..t]).value.stored, n)
    ensures !Has(After(h).value.stored, n)
  {
    if t == |h| {
      assert h[..t] == h;
    } else {
      var before := h[..|h| - 1];
      assert before[..t] == h[..t];
      GoneForGood(before, t, n);
      PrefixPossible(before, t);
      TriedHistory(before);
      GoneStep(After(before).value, h[|h| - 1], n);
    }
  }

  lemma {:induction false} GoneStep(s: State, e: Event, n: nat)
    requires TriedInv(s) && Enabled(s, e) && n < |s.recorded| && !Has(s.stored, n)
    ensures !Has(Step(s, e).stored, n)
  {
    forall y | y in Step(s, e).stored
      ensures y.num != n
    {
      StepTraces(s, e, y);
    }
  }

  predicate TriedIfHeld(q: seq<Item>, n: nat) {
    forall x :: x in q && x.num == n ==> x.event.triaged != Untried
  }

  // Once triaged, an event stays triaged as long as it is queued.
  lemma {:induction false} TriagedForGood(h: seq<Event>, t: nat, n: nat)
    requires After(h).Some? && t <= |h| && After(h[..t]).Some?
    requires n < |After(h[..t]).value.recorded| && TriedIfHeld(After(h[..t]).value.stored, n)
    ensures TriedIfHeld(After(h).value.stored, n)
  {
    if t == |h| {
      assert h[..t] == h;
    } else {
      var before := h[..|h| - 1];
      assert before[..t] == h[..t];
      TriagedForGood(before, t, n);
      PrefixPossible(before, t);
      TriedHistory(before);
      TriagedKeeps(After(before).value, h[|h| - 1], n);
    }
  }

  lemma {:induction false} TriagedKeeps(s: State, e: Event, n: nat)
    requires TriedInv(s) && Enabled(s, e) && n < |s.recorded| && TriedIfHeld(s.stored, n)
    ensures TriedIfHeld(Step(s, e).stored, n)
  {
    forall y | y in Step(s, e).stored && y.num == n
      ensures y.event.triaged != Untried
    {
      StepTraces(s, e, y);
    }
  }

  // Every locked section works on the queue as it is when it writes: no update is lost.
  lemma {:induction false} SectionsAreAtomic(h: seq<Event>)
    requires After(h).Some?
    ensures LockInv(After(h).value) && |After(h).value.stored| <= MAX_QUEUE_SIZE
  {
    if h != [] {
      SectionsAreAtomic(h[..|h| - 1]);
      LockStep(After(h[..|h| - 1]).value, h[|h| - 1]);
      CapStep(After(h[..|h| - 1]).value, h[|h| - 1]);
    }
  }

  lemma {:induction false} ClearedShorter(q: seq<Item>, sent: seq<Item>)
    ensures |Cleared(q, sent)| <= |q|
  {
    if q != [] {
      ClearedShorter(q[..|q| - 1], sent);
    }
  }

  lemma {:induction false} CapStep(s: State, e: Event)
    requires LockInv(s) && Enabled(s, e) && |s.stored| <= MAX_QUEUE_SIZE
    ensures |Step(s, e).stored| <= MAX_QUEUE_SIZE
  {
    if e.LockedWrite? && s.waiting[0].Clear? {
      ClearedShorter(s.stored, s.waiting[0].sent);
    }
  }

  // ---------- What does not hold ----------

  ghost predicate Reachable(s: State) {
    exists h :: After(h) == Some(s)
  }

  lemma {:induction false} Reach(s: State, e: Event) returns (s': State)
    requires Reachable(s) && Enabled(s, e)
    ensures s' == Step(s, e) && Reachable(s')
  {
    s' := Step(s, e);
    var h :| After(h) == Some(s);
    assert (h + [e])[..|h|] == h;
    assert After(h + [e]) == Some(s');
  }

  lemma {:induction false} ReachStart()
    ensures Reachable(START)
  {
    assert After([]) == Some(START);
  }

  // recordEvent from call to return, with nobody else at the lock.
  lemma {:induction false} Recorded(s: State, e: UsageEvent) returns (s': State)
    requires Reachable(s) && s.waiting == [] && s.local.None? && |s.stored| < MAX_QUEUE_SIZE
    ensures Reachable(s')
    ensures s' == s.(stored := s.stored + [Item(|s.recorded|, e)], recorded := s.recorded + [e])
  {
    s' := Reach(s, RecordEvent(e));
    s' := Reach(s', LockedRead);
    s' := Reach(s', LockedWrite(true));
    assert s'.trimmed == s.trimmed && s'.waiting == [];
  }

  // Whether an event can ever be ready: an SMS capture that comes in raw stays raw.
  predicate CanBeSent(e: UsageEvent) {
    Raw(e) ==> !Skips(e)
  }

  // The condition of NothingLost is needed, both halves of it: if an event with the id, or with the type
  // and timestamp, of a sent one is recorded while the request is under way, clearing the sent one
  // removes it too.
  lemma {:induction false} SharedNameLoses(a: UsageEvent, b: UsageEvent) returns (s: State)
    requires SharesName(a, b) && CanBeSent(a)
    ensures Reachable(s) && s.recorded == [a, b] && !AccountedFor(s, 1)
  {
    ReachStart();
    s := Recorded(START, a);
    assert s.stored == [Item(0, a)];
    var x := Item(0, a);
    if Raw(a) {
      s := FallenBack(s, x);
      x := x.(event := Rewritten(a, NoVerdict));
    }
    s := Sent(s, x);
    s := Recorded(s, b);
    assert [x] + [Item(1, b)] == [x, Item(1, b)];
    s := Acknowledged(s, x, Item(1, b));
  }

  // A triage pass over one event that comes back with no verdict.
  lemma {:induction false} FallenBack(s: State, x: Item) returns (s': State)
    requires Reachable(s) && s.waiting == [] && s.local.None? && s.triagers == [] && s.stored == [x] && !Skips(x.event)
    ensures Reachable(s') && s' == s.(stored := [x.(event := Rewritten(x.event, NoVerdict))])
  {
    var u := x.(event := Rewritten(x.event, NoVerdict));
    s' := Reach(s, TriageQueue);
    assert [x][1..] == [] && Looked(Triager([x], []), NoVerdict) == Triager([], [u]);
    s' := Reach(s', Look(0, NoVerdict));
    assert s'.triagers == [Triager([], [u])];
    s' := Reach(s', EndTriage(0));
    assert s'.triagers == [];
    s' := Reach(s', LockedRead);
    s' := Reach(s', LockedWrite(true));
    assert LastWith([u], x.event.id) == Some(u);
    assert Patched([x], [u]) == [u];
    assert s'.waiting == [];
  }

  // A flush with one target up to its request.
  lemma {:induction false} Sent(s: State, x: Item) returns (s': State)
    requires Reachable(s) && s.flusher.Off? && s.stored == [x] && !Raw(x.event)
    ensures Reachable(s') && s' == s.(flusher := Sending([x], 0, 1))
  {
    s' := Reach(s, FlushUsageEvents);
    s' := Reach(s', Peek);
    assert ReadyPrefix([x]) == [x];
    s' := Reach(s', Targets(1));
  }

  // The request is answered and the sent event cleared, with nobody else at the lock.
  lemma {:induction false} Acknowledged(s: State, x: Item, y: Item) returns (s': State)
    requires Reachable(s) && s.waiting == [] && s.local.None? && s.stored == [x, y] && SharesName(x.event, y.event)
    requires s.flusher == Sending([x], 0, 1) && s.bodies == [] && s.trimmed == [] && y.num != x.num
    ensures Reachable(s') && s'.recorded == s.recorded && !AccountedFor(s', y.num)
  {
    s' := Reach(s, Answer(Status(200)));
    s' := Reach(s', LockedRead);
    s' := Reach(s', LockedWrite(true));
    BothCleared(x, y);
    assert s'.stored == [] && s'.bodies == [[x]] && s'.trimmed == [];
  }

  lemma {:induction false} BothCleared(x: Item, y: Item)
    requires SharesName(x.event, y.event)
    ensures Cleared([x, y], [x]) == []
  {
    assert x in [x] && Hit(x.event, [x]) && Hit(y.event, [x]);
    assert [x, y][..1] == [x] && [x][..0] == [];
    assert Cleared([x], [x]) == Cleared([], [x]);
    assert Cleared([x, y], [x]) == Cleared([x], [x]);
  }
}
