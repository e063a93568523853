// No recorded usage event disappears silently, over all interleavings.
module UsageCoverage {
  import opened UsageQueue
  import opened UsageActors
  import opened UsageOrder

  // Of all recorded events, x alone bears the names of r, and only if it is number n: its id, and its
  // type and timestamp.
  predicate Faithful(x: Item, r: UsageEvent, n: nat) {
    && (x.num == n <==> x.event.id == r.id)
    && (x.num == n <==> SameKey(x.event, r))
  }

  predicate AllFaithful(q: seq<Item>, r: UsageEvent, n: nat) {
    forall x :: x in q ==> Faithful(x, r, n)
  }

  predicate OpFaithful(op: Op, bodies: seq<seq<Item>>, r: UsageEvent, n: nat) {
    match op
    case Record(_) => true
    case Patch(updated) => AllFaithful(updated, r, n)
    case Clear(sent) => AllFaithful(sent, r, n) && sent in bodies
  }

  predicate NamesInv(s: State, r: UsageEvent, n: nat) {
    && AllFaithful(s.stored, r, n) && AllFaithful(Body(s.flusher), r, n)
    && (forall op :: op in s.waiting ==> OpFaithful(op, s.bodies, r, n))
    && (forall t :: t in s.triagers ==> AllFaithful(t.todo, r, n) && AllFaithful(t.updated, r, n))
  }

  // Where an event can be: waiting, in a body answered 2xx, or trimmed by the cap.
  predicate AccountedFor(s: State, n: nat) {
    Has(s.stored, n) || Acked(s.bodies, n) || Has(s.trimmed, n)
  }

  predicate CoverInv(s: State, r: UsageEvent, n: nat) {
    LockInv(s) && NamesInv(s, r, n) && (n < |s.recorded| ==> AccountedFor(s, n))
  }

  // The names of event number n belong to it alone.
  predicate OwnsNames(recorded: seq<UsageEvent>, r: UsageEvent, n: nat) {
    forall i :: 0 <= i < |recorded| ==> Faithful(Item(i, recorded[i]), r, n)
  }

  lemma {:induction false} HasMore(q: seq<Item>, more: seq<Item>, n: nat)
    ensures Has(q + more, n) <==> Has(q, n) || Has(more, n)
  {
    assert forall x :: x in q + more <==> x in q || x in more;
  }

  lemma {:induction false} RecordCovers(s: State, s': State, e: UsageEvent, r: UsageEvent, n: nat)
    requires n < |s.recorded| ==> AccountedFor(s, n)
    requires s'.stored == Pushed(s.stored, Item(|s.recorded|, e)) && s'.recorded == s.recorded + [e]
    requires s'.trimmed == s.trimmed + Overflow(s.stored, Item(|s.recorded|, e)) && s'.bodies == s.bodies
    ensures n < |s'.recorded| ==> AccountedFor(s', n)
  {
    var x := Item(|s.recorded|, e);
    HasMore(s.stored, [x], n);
    HasMore(Overflow(s.stored, x), Pushed(s.stored, x), n);
    HasMore(s.trimmed, Overflow(s.stored, x), n);
    assert x in [x];
  }

  lemma {:induction false} RecordNames(q: seq<Item>, x: Item, r: UsageEvent, n: nat)
    requires AllFaithful(q, r, n) && Faithful(x, r, n)
    ensures AllFaithful(Pushed(q, x), r, n)
  {
    assert forall y :: y in Pushed(q, x) ==> y in q + [x];
  }

  lemma {:induction false} PatchNames(q: seq<Item>, updated: seq<Item>, r: UsageEvent, n: nat)
    requires AllFaithful(q, r, n) && AllFaithful(updated, r, n)
    ensures AllFaithful(Patched(q, updated), r, n)
    ensures Has(q, n) ==> Has(Patched(q, updated), n)
  {
    var p := Patched(q, updated);
    forall x | x in p
      ensures Faithful(x, r, n)
    {
      var i :| 0 <= i < |p| && p[i] == x;
      assert Faithful(q[i], r, n);
    }
    if Has(q, n) {
      var y :| y in q && y.num == n;
      var i :| 0 <= i < |q| && q[i] == y;
      assert p[i] in p;
    }
  }

  // An event with names of its own is only removed by the clearing of a body it was in.
  lemma {:induction false} ClearedOnlySent(q: seq<Item>, sent: seq<Item>, r: UsageEvent, n: nat)
    requires AllFaithful(q, r, n) && AllFaithful(sent, r, n) && Has(q, n)
    ensures Has(Cleared(q, sent), n) || Has(sent, n)
  {
    var x :| x in q && x.num == n;
    if Hit(x.event, sent) {
      var y :| y in sent && (y.event.id == x.event.id || SameKey(y.event, x.event));
      assert y.num == n;
    } else {
      assert x in Cleared(q, sent);
    }
  }

  lemma {:induction false} WriteCovers(s: State, r: UsageEvent, n: nat)
    requires CoverInv(s, r, n) && Enabled(s, LockedWrite(true))
    requires OwnsNames(Step(s, LockedWrite(true)).recorded, r, n)
    ensures AllFaithful(Step(s, LockedWrite(true)).stored, r, n)
    ensures n < |Step(s, LockedWrite(true)).recorded| ==> AccountedFor(Step(s, LockedWrite(true)), n)
  {
    var op := s.waiting[0];
    var s' := Step(s, LockedWrite(true));
    assert OpFaithful(op, s.bodies, r, n);
    match op
    case Record(e) =>
      assert s'.recorded[|s.recorded|] == e;
      RecordNames(s.stored, Item(|s.recorded|, e), r, n);
      RecordCovers(s, s', e, r, n);
    case Patch(updated) =>
      PatchNames(s.stored, updated, r, n);
    case Clear(sent) =>
      if Has(s.stored, n) {
        ClearedOnlySent(s.stored, sent, r, n);
      }
  }

  lemma {:induction false} WriteKeepsNames(s: State, ok: bool, r: UsageEvent, n: nat)
    requires CoverInv(s, r, n) && Enabled(s, LockedWrite(ok))
    requires OwnsNames(Step(s, LockedWrite(ok)).recorded, r, n)
    ensures CoverInv(Step(s, LockedWrite(ok)), r, n)
  {
    if ok {
      WriteCovers(s, r, n);
    }
  }

  lemma {:induction false} AnswerCovers(s: State, reply: Reply, r: UsageEvent, n: nat)
    requires CoverInv(s, r, n) && Enabled(s, Answer(reply))
    ensures CoverInv(Step(s, Answer(reply)), r, n)
  {
    var s', b := Step(s, Answer(reply)), Body(s.flusher);
    if Accepted(reply) {
      AckedMore(s.bodies, b, n);
      assert b in s'.bodies;
      forall op | op in s'.waiting
        ensures OpFaithful(op, s'.bodies, r, n)
      {
        assert op in s.waiting || op == Clear(b);
      }
    }
  }

  lemma {:induction false} LookNames(t: Triager, v: Verdict, r: UsageEvent, n: nat)
    requires t.todo != [] && AllFaithful(t.todo, r, n) && AllFaithful(t.updated, r, n)
    ensures AllFaithful(Looked(t, v).todo, r, n) && AllFaithful(Looked(t, v).updated, r, n)
  {
    assert Faithful(t.todo[0], r, n);
  }

  lemma {:induction false} TriageCovers(s: State, e: Event, r: UsageEvent, n: nat)
    requires CoverInv(s, r, n) && Enabled(s, e) && (e.TriageQueue? || e.Look? || e.EndTriage?)
    ensures CoverInv(Step(s, e), r, n)
  {
    if e.Look? {
      assert s.triagers[e.k] in s.triagers;
      LookNames(s.triagers[e.k], e.verdict, r, n);
    } else if e.EndTriage? {
      assert s.triagers[e.k] in s.triagers;
    }
  }

  lemma {:induction false} CoverStep(s: State, e: Event, r: UsageEvent, n: nat)
    requires CoverInv(s, r, n) && Enabled(s, e) && OwnsNames(Step(s, e).recorded, r, n)
    ensures CoverInv(Step(s, e), r, n)
  {
    match e
    case LockedWrite(ok) => WriteKeepsNames(s, ok, r, n);
    case Answer(reply) => AnswerCovers(s, reply, r, n);
    case TriageQueue => TriageCovers(s, e, r, n);
    case Look(_, _) => TriageCovers(s, e, r, n);
    case EndTriage(_) => TriageCovers(s, e, r, n);
    case _ =>
  }

  lemma {:induction false} RecordedGrows(s: State, e: Event)
    requires Enabled(s, e)
    ensures s.recorded <= Step(s, e).recorded
  {
  }

  lemma {:induction false} OwnsEarlier(early: seq<UsageEvent>, late: seq<UsageEvent>, r: UsageEvent, n: nat)
    requires early <= late && OwnsNames(late, r, n)
    ensures OwnsNames(early, r, n)
  {
    assert forall i :: 0 <= i < |early| ==> early[i] == late[i];
  }

  lemma {:induction false} CoverHistory(h: seq<Event>, r: UsageEvent, n: nat)
    requires After(h).Some? && OwnsNames(After(h).value.recorded, r, n)
    ensures CoverInv(After(h).value, r, n)
  {
    if h != [] {
      var s, e := After(h[..|h| - 1]).value, h[|h| - 1];
      RecordedGrows(s, e);
      OwnsEarlier(s.recorded, After(h).value.recorded, r, n);
      CoverHistory(h[..|h| - 1], r, n);
      CoverStep(s, e, r, n);
    }
  }

  // clearSentEvents takes the one for the other.
  predicate SharesName(a: UsageEvent, b: UsageEvent) {
    a.id == b.id || SameKey(a, b)
  }

  // The id, and the type and timestamp, of event number n occur nowhere else.
  predicate NamedApart(recorded: seq<UsageEvent>, n: nat)
    requires n < |recorded|
  {
    forall i :: 0 <= i < |recorded| && i != n ==>
      !SharesName(recorded[i], recorded[n])
  }

  // Every recorded event whose names are its own is still queued, or was in a body answered 2xx, or was
  // trimmed by the cap.
  lemma {:induction false} NothingLost(h: seq<Event>, n: nat)
    requires After(h).Some? && n < |After(h).value.recorded| && NamedApart(After(h).value.recorded, n)
    ensures AccountedFor(After(h).value, n)
  {
    CoverHistory(h, After(h).value.recorded[n], n);
  }
}
