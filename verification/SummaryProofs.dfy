// When an on-device summary stays: as long as triage passes do not overlap.
module SummaryProofs {
  import opened Commons
  import opened UsageQueue
  import opened UsageActors
  import opened UsageOrder
  import opened UsageCoverage
  import opened UsageResults

  // ---------- Triage passes one at a time ----------

  predicate PatchWaits(waiting: seq<Op>) {
    exists op :: op in waiting && op.Patch?
  }

  // No triage pass is under way, up to and including its patch.
  predicate NoTriage(s: State) {
    s.triagers == [] && !PatchWaits(s.waiting)
  }

  // At most one is.
  predicate OneTriage(s: State) {
    && |s.triagers| <= 1
    && (forall i, j :: 0 <= i < j < |s.waiting| ==> !(s.waiting[i].Patch? && s.waiting[j].Patch?))
    && (s.triagers != [] ==> !PatchWaits(s.waiting))
  }

  predicate Serial(h: seq<Event>) {
    h != [] ==>
      && Serial(h[..|h| - 1])
      && (h[|h| - 1].TriageQueue? ==> After(h[..|h| - 1]).Some? && NoTriage(After(h[..|h| - 1]).value))
  }

  // Of all events, number n alone bears id d.
  predicate IdFaithful(q: seq<Item>, d: string, n: nat) {
    forall x :: x in q ==> (x.num == n <==> x.event.id == d)
  }

  predicate Sound(s: State, q: seq<Item>, d: string, n: nat) {
    IdFaithful(q, d, n) && Below(q, |s.recorded|)
  }

  predicate IdsInv(s: State, d: string, n: nat) {
    && Sound(s, s.stored, d, n)
    && (forall op :: op in s.waiting && op.Patch? ==> Sound(s, op.updated, d, n))
    && (forall t :: t in s.triagers ==> Sound(s, t.todo, d, n) && Sound(s, t.updated, d, n))
  }

  predicate OwnsId(recorded: seq<UsageEvent>, d: string, n: nat) {
    forall i :: 0 <= i < |recorded| ==> (i == n <==> recorded[i].id == d)
  }

  lemma {:induction false} RecordSound(s: State, q: seq<Item>, x: Item, d: string, n: nat)
    requires Sound(s, q, d, n) && x.num == |s.recorded| && (x.num == n <==> x.event.id == d)
    ensures IdFaithful(Pushed(q, x), d, n) && Below(Pushed(q, x), |s.recorded| + 1)
  {
    assert forall y :: y in Pushed(q, x) ==> y in q + [x];
  }

  lemma {:induction false} PatchSound(s: State, q: seq<Item>, updated: seq<Item>, d: string, n: nat)
    requires Sound(s, q, d, n)
    ensures Sound(s, Patched(q, updated), d, n)
  {
    var p := Patched(q, updated);
    forall x | x in p
      ensures (x.num == n <==> x.event.id == d) && x.num < |s.recorded|
    {
      var i :| 0 <= i < |p| && p[i] == x;
      assert q[i] in q;
    }
  }

  lemma {:induction false} IdsWrite(s: State, d: string, n: nat)
    requires LockInv(s) && IdsInv(s, d, n) && Enabled(s, LockedWrite(true))
    requires OwnsId(Step(s, LockedWrite(true)).recorded, d, n)
    ensures IdsInv(Step(s, LockedWrite(true)), d, n)
  {
    var s' := Step(s, LockedWrite(true));
    match s.waiting[0]
    case Record(e) =>
      assert s'.recorded[|s.recorded|] == e;
      RecordSound(s, s.stored, Item(|s.recorded|, e), d, n);
    case Patch(updated) => PatchSound(s, s.stored, updated, d, n);
    case Clear(_) =>
  }

  lemma {:induction false} IdsTriage(s: State, e: Event, d: string, n: nat)
    requires IdsInv(s, d, n) && Enabled(s, e) && (e.TriageQueue? || e.Look? || e.EndTriage?)
    ensures IdsInv(Step(s, e), d, n)
  {
    if !e.TriageQueue? {
      var t := s.triagers[e.k];
      assert t in s.triagers;
      if e.Look? {
        assert t.todo[0] in t.todo;
      }
    }
  }

  lemma {:induction false} IdsStep(s: State, e: Event, d: string, n: nat)
    requires LockInv(s) && IdsInv(s, d, n) && Enabled(s, e) && OwnsId(Step(s, e).recorded, d, n)
    ensures IdsInv(Step(s, e), d, n)
  {
    match e
    case LockedWrite(ok) => if ok { IdsWrite(s, d, n); }
    case TriageQueue => IdsTriage(s, e, d, n);
    case Look(_, _) => IdsTriage(s, e, d, n);
    case EndTriage(_) => IdsTriage(s, e, d, n);
    case _ =>
  }

  lemma {:induction false} OneStep(s: State, e: Event)
    requires OneTriage(s) && Enabled(s, e) && (e.TriageQueue? ==> NoTriage(s))
    ensures OneTriage(Step(s, e))
  {
    match e
    case EndTriage(k) => assert s.triagers[..k] + s.triagers[k + 1..] == [];
    case _ =>
  }

  // ---------- A pass under way only rewrites what is still raw ----------

  predicate RawIfHeld(q: seq<Item>, n: nat) {
    forall y :: y in q && y.num == n ==> y.event.triaged == Untried
  }

  // The pass will rewrite event number n, or has.
  predicate Rewrites(t: Triager, n: nat) {
    Has(t.updated, n) || exists x :: x in t.todo && x.num == n && !Skips(x.event)
  }

  predicate PendingInv(s: State, n: nat) {
    && (forall t :: t in s.triagers && Rewrites(t, n) ==> RawIfHeld(s.stored, n))
    && (forall op :: op in s.waiting && op.Patch? && Has(op.updated, n) ==> RawIfHeld(s.stored, n))
  }

  // One event may come to be rewritten by one step only.
  lemma {:induction false} LookRewrites(t: Triager, v: Verdict, n: nat)
    requires t.todo != [] && Rewrites(Looked(t, v), n)
    ensures Rewrites(t, n)
  {
    var x := t.todo[0];
    assert x in t.todo && forall y :: y in t.todo[1..] ==> y in t.todo;
    if Has(Looked(t, v).updated, n) && !Has(t.updated, n) {
      var y :| y in Looked(t, v).updated && y.num == n;
      assert y.num == x.num;
    }
  }

  lemma {:induction false} PendingTriage(s: State, e: Event, n: nat)
    requires Increasing(s.stored) && PendingInv(s, n) && Enabled(s, e)
    requires e.TriageQueue? || e.Look? || e.EndTriage?
    ensures PendingInv(Step(s, e), n)
  {
    match e
    case TriageQueue =>
      if x :| x in s.stored && x.num == n && !Skips(x.event) {
        forall y | y in s.stored && y.num == n
          ensures y.event.triaged == Untried
        {
          SameNum(s.stored, x, y);
        }
      }
    case Look(k, v) =>
      var t := s.triagers[k];
      assert t in s.triagers;
      if Rewrites(Looked(t, v), n) {
        LookRewrites(t, v, n);
      }
    case EndTriage(k) => assert s.triagers[k] in s.triagers;
  }

  lemma {:induction false} SameNum(q: seq<Item>, x: Item, y: Item)
    requires Increasing(q) && x in q && y in q && x.num == y.num
    ensures x == y
  {
    var i :| 0 <= i < |q| && q[i] == x;
    var j :| 0 <= j < |q| && q[j] == y;
  }

  // A locked section that is not the patch.
  lemma {:induction false} PendingSection(s: State, n: nat)
    requires LockInv(s) && PendingInv(s, n) && Enabled(s, LockedWrite(true)) && !s.waiting[0].Patch?
    requires forall t :: t in s.triagers ==> Below(t.todo, |s.recorded|) && Below(t.updated, |s.recorded|)
    requires forall op :: op in s.waiting && op.Patch? ==> Below(op.updated, |s.recorded|)
    ensures PendingInv(Step(s, LockedWrite(true)), n)
  {
    var s' := Step(s, LockedWrite(true));
    if n < |s.recorded| && RawIfHeld(s.stored, n) {
      forall y | y in s'.stored && y.num == n
        ensures y.event.triaged == Untried
      {
        if s.waiting[0].Record? {
          assert y in s.stored + [Item(|s.recorded|, s.waiting[0].event)];
        }
      }
    }
  }

  lemma {:induction false} PatchIsLast(s: State, e: Event)
    requires OneTriage(s) && Enabled(s, e) && e == LockedWrite(true) && s.waiting[0].Patch?
    ensures NoTriage(Step(s, e))
  {
    assert s.waiting[0] in s.waiting;
  }

  lemma {:induction false} PendingStep(s: State, e: Event, d: string, n: nat)
    requires LockInv(s) && Increasing(s.stored) && OneTriage(s) && IdsInv(s, d, n) && PendingInv(s, n) && Enabled(s, e)
    ensures PendingInv(Step(s, e), n)
  {
    match e
    case TriageQueue => PendingTriage(s, e, n);
    case Look(_, _) => PendingTriage(s, e, n);
    case EndTriage(_) => PendingTriage(s, e, n);
    case LockedWrite(ok) =>
      if ok && s.waiting[0].Patch? {
        PatchIsLast(s, e);
      } else if ok {
        PendingSection(s, n);
      }
    case _ =>
  }

  // ---------- Whole histories ----------

  lemma {:induction false} SerialHistory(h: seq<Event>, d: string, n: nat)
    requires After(h).Some? && Serial(h) && OwnsId(After(h).value.recorded, d, n)
    ensures var s := After(h).value; OneTriage(s) && IdsInv(s, d, n) && PendingInv(s, n)
  {
    if h != [] {
      var before, e := h[..|h| - 1], h[|h| - 1];
      var s := After(before).value;
      RecordedGrows(s, e);
      assert forall i :: 0 <= i < |s.recorded| ==> s.recorded[i] == After(h).value.recorded[i];
      SerialHistory(before, d, n);
      OrderHistory(before);
      OneStep(s, e);
      IdsStep(s, e, d, n);
      PendingStep(s, e, d, n);
    }
  }

  // Event number n, once triaged, is in the queue as it was.
  predicate KeptIfHeld(q: seq<Item>, n: nat, event: UsageEvent) {
    forall y :: y in q && y.num == n ==> y.event == event
  }

  lemma {:induction false} KeptStep(s: State, e: Event, d: string, n: nat, event: UsageEvent)
    requires LockInv(s) && IdsInv(s, d, n) && PendingInv(s, n) && Enabled(s, e)
    requires n < |s.recorded| && KeptIfHeld(s.stored, n, event) && event.triaged != Untried
    ensures KeptIfHeld(Step(s, e).stored, n, event)
  {
    var s' := Step(s, e);
    forall y | y in s'.stored && y.num == n
      ensures y.event == event
    {
      if e == LockedWrite(true) {
        KeptByWrite(s, d, n, event, y);
      }
    }
  }

  lemma {:induction false} KeptByWrite(s: State, d: string, n: nat, event: UsageEvent, y: Item)
    requires LockInv(s) && IdsInv(s, d, n) && PendingInv(s, n) && Enabled(s, LockedWrite(true))
    requires n < |s.recorded| && KeptIfHeld(s.stored, n, event) && event.triaged != Untried
    requires y in Step(s, LockedWrite(true)).stored && y.num == n
    ensures y.event == event
  {
    var s', op := Step(s, LockedWrite(true)), s.waiting[0];
    assert op in s.waiting;
    match op
    case Record(e) => assert y in s.stored + [Item(|s.recorded|, e)];
    case Clear(_) =>
    case Patch(updated) =>
      var i :| 0 <= i < |s'.stored| && s'.stored[i] == y;
      var x := s.stored[i];
      assert x in s.stored && x.num == n && x.event.id == d;
      assert !RawIfHeld(s.stored, n);
      assert !Has(updated, n);
      assert LastWith(updated, d).None?;
  }

  // If triage passes do not overlap, a triaged event whose id is its own stays exactly as it is while it
  // is queued; in particular a summary is never replaced by the raw text.
  lemma {:induction false} SummaryStays(h: seq<Event>, t: nat, n: nat, event: UsageEvent)
    requires After(h).Some? && Serial(h) && t <= |h| && After(h[..t]).Some?
    requires n < |After(h[..t]).value.recorded| && n < |After(h).value.recorded|
    requires OwnsId(After(h).value.recorded, After(h).value.recorded[n].id, n)
    requires Item(n, event) in After(h[..t]).value.stored && event.triaged != Untried
    ensures KeptIfHeld(After(h).value.stored, n, event)
  {
    var d := After(h).value.recorded[n].id;
    if t == |h| {
      assert h[..t] == h;
      OrderHistory(h);
      forall y | y in After(h).value.stored && y.num == n
        ensures y.event == event
      {
        SameNum(After(h).value.stored, y, Item(n, event));
      }
    } else {
      var before, e := h[..|h| - 1], h[|h| - 1];
      var s := After(before).value;
      assert before[..t] == h[..t];
      PrefixPossible(before, t);
      RecordedGrows(s, e);
      assert forall i :: 0 <= i < |s.recorded| ==> s.recorded[i] == After(h).value.recorded[i];
      SummaryStays(before, t, n, event);
      SerialHistory(before, d, n);
      OrderHistory(before);
      KeptStep(s, e, d, n, event);
    }
  }

  // ---------- Overlapping passes ----------

  lemma {:induction false} Then(h: seq<Event>, e: Event) returns (g: seq<Event>)
    requires After(h).Some? && Enabled(After(h).value, e)
    ensures h <= g && After(g) == Some(Step(After(h).value, e))
  {
    g := h + [e];
    assert g[..|g| - 1] == h;
  }

  // Whoever waits at the lock can fail to write and let go.
  lemma {:induction false} Drained(h: seq<Event>) returns (g: seq<Event>)
    requires After(h).Some?
    ensures h <= g && After(g).Some?
    ensures var s, s' := After(h).value, After(g).value;
      s'.stored == s.stored && s'.triagers == s.triagers && s'.waiting == [] && s'.local.None?
    decreases |After(h).value.waiting|
  {
    SectionsAreAtomic(h);
    g := h;
    if After(h).value.waiting != [] {
      if After(h).value.local.None? {
        g := Then(g, LockedRead);
      }
      g := Then(g, LockedWrite(false));
      g := Drained(g);
    }
  }

  // The event x as a pass with verdict v leaves it.
  function Answered(x: Item, v: Verdict): Item {
    x.(event := Rewritten(x.event, v))
  }

  // The pass will rewrite x with verdict v, or has, and has no other event under that id.
  predicate Gives(t: Triager, x: Item, v: Verdict) {
    && (x in t.todo || Answered(x, v) in t.updated)
    && (forall y :: y in t.todo && y.event.id == x.event.id ==> y == x)
    && (forall u :: u in t.updated && u.event.id == x.event.id ==> u == Answered(x, v))
  }

  lemma {:induction false} LookGives(t: Triager, x: Item, v: Verdict)
    requires Gives(t, x, v) && t.todo != [] && !Skips(x.event)
    ensures Gives(Looked(t, v), x, v)
  {
    var y, t' := t.todo[0], Looked(t, v);
    assert t.todo == [y] + t'.todo;
    assert !Skips(y.event) ==> t'.updated == t.updated + [Answered(y, v)];
  }

  // Pass k goes through all it has copied, with verdict v each time.
  lemma {:induction false} LooksAtAll(h: seq<Event>, k: nat, x: Item, v: Verdict) returns (g: seq<Event>)
    requires After(h).Some? && k < |After(h).value.triagers|
    requires Gives(After(h).value.triagers[k], x, v) && !Skips(x.event)
    ensures h <= g && After(g).Some?
    ensures var s, s' := After(h).value, After(g).value;
      && |s'.triagers| == |s.triagers|
      && s' == s.(triagers := s.triagers[k := s'.triagers[k]])
      && s'.triagers[k].todo == [] && Gives(s'.triagers[k], x, v)
    decreases |After(h).value.triagers[k].todo|
  {
    g := h;
    if After(h).value.triagers[k].todo != [] {
      LookGives(After(h).value.triagers[k], x, v);
      g := Then(g, Look(k, v));
      g := LooksAtAll(g, k, x, v);
    }
  }

  // Pass k, the last one, hands in what it has rewritten, which goes through.
  lemma {:induction false} HandsIn(h: seq<Event>, k: nat, x: Item, y: Item, v: Verdict) returns (g: seq<Event>)
    requires After(h).Some? && After(h).value.waiting == [] && After(h).value.local.None?
    requires |After(h).value.triagers| == k + 1
    requires After(h).value.triagers[k].todo == [] && Gives(After(h).value.triagers[k], x, v)
    requires y in After(h).value.stored && y.num == x.num && y.event.id == x.event.id
    ensures h <= g && After(g).Some?
    ensures var s, s' := After(h).value, After(g).value;
      && s'.waiting == [] && s'.local.None? && s'.triagers == s.triagers[..k]
      && Answered(x, v) in s'.stored
  {
    var s := After(h).value;
    var updated := s.triagers[k].updated;
    g := Then(h, EndTriage(k));
    g := Then(g, LockedRead);
    g := Then(g, LockedWrite(true));
    var i :| 0 <= i < |s.stored| && s.stored[i] == y;
    assert Patched(s.stored, updated)[i] == UsageQueue.Patch(y, updated) == Answered(x, v);
  }

  // The condition of SummaryStays is needed: whatever has happened, if some capture still waits for
  // triage, two overlapping passes can summarize it and then put the raw text back, ready to be sent.
  lemma {:induction false} SummaryOverwritten(h: seq<Event>, x: Item, v: Verdict) returns (h1: seq<Event>, h2: seq<Event>)
    requires After(h).Some? && x in After(h).value.stored && !Skips(x.event) && v.Summary?
    requires forall y :: y in After(h).value.stored && y.event.id == x.event.id ==> y == x
    ensures h <= h1 <= h2 && After(h1).Some? && After(h2).Some?
    ensures x.(event := Rewritten(x.event, v)) in After(h1).value.stored
    ensures x.(event := x.event.(triaged := FellBack)) in After(h2).value.stored
  {
    var k := |After(h).value.triagers|;
    var g := Drained(h);
    g := Then(g, TriageQueue);
    g := Then(g, TriageQueue);
    g := LooksAtAll(g, k, x, NoVerdict);
    g := LooksAtAll(g, k + 1, x, v);
    h1 := HandsIn(g, k + 1, x, x, v);
    h2 := HandsIn(h1, k, x, Answered(x, v), NoVerdict);
  }
}
