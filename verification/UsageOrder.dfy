// The order in which usage events are acknowledged, over all interleavings.
module UsageOrder {
  import opened UsageQueue
  import opened UsageActors

  predicate Increasing(q: seq<Item>) {
    forall i, j :: 0 <= i < j < |q| ==> q[i].num < q[j].num
  }

  predicate Below(q: seq<Item>, top: nat) {
    forall x :: x in q ==> x.num < top
  }

  predicate Has(q: seq<Item>, num: nat) {
    exists x :: x in q && x.num == num
  }

  predicate Acked(bodies: seq<seq<Item>>, num: nat) {
    exists b :: b in bodies && Has(b, num)
  }

  function Max(a: nat, b: nat): nat {
    if a < b then b else a
  }

  function TopOf(q: seq<Item>): nat {
    if q == [] then 0 else q[|q| - 1].num + 1
  }

  // Everything acknowledged is below this.
  function Top(bodies: seq<seq<Item>>): nat {
    if bodies == [] then 0 else Max(Top(bodies[..|bodies| - 1]), TopOf(bodies[|bodies| - 1]))
  }

  // What q holds below the top has been acknowledged.
  predicate Settled(q: seq<Item>, bodies: seq<seq<Item>>, top: nat) {
    forall x :: x in q && x.num < top ==> Acked(bodies, x.num)
  }

  // A body that may be sent, or may be acknowledged any time: what comes before its end is in it, or
  // has been acknowledged.
  predicate FlightInv(s: State, b: seq<Item>) {
    && Increasing(b) && Below(b, |s.recorded|)
    && Settled(b, s.bodies, Top(s.bodies))
    && Settled(s.stored, s.bodies + [b], Max(Top(s.bodies), TopOf(b)))
  }

  // A body acknowledges for the first time only what comes after all that was acknowledged before.
  predicate FirstInOrder(bodies: seq<seq<Item>>) {
    bodies != [] ==>
      var before, b := bodies[..|bodies| - 1], bodies[|bodies| - 1];
      FirstInOrder(before) && Increasing(b) && Settled(b, before, Top(before))
  }

  predicate StoredInv(s: State) {
    && LockInv(s)
    && Increasing(s.stored) && Below(s.stored, |s.recorded|) && Top(s.bodies) <= |s.recorded|
    && Settled(s.stored, s.bodies, Top(s.bodies))
  }

  predicate OrderInv(s: State) {
    StoredInv(s) && FirstInOrder(s.bodies) && FlightInv(s, Body(s.flusher))
  }

  lemma {:induction false} AckedMore(bodies: seq<seq<Item>>, b: seq<Item>, num: nat)
    ensures Acked(bodies + [b], num) <==> Acked(bodies, num) || Has(b, num)
  {
    assert b in bodies + [b];
    assert forall a :: a in bodies + [b] <==> a in bodies || a == b;
  }

  lemma {:induction false} TopMore(bodies: seq<seq<Item>>, b: seq<Item>)
    ensures Top(bodies + [b]) == Max(Top(bodies), TopOf(b))
  {
    assert (bodies + [b])[..|bodies|] == bodies;
  }

  // A queue that lost some events, the others keeping their numbers, stays settled.
  predicate FewerNums(q: seq<Item>, q': seq<Item>) {
    forall x :: x in q' ==> Has(q, x.num)
  }

  lemma {:induction false} SettledFewer(q: seq<Item>, q': seq<Item>, bodies: seq<seq<Item>>, top: nat)
    requires Settled(q, bodies, top) && FewerNums(q, q')
    ensures Settled(q', bodies, top)
  {
    forall x | x in q' && x.num < top
      ensures Acked(bodies, x.num)
    {
      var y :| y in q && y.num == x.num;
    }
  }

  lemma {:induction false} BelowFewer(q: seq<Item>, q': seq<Item>, top: nat)
    requires Below(q, top) && FewerNums(q, q')
    ensures Below(q', top)
  {
    forall x | x in q'
      ensures x.num < top
    {
      var y :| y in q && y.num == x.num;
    }
  }

  lemma {:induction false} EmptyFlight(s: State)
    requires StoredInv(s)
    ensures FlightInv(s, [])
  {
    forall x | x in s.stored && x.num < Top(s.bodies)
      ensures Acked(s.bodies + [[]], x.num)
    {
      AckedMore(s.bodies, [], x.num);
    }
  }

  // The stored queue changes, everything else of interest stays.
  lemma {:induction false} StoredChanges(s: State, s': State)
    requires OrderInv(s) && FewerNums(s.stored, s'.stored) && Increasing(s'.stored)
    requires s'.recorded == s.recorded && s'.bodies == s.bodies && LockInv(s')
    requires Body(s'.flusher) == Body(s.flusher) || Body(s'.flusher) == []
    ensures OrderInv(s')
  {
    BelowFewer(s.stored, s'.stored, |s.recorded|);
    SettledFewer(s.stored, s'.stored, s.bodies, Top(s.bodies));
    if Body(s'.flusher) == [] {
      EmptyFlight(s');
    } else {
      var b := Body(s.flusher);
      SettledFewer(s.stored, s'.stored, s.bodies + [b], Max(Top(s.bodies), TopOf(b)));
    }
  }

  lemma {:induction false} ClearedFewer(q: seq<Item>, sent: seq<Item>)
    requires Increasing(q)
    ensures Increasing(Cleared(q, sent)) && FewerNums(q, Cleared(q, sent))
  {
    if q != [] {
      ClearedFewer(q[..|q| - 1], sent);
    }
  }

  lemma {:induction false} PatchedFewer(q: seq<Item>, updated: seq<Item>)
    requires Increasing(q)
    ensures Increasing(Patched(q, updated)) && FewerNums(q, Patched(q, updated))
  {
    var r := Patched(q, updated);
    forall x | x in r
      ensures Has(q, x.num)
    {
      var i :| 0 <= i < |r| && r[i] == x;
      assert q[i] in q;
    }
  }

  lemma {:induction false} AddedIncreasing(q: seq<Item>, x: Item)
    requires Increasing(q) && Below(q, x.num)
    ensures Increasing(q + [x]) && Below(q + [x], x.num + 1)
  {
    var all := q + [x];
    forall i, j | 0 <= i < j < |all|
      ensures all[i].num < all[j].num
    {
      assert all[i] in q;
    }
  }

  lemma {:induction false} SuffixIncreasing(q: seq<Item>, k: nat, top: nat)
    requires Increasing(q) && Below(q, top) && k <= |q|
    ensures Increasing(q[k..]) && Below(q[k..], top)
  {
  }

  lemma {:induction false} PushedIncreasing(q: seq<Item>, x: Item)
    requires Increasing(q) && Below(q, x.num)
    ensures Increasing(Pushed(q, x)) && Below(Pushed(q, x), x.num + 1)
  {
    AddedIncreasing(q, x);
    SuffixIncreasing(q + [x], |Overflow(q, x)|, x.num + 1);
  }

  lemma {:induction false} SettledPushed(q: seq<Item>, x: Item, bodies: seq<seq<Item>>, top: nat)
    requires Settled(q, bodies, top) && top <= x.num
    ensures Settled(Pushed(q, x), bodies, top)
  {
    assert forall y :: y in Pushed(q, x) ==> y in q + [x];
  }

  lemma {:induction false} RecordKeeps(s: State, s': State, e: UsageEvent)
    requires OrderInv(s)
    requires s'.stored == Pushed(s.stored, Item(|s.recorded|, e)) && s'.recorded == s.recorded + [e]
    requires s'.bodies == s.bodies && s'.flusher == s.flusher && LockInv(s')
    ensures OrderInv(s')
  {
    var b, x := Body(s.flusher), Item(|s.recorded|, e);
    PushedIncreasing(s.stored, x);
    SettledPushed(s.stored, x, s.bodies, Top(s.bodies));
    LastBelow(b, |s.recorded|);
    SettledPushed(s.stored, x, s.bodies + [b], Max(Top(s.bodies), TopOf(b)));
  }

  lemma {:induction false} LastBelow(b: seq<Item>, top: nat)
    requires Below(b, top)
    ensures TopOf(b) <= top
  {
  }

  lemma {:induction false} WriteKeeps(s: State, ok: bool)
    requires OrderInv(s) && Enabled(s, LockedWrite(ok))
    ensures OrderInv(Step(s, LockedWrite(ok)))
  {
    var s' := Step(s, LockedWrite(ok));
    if !ok {
      assert FewerNums(s.stored, s.stored);
      StoredChanges(s, s');
    } else {
      match s.waiting[0]
      case Record(e) => RecordKeeps(s, s', e);
      case Patch(updated) =>
        PatchedFewer(s.stored, updated);
        StoredChanges(s, s');
      case Clear(sent) =>
        ClearedFewer(s.stored, sent);
        StoredChanges(s, s');
    }
  }

  lemma {:induction false} PrefixIncreasing(q: seq<Item>, b: seq<Item>, top: nat)
    requires Increasing(q) && b <= q && Below(q, top)
    ensures Increasing(b) && Below(b, top) && FewerNums(q, b)
    ensures forall x :: x in q && x.num < TopOf(b) ==> x in b
  {
    assert forall x :: x in b ==> x in q;
    forall x | x in q && x.num < TopOf(b)
      ensures x in b
    {
      var i :| 0 <= i < |q| && q[i] == x;
      assert q[|b| - 1] == b[|b| - 1];
      assert i < |b|;
      assert b[i] == x;
    }
  }

  // A prefix of the queue may be sent.
  lemma {:induction false} PrefixSettled(q: seq<Item>, b: seq<Item>, bodies: seq<seq<Item>>)
    requires Settled(q, bodies, Top(bodies)) && forall x :: x in q && x.num < TopOf(b) ==> x in b
    ensures Settled(q, bodies + [b], Max(Top(bodies), TopOf(b)))
  {
    forall x | x in q && x.num < Max(Top(bodies), TopOf(b))
      ensures Acked(bodies + [b], x.num)
    {
      AckedMore(bodies, b, x.num);
    }
  }

  lemma {:induction false} PeekKeeps(s: State)
    requires OrderInv(s) && Enabled(s, Peek)
    ensures OrderInv(Step(s, Peek))
  {
    var b := ReadyPrefix(s.stored);
    if b == [] {
      EmptyFlight(s);
    } else {
      PrefixIncreasing(s.stored, b, |s.recorded|);
      PrefixSettled(s.stored, b, s.bodies);
      SettledFewer(s.stored, b, s.bodies, Top(s.bodies));
    }
  }

  // Once acknowledged, the body is settled and may be sent again.
  lemma {:induction false} AcceptedSettled(q: seq<Item>, b: seq<Item>, bodies: seq<seq<Item>>)
    requires Settled(q, bodies + [b], Max(Top(bodies), TopOf(b)))
    ensures Top(bodies + [b]) == Max(Top(bodies), TopOf(b))
    ensures Settled(b, bodies + [b], Top(bodies + [b]))
    ensures Settled(q, bodies + [b] + [b], Max(Top(bodies + [b]), TopOf(b)))
  {
    TopMore(bodies, b);
    forall x | x in b
      ensures Acked(bodies + [b], x.num)
    {
      AckedMore(bodies, b, x.num);
    }
    forall x | x in q && x.num < Top(bodies + [b])
      ensures Acked(bodies + [b] + [b], x.num)
    {
      AckedMore(bodies + [b], b, x.num);
    }
  }

  lemma {:induction false} FirstInOrderMore(bodies: seq<seq<Item>>, b: seq<Item>)
    requires FirstInOrder(bodies) && Increasing(b) && Settled(b, bodies, Top(bodies))
    ensures FirstInOrder(bodies + [b])
  {
    assert (bodies + [b])[..|bodies|] == bodies;
  }

  lemma {:induction false} AcceptKeeps(s: State, s': State, b: seq<Item>)
    requires OrderInv(s) && b == Body(s.flusher) && b == Body(s'.flusher) && LockInv(s')
    requires s'.stored == s.stored && s'.recorded == s.recorded && s'.bodies == s.bodies + [b]
    ensures OrderInv(s')
  {
    LastBelow(b, |s.recorded|);
    AcceptedSettled(s.stored, b, s.bodies);
    FirstInOrderMore(s.bodies, b);
  }

  // What an answer changes.
  lemma {:induction false} AnswerIs(s: State, reply: Reply, s': State)
    requires LockInv(s) && Enabled(s, Answer(reply)) && s' == Step(s, Answer(reply))
    ensures LockInv(s') && s'.stored == s.stored && s'.recorded == s.recorded
    ensures if Accepted(reply) then s'.bodies == s.bodies + [Body(s.flusher)] && Body(s'.flusher) == Body(s.flusher)
            else s'.bodies == s.bodies && (Body(s'.flusher) == Body(s.flusher) || Body(s'.flusher) == [])
  {
  }

  lemma {:induction false} AnswerKeeps(s: State, reply: Reply)
    requires OrderInv(s) && Enabled(s, Answer(reply))
    ensures OrderInv(Step(s, Answer(reply)))
  {
    var s' := Step(s, Answer(reply));
    AnswerIs(s, reply, s');
    if Accepted(reply) {
      AcceptKeeps(s, s', Body(s.flusher));
    } else {
      FlusherMoves(s, s');
    }
  }

  // Nothing is stored or acknowledged, and the flush keeps its body or lets go of it.
  lemma {:induction false} FlusherMoves(s: State, s': State)
    requires OrderInv(s) && LockInv(s') && s'.stored == s.stored && s'.recorded == s.recorded && s'.bodies == s.bodies
    requires Body(s'.flusher) == Body(s.flusher) || Body(s'.flusher) == []
    ensures OrderInv(s')
  {
    if Body(s'.flusher) == [] {
      EmptyFlight(s');
    }
  }

  lemma {:induction false} OrderStep(s: State, e: Event)
    requires OrderInv(s) && Enabled(s, e)
    ensures OrderInv(Step(s, e))
  {
    match e
    case LockedWrite(ok) => WriteKeeps(s, ok);
    case Peek => PeekKeeps(s);
    case Answer(reply) => AnswerKeeps(s, reply);
    case _ => OthersKeep(s, e);
  }

  lemma {:induction false} OthersKeep(s: State, e: Event)
    requires OrderInv(s) && Enabled(s, e) && !e.LockedWrite? && !e.Peek? && !e.Answer?
    ensures OrderInv(Step(s, e))
  {
    LockStep(s, e);
    FlusherMoves(s, Step(s, e));
  }

  lemma {:induction false} OrderHistory(h: seq<Event>)
    requires After(h).Some?
    ensures OrderInv(After(h).value)
  {
    if h == [] {
      EmptyFlight(START);
    } else {
      OrderHistory(h[..|h| - 1]);
      OrderStep(After(h[..|h| - 1]).value, h[|h| - 1]);
    }
  }

  lemma {:induction false} TopBounds(bodies: seq<seq<Item>>, i: nat, y: Item)
    requires i < |bodies| && FirstInOrder(bodies) && y in bodies[i]
    ensures y.num < Top(bodies)
  {
    if i < |bodies| - 1 {
      TopBounds(bodies[..|bodies| - 1], i, y);
    } else {
      var b := bodies[i];
      var k :| 0 <= k < |b| && b[k] == y;
      assert k < |b| - 1 ==> b[k].num < b[|b| - 1].num;
    }
  }

  lemma {:induction false} OrderOfPrefix(bodies: seq<seq<Item>>, j: nat)
    requires j < |bodies| && FirstInOrder(bodies)
    ensures FirstInOrder(bodies[..j]) && Increasing(bodies[j]) && Settled(bodies[j], bodies[..j], Top(bodies[..j]))
  {
    if j < |bodies| - 1 {
      OrderOfPrefix(bodies[..|bodies| - 1], j);
      assert bodies[..|bodies| - 1][..j] == bodies[..j];
    }
  }

  // Events are acknowledged for the first time in the order in which they were recorded: what a body
  // acknowledges for the first time was recorded after everything acknowledged in earlier bodies, and
  // a body lists its events in recording order.
  lemma {:induction false} AcknowledgedInOrder(h: seq<Event>, i: nat, j: nat, y: Item, x: Item)
    requires After(h).Some? && i < j < |After(h).value.bodies|
    requires y in After(h).value.bodies[i] && x in After(h).value.bodies[j]
    requires !Acked(After(h).value.bodies[..j], x.num)
    ensures y.num < x.num && Increasing(After(h).value.bodies[j])
  {
    var bodies := After(h).value.bodies;
    OrderHistory(h);
    OrderOfPrefix(bodies, j);
    TopBounds(bodies[..j], i, y);
  }
}
