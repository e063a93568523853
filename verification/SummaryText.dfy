// What the text of a sent capture is, over all histories of the usage queue.
module SummaryText {
  import opened Commons
  import opened UsageQueue
  import opened UsageActors
  import opened UsageResults
  import opened SummaryProofs

  // A verdict of the on-device model about the event with a number.
  datatype Saying = Saying(num: nat, verdict: Verdict)

  // What the model has said: the Look events so far that got as far as asking it.
  function Said(h: seq<Event>): set<Saying>
    requires After(h).Some?
  {
    if h == [] then {}
    else Said(h[..|h| - 1]) + SaidNow(After(h[..|h| - 1]).value, h[|h| - 1])
  }

  function SaidNow(s: State, e: Event): set<Saying>
    requires Enabled(s, e)
  {
    if e.Look? && !Skips(s.triagers[e.k].todo[0].event) then {Saying(s.triagers[e.k].todo[0].num, e.verdict)} else {}
  }

  // An event as the model has had it rewritten. It is asked about raw captures only, and not about messages.
  predicate FromSaying(recorded: seq<UsageEvent>, y: Saying, e: UsageEvent) {
    && y.num < |recorded| && e == Rewritten(recorded[y.num], y.verdict)
    && Raw(recorded[y.num]) && !("SMS " <= recorded[y.num].telemetry)
  }

  predicate FromModel(recorded: seq<UsageEvent>, said: set<Saying>, e: UsageEvent) {
    exists y :: y in said && FromSaying(recorded, y, e)
  }

  // A stored event is as it was recorded, or as the model has had an event with its id rewritten.
  predicate ItemOk(recorded: seq<UsageEvent>, said: set<Saying>, x: Item) {
    && x.num < |recorded| && x.event.id == recorded[x.num].id
    && (x.event == recorded[x.num] || FromModel(recorded, said, x.event))
  }

  predicate ItemsOk(recorded: seq<UsageEvent>, said: set<Saying>, q: seq<Item>) {
    forall x :: x in q ==> ItemOk(recorded, said, x)
  }

  predicate UpdatesOk(recorded: seq<UsageEvent>, said: set<Saying>, us: seq<Item>) {
    forall u :: u in us ==> FromModel(recorded, said, u.event)
  }

  predicate QueueOk(s: State, said: set<Saying>) {
    ItemsOk(s.recorded, said, s.stored) && ItemsOk(s.recorded, said, Body(s.flusher))
  }

  predicate TriageOk(s: State, said: set<Saying>) {
    && (forall op :: op in s.waiting && op.Patch? ==> UpdatesOk(s.recorded, said, op.updated))
    && (forall t :: t in s.triagers ==> ItemsOk(s.recorded, said, t.todo) && UpdatesOk(s.recorded, said, t.updated))
  }

  predicate SentOk(s: State, said: set<Saying>) {
    forall b :: b in s.sent ==> ItemsOk(s.recorded, said, b)
  }

  predicate TextInv(s: State, said: set<Saying>) {
    LockInv(s) && QueueOk(s, said) && TriageOk(s, said) && SentOk(s, said)
  }

  // ---- nothing that was said or recorded is forgotten ----

  lemma {:induction false} ModelKept(recorded: seq<UsageEvent>, recorded': seq<UsageEvent>,
                                     said: set<Saying>, said': set<Saying>, e: UsageEvent)
    requires recorded <= recorded' && said <= said' && FromModel(recorded, said, e)
    ensures FromModel(recorded', said', e)
  {
    var y :| y in said && FromSaying(recorded, y, e);
    assert FromSaying(recorded', y, e);
  }

  lemma {:induction false} ItemsKept(recorded: seq<UsageEvent>, recorded': seq<UsageEvent>,
                                     said: set<Saying>, said': set<Saying>, q: seq<Item>)
    requires recorded <= recorded' && said <= said' && ItemsOk(recorded, said, q)
    ensures ItemsOk(recorded', said', q)
  {
    forall x | x in q
      ensures ItemOk(recorded', said', x)
    {
      if FromModel(recorded, said, x.event) {
        ModelKept(recorded, recorded', said, said', x.event);
      }
    }
  }

  lemma {:induction false} UpdatesKept(recorded: seq<UsageEvent>, recorded': seq<UsageEvent>,
                                       said: set<Saying>, said': set<Saying>, us: seq<Item>)
    requires recorded <= recorded' && said <= said' && UpdatesOk(recorded, said, us)
    ensures UpdatesOk(recorded', said', us)
  {
    forall u | u in us
      ensures FromModel(recorded', said', u.event)
    {
      ModelKept(recorded, recorded', said, said', u.event);
    }
  }

  // The invariant as it was, in terms of what is recorded and said by now.
  predicate Carried(s: State, recorded: seq<UsageEvent>, said: set<Saying>) {
    && ItemsOk(recorded, said, s.stored) && ItemsOk(recorded, said, Body(s.flusher))
    && (forall op :: op in s.waiting && op.Patch? ==> UpdatesOk(recorded, said, op.updated))
    && (forall t :: t in s.triagers ==> ItemsOk(recorded, said, t.todo) && UpdatesOk(recorded, said, t.updated))
    && (forall b :: b in s.sent ==> ItemsOk(recorded, said, b))
  }

  lemma {:induction false} CarriedOn(s: State, said: set<Saying>, recorded: seq<UsageEvent>, said': set<Saying>)
    requires TextInv(s, said) && s.recorded <= recorded && said <= said'
    ensures Carried(s, recorded, said')
  {
    ItemsKept(s.recorded, recorded, said, said', s.stored);
    ItemsKept(s.recorded, recorded, said, said', Body(s.flusher));
    forall op | op in s.waiting && op.Patch?
      ensures UpdatesOk(recorded, said', op.updated)
    {
      UpdatesKept(s.recorded, recorded, said, said', op.updated);
    }
    forall t | t in s.triagers
      ensures ItemsOk(recorded, said', t.todo) && UpdatesOk(recorded, said', t.updated)
    {
      ItemsKept(s.recorded, recorded, said, said', t.todo);
      UpdatesKept(s.recorded, recorded, said, said', t.updated);
    }
    forall b | b in s.sent
      ensures ItemsOk(recorded, said', b)
    {
      ItemsKept(s.recorded, recorded, said, said', b);
    }
  }

  // ---- steps ----

  lemma {:induction false} PatchedOk(recorded: seq<UsageEvent>, said: set<Saying>, q: seq<Item>, us: seq<Item>)
    requires ItemsOk(recorded, said, q) && UpdatesOk(recorded, said, us)
    ensures ItemsOk(recorded, said, Patched(q, us))
  {
    var p := Patched(q, us);
    forall x | x in p
      ensures ItemOk(recorded, said, x)
    {
      var i :| 0 <= i < |p| && p[i] == x;
      assert q[i] in q && x == UsageQueue.Patch(q[i], us);
    }
  }

  lemma {:induction false} PushedOk(recorded: seq<UsageEvent>, said: set<Saying>, q: seq<Item>, e: UsageEvent)
    requires ItemsOk(recorded + [e], said, q)
    ensures ItemsOk(recorded + [e], said, Pushed(q, Item(|recorded|, e)))
  {
    var x := Item(|recorded|, e);
    forall y | y in Pushed(q, x)
      ensures ItemOk(recorded + [e], said, y)
    {
      assert y in q + [x];
    }
  }

  lemma {:induction false} TextWrite(s: State, said: set<Saying>)
    requires TextInv(s, said) && Enabled(s, LockedWrite(true))
    ensures TextInv(Step(s, LockedWrite(true)), said)
  {
    var s' := Step(s, LockedWrite(true));
    assert s.waiting[0] in s.waiting;
    match s.waiting[0]
    case Record(e) =>
      CarriedOn(s, said, s.recorded + [e], said);
      PushedOk(s.recorded, said, s.stored, e);
    case Patch(us) => PatchedOk(s.recorded, said, s.stored, us);
    case Clear(_) =>
  }

  lemma {:induction false} TextLook(s: State, said: set<Saying>, k: nat, v: Verdict)
    requires TextInv(s, said) && Enabled(s, Look(k, v))
    ensures TextInv(Step(s, Look(k, v)), said + SaidNow(s, Look(k, v)))
  {
    var said' := said + SaidNow(s, Look(k, v));
    var t, t' := s.triagers[k], Looked(s.triagers[k], v);
    var x := t.todo[0];
    CarriedOn(s, said, s.recorded, said');
    assert t in s.triagers && x in t.todo;
    if !Skips(x.event) {
      assert FromSaying(s.recorded, Saying(x.num, v), Rewritten(x.event, v));
    }
    assert UpdatesOk(s.recorded, said', t'.updated);
  }

  lemma {:induction false} TextFlush(s: State, said: set<Saying>, e: Event)
    requires TextInv(s, said) && Enabled(s, e)
    requires e.FlushUsageEvents? || e.Peek? || e.Targets? || e.Answer?
    ensures TextInv(Step(s, e), said)
  {
    if e.Answer? {
      TextAnswer(s, said, e.reply);
    } else {
      assert forall x :: x in ReadyPrefix(s.stored) ==> x in s.stored;
    }
  }

  lemma {:induction false} TextAnswer(s: State, said: set<Saying>, reply: Reply)
    requires TextInv(s, said) && Enabled(s, Answer(reply))
    ensures TextInv(Step(s, Answer(reply)), said)
  {
    var s' := Step(s, Answer(reply));
    assert s'.sent == s.sent + [Body(s.flusher)] && s'.stored == s.stored && s'.triagers == s.triagers;
    assert Body(s'.flusher) == Body(s.flusher) || Body(s'.flusher) == [];
  }

  lemma {:induction false} TextStep(s: State, said: set<Saying>, e: Event)
    requires TextInv(s, said) && Enabled(s, e)
    ensures TextInv(Step(s, e), said + SaidNow(s, e))
  {
    if !e.Look? {
      assert said + SaidNow(s, e) == said;
    }
    match e
    case LockedWrite(ok) => if ok { TextWrite(s, said); }
    case Look(k, v) => TextLook(s, said, k, v);
    case FlushUsageEvents => TextFlush(s, said, e);
    case Peek => TextFlush(s, said, e);
    case Targets(_) => TextFlush(s, said, e);
    case Answer(_) => TextFlush(s, said, e);
    case EndTriage(k) => assert s.triagers[k] in s.triagers;
    case _ =>
  }

  lemma {:induction false} TextHistory(h: seq<Event>)
    requires After(h).Some?
    ensures TextInv(After(h).value, Said(h))
  {
    if h != [] {
      TextHistory(h[..|h| - 1]);
      TextStep(After(h[..|h| - 1]).value, Said(h[..|h| - 1]), h[|h| - 1]);
    }
  }

  // ---- results ----

  // A capture that was recorded raw is sent only as the model has had it rewritten: as a summary from which
  // the raw text is gone, or, if the model had nothing to say, as it was. What the model said was said about
  // this event, unless it shares its id with the one it was said about.
  lemma {:induction false} SentAsTold(h: seq<Event>, s: State, body: seq<Item>, x: Item) returns (y: Saying)
    requires After(h) == Some(s) && body in s.sent && x in body
    requires x.num < |s.recorded| && Raw(s.recorded[x.num])
    ensures y in Said(h) && y.num < |s.recorded| && s.recorded[y.num].id == s.recorded[x.num].id
    ensures OwnsId(s.recorded, s.recorded[x.num].id, x.num) ==> y.num == x.num
    ensures Raw(s.recorded[y.num]) && !("SMS " <= s.recorded[y.num].telemetry)
    ensures x.event.triaged == (if y.verdict.Summary? then Summarized else FellBack)
    ensures x.event == Rewritten(if y.verdict.Summary? then s.recorded[y.num].(telemetry := "") else s.recorded[y.num],
                                 y.verdict)
  {
    TextHistory(h);
    RawNeverSent(h);
    assert ItemOk(s.recorded, Said(h), x);
    y :| y in Said(h) && FromSaying(s.recorded, y, x.event);
    if y.verdict.Summary? {
      var e := s.recorded[y.num];
      RawTextGone(e, e.(telemetry := ""), y.verdict.text, y.verdict.category);
    }
  }

  // A message that was recorded raw is never sent, unless it shares its id with another event.
  lemma {:induction false} RawMessageNeverSent(h: seq<Event>, s: State, body: seq<Item>, n: nat)
    requires After(h) == Some(s) && body in s.sent && n < |s.recorded|
    requires Raw(s.recorded[n]) && "SMS " <= s.recorded[n].telemetry && OwnsId(s.recorded, s.recorded[n].id, n)
    ensures forall x :: x in body ==> x.num != n
  {
    forall x | x in body
      ensures x.num != n
    {
      if x.num == n {
        var y := SentAsTold(h, s, body, x);
      }
    }
  }
}
