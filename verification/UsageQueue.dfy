// usage.ts, and the loops of flush.ts and triageQueue.ts: the stored queue of usage events and what the
// operations do to it.
module UsageQueue {
  import opened Commons

  const MAX_QUEUE_SIZE := 500

  datatype Kind = Ask | Search | ScreenView | SetupSaved | SystemTelemetry

  // UsageEvent.triaged: undefined, true or false
  datatype Triage = Untried | Summarized | FellBack

  // `screen` is "background" exactly for passive captures.
  datatype UsageEvent = UsageEvent(
    id: string, kind: Kind, timestamp: string, background: bool,
    triaged: Triage, package: string, telemetry: string)

  // A stored event. `num` is history: its place in the order of recording.
  datatype Item = Item(num: nat, event: UsageEvent)

  // A background capture that triage has not looked at.
  predicate Raw(e: UsageEvent) {
    e.kind == SystemTelemetry && e.background && e.triaged == Untried
  }

  // ---------- The locked operations ----------

  // recordEvent: what falls out at the front, and what stays.
  function Overflow(q: seq<Item>, x: Item): seq<Item> {
    if |q| + 1 > MAX_QUEUE_SIZE then (q + [x])[..|q| + 1 - MAX_QUEUE_SIZE] else []
  }

  function Pushed(q: seq<Item>, x: Item): (r: seq<Item>)
    ensures Overflow(q, x) + r == q + [x]
    ensures |r| <= MAX_QUEUE_SIZE
  {
    if |q| + 1 > MAX_QUEUE_SIZE then (q + [x])[|q| + 1 - MAX_QUEUE_SIZE..] else q + [x]
  }

  // The last of the updated events with an id: what idMap holds under that id.
  function LastWith(updated: seq<Item>, id: string): (r: Option<Item>)
    ensures r.Some? ==> r.value in updated && r.value.event.id == id
    ensures r.None? ==> forall u :: u in updated ==> u.event.id != id
  {
    if updated == [] then None
    else if updated[|updated| - 1].event.id == id then Some(updated[|updated| - 1])
    else LastWith(updated[..|updated| - 1], id)
  }

  function Patch(x: Item, updated: seq<Item>): Item {
    var u := LastWith(updated, x.event.id);
    if u.Some? then x.(event := u.value.event) else x
  }

  // patchTriagedEvents
  function Patched(q: seq<Item>, updated: seq<Item>): (r: seq<Item>)
    ensures |r| == |q|
    ensures forall i :: 0 <= i < |q| ==> r[i].num == q[i].num && r[i].event.id == q[i].event.id
  {
    seq(|q|, i requires 0 <= i < |q| => Patch(q[i], updated))
  }

  predicate SameKey(a: UsageEvent, b: UsageEvent) {
    a.kind == b.kind && a.timestamp == b.timestamp
  }

  // An event is removed if a sent one has its id or its `type:timestamp`.
  predicate Hit(e: UsageEvent, sent: seq<Item>) {
    exists s :: s in sent && (s.event.id == e.id || SameKey(s.event, e))
  }

  // clearSentEvents
  function Cleared(q: seq<Item>, sent: seq<Item>): (r: seq<Item>)
    ensures forall x :: x in r <==> x in q && !Hit(x.event, sent)
  {
    if q == [] then []
    else
      var rest := Cleared(q[..|q| - 1], sent);
      if Hit(q[|q| - 1].event, sent) then rest else rest + [q[|q| - 1]]
  }

  // ---------- What the actors compute ----------

  // What flushUsageEvents sends: everything before the first raw capture.
  function ReadyPrefix(q: seq<Item>): (r: seq<Item>)
    ensures r <= q
    ensures forall x :: x in r ==> !Raw(x.event)
    ensures r == q || Raw(q[|r|].event)
  {
    if q == [] || Raw(q[0].event) then [] else [q[0]] + ReadyPrefix(q[1..])
  }

  // What the on-device model said: a summary and a category, or nothing.
  datatype Verdict = Summary(text: string, category: string) | NoVerdict

  predicate Skips(e: UsageEvent) {
    !Raw(e) || "SMS " <= e.telemetry
  }

  function Rewritten(e: UsageEvent, v: Verdict): (r: UsageEvent)
    ensures r.id == e.id && SameKey(r, e) && !Raw(r)
    ensures v.NoVerdict? ==> r.triaged == FellBack && r.(triaged := e.triaged) == e
    ensures v.Summary? ==> r.triaged == Summarized && r.(triaged := e.triaged, telemetry := e.telemetry) == e
  {
    match v
    case Summary(text, category) =>
      e.(telemetry := "Package: " + e.package + "\n\n[on-device summary] " + text + " (" + category + ")",
         triaged := Summarized)
    case NoVerdict => e.(triaged := FellBack)
  }

  predicate Contains(s: string, t: string) {
    exists i, j :: 0 <= i <= j <= |s| && s[i..j] == t
  }

  // A summary takes the place of the raw text: nothing of that is left, and the package, the summary and the
  // category are there.
  lemma {:induction false} RawTextGone(a: UsageEvent, b: UsageEvent, text: string, category: string)
    requires a.(telemetry := "") == b.(telemetry := "")
    ensures var v := Summary(text, category);
            && Rewritten(a, v) == Rewritten(b, v)
            && "Package: " + a.package <= Rewritten(a, v).telemetry
            && Contains(Rewritten(a, v).telemetry, text) && Contains(Rewritten(a, v).telemetry, category)
  {
    var t := Rewritten(a, Summary(text, category)).telemetry;
    var head := "Package: " + a.package + "\n\n[on-device summary] ";
    assert t[|head|..|head| + |text|] == text;
    assert t[|t| - 1 - |category|..|t| - 1] == category;
  }

  // triageQueue's loop over a copy of the queue.
  function Updates(q: seq<Item>, verdicts: nat -> Verdict): seq<Item> {
    if q == [] then []
    else
      var i := |q| - 1;
      var before := Updates(q[..i], verdicts);
      if Skips(q[i].event) then before else before + [q[i].(event := Rewritten(q[i].event, verdicts(i)))]
  }

  // What a target answers: a status code, or an exception.
  datatype Reply = Status(code: int) | NoReply

  predicate Accepted(r: Reply) {
    r.Status? && 200 <= r.code < 300
  }

  // Whether the next target is worth trying.
  predicate TryNext(r: Reply) {
    r.NoReply? || r.code == 401 || r.code == 403 || r.code >= 500
  }

  // The stored queue and the module-level flag, used without interference. `recorded` counts the
  // events recorded, which gives each its place.
  class Queue {
    var stored: seq<Item>
    var recorded: nat
    var isFlushing: bool

    constructor ()
      ensures stored == [] && recorded == 0 && !isFlushing
    {
      stored, recorded, isFlushing := [], 0, false;
    }

    method RecordEvent(event: UsageEvent)
      modifies this`stored, this`recorded
      ensures stored == Pushed(old(stored), Item(old(recorded), event)) && recorded == old(recorded) + 1
    {
      stored := stored + [Item(recorded, event)];
      recorded := recorded + 1;
      if |stored| > MAX_QUEUE_SIZE {
        stored := stored[|stored| - MAX_QUEUE_SIZE..];
      }
    }

    method PatchTriagedEvents(updated: seq<Item>)
      modifies this`stored
      ensures stored == Patched(old(stored), updated)
    {
      var idMap := ById(updated);
      ghost var queue := stored;
      var i := 0;
      while i < |stored|
        invariant 0 <= i <= |stored| == |queue|
        invariant forall k :: 0 <= k < i ==> stored[k] == Patch(queue[k], updated)
        invariant forall k :: i <= k < |queue| ==> stored[k] == queue[k]
      {
        var existing := stored[i];
        if existing.event.id in idMap {
          stored := stored[i := existing.(event := idMap[existing.event.id].event)];
        }
        i := i + 1;
      }
      assert stored == Patched(queue, updated);
    }

    static method ById(updated: seq<Item>) returns (idMap: map<string, Item>)
      ensures forall id :: id in idMap <==> LastWith(updated, id).Some?
      ensures forall id :: id in idMap ==> LastWith(updated, id) == Some(idMap[id])
    {
      idMap := map[];
      for i := 0 to |updated|
        invariant forall id :: id in idMap <==> LastWith(updated[..i], id).Some?
        invariant forall id :: id in idMap ==> LastWith(updated[..i], id) == Some(idMap[id])
      {
        assert updated[..i + 1][..i] == updated[..i];
        idMap := idMap[updated[i].event.id := updated[i]];
      }
      assert updated[..|updated|] == updated;
    }

    method ClearSentEvents(sent: seq<Item>)
      modifies this`stored
      ensures stored == Cleared(old(stored), sent)
    {
      var ids: set<string>, keys: set<(Kind, string)> := {}, {};
      for i := 0 to |sent|
        invariant ids == set x | x in sent[..i] :: x.event.id
        invariant keys == set x | x in sent[..i] :: (x.event.kind, x.event.timestamp)
      {
        assert sent[..i + 1] == sent[..i] + [sent[i]];
        ids := ids + {sent[i].event.id};
        keys := keys + {(sent[i].event.kind, sent[i].event.timestamp)};
      }
      assert sent[..|sent|] == sent;
      var remaining: seq<Item> := [];
      for i := 0 to |stored|
        invariant stored == old(stored) && remaining == Cleared(stored[..i], sent)
      {
        assert stored[..i + 1][..i] == stored[..i];
        var e := stored[i].event;
        if e.id !in ids && (e.kind, e.timestamp) !in keys {
          remaining := remaining + [stored[i]];
        }
      }
      assert stored[..|stored|] == stored;
      stored := remaining;
    }

    // How many events are ready to be sent.
    static method SendCount(events: seq<Item>) returns (sendCount: nat)
      ensures sendCount <= |events| && events[..sendCount] == ReadyPrefix(events)
    {
      sendCount := |events|;
      for i := 0 to |events|
        invariant sendCount == |events|
        invariant forall k :: 0 <= k < i ==> !Raw(events[k].event)
      {
        if Raw(events[i].event) {
          sendCount := i;
          break;
        }
      }
      ReadyUnique(events, sendCount);
    }

    // `replies` says what each target answers. The body is what a target accepted, if any did.
    method FlushUsageEvents(targets: nat, replies: nat -> Reply) returns (body: Option<seq<Item>>)
      modifies this`stored, this`isFlushing
      ensures isFlushing == old(isFlushing)
      ensures body.Some? ==> body.value == ReadyPrefix(old(stored)) && !old(isFlushing)
      ensures stored == if body.Some? then Cleared(old(stored), body.value) else old(stored)
      ensures body.Some? <==> !isFlushing && ReadyPrefix(old(stored)) != [] && Reaches(targets, replies)
    {
      if isFlushing {
        return None;
      }
      isFlushing := true;
      var events := stored;
      var sendCount := SendCount(events);
      body := None;
      if sendCount > 0 {
        var accepted := TryTargets(targets, replies);
        if accepted {
          body := Some(events[..sendCount]);
          ClearSentEvents(events[..sendCount]);
        }
      }
      isFlushing := false;
    }

    static method TryTargets(targets: nat, replies: nat -> Reply) returns (accepted: bool)
      ensures accepted <==> Reaches(targets, replies)
    {
      for i := 0 to targets
        invariant forall k :: 0 <= k < i ==> !Accepted(replies(k)) && TryNext(replies(k))
      {
        if Accepted(replies(i)) {
          return true;
        }
        if !TryNext(replies(i)) {
          return false;
        }
      }
      return false;
    }

    method TriageQueue(verdicts: nat -> Verdict)
      modifies this`stored
      ensures stored == Patched(old(stored), Updates(old(stored), verdicts))
    {
      var queue := stored;
      var updated: seq<Item> := [];
      for i := 0 to |queue|
        invariant stored == old(stored) && updated == Updates(queue[..i], verdicts)
      {
        assert queue[..i + 1][..i] == queue[..i];
        var event := queue[i].event;
        if !Skips(event) {
          updated := updated + [queue[i].(event := Rewritten(event, verdicts(i)))];
        }
      }
      assert queue[..|queue|] == queue;
      if updated != [] {
        PatchTriagedEvents(updated);
      } else {
        assert Patched(stored, []) == stored;
      }
    }
  }

  // Some target answers 2xx, and every target before it does not answer, or answers 401, 403 or a server error.
  ghost predicate Reaches(targets: nat, replies: nat -> Reply) {
    exists i: nat ::
      && i < targets && replies(i).Status? && 200 <= replies(i).code < 300
      && forall k: nat :: k < i && replies(k).Status? ==> replies(k).code in {401, 403} || 500 <= replies(k).code
  }

  lemma {:induction false} ReadyUnique(q: seq<Item>, n: nat)
    requires n <= |q| && (n == |q| || Raw(q[n].event))
    requires forall k :: 0 <= k < n ==> !Raw(q[k].event)
    ensures q[..n] == ReadyPrefix(q)
  {
    if n > 0 {
      ReadyUnique(q[1..], n - 1);
    }
  }

  // After a triage pass that met no interference, everything but SMS captures is ready to go.
  lemma {:induction false} TriagedIsReady(q: seq<Item>, verdicts: nat -> Verdict, x: Item)
    requires x in Patched(q, Updates(q, verdicts)) && Raw(x.event)
    ensures "SMS " <= x.event.telemetry
  {
    var us := Updates(q, verdicts);
    var i :| 0 <= i < |q| && Patched(q, us)[i] == x;
    UpdatesAre(q, verdicts, i);
  }

  lemma {:induction false} UpdatesAre(q: seq<Item>, verdicts: nat -> Verdict, i: nat)
    requires i < |q|
    ensures forall u :: u in Updates(q, verdicts) ==> !Raw(u.event)
    ensures !Skips(q[i].event) ==> exists u :: u in Updates(q, verdicts) && u.event.id == q[i].event.id
  {
    var front := q[..|q| - 1];
    if i < |q| - 1 {
      UpdatesAre(front, verdicts, i);
      assert front[i] == q[i];
    } else if |q| > 1 {
      UpdatesAre(front, verdicts, 0);
    }
    var us := Updates(q, verdicts);
    if !Skips(q[i].event) && i == |q| - 1 {
      assert us[|us| - 1].event.id == q[i].event.id;
      assert us[|us| - 1] in us;
    }
  }
}
