// The usage queue under interleaving: recorders, flushes and triage passes that await in between. Only
// the locked sections are serialized; peeking is not. The app may die and be started again at any time.
module UsageActors {
  import opened Commons
  import opened UsageQueue

  // A locked read-modify-write section.
  datatype Op = Record(event: UsageEvent) | Patch(updated: seq<Item>) | Clear(sent: seq<Item>)

  // Where the one flush that got past isFlushing is. `i` of `n` targets are used up.
  datatype Flusher =
    | Off
    | Peeking
    | Ready(body: seq<Item>)
    | Sending(body: seq<Item>, i: nat, n: nat)
    | Clearing(body: seq<Item>, i: nat, n: nat)

  // A triage pass: the part of its copy of the queue still to look at, and what it has rewritten.
  datatype Triager = Triager(todo: seq<Item>, updated: seq<Item>)

  // `waiting` are the sections in the order they asked for the lock; the first one holds it, and `local`
  // is its copy of the queue once it has read it. The rest is history: the events recorded, those
  // trimmed by the cap, the bodies sent, and those answered 2xx.
  datatype State = State(
    stored: seq<Item>,
    waiting: seq<Op>,
    local: Option<seq<Item>>,
    flusher: Flusher,
    triagers: seq<Triager>,
    recorded: seq<UsageEvent>,
    trimmed: seq<Item>,
    sent: seq<seq<Item>>,
    bodies: seq<seq<Item>>)

  const START := State([], [], None, Off, [], [], [], [], [])

  datatype Event =
    | RecordEvent(event: UsageEvent)     // recordEvent asks for the lock
    | LockedRead                         // the holder reads the queue
    | LockedWrite(ok: bool)              // the holder writes it, or fails to, and lets go
    | FlushUsageEvents                   // a call of flushUsageEvents
    | Peek                               // it reads the queue
    | Targets(n: nat)                    // it reads its targets
    | Answer(reply: Reply)               // a target answers
    | TriageQueue                        // a triage pass reads the queue
    | Look(k: nat, verdict: Verdict)     // pass k deals with its next event
    | EndTriage(k: nat)                  // pass k hands in what it has rewritten
    | Restart                            // the app dies and is started again; the stored queue remains

  predicate Enabled(s: State, e: Event) {
    match e
    case RecordEvent(_) => true
    case LockedRead => s.waiting != [] && s.local.None?
    case LockedWrite(_) => s.waiting != [] && s.local.Some?
    case FlushUsageEvents => true
    case Peek => s.flusher.Peeking?
    case Targets(_) => s.flusher.Ready?
    case Answer(_) => s.flusher.Sending? && s.flusher.i < s.flusher.n
    case TriageQueue => true
    case Look(k, _) => k < |s.triagers| && s.triagers[k].todo != []
    case EndTriage(k) => k < |s.triagers| && s.triagers[k].todo == []
    case Restart => true
  }

  // On to the next target, if there is one.
  function Failover(body: seq<Item>, i: nat, n: nat): Flusher {
    if i + 1 < n then Sending(body, i + 1, n) else Off
  }

  function Released(s: State): State
    requires s.waiting != []
  {
    s.(waiting := s.waiting[1..], local := None)
  }

  // What the holder does to the queue it has read.
  function Written(s: State, op: Op, q: seq<Item>): State {
    match op
    case Record(e) =>
      var x := Item(|s.recorded|, e);
      s.(stored := Pushed(q, x), recorded := s.recorded + [e], trimmed := s.trimmed + Overflow(q, x))
    case Patch(updated) => s.(stored := Patched(q, updated))
    case Clear(body) => s.(stored := Cleared(q, body), flusher := Off)
  }

  // A failed write changes nothing; a flush whose clearing fails tries the next target.
  function Failed(s: State, op: Op): State {
    if op.Clear? && s.flusher.Clearing? then
      s.(flusher := Failover(s.flusher.body, s.flusher.i, s.flusher.n))
    else s
  }

  function Answered(s: State, reply: Reply): State
    requires s.flusher.Sending?
  {
    var f := s.flusher;
    var s1 := s.(sent := s.sent + [f.body]);
    if Accepted(reply) then
      s1.(bodies := s.bodies + [f.body], waiting := s.waiting + [Clear(f.body)], flusher := Clearing(f.body, f.i, f.n))
    else if TryNext(reply) then s1.(flusher := Failover(f.body, f.i, f.n))
    else s1.(flusher := Off)
  }

  function Looked(t: Triager, v: Verdict): Triager
    requires t.todo != []
  {
    var x := t.todo[0];
    Triager(t.todo[1..], if Skips(x.event) then t.updated else t.updated + [x.(event := Rewritten(x.event, v))])
  }

  function Step(s: State, e: Event): State
    requires Enabled(s, e)
  {
    match e
    case RecordEvent(event) => s.(waiting := s.waiting + [Record(event)])
    case LockedRead => s.(local := Some(s.stored))
    case LockedWrite(ok) =>
      var op, q := s.waiting[0], s.local.value;
      Released(if ok then Written(s, op, q) else Failed(s, op))
    case FlushUsageEvents => if s.flusher.Off? then s.(flusher := Peeking) else s
    case Peek =>
      var body := ReadyPrefix(s.stored);
      s.(flusher := if body == [] then Off else Ready(body))
    case Targets(n) => s.(flusher := if n == 0 then Off else Sending(s.flusher.body, 0, n))
    case Answer(reply) => Answered(s, reply)
    case TriageQueue => s.(triagers := s.triagers + [Triager(s.stored, [])])
    case Look(k, v) => s.(triagers := s.triagers[k := Looked(s.triagers[k], v)])
    case EndTriage(k) =>
      var updated := s.triagers[k].updated;
      var rest := s.triagers[..k] + s.triagers[k + 1..];
      if updated == [] then s.(triagers := rest)
      else s.(triagers := rest, waiting := s.waiting + [Patch(updated)])
    case Restart => s.(waiting := [], local := None, flusher := Off, triagers := [])
  }

  // The state after a history, None if the history is impossible.
  function After(h: seq<Event>): Option<State> {
    if h == [] then Some(START)
    else
      var before := After(h[..|h| - 1]);
      if before.Some? && Enabled(before.value, h[|h| - 1]) then Some(Step(before.value, h[|h| - 1])) else None
  }

  // ---------- What every step keeps ----------

  // The lock does its job: the holder's copy is the stored queue.
  predicate LockInv(s: State) {
    s.local.Some? ==> s.local.value == s.stored && s.waiting != []
  }

  lemma {:induction false} LockStep(s: State, e: Event)
    requires LockInv(s) && Enabled(s, e)
    ensures LockInv(Step(s, e))
  {
  }

  // The answers of the targets, one after the other, for as long as the flush is sending.
  function RunAnswers(s: State, replies: nat -> Reply): State
    decreases if s.flusher.Sending? then s.flusher.n - s.flusher.i else 0
  {
    if s.flusher.Sending? && s.flusher.i < s.flusher.n
    then RunAnswers(Step(s, Answer(replies(s.flusher.i))), replies)
    else s
  }

  // The flush under interleaving gets its body accepted exactly if the one without interference would.
  lemma {:induction false} FlusherReaches(s: State, replies: nat -> Reply)
    requires s.flusher.Sending? && s.flusher.i < s.flusher.n
    requires forall k: nat :: k < s.flusher.i ==> !Accepted(replies(k)) && TryNext(replies(k))
    ensures var f := RunAnswers(s, replies).flusher;
            if Reaches(s.flusher.n, replies) then f.Clearing? && f.body == s.flusher.body && Accepted(replies(f.i))
            else f.Off?
    decreases s.flusher.n - s.flusher.i
  {
    var i, n := s.flusher.i, s.flusher.n;
    var s' := Step(s, Answer(replies(i)));
    if Accepted(replies(i)) {
      assert Reaches(n, replies);
    } else if TryNext(replies(i)) && i + 1 < n {
      FlusherReaches(s', replies);
    } else {
      assert !Reaches(n, replies);
    }
  }

  function Body(f: Flusher): seq<Item> {
    match f
    case Off => []
    case Peeking => []
    case Ready(b) => b
    case Sending(b, _, _) => b
    case Clearing(b, _, _) => b
  }
}
