// POST /mobile/usage-report on the proxy: the bounded set of fingerprints and the usage log.
module UsageReport {
  import opened Commons

  const MAX_SEEN_USAGE_EVENTS := 10000
  const MAX_EVENTS_PER_BATCH := 500

  // `fields` are type, timestamp, screen, query, package and result; a missing one is "".
  datatype Event = Event(id: string, fields: seq<string>)

  function JoinPresent(fields: seq<string>): string {
    if fields == [] then ""
    else
      var before, f := JoinPresent(fields[..|fields| - 1]), fields[|fields| - 1];
      if f == "" then before else if before == "" then f else before + "|" + f
  }

  // getUsageFingerprint
  function Fingerprint(e: Event): (f: string)
    ensures f != ""
  {
    if e.id != "" then "id:" + e.id else "fp:" + JoinPresent(e.fields)
  }

  function Fingerprints(es: seq<Event>): (fs: seq<string>)
    ensures |fs| == |es| && forall i :: 0 <= i < |es| ==> fs[i] == Fingerprint(es[i])
  {
    seq(|es|, i requires 0 <= i < |es| => Fingerprint(es[i]))
  }

  // Events with ids are told apart by their ids, and never taken for events without.
  lemma {:induction false} FingerprintById(a: Event, b: Event)
    requires a.id != ""
    ensures Fingerprint(a) == Fingerprint(b) <==> a.id == b.id
  {
    assert Fingerprint(a)[0] == 'i' && ("fp:" + JoinPresent(b.fields))[0] == 'f';
    if Fingerprint(a) == Fingerprint(b) {
      assert a.id == Fingerprint(a)[3..] == Fingerprint(b)[3..] == b.id;
    }
  }

  // Without ids, leaving out missing fields makes different events look the same.
  lemma {:induction false} FingerprintBlind(x: string)
    requires x != ""
    ensures Fingerprint(Event("", [x, ""])) == Fingerprint(Event("", ["", x]))
  {
    assert [x, ""][..1] == [x] && ["", x][..1] == [""] && [x][..0] == [] && [""][..0] == [];
    assert JoinPresent([x]) == x && JoinPresent([""]) == "";
  }

  function Present(fields: seq<string>): seq<string> {
    if fields == [] then []
    else
      var before, f := Present(fields[..|fields| - 1]), fields[|fields| - 1];
      if f == "" then before else before + [f]
  }

  function Join(fields: seq<string>): string {
    if fields == [] then ""
    else if |fields| == 1 then fields[0]
    else Join(fields[..|fields| - 1]) + "|" + fields[|fields| - 1]
  }

  predicate NoBar(fields: seq<string>) {
    forall f :: f in fields ==> '|' !in f
  }

  predicate NoBlank(fields: seq<string>) {
    "" !in fields
  }

  lemma {:induction false} JoinedPresent(fields: seq<string>)
    ensures JoinPresent(fields) == Join(Present(fields)) && NoBlank(Present(fields))
    ensures NoBar(fields) ==> NoBar(Present(fields))
    ensures JoinPresent(fields) == "" <==> Present(fields) == []
  {
    if fields != [] {
      var front, f := fields[..|fields| - 1], fields[|fields| - 1];
      JoinedPresent(front);
      if f != "" {
        assert (Present(front) + [f])[..|Present(front)|] == Present(front);
      }
      assert forall x :: x in front ==> x in fields;
    }
  }

  lemma {:induction false} BarBefore(x: string, f: string)
    requires '|' !in f
    ensures var s := x + "|" + f; s[|x|] == '|' && forall i :: |x| < i < |s| ==> s[i] != '|'
  {
    var s := x + "|" + f;
    assert forall i :: |x| < i < |s| ==> s[i] == f[i - |x| - 1] && f[i - |x| - 1] in f;
  }

  // A separator that does not occur in what follows is where it is.
  lemma {:induction false} LastBar(x: string, f: string, y: string, g: string)
    requires '|' !in f && '|' !in g && x + "|" + f == y + "|" + g
    ensures x == y && f == g
  {
    var s := x + "|" + f;
    BarBefore(x, f);
    BarBefore(y, g);
    assert |x| == |y|;
    assert s[..|x|] == x && s[|x| + 1..] == f && s[..|y|] == y && s[|y| + 1..] == g;
  }

  lemma {:induction false} JoinApart(a: seq<string>, b: seq<string>)
    requires NoBar(a) && NoBar(b) && NoBlank(a) && NoBlank(b) && Join(a) == Join(b)
    ensures a == b
    decreases |a|
  {
    JoinEnd(a);
    JoinEnd(b);
    if |a| > 1 && |b| > 1 {
      var f, g := a[|a| - 1], b[|b| - 1];
      var x, y := a[..|a| - 1], b[..|b| - 1];
      LastBar(Join(x), f, Join(y), g);
      JoinApart(x, y);
      assert a == x + [f] && b == y + [g];
    } else if |a| == |b| == 1 {
      assert a == [a[0]] && b == [b[0]];
    }
  }

  lemma {:induction false} JoinEnd(a: seq<string>)
    requires NoBar(a) && NoBlank(a)
    ensures Join(a) == "" <==> a == []
    ensures '|' in Join(a) <==> |a| > 1
  {
    if |a| > 1 {
      assert Join(a)[|Join(a[..|a| - 1])|] == '|';
    }
  }

  // Exactly what events without ids are told apart by, as long as no field contains the separator: the
  // fields that are there, in order, but not which ones are missing.
  lemma {:induction false} FingerprintByFields(a: Event, b: Event)
    requires a.id == "" && b.id == "" && NoBar(a.fields) && NoBar(b.fields)
    ensures Fingerprint(a) == Fingerprint(b) <==> Present(a.fields) == Present(b.fields)
  {
    JoinedPresent(a.fields);
    JoinedPresent(b.fields);
    if Fingerprint(a) == Fingerprint(b) {
      assert Fingerprint(a)[3..] == JoinPresent(a.fields) && Fingerprint(b)[3..] == JoinPresent(b.fields);
      JoinApart(Present(a.fields), Present(b.fields));
    }
  }

  // The separator matters: a field that contains it looks like two.
  lemma {:induction false} FingerprintBar(x: string, y: string)
    requires x != "" && y != ""
    ensures Fingerprint(Event("", [x, y])) == Fingerprint(Event("", [x + "|" + y]))
    ensures Present([x, y]) != Present([x + "|" + y])
  {
    assert [x, y][..1] == [x] && [x][..0] == [] && [x + "|" + y][..0] == [];
    assert JoinPresent([x]) == x && Present([x]) == [x];
    assert Present([x, y]) == [x] + [y];
  }

  // ---------- The set and the log ----------

  // Set.add with eviction of the oldest element
  function Remember(seen: seq<string>, f: string): seq<string> {
    if f in seen then seen else Last(seen + [f], MAX_SEEN_USAGE_EVENTS)
  }

  datatype Proxy = Proxy(seen: seq<string>, log: seq<Event>)

  datatype Sifted = Sifted(seen: seq<string>, accepted: seq<Event>)

  // The dedup loop.
  function Sift(seen: seq<string>, events: seq<Event>): (r: Sifted)
    ensures |r.accepted| <= |events|
  {
    if events == [] then Sifted(seen, [])
    else
      var before, e := Sift(seen, events[..|events| - 1]), events[|events| - 1];
      if Fingerprint(e) in before.seen then before
      else Sifted(Remember(before.seen, Fingerprint(e)), before.accepted + [e])
  }

  predicate GoodBatch(events: seq<Event>) {
    0 < |events| <= MAX_EVENTS_PER_BATCH
  }

  // One report; `appends` tells whether writing to the log works.
  function Report(p: Proxy, events: seq<Event>, appends: bool): Proxy {
    if !GoodBatch(events) then p
    else
      var s := Sift(p.seen, events);
      Proxy(s.seen, if appends then p.log + s.accepted else p.log)
  }

  // preloadUsageFingerprints: Set.add of the last lines, no eviction needed
  function Preload(log: seq<Event>): seq<string> {
    Collect(Last(log, MAX_SEEN_USAGE_EVENTS))
  }

  function Collect(es: seq<Event>): seq<string> {
    if es == [] then []
    else
      var before, f := Collect(es[..|es| - 1]), Fingerprint(es[|es| - 1]);
      if f in before then before else before + [f]
  }

  class UsageLog {
    var seenUsageFingerprints: seq<string>   // a Set, in insertion order
    var log: seq<Event>

    ghost function State(): Proxy
      reads this
    {
      Proxy(seenUsageFingerprints, log)
    }

    constructor (log: seq<Event>)
      ensures State() == Proxy(Preload(log), log)
    {
      this.log := log;
      seenUsageFingerprints := [];
      new;
      var start := if |log| > MAX_SEEN_USAGE_EVENTS then |log| - MAX_SEEN_USAGE_EVENTS else 0;
      for i := start to |log|
        invariant this.log == log && seenUsageFingerprints == Collect(log[start..i])
      {
        assert log[start..i + 1][..i - start] == log[start..i];
        if Fingerprint(log[i]) !in seenUsageFingerprints {
          seenUsageFingerprints := seenUsageFingerprints + [Fingerprint(log[i])];
        }
      }
      assert log[start..|log|] == Last(log, MAX_SEEN_USAGE_EVENTS);
    }

    // seenUsageFingerprints.add(fp), and delete the oldest if there are too many
    method AddFingerprint(fp: string)
      requires fp !in seenUsageFingerprints && |seenUsageFingerprints| <= MAX_SEEN_USAGE_EVENTS
      modifies this`seenUsageFingerprints
      ensures seenUsageFingerprints == Remember(old(seenUsageFingerprints), fp)
    {
      seenUsageFingerprints := seenUsageFingerprints + [fp];
      if |seenUsageFingerprints| > MAX_SEEN_USAGE_EVENTS {
        seenUsageFingerprints := seenUsageFingerprints[1..];
      }
    }

    method ReportUsage(events: seq<Event>, appends: bool) returns (status: int)
      requires |seenUsageFingerprints| <= MAX_SEEN_USAGE_EVENTS
      modifies this
      ensures State() == Report(old(State()), events, appends)
      ensures |seenUsageFingerprints| <= MAX_SEEN_USAGE_EVENTS
      ensures status == if !GoodBatch(events) then 400
                        else if Sift(old(seenUsageFingerprints), events).accepted != [] && !appends then 500 else 200
    {
      if |events| == 0 || |events| > MAX_EVENTS_PER_BATCH {
        return 400;
      }
      var freshEvents: seq<Event> := [];
      for i := 0 to |events|
        invariant log == old(log) && |seenUsageFingerprints| <= MAX_SEEN_USAGE_EVENTS
        invariant Sifted(seenUsageFingerprints, freshEvents) == Sift(old(seenUsageFingerprints), events[..i])
      {
        SiftMore(old(seenUsageFingerprints), events, i);
        var fp := Fingerprint(events[i]);
        if fp !in seenUsageFingerprints {
          AddFingerprint(fp);
          freshEvents := freshEvents + [events[i]];
        }
      }
      assert events[..|events|] == events;
      if freshEvents != [] {
        if !appends {
          return 500;
        }
        log := log + freshEvents;
      }
      return 200;
    }
  }

  lemma {:induction false} SiftMore(seen: seq<string>, events: seq<Event>, i: nat)
    requires i < |events|
    ensures var s := Sift(seen, events[..i]);
            Sift(seen, events[..i + 1]) == if Fingerprint(events[i]) in s.seen then s
                                           else Sifted(Remember(s.seen, Fingerprint(events[i])), s.accepted + [events[i]])
  {
    assert events[..i + 1][..i] == events[..i];
  }

  lemma {:induction false} SiftLast(seen: seq<string>, events: seq<Event>, e: Event)
    ensures var s := Sift(seen, events);
            Sift(seen, events + [e]) == if Fingerprint(e) in s.seen then s
                                        else Sifted(Remember(s.seen, Fingerprint(e)), s.accepted + [e])
  {
    assert (events + [e])[..|events|] == events;
  }

  // ---------- While appending works ----------

  // Equal entries of the log are more than MAX_SEEN_USAGE_EVENTS positions apart.
  predicate Spaced(log: seq<Event>) {
    forall i, j :: 0 <= i < j < |log| && Fingerprint(log[i]) == Fingerprint(log[j]) ==>
      j - i > MAX_SEEN_USAGE_EVENTS
  }

  function Window(log: seq<Event>): seq<string> {
    Last(Fingerprints(log), MAX_SEEN_USAGE_EVENTS)
  }

  // The set holds the fingerprints of the last entries of the log.
  predicate InStep(p: Proxy) {
    p.seen == Window(p.log) && Spaced(p.log)
  }

  lemma {:induction false} FingerprintsConcat(a: seq<Event>, b: seq<Event>)
    ensures Fingerprints(a + b) == Fingerprints(a) + Fingerprints(b)
  {
  }

  // Entry i is among the last ones.
  lemma {:induction false} InWindow(log: seq<Event>, i: nat)
    requires |log| - MAX_SEEN_USAGE_EVENTS <= i < |log|
    ensures Fingerprint(log[i]) in Window(log)
  {
    var w := Window(log);
    assert w[i - (|log| - |w|)] == Fingerprint(log[i]);
  }

  lemma {:induction false} OneAccepted(log: seq<Event>, e: Event)
    requires Spaced(log) && Fingerprint(e) !in Window(log)
    ensures Spaced(log + [e]) && Window(log + [e]) == Remember(Window(log), Fingerprint(e))
  {
    var log' := log + [e];
    forall i | |log| - MAX_SEEN_USAGE_EVENTS <= i && 0 <= i < |log|
      ensures Fingerprint(log[i]) != Fingerprint(e)
    {
      InWindow(log, i);
    }
    assert Fingerprints(log') == Fingerprints(log) + [Fingerprint(e)];
  }

  lemma {:induction false} SiftInStep(p: Proxy, events: seq<Event>)
    requires InStep(p)
    ensures var s := Sift(p.seen, events); InStep(Proxy(s.seen, p.log + s.accepted))
  {
    if events == [] {
      assert p.log + [] == p.log;
    } else {
      var before, e := Sift(p.seen, events[..|events| - 1]), events[|events| - 1];
      SiftInStep(p, events[..|events| - 1]);
      if Fingerprint(e) !in before.seen {
        OneAccepted(p.log + before.accepted, e);
        assert p.log + (before.accepted + [e]) == p.log + before.accepted + [e];
      }
    }
  }

  // The proxy after a series of reports whose appends all work.
  function Reports(p: Proxy, batches: seq<seq<Event>>): Proxy {
    if batches == [] then p
    else Report(Reports(p, batches[..|batches| - 1]), batches[|batches| - 1], true)
  }

  // Over any series of reports the set stays the fingerprints of the last entries, and equal entries
  // stay far apart.
  lemma {:induction false} ReportsInStep(p: Proxy, batches: seq<seq<Event>>)
    requires InStep(p)
    ensures InStep(Reports(p, batches)) && p.log <= Reports(p, batches).log
  {
    if batches != [] {
      ReportsInStep(p, batches[..|batches| - 1]);
      SiftInStep(Reports(p, batches[..|batches| - 1]), batches[|batches| - 1]);
    }
  }

  // A restart changes nothing: preloading recovers the set.
  lemma {:induction false} RestartKeepsSet(p: Proxy)
    requires InStep(p)
    ensures Preload(p.log) == p.seen
  {
    var es := Last(p.log, MAX_SEEN_USAGE_EVENTS);
    assert Fingerprints(es) == Window(p.log);
    LastDistinct(p.log);
    CollectDistinct(es);
  }

  predicate Distinct(es: seq<Event>) {
    forall i, j :: 0 <= i < j < |es| ==> Fingerprint(es[i]) != Fingerprint(es[j])
  }

  lemma {:induction false} LastDistinct(log: seq<Event>)
    requires Spaced(log)
    ensures Distinct(Last(log, MAX_SEEN_USAGE_EVENTS))
  {
    var es := Last(log, MAX_SEEN_USAGE_EVENTS);
    var off := |log| - |es|;
    forall i, j | 0 <= i < j < |es|
      ensures Fingerprint(es[i]) != Fingerprint(es[j])
    {
      assert es[i] == log[off + i] && es[j] == log[off + j];
    }
  }

  lemma {:induction false} CollectDistinct(es: seq<Event>)
    requires Distinct(es)
    ensures Collect(es) == Fingerprints(es)
  {
    if es != [] {
      assert Distinct(es[..|es| - 1]);
      CollectDistinct(es[..|es| - 1]);
      assert Fingerprints(es) == Fingerprints(es[..|es| - 1]) + [Fingerprint(es[|es| - 1])];
    }
  }

  // ---------- What a report adds ----------

  lemma {:induction false} AcceptedGrow(seen: seq<string>, events: seq<Event>)
    requires events != []
    ensures var a, b := Sift(seen, events[..|events| - 1]), Sift(seen, events);
            && a.accepted <= b.accepted
            && (Fingerprint(events[|events| - 1]) !in a.seen ==> b.accepted == a.accepted + [events[|events| - 1]])
  {
  }

  lemma {:induction false} LoggedLater(log: seq<Event>, log': seq<Event>, f: string)
    requires log <= log' && f in Fingerprints(log)
    ensures f in Fingerprints(log')
  {
    FingerprintsConcat(log, log'[|log|..]);
    assert log' == log + log'[|log|..];
  }

  // Nothing reported is lost: every event of a batch has its fingerprint in the log afterwards.
  lemma {:induction false} AllLogged(p: Proxy, events: seq<Event>, e: Event)
    requires InStep(p) && e in events
    ensures Fingerprint(e) in Fingerprints(p.log + Sift(p.seen, events).accepted)
  {
    var front, z := events[..|events| - 1], events[|events| - 1];
    var before, after := Sift(p.seen, front), Sift(p.seen, events);
    AcceptedGrow(p.seen, events);
    if e in front {
      AllLogged(p, front, e);
      LoggedLater(p.log + before.accepted, p.log + after.accepted, Fingerprint(e));
    } else if Fingerprint(z) in before.seen {
      SeenLogged(p, front, z);
    } else {
      var log := p.log + after.accepted;
      assert Fingerprints(log)[|log| - 1] == Fingerprint(z);
    }
  }

  lemma {:induction false} SeenLogged(p: Proxy, front: seq<Event>, z: Event)
    requires InStep(p) && Fingerprint(z) in Sift(p.seen, front).seen
    ensures Fingerprint(z) in Fingerprints(p.log + Sift(p.seen, front).accepted)
  {
    SiftInStep(p, front);
  }

  lemma {:induction false} SiftNothing(seen: seq<string>, events: seq<Event>)
    ensures Sift(seen, events).accepted == [] <==> forall k :: 0 <= k < |events| ==> Fingerprint(events[k]) in seen
    ensures Sift(seen, events).accepted == [] ==> Sift(seen, events).seen == seen
  {
    if events != [] {
      SiftNothing(seen, events[..|events| - 1]);
      assert forall k :: 0 <= k < |events| - 1 ==> events[..|events| - 1][k] == events[k];
    }
  }

  // A batch adds nothing exactly if each of its events is among the last entries of the log.
  lemma {:induction false} AddsNothing(p: Proxy, events: seq<Event>)
    requires InStep(p) && GoodBatch(events)
    ensures Report(p, events, true).log == p.log <==>
            forall k :: 0 <= k < |events| ==> Fingerprint(events[k]) in Window(p.log)
    ensures Report(p, events, true).log == p.log ==> Report(p, events, true) == p
  {
    SiftNothing(p.seen, events);
    var s := Sift(p.seen, events);
    assert |p.log + s.accepted| == |p.log| + |s.accepted|;
    assert s.accepted == [] ==> p.log + s.accepted == p.log;
  }

  // A batch that was new when it came adds nothing when it is sent again, unless so many events were
  // logged since that its first one has left the set.
  lemma {:induction false} ResentAddsNothing(p: Proxy, events: seq<Event>, others: seq<seq<Event>>)
    requires InStep(p) && GoodBatch(events) && Sift(p.seen, events).accepted == events
    requires var q := Reports(Report(p, events, true), others); |q.log| - |p.log| <= MAX_SEEN_USAGE_EVENTS
    ensures var q := Reports(Report(p, events, true), others); Report(q, events, true) == q
  {
    var p1 := Report(p, events, true);
    var q := Reports(p1, others);
    SiftInStep(p, events);
    ReportsInStep(p1, others);
    StillInWindow(p.log, events, q.log);
    AddsNothing(q, events);
  }

  lemma {:induction false} StillInWindow(before: seq<Event>, events: seq<Event>, log: seq<Event>)
    requires before + events <= log && |log| - |before| <= MAX_SEEN_USAGE_EVENTS
    ensures forall k :: 0 <= k < |events| ==> Fingerprint(events[k]) in Window(log)
  {
    forall k | 0 <= k < |events|
      ensures Fingerprint(events[k]) in Window(log)
    {
      assert log[|before| + k] == (before + events)[|before| + k] == events[k];
      InWindow(log, |before| + k);
    }
  }

  // Sent again at once, a batch can still add to the log if it was not all new: a new event can push
  // the fingerprint of an old one out of the set.
  lemma {:induction false} ResentAddsOld(p: Proxy, old': Event, new': Event)
    requires InStep(p) && |p.seen| == MAX_SEEN_USAGE_EVENTS
    requires Fingerprint(old') == p.seen[0] && Fingerprint(new') !in p.seen
    ensures var q := Report(p, [old', new'], true);
            q.log == p.log + [new'] && old' in Report(q, [old', new'], true).log[|q.log|..]
  {
    var events, f := [old', new'], Fingerprint(old');
    SiftTwo(p.seen, old', new');
    assert Sift(p.seen, events) == Sifted(Remember(p.seen, Fingerprint(new')), [new']);
    var q := Report(p, events, true);
    FirstNotAgain(p);
    assert q.seen == p.seen[1..] + [Fingerprint(new')];
    SiftTwo(q.seen, old', new');
    assert Sift(q.seen, events).accepted[0] == old';
  }

  lemma {:induction false} SiftOne(seen: seq<string>, e: Event)
    ensures Sift(seen, [e]) == if Fingerprint(e) in seen then Sifted(seen, [])
                               else Sifted(Remember(seen, Fingerprint(e)), [e])
  {
    assert [e][..0] == [];
    assert Sift(seen, []) == Sifted(seen, []);
    assert [] + [e] == [e];
  }

  lemma {:induction false} SiftTwo(seen: seq<string>, a: Event, b: Event)
    ensures var s := Sift(seen, [a]);
            Sift(seen, [a, b]) == if Fingerprint(b) in s.seen then s
                                  else Sifted(Remember(s.seen, Fingerprint(b)), s.accepted + [b])
    ensures Sift(seen, [a]) == if Fingerprint(a) in seen then Sifted(seen, [])
                               else Sifted(Remember(seen, Fingerprint(a)), [a])
  {
    assert [a, b][..1] == [a];
    SiftOne(seen, a);
  }

  lemma {:induction false} FirstNotAgain(p: Proxy)
    requires InStep(p) && |p.seen| == MAX_SEEN_USAGE_EVENTS
    ensures p.seen[0] !in p.seen[1..]
  {
    var off := |p.log| - |p.seen|;
    forall k | 1 <= k < |p.seen|
      ensures p.seen[k] != p.seen[0]
    {
      assert Fingerprint(p.log[off]) == p.seen[0] && Fingerprint(p.log[off + k]) == p.seen[k];
    }
  }

  // If appending fails, the events count as seen without being in the log, and sending them again does
  // not help.
  lemma {:induction false} FailedAppendLoses(p: Proxy, e: Event)
    requires InStep(p) && Fingerprint(e) !in p.seen
    ensures var q := Report(p, [e], false);
            Report(q, [e], true) == q && q.log == p.log && Fingerprint(e) !in Window(q.log)
  {
    var q := Report(p, [e], false);
    SiftOne(p.seen, e);
    assert q == Proxy(Remember(p.seen, Fingerprint(e)), p.log);
    assert q.seen[|q.seen| - 1] == Fingerprint(e);
    SiftOne(q.seen, e);
    assert q.log + [] == q.log;
  }
}
