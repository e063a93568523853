// SmsPlugin.backfill and smsBackfill.ts: SMS history in pages, resumed from a high-water mark.
module SmsBackfill {

  const PAGE_SIZE := 200
  const MAX_PER_RUN := 5000
  const MAX_SCAN := 4000
  const RECENT_MILLIS := 30 * 86400 * 1000

  datatype Message = Message(id: string, address: string, body: string, date: nat)

  // ---------- Phone numbers ----------

  function Digits(raw: string): string {
    if raw == "" then ""
    else Digits(raw[..|raw| - 1]) + if '0' <= raw[|raw| - 1] <= '9' then [raw[|raw| - 1]] else ""
  }

  function NormalizeNumber(raw: string): string {
    var digits := Digits(raw);
    if |digits| == 11 && digits[0] == '1' then digits[1..] else digits
  }

  predicate AllDigits(s: string) {
    forall i :: 0 <= i < |s| ==> '0' <= s[i] <= '9'
  }

  lemma {:induction false} DigitsOnly(raw: string)
    ensures AllDigits(Digits(raw))
    ensures AllDigits(raw) ==> Digits(raw) == raw
  {
    if raw != "" {
      DigitsOnly(raw[..|raw| - 1]);
      assert raw == raw[..|raw| - 1] + [raw[|raw| - 1]];
    }
  }

  // A normalized number, as the allowlist stores it, stays as it is.
  lemma {:induction false} NormalizeTwice(raw: string)
    ensures NormalizeNumber(NormalizeNumber(raw)) == NormalizeNumber(raw)
  {
    DigitsOnly(raw);
    DigitsOnly(NormalizeNumber(raw));
  }

  // Where the digits of a number are.
  predicate DigitsAt(raw: string, digits: string, at: seq<nat>) {
    && |at| == |digits|
    && (forall k :: 0 <= k < |at| ==> at[k] < |raw| && raw[at[k]] == digits[k])
    && (forall k, m :: 0 <= k < m < |at| ==> at[k] < at[m])
    && (forall i :: 0 <= i < |raw| ==> ('0' <= raw[i] <= '9' <==> i in at))
  }

  lemma {:induction false} LastDigit(raw: string)
    requires raw != ""
    ensures var front, last := raw[..|raw| - 1], raw[|raw| - 1];
            raw == front + [last] && Digits(raw) == if '0' <= last <= '9' then Digits(front) + [last] else Digits(front)
  {
  }

  lemma {:induction false} OneMoreChar(front: string, last: char, digits: string, at: seq<nat>, raw: string,
                                       digits': string, at': seq<nat>)
    requires DigitsAt(front, digits, at) && raw == front + [last]
    requires at' == if '0' <= last <= '9' then at + [|front|] else at
    requires digits' == if '0' <= last <= '9' then digits + [last] else digits
    ensures DigitsAt(raw, digits', at')
  {
    forall i | 0 <= i < |raw|
      ensures '0' <= raw[i] <= '9' <==> i in at'
    {
      assert i < |front| ==> raw[i] == front[i];
    }
  }

  // All digits are kept, in order, and nothing else.
  lemma {:induction false} DigitsKept(raw: string) returns (at: seq<nat>)
    ensures DigitsAt(raw, Digits(raw), at)
  {
    if raw == "" {
      at := [];
    } else {
      var front, last := raw[..|raw| - 1], raw[|raw| - 1];
      var before := DigitsKept(front);
      at := if '0' <= last <= '9' then before + [|front|] else before;
      LastDigit(raw);
      OneMoreChar(front, last, Digits(front), before, raw, Digits(raw), at);
    }
  }

  // Two numbers are taken for the same exactly if they have the same digits, but for the country code 1 in
  // front of ten others.
  lemma {:induction false} SameNumber(a: string, b: string)
    ensures NormalizeNumber(a) == NormalizeNumber(b) <==>
            var x, y := Digits(a), Digits(b);
            x == y || (x == "1" + y && |y| == 10) || (y == "1" + x && |x| == 10)
  {
    assert |Digits(a)| == 11 && Digits(a)[0] == '1' ==> Digits(a) == "1" + Digits(a)[1..];
    assert |Digits(b)| == 11 && Digits(b)[0] == '1' ==> Digits(b) == "1" + Digits(b)[1..];
  }

  // ---------- The message store ----------

  // The store is given in the order in which the provider sorts it: by date.
  predicate ByDate(store: seq<Message>) {
    forall i, j :: 0 <= i <= j < |store| ==> store[i].date <= store[j].date
  }

  predicate DistinctDates(store: seq<Message>) {
    forall i, j :: 0 <= i < j < |store| ==> store[i].date < store[j].date
  }

  // SELECT ... WHERE date > since
  function After(store: seq<Message>, since: nat): seq<Message> {
    if store == [] then []
    else
      var rest, m := After(store[..|store| - 1], since), store[|store| - 1];
      if m.date > since then rest + [m] else rest
  }

  function Kept(ms: seq<Message>, allow: set<string>): seq<Message> {
    if ms == [] then []
    else
      var rest, m := Kept(ms[..|ms| - 1], allow), ms[|ms| - 1];
      if NormalizeNumber(m.address) in allow then rest + [m] else rest
  }

  lemma {:induction false} KeptLast(ms: seq<Message>, m: Message, allow: set<string>)
    ensures Kept(ms + [m], allow) == Kept(ms, allow) + if NormalizeNumber(m.address) in allow then [m] else []
  {
    assert (ms + [m])[..|ms|] == ms;
  }

  // What is to be recorded between two marks: the allowlisted messages, in date order.
  function Between(store: seq<Message>, allow: set<string>, from: nat, to: nat): seq<Message> {
    if store == [] then []
    else
      var rest, m := Between(store[..|store| - 1], allow, from, to), store[|store| - 1];
      if from < m.date <= to && NormalizeNumber(m.address) in allow then rest + [m] else rest
  }

  datatype Page = Page(messages: seq<Message>, hasMore: bool, scanned: nat, lastScannedDate: nat)

  function Min(a: nat, b: nat): nat {
    if a < b then a else b
  }

  // What one page is: it looks at the first n rows after the mark, up to the scan cap, and stops early
  // only once it has `limit` messages.
  predicate IsPage(all: seq<Message>, allow: set<string>, since: nat, limit: nat, p: Page) {
    var cap := Min(MAX_SCAN, 10 * limit);
    && p.scanned <= |all| && p.scanned <= cap
    && p.messages == Kept(all[..p.scanned], allow) && |p.messages| <= limit
    && (p.scanned < |all| && p.scanned < cap ==> |p.messages| == limit)
    && p.lastScannedDate == (if p.scanned == 0 then since else all[p.scanned - 1].date)
    && (p.hasMore <==> p.scanned < |all| || p.scanned == cap)
  }

  // The cursor of SmsPlugin.backfill over the rows after the mark.
  method Backfill(store: seq<Message>, allow: set<string>, since: nat, limit: nat) returns (page: Page)
    requires 1 <= limit <= 1000
    ensures IsPage(After(store, since), allow, since, limit, page)
  {
    var scanCap := Min(MAX_SCAN, limit * 10);
    var all := After(store, since);
    var rows := all[..Min(scanCap, |all|)];   // ORDER BY date ASC LIMIT scanCap
    var messages: seq<Message> := [];
    var scanned, lastScannedDate, hasMore := 0, since, false;
    while scanned < |rows|
      invariant Scanned(rows, allow, since, scanned, messages, lastScannedDate)
      invariant |messages| < limit && !hasMore
    {
      var row := rows[scanned];
      ScanRow(rows, allow, since, scanned, messages, lastScannedDate);
      scanned := scanned + 1;
      lastScannedDate := row.date;
      if NormalizeNumber(row.address) in allow {
        messages := messages + [row];
        if |messages| >= limit {
          hasMore := scanned < |rows|;
          break;
        }
      }
    }
    if !hasMore && scanned >= scanCap {
      hasMore := true;
    }
    page := Page(messages, hasMore, scanned, lastScannedDate);
    PageEnds(all, allow, since, limit, rows, page);
  }

  // What the loop has after n rows.
  predicate Scanned(rows: seq<Message>, allow: set<string>, since: nat, n: nat, messages: seq<Message>, last: nat) {
    && n <= |rows| && messages == Kept(rows[..n], allow)
    && last == if n == 0 then since else rows[n - 1].date
  }

  lemma {:induction false} ScanRow(rows: seq<Message>, allow: set<string>, since: nat, n: nat,
                                   messages: seq<Message>, last: nat)
    requires Scanned(rows, allow, since, n, messages, last) && n < |rows|
    ensures var more := if NormalizeNumber(rows[n].address) in allow then messages + [rows[n]] else messages;
            Scanned(rows, allow, since, n + 1, more, rows[n].date)
  {
    KeptLast(rows[..n], rows[n], allow);
    assert rows[..n + 1] == rows[..n] + [rows[n]];
  }

  // What the loop has seen of the rows up to the scan cap makes a page.
  lemma {:induction false} PageEnds(all: seq<Message>, allow: set<string>, since: nat, limit: nat,
                                    rows: seq<Message>, p: Page)
    requires rows == all[..Min(Min(MAX_SCAN, limit * 10), |all|)]
    requires Scanned(rows, allow, since, p.scanned, p.messages, p.lastScannedDate)
    requires |p.messages| <= limit && (p.scanned < |rows| ==> |p.messages| == limit)
    requires p.hasMore <==> p.scanned < |rows| || p.scanned >= Min(MAX_SCAN, limit * 10)
    ensures IsPage(all, allow, since, limit, p)
  {
    assert rows[..p.scanned] == all[..p.scanned];
  }

  // ---------- One page ----------

  lemma {:induction false} AfterIsSuffix(store: seq<Message>, since: nat) returns (k: nat)
    requires ByDate(store)
    ensures k <= |store| && After(store, since) == store[k..]
    ensures forall i :: 0 <= i < k ==> store[i].date <= since
    ensures k < |store| ==> since < store[k].date
  {
    if store == [] {
      k := 0;
    } else {
      var front, m := store[..|store| - 1], store[|store| - 1];
      k := AfterIsSuffix(front, since);
      assert forall i :: 0 <= i < |front| ==> front[i].date <= m.date;
      if m.date > since {
        assert front[k..] + [m] == store[k..];
      } else {
        k := |store|;
      }
    }
  }

  // A page moves the mark to the date of the last row it looked at.
  lemma {:induction false} PageMark(store: seq<Message>, allow: set<string>, since: nat, limit: nat,
                                    p: Page) returns (k: nat)
    requires ByDate(store) && IsPage(After(store, since), allow, since, limit, p)
    ensures k + p.scanned <= |store| && After(store, since) == store[k..]
    ensures p.messages == Kept(store[k..k + p.scanned], allow)
    ensures forall i :: 0 <= i < k ==> store[i].date <= since
    ensures k < |store| ==> since < store[k].date
    ensures p.lastScannedDate == if p.scanned == 0 then since else store[k + p.scanned - 1].date
    ensures p.scanned > 0 ==> since < p.lastScannedDate
    ensures !p.hasMore || p.scanned == 0 ==> limit > 0 ==> k + p.scanned == |store|
  {
    k := AfterIsSuffix(store, since);
    assert store[k..][..p.scanned] == store[k..k + p.scanned];
    if p.scanned > 0 {
      assert store[k..][p.scanned - 1] == store[k + p.scanned - 1];
      assert store[k].date <= store[k + p.scanned - 1].date;
    }
  }

  // Exactly when a page skips nothing: the row it stopped at is not followed by one of the same date.
  lemma {:induction false} PageSkipsNothing(store: seq<Message>, allow: set<string>, since: nat, limit: nat, p: Page)
    requires ByDate(store) && IsPage(After(store, since), allow, since, limit, p)
    ensures var all := After(store, since);
            After(store, p.lastScannedDate) == all[p.scanned..] <==>
            (p.scanned == 0 || p.scanned == |all| || all[p.scanned - 1].date < all[p.scanned].date)
  {
    var k := PageMark(store, allow, since, limit, p);
    var j := AfterIsSuffix(store, p.lastScannedDate);
    var n := k + p.scanned;
    assert store[k..][p.scanned..] == store[n..];
    if n < |store| && p.scanned > 0 {
      if store[n - 1].date < store[n].date {
        assert j == n;
      } else {
        assert store[n].date == p.lastScannedDate;
        assert j > n;
      }
    }
  }

  // ---------- Runs ----------

  lemma {:induction false} NoneBetween(store: seq<Message>, allow: set<string>, from: nat, to: nat)
    requires forall i :: 0 <= i < |store| ==> store[i].date <= from || to < store[i].date
    ensures Between(store, allow, from, to) == []
  {
    if store != [] {
      NoneBetween(store[..|store| - 1], allow, from, to);
    }
  }

  // Consecutive stretches add up.
  lemma {:induction false} BetweenJoins(store: seq<Message>, allow: set<string>, a: nat, b: nat, c: nat)
    requires ByDate(store) && a <= b <= c
    ensures Between(store, allow, a, b) + Between(store, allow, b, c) == Between(store, allow, a, c)
  {
    if store != [] {
      var front, m := store[..|store| - 1], store[|store| - 1];
      BetweenJoins(front, allow, a, b, c);
      assert forall i :: 0 <= i < |front| ==> front[i].date <= m.date;
      if m.date <= b {
        NoneBetween(front, allow, b, c);
      }
      assert Between(front, allow, a, b) + (Between(front, allow, b, c) + [m]) ==
             Between(front, allow, a, b) + Between(front, allow, b, c) + [m];
    }
  }

  lemma {:induction false} AllBetween(store: seq<Message>, allow: set<string>, from: nat, to: nat)
    requires forall i :: 0 <= i < |store| ==> from < store[i].date <= to
    ensures Between(store, allow, from, to) == Kept(store, allow)
  {
    if store != [] {
      AllBetween(store[..|store| - 1], allow, from, to);
    }
  }

  lemma {:induction false} BetweenConcat(a: seq<Message>, b: seq<Message>, allow: set<string>, from: nat, to: nat)
    ensures Between(a + b, allow, from, to) == Between(a, allow, from, to) + Between(b, allow, from, to)
  {
    if b == [] {
      assert a + b == a;
    } else {
      assert (a + b)[..|a + b| - 1] == a + b[..|b| - 1];
      BetweenConcat(a, b[..|b| - 1], allow, from, to);
    }
  }

  // A stretch of rows that holds exactly the dates between two marks.
  lemma {:induction false} BetweenIs(store: seq<Message>, allow: set<string>, from: nat, to: nat, i: nat, j: nat)
    requires i <= j <= |store|
    requires forall k :: 0 <= k < |store| ==> (from < store[k].date <= to <==> i <= k < j)
    ensures Between(store, allow, from, to) == Kept(store[i..j], allow)
  {
    var a, b, c := store[..i], store[i..j], store[j..];
    assert forall k :: 0 <= k < |b| ==> b[k] == store[i + k];
    assert forall k :: 0 <= k < |c| ==> c[k] == store[j + k];
    assert a + b + c == store;
    MiddleBetween(a, b, c, allow, from, to);
  }

  lemma {:induction false} MiddleBetween(a: seq<Message>, b: seq<Message>, c: seq<Message>, allow: set<string>,
                                         from: nat, to: nat)
    requires forall i :: 0 <= i < |a| ==> a[i].date <= from || to < a[i].date
    requires forall i :: 0 <= i < |b| ==> from < b[i].date <= to
    requires forall i :: 0 <= i < |c| ==> c[i].date <= from || to < c[i].date
    ensures Between(a + b + c, allow, from, to) == Kept(b, allow)
  {
    NoneBetween(a, allow, from, to);
    AllBetween(b, allow, from, to);
    NoneBetween(c, allow, from, to);
    BetweenConcat(a, b, allow, from, to);
    BetweenConcat(a + b, c, allow, from, to);
  }

  // With distinct dates a page records exactly what lies between the marks before and after it.
  lemma {:induction false} PageRecords(store: seq<Message>, allow: set<string>, since: nat, limit: nat, p: Page)
    requires DistinctDates(store) && IsPage(After(store, since), allow, since, limit, p)
    ensures p.messages == Between(store, allow, since, p.lastScannedDate)
  {
    var k := PageMark(store, allow, since, limit, p);
    StretchRecords(store, allow, since, p.lastScannedDate, k, k + p.scanned);
  }

  lemma {:induction false} StretchRecords(store: seq<Message>, allow: set<string>, since: nat, last: nat, k: nat, n: nat)
    requires DistinctDates(store) && k <= n <= |store|
    requires forall i :: 0 <= i < k ==> store[i].date <= since
    requires k < |store| ==> since < store[k].date
    requires last == if n == k then since else store[n - 1].date
    ensures Kept(store[k..n], allow) == Between(store, allow, since, last)
  {
    forall i | 0 <= i < |store|
      ensures since < store[i].date <= last <==> k <= i < n
    {
      InPage(store, since, last, k, n, i);
    }
    BetweenIs(store, allow, since, last, k, n);
  }

  lemma {:induction false} InPage(store: seq<Message>, since: nat, last: nat, k: nat, n: nat, i: nat)
    requires DistinctDates(store) && k <= n <= |store| && i < |store|
    requires i < k ==> store[i].date <= since
    requires k < |store| ==> since < store[k].date
    requires last == if n == k then since else store[n - 1].date
    ensures since < store[i].date <= last <==> k <= i < n
  {
    if k <= i && k < n {
      RowDates(store, k, n, i);
    } else if k < i {
      assert store[k].date < store[i].date;
    }
  }

  lemma {:induction false} RowDates(store: seq<Message>, k: nat, n: nat, i: nat)
    requires DistinctDates(store) && k <= i < |store| && k < n <= |store|
    ensures store[k].date <= store[i].date
    ensures i < n <==> store[i].date <= store[n - 1].date
  {
    if k < i {
      assert store[k].date < store[i].date;
    }
    if i < n - 1 {
      assert store[i].date < store[n - 1].date;
    }
  }

  lemma {:induction false} PageDates(store: seq<Message>, allow: set<string>, since: nat, limit: nat, p: Page, m: Message)
    requires ByDate(store) && IsPage(After(store, since), allow, since, limit, p) && m in p.messages
    ensures since < m.date <= p.lastScannedDate
  {
    var k := PageMark(store, allow, since, limit, p);
    var rows := store[k..k + p.scanned];
    KeptMembers(rows, allow);
    var i :| 0 <= i < |rows| && rows[i] == m;
    assert store[k + i] == m;
    assert store[k].date <= store[k + i].date && store[k + i].date <= store[k + p.scanned - 1].date;
  }

  lemma {:induction false} KeptMembers(ms: seq<Message>, allow: set<string>)
    ensures forall m :: m in Kept(ms, allow) ==> m in ms
  {
    if ms != [] {
      KeptMembers(ms[..|ms| - 1], allow);
    }
  }

  lemma {:induction false} DoneMeansNothingLeft(store: seq<Message>, allow: set<string>, since: nat, limit: nat, p: Page)
    requires ByDate(store) && IsPage(After(store, since), allow, since, limit, p) && limit > 0
    requires !p.hasMore || p.scanned == 0
    ensures After(store, p.lastScannedDate) == []
  {
    var k := PageMark(store, allow, since, limit, p);
    var j := AfterIsSuffix(store, p.lastScannedDate);
    assert forall i :: 0 <= i < |store| ==> store[i].date <= store[|store| - 1].date;
  }

  lemma {:induction false} PageAdvances(store: seq<Message>, allow: set<string>, since: nat, limit: nat, p: Page)
    requires ByDate(store) && IsPage(After(store, since), allow, since, limit, p) && p.scanned > 0
    ensures since < p.lastScannedDate && |After(store, p.lastScannedDate)| < |After(store, since)|
  {
    var k := PageMark(store, allow, since, limit, p);
    var j := AfterIsSuffix(store, p.lastScannedDate);
    assert store[k + p.scanned - 1].date == p.lastScannedDate;
    assert j > k + p.scanned - 1;
  }

  // The date of the newest message, 0 if there is none.
  function Latest(store: seq<Message>): nat {
    if store == [] then 0 else store[|store| - 1].date
  }

  // Where resetSmsBackfillToRecent puts the mark.
  function RecentMark(store: seq<Message>, now: nat): nat {
    var base := if Latest(store) > 0 then Latest(store) else now;
    if base > RECENT_MILLIS then base - RECENT_MILLIS else 0
  }

  // What a first run looks at is exactly what was received less than RECENT_MILLIS before the newest message.
  lemma {:induction false} RecentlyReceived(store: seq<Message>, now: nat, m: Message)
    requires ByDate(store) && m in store && 0 < m.date
    ensures m in After(store, RecentMark(store, now)) <==> forall x :: x in store ==> x.date < m.date + RECENT_MILLIS
  {
    var newest := store[|store| - 1];
    AfterDates(store, RecentMark(store, now));
    assert newest in store && forall x :: x in store ==> x.date <= newest.date;
  }

  // Where a run starts.
  function StartMark(highWater: nat, store: seq<Message>, now: nat): nat {
    if highWater == 0 then RecentMark(store, now) else highWater
  }

  class SmsBackfill {
    var highWater: nat
    var recorded: seq<Message>

    constructor ()
      ensures highWater == 0 && recorded == []
    {
      highWater, recorded := 0, [];
    }

    // runSmsBackfill on a store that does not change meanwhile.
    method Run(store: seq<Message>, allow: set<string>, granted: bool, now: nat) returns (ingested: nat, done: bool)
      requires ByDate(store)
      modifies this
      ensures old(recorded) <= recorded && |recorded| == |old(recorded)| + ingested
      ensures !granted || allow == {} ==> highWater == old(highWater) && ingested == 0 && done == granted
      ensures granted && allow != {} ==> StartMark(old(highWater), store, now) <= highWater
      ensures granted && allow != {} && done ==> After(store, highWater) == []
      ensures granted && !done ==> ingested >= MAX_PER_RUN
      ensures ingested < MAX_PER_RUN + PAGE_SIZE
      ensures granted && !done ==> |After(store, highWater)| < |After(store, StartMark(old(highWater), store, now))|
      ensures granted && allow != {} && DistinctDates(store) ==>
                recorded == old(recorded) + Between(store, allow, StartMark(old(highWater), store, now), highWater)
    {
      ingested, done := 0, false;
      if !granted {
        return;
      }
      if allow == {} {
        done := true;
        return;
      }
      if highWater == 0 {
        highWater := RecentMark(store, now);
      }
      var since := highWater;
      ghost var start := since;
      NoneBetween(store, allow, start, start);
      while ingested < MAX_PER_RUN
        invariant since == highWater && Moved(store, start, since, ingested) && ingested < MAX_PER_RUN + PAGE_SIZE
        invariant Recorded(store, allow, start, since, old(recorded), recorded, ingested)
        decreases |After(store, since)|
      {
        var page := Backfill(store, allow, since, PAGE_SIZE);
        RunPage(store, allow, start, since, page, old(recorded), recorded, ingested);
        since := RecordAll(page.messages, since, store, allow, page);
        ingested := ingested + |page.messages|;
        highWater := since;
        if !page.hasMore || page.scanned == 0 {
          done := true;
          return;
        }
      }
    }

    // runSmsBackfill called until it is done, on a store that does not change meanwhile. With distinct
    // dates the runs together record every allowlisted message after the first mark once, in date order.
    method RunUntilDone(store: seq<Message>, allow: set<string>, clock: nat -> nat)
      requires ByDate(store)
      modifies this
      ensures old(recorded) <= recorded && (allow != {} ==> After(store, highWater) == [])
      ensures DistinctDates(store) ==>
                recorded == old(recorded) + Kept(After(store, StartMark(old(highWater), store, clock(0))), allow)
    {
      ghost var start := StartMark(highWater, store, clock(0));
      var runs, ingested, done := 0, 0, false;
      NoneBetween(store, allow, start, start);
      NoneAllowed(After(store, start));
      while !done
        invariant runs == 0 ==> highWater == old(highWater) && !done
        invariant runs > 0 && allow != {} ==> start <= highWater && (done || 0 < highWater)
        invariant done && allow != {} ==> After(store, highWater) == []
        invariant old(recorded) <= recorded && (allow == {} ==> recorded == old(recorded))
        invariant DistinctDates(store) && allow != {} ==>
                    recorded == old(recorded) + Between(store, allow, start, if runs == 0 then start else highWater)
        decreases !done, |After(store, StartMark(highWater, store, clock(runs)))|
      {
        ghost var from := StartMark(highWater, store, clock(runs));
        ingested, done := Run(store, allow, true, clock(runs));
        if allow != {} {
          BetweenJoins(store, allow, start, from, highWater);
        }
        runs := runs + 1;
      }
      if allow != {} {
        BetweenToEnd(store, allow, start, highWater);
      }
    }

    // Record the messages of a page; the new mark never moves backwards.
    method RecordAll(messages: seq<Message>, since0: nat, ghost store: seq<Message>, ghost allow: set<string>,
                     page: Page) returns (since: nat)
      requires ByDate(store) && IsPage(After(store, since0), allow, since0, PAGE_SIZE, page)
      requires messages == page.messages
      modifies this`recorded
      ensures recorded == old(recorded) + messages && since == page.lastScannedDate
    {
      since := since0;
      for i := 0 to |messages|
        invariant recorded == old(recorded) + messages[..i]
        invariant since0 <= since <= page.lastScannedDate || since == since0
      {
        PageDates(store, allow, since0, PAGE_SIZE, page, messages[i]);
        recorded := recorded + [messages[i]];
        since := if messages[i].date > since then messages[i].date else since;
      }
      assert messages[..|messages|] == messages;
      ghost var k := PageMark(store, allow, since0, PAGE_SIZE, page);
      if page.lastScannedDate != 0 && page.lastScannedDate > since {
        since := page.lastScannedDate;
      }
    }
  }

  // Where a run has come to, and what it has recorded on the way.
  predicate Moved(store: seq<Message>, start: nat, since: nat, ingested: nat) {
    && start <= since && |After(store, since)| <= |After(store, start)|
    && (ingested > 0 ==> |After(store, since)| < |After(store, start)|)
  }

  predicate Recorded(store: seq<Message>, allow: set<string>, start: nat, since: nat,
                     before: seq<Message>, now: seq<Message>, ingested: nat) {
    && before <= now && |now| == |before| + ingested
    && (DistinctDates(store) ==> now == before + Between(store, allow, start, since))
  }

  lemma {:induction false} PageMoves(store: seq<Message>, allow: set<string>, start: nat, since: nat, page: Page,
                                     ingested: nat)
    requires ByDate(store) && IsPage(After(store, since), allow, since, PAGE_SIZE, page)
    requires Moved(store, start, since, ingested)
    ensures Moved(store, start, page.lastScannedDate, ingested + |page.messages|)
    ensures since <= page.lastScannedDate
    ensures page.scanned > 0 ==> |After(store, page.lastScannedDate)| < |After(store, since)|
  {
    var k := PageMark(store, allow, since, PAGE_SIZE, page);
    if page.scanned > 0 {
      PageAdvances(store, allow, since, PAGE_SIZE, page);
    }
  }

  lemma {:induction false} PageIsRecorded(store: seq<Message>, allow: set<string>, start: nat, since: nat, page: Page,
                       before: seq<Message>, now: seq<Message>, ingested: nat)
    requires ByDate(store) && IsPage(After(store, since), allow, since, PAGE_SIZE, page)
    requires start <= since <= page.lastScannedDate && Recorded(store, allow, start, since, before, now, ingested)
    ensures Recorded(store, allow, start, page.lastScannedDate, before, now + page.messages, ingested + |page.messages|)
  {
    if DistinctDates(store) {
      PageRecords(store, allow, since, PAGE_SIZE, page);
      BetweenJoins(store, allow, start, since, page.lastScannedDate);
    }
  }

  lemma {:induction false} RunPage(store: seq<Message>, allow: set<string>, start: nat, since: nat, page: Page,
                before: seq<Message>, now: seq<Message>, ingested: nat)
    requires ByDate(store) && IsPage(After(store, since), allow, since, PAGE_SIZE, page)
    requires Moved(store, start, since, ingested) && Recorded(store, allow, start, since, before, now, ingested)
    ensures Moved(store, start, page.lastScannedDate, ingested + |page.messages|)
    ensures Recorded(store, allow, start, page.lastScannedDate, before, now + page.messages, ingested + |page.messages|)
    ensures page.scanned > 0 ==> |After(store, page.lastScannedDate)| < |After(store, since)|
    ensures !page.hasMore || page.scanned == 0 ==> After(store, page.lastScannedDate) == []
  {
    PageMoves(store, allow, start, since, page, ingested);
    PageIsRecorded(store, allow, start, since, page, before, now, ingested);
    if !page.hasMore || page.scanned == 0 {
      DoneMeansNothingLeft(store, allow, since, PAGE_SIZE, page);
    }
  }

  lemma {:induction false} NoneAllowed(ms: seq<Message>)
    ensures Kept(ms, {}) == []
  {
    if ms != [] {
      NoneAllowed(ms[..|ms| - 1]);
    }
  }

  lemma {:induction false} BetweenToEnd(store: seq<Message>, allow: set<string>, from: nat, to: nat)
    requires ByDate(store) && After(store, to) == []
    ensures Between(store, allow, from, to) == Kept(After(store, from), allow)
  {
    if store != [] {
      BetweenToEnd(store[..|store| - 1], allow, from, to);
      var m := store[|store| - 1];
      assert m.date <= to;
      if m.date > from {
        var a := After(store[..|store| - 1], from);
        assert (a + [m])[..|a|] == a;
      }
    }
  }

  // A row of the date at which a page ends, but behind its end, is never looked at again.
  lemma {:induction false} SameDateSkipped(store: seq<Message>, allow: set<string>, since: nat, p: Page, q: nat,
                                           later: nat)
    requires IsPage(After(store, since), allow, since, PAGE_SIZE, p)
    requires 0 < p.scanned <= q < |After(store, since)| && After(store, since)[q].date == p.lastScannedDate
    requires p.lastScannedDate <= later
    ensures After(store, since)[q] !in After(store, later)
  {
    AfterDates(store, later);
  }

  lemma {:induction false} AfterDates(store: seq<Message>, since: nat)
    ensures forall m :: m in After(store, since) <==> m in store && m.date > since
  {
    if store != [] {
      AfterDates(store[..|store| - 1], since);
      assert forall m :: m in store <==> m in store[..|store| - 1] || m == store[|store| - 1];
    }
  }
}
