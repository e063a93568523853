// normalize() of surprisal.ts, and exactly when two texts normalize to the same text.
module TextNormal {
  import opened IndexOrder

  // What \s matches and trim() removes.
  predicate IsSpace(c: char) {
    c in " \t\n\r\U{0B}\U{0C}\U{A0}\U{1680}\U{2028}\U{2029}\U{202F}\U{205F}\U{3000}\U{FEFF}" ||
    '\U{2000}' <= c <= '\U{200A}'
  }

  // text.split("\n")
  function Lines(text: string): (ls: seq<string>)
    ensures |ls| > 0
  {
    if text == "" then [""]
    else
      var rest := Lines(text[1..]);
      if text[0] == '\n' then [""] + rest else [[text[0]] + rest[0]] + rest[1..]
  }

  function TrimStart(s: string): string {
    if s != "" && IsSpace(s[0]) then TrimStart(s[1..]) else s
  }

  function TrimEnd(s: string): string {
    if s != "" && IsSpace(s[|s| - 1]) then TrimEnd(s[..|s| - 1]) else s
  }

  // s.replace(/\s+/g, " ")
  function Collapse(s: string): string {
    if s == "" then ""
    else if !IsSpace(s[0]) then [s[0]] + Collapse(s[1..])
    else if |s| > 1 && IsSpace(s[1]) then Collapse(s[1..])
    else " " + Collapse(s[1..])
  }

  function Squeeze(line: string): string {
    Collapse(TrimEnd(TrimStart(line)))
  }

  // .map(...).filter(Boolean)
  function Squeezed(lines: seq<string>): seq<string> {
    if lines == [] then []
    else
      var rest, s := Squeezed(lines[1..]), Squeeze(lines[0]);
      if s == "" then rest else [s] + rest
  }

  function Same(s: string): string {
    s
  }

  function Join(parts: seq<string>, sep: char): string {
    if parts == [] then ""
    else if |parts| == 1 then parts[0]
    else parts[0] + [sep] + Join(parts[1..], sep)
  }

  function Normalize(text: string): string {
    Join(StableSort(Squeezed(Lines(text)), Same), '\n')
  }

  // ---------- A squeezed line is its words, one space apart ----------

  function Words(s: string): (ws: seq<string>)
    ensures s != "" && !IsSpace(s[0]) ==> ws != []
  {
    if s == "" then []
    else if IsSpace(s[0]) then Words(s[1..])
    else
      var rest := Words(s[1..]);
      if |s| == 1 || IsSpace(s[1]) then [[s[0]]] + rest else [[s[0]] + rest[0]] + rest[1..]
  }

  lemma {:induction false} WordsTrimStart(s: string)
    ensures Words(TrimStart(s)) == Words(s)
    ensures TrimStart(s) != "" ==> !IsSpace(TrimStart(s)[0])
  {
    if s != "" && IsSpace(s[0]) {
      WordsTrimStart(s[1..]);
    }
  }

  lemma {:induction false} WordsBeforeSpace(s: string, c: char)
    requires IsSpace(c)
    ensures Words(s + [c]) == Words(s)
  {
    if s == "" {
      assert s + [c] == [c] && [c][1..] == "";
    } else {
      WordsBeforeSpace(s[1..], c);
      assert (s + [c])[1..] == s[1..] + [c];
      if |s| > 1 {
        assert (s + [c])[1] == s[1];
      } else {
        assert s[1..] == "";
      }
    }
  }

  lemma {:induction false} WordsTrimEnd(s: string)
    ensures Words(TrimEnd(s)) == Words(s)
  {
    if s != "" && IsSpace(s[|s| - 1]) {
      var front, c := s[..|s| - 1], s[|s| - 1];
      assert s == front + [c];
      WordsTrimEnd(front);
      WordsBeforeSpace(front, c);
    }
  }

  lemma {:induction false} TrimEndKeeps(s: string)
    ensures TrimEnd(s) <= s
    ensures TrimEnd(s) != "" ==> !IsSpace(TrimEnd(s)[|TrimEnd(s)| - 1])
  {
    if s != "" && IsSpace(s[|s| - 1]) {
      TrimEndKeeps(s[..|s| - 1]);
    }
  }

  lemma {:induction false} SomeWord(s: string)
    requires s != "" && !IsSpace(s[|s| - 1])
    ensures Words(s) != []
  {
    if IsSpace(s[0]) {
      SomeWord(s[1..]);
    }
  }

  // On a string that does not end in a space.
  lemma {:induction false} CollapseIs(s: string)
    requires s != "" ==> !IsSpace(s[|s| - 1])
    ensures Collapse(s) == (if s != "" && IsSpace(s[0]) then " " else "") + Join(Words(s), ' ')
  {
    if s != "" {
      CollapseIs(s[1..]);
      if !IsSpace(s[0]) && |s| > 1 {
        var rest := Words(s[1..]);
        SomeWord(s[1..]);
        if IsSpace(s[1]) {
          assert ([[s[0]]] + rest)[1..] == rest;
          assert [s[0]] + (" " + Join(rest, ' ')) == [s[0]] + [' '] + Join(rest, ' ');
        } else {
          JoinHead([s[0]], rest);
        }
      }
    }
  }

  lemma {:induction false} JoinHead(c: string, rest: seq<string>)
    requires rest != []
    ensures Join([c + rest[0]] + rest[1..], ' ') == c + Join(rest, ' ')
  {
    var ws := [c + rest[0]] + rest[1..];
    assert ws[1..] == rest[1..];
    if |rest| > 1 {
      assert (c + rest[0]) + [' '] + Join(rest[1..], ' ') == c + (rest[0] + [' '] + Join(rest[1..], ' '));
    }
  }

  lemma {:induction false} SqueezeIsWords(line: string)
    ensures Squeeze(line) == Join(Words(line), ' ')
  {
    var t := TrimStart(line);
    WordsTrimStart(line);
    WordsTrimEnd(t);
    TrimEndKeeps(t);
    CollapseIs(TrimEnd(t));
  }

  predicate IsWord(w: string) {
    w != "" && forall i :: 0 <= i < |w| ==> !IsSpace(w[i])
  }

  predicate AllWords(ws: seq<string>) {
    forall i :: 0 <= i < |ws| ==> IsWord(ws[i])
  }

  lemma {:induction false} WordsAreWords(s: string)
    ensures AllWords(Words(s))
  {
    if s != "" {
      WordsAreWords(s[1..]);
      var rest := Words(s[1..]);
      if !IsSpace(s[0]) && |s| > 1 && !IsSpace(s[1]) {
        assert IsWord(rest[0]);
      }
    }
  }

  // The words of a word followed by a space and more, or by nothing.
  lemma {:induction false} WordsOfWord(w: string, tail: string)
    requires IsWord(w) && (tail == "" || IsSpace(tail[0]))
    ensures Words(w + tail) == [w] + Words(tail)
  {
    var s := w + tail;
    if |w| == 1 {
      assert s[1..] == tail && [s[0]] == w;
      assert tail != "" ==> s[1] == tail[0];
    } else {
      assert s[1..] == w[1..] + tail;
      assert IsWord(w[1..]);
      WordsOfWord(w[1..], tail);
      assert s[1] == w[1];
      assert ([w[1..]] + Words(tail))[1..] == Words(tail);
      assert w == [w[0]] + w[1..];
    }
  }

  lemma {:induction false} WordsOfJoin(ws: seq<string>)
    requires AllWords(ws)
    ensures Words(Join(ws, ' ')) == ws
  {
    if |ws| == 1 {
      WordsOfWord(ws[0], "");
      assert ws[0] + "" == ws[0];
      assert ws == [ws[0]] + [];
    } else if |ws| > 1 {
      var tail := [' '] + Join(ws[1..], ' ');
      WordsOfJoin(ws[1..]);
      assert tail[1..] == Join(ws[1..], ' ');
      assert ws[0] + [' '] + Join(ws[1..], ' ') == ws[0] + tail;
      WordsOfWord(ws[0], tail);
    }
  }

  // Two lines squeeze to the same line exactly if they have the same words.
  lemma {:induction false} SqueezeEqual(a: string, b: string)
    ensures Squeeze(a) == Squeeze(b) <==> Words(a) == Words(b)
  {
    SqueezeIsWords(a);
    SqueezeIsWords(b);
    WordsAreWords(a);
    WordsAreWords(b);
    if Squeeze(a) == Squeeze(b) {
      WordsOfJoin(Words(a));
      WordsOfJoin(Words(b));
    }
  }

  // ---------- Lines in any order ----------

  predicate OneLine(s: string) {
    s != "" && '\n' !in s
  }

  predicate AllOneLine(ls: seq<string>) {
    forall i :: 0 <= i < |ls| ==> OneLine(ls[i])
  }

  lemma {:induction false} LinesOf(s: string, tail: string)
    requires '\n' !in s
    ensures tail == "" ==> Lines(s) == [s]
    ensures tail != "" && tail[0] == '\n' ==> Lines(s + tail) == [s] + Lines(tail[1..])
  {
    if s == "" {
      assert s + tail == tail;
    } else {
      LinesOf(s[1..], tail);
      assert (s + tail)[1..] == s[1..] + tail;
      assert s == [s[0]] + s[1..];
      if tail != "" && tail[0] == '\n' {
        var rest := Lines(s[1..] + tail);
        assert rest[1..] == Lines(tail[1..]);
      }
    }
  }

  lemma {:induction false} LinesOfJoin(ls: seq<string>)
    requires AllOneLine(ls) && ls != []
    ensures Lines(Join(ls, '\n')) == ls
  {
    if |ls| == 1 {
      LinesOf(ls[0], "");
    } else {
      var tail := ['\n'] + Join(ls[1..], '\n');
      LinesOfJoin(ls[1..]);
      assert tail[1..] == Join(ls[1..], '\n');
      assert ls[0] + ['\n'] + Join(ls[1..], '\n') == ls[0] + tail;
      LinesOf(ls[0], tail);
      assert OneLine(ls[0]);
    }
  }

  lemma {:induction false} JoinNonEmpty(ls: seq<string>)
    requires AllOneLine(ls)
    ensures Join(ls, '\n') == "" <==> ls == []
  {
    if ls != [] {
      assert OneLine(ls[0]);
    }
  }

  lemma {:induction false} JoinInjective(a: seq<string>, b: seq<string>)
    requires AllOneLine(a) && AllOneLine(b) && Join(a, '\n') == Join(b, '\n')
    ensures a == b
  {
    JoinNonEmpty(a);
    JoinNonEmpty(b);
    if a != [] {
      LinesOfJoin(a);
      LinesOfJoin(b);
    }
  }

  lemma {:induction false} CollapseHasNoNewline(s: string)
    ensures '\n' !in Collapse(s)
  {
    if s != "" {
      CollapseHasNoNewline(s[1..]);
      assert IsSpace('\n');
    }
  }

  lemma {:induction false} SqueezedOneLine(lines: seq<string>)
    ensures AllOneLine(Squeezed(lines))
  {
    if lines != [] {
      SqueezedOneLine(lines[1..]);
      CollapseHasNoNewline(TrimEnd(TrimStart(lines[0])));
    }
  }

  // Sorted lists with the same elements are the same.
  lemma {:induction false} SortedUnique(a: seq<string>, b: seq<string>)
    requires Sorted(a, Same) && Sorted(b, Same) && multiset(a) == multiset(b)
    ensures a == b
  {
    assert |a| == |multiset(a)| == |multiset(b)| == |b|;
    if a != [] {
      var n := |a| - 1;
      LastIsGreatest(a, b);
      LastIsGreatest(b, a);
      LessTotal(a[n], b[n]);
      FrontsEqual(a[..n], b[..n], a[n], a, b);
      SortedUnique(a[..n], b[..n]);
    }
  }

  lemma {:induction false} FrontsEqual(x: seq<string>, y: seq<string>, z: string, a: seq<string>, b: seq<string>)
    requires a == x + [z] && b == y + [z] && multiset(a) == multiset(b)
    ensures multiset(x) == multiset(y)
  {
    assert multiset(x) == multiset(a) - multiset{z};
    assert multiset(y) == multiset(b) - multiset{z};
  }

  lemma {:induction false} LastIsGreatest(a: seq<string>, b: seq<string>)
    requires Sorted(a, Same) && a != [] && b != [] && multiset(a) == multiset(b)
    ensures !Less(a[|a| - 1], b[|b| - 1])
  {
    assert b[|b| - 1] in multiset(a);
    var i :| 0 <= i < |a| && a[i] == b[|b| - 1];
    if i < |a| - 1 {
      assert !Less(Same(a[|a| - 1]), Same(a[i]));
    } else if Less(a[i], a[i]) {
      LessAsymmetric(a[i], a[i]);
    }
  }

  lemma {:induction false} SortedOneLine(ls: seq<string>)
    requires AllOneLine(ls)
    ensures AllOneLine(StableSort(ls, Same))
  {
    SortMembers(ls, Same);
    var s := StableSort(ls, Same);
    forall i | 0 <= i < |s|
      ensures OneLine(s[i])
    {
      assert s[i] in ls;
    }
  }

  // What normalization keeps of a text: the words of each line that has any, no matter in what order
  // the lines come and how the words are spaced.
  lemma {:induction false} NormalizeEqual(a: string, b: string)
    ensures Normalize(a) == Normalize(b) <==> multiset(Squeezed(Lines(a))) == multiset(Squeezed(Lines(b)))
  {
    var x, y := Squeezed(Lines(a)), Squeezed(Lines(b));
    SqueezedOneLine(Lines(a));
    SqueezedOneLine(Lines(b));
    SortSorts(x, Same);
    SortSorts(y, Same);
    SortedOneLine(x);
    SortedOneLine(y);
    if multiset(x) == multiset(y) {
      SortedUnique(StableSort(x, Same), StableSort(y, Same));
    }
    if Normalize(a) == Normalize(b) {
      JoinInjective(StableSort(x, Same), StableSort(y, Same));
    }
  }
}
