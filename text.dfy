/**
  The string helpers both controller variants rely on: Python's `str.strip`,
  the `split('\n')` / `'\n'.join` pair the master-list text box goes through,
  the strip-and-drop-empty cleaning of that text, the decimal parse behind the
  Tk entry validators, and the COM-port name extraction.
*/
module Text {
  import opened Wrappers

  // ---------------------------------------------------------------------------
  // Whitespace and strip
  // ---------------------------------------------------------------------------

  /** The characters Python's `str.isspace` accepts, hence the ones `strip` removes. */
  predicate IsSpace(c: char) {
    || c == ' '
    || ('\t' <= c <= '\r')
    || ('\U{1c}' <= c <= '\U{1f}')
    || c == '\U{85}' || c == '\U{a0}' || c == '\U{1680}'
    || ('\U{2000}' <= c <= '\U{200a}')
    || c == '\U{2028}' || c == '\U{2029}' || c == '\U{202f}' || c == '\U{205f}' || c == '\U{3000}'
  }

  /** `s.lstrip()`: the suffix of `s` left after its leading whitespace. */
  function StripLeft(s: string): (r: string)
    ensures |r| <= |s|
    decreases |s|
  {
    if s != [] && IsSpace(s[0]) then StripLeft(s[1..]) else s
  }

  /** `lstrip` removes exactly the leading run of whitespace. */
  lemma {:induction false} StripLeftSpec(s: string)
    ensures var r := StripLeft(s);
      && r == s[|s| - |r|..]
      && (forall k :: 0 <= k < |s| - |r| ==> IsSpace(s[k]))
      && (r != [] ==> !IsSpace(r[0]))
    decreases |s|
  {
    if s != [] && IsSpace(s[0]) {
      StripLeftSpec(s[1..]);
    }
  }

  /** `s.rstrip()`: the prefix of `s` left after its trailing whitespace. */
  function StripRight(s: string): (r: string)
    ensures |r| <= |s|
    decreases |s|
  {
    if s != [] && IsSpace(s[|s| - 1]) then StripRight(s[..|s| - 1]) else s
  }

  /** `rstrip` removes exactly the trailing run of whitespace. */
  lemma {:induction false} StripRightSpec(s: string)
    ensures var r := StripRight(s);
      && r == s[..|r|]
      && (forall k :: |r| <= k < |s| ==> IsSpace(s[k]))
      && (r != [] ==> !IsSpace(r[|r| - 1]))
    decreases |s|
  {
    if s != [] && IsSpace(s[|s| - 1]) {
      StripRightSpec(s[..|s| - 1]);
    }
  }

  /** Every character is whitespace (vacuously so for ""). */
  predicate Blank(s: string) {
    forall k :: 0 <= k < |s| ==> IsSpace(s[k])
  }

  /** `s.strip()`: the slice of `s` between its leading and trailing whitespace. */
  function Strip(s: string): (r: string)
    ensures |r| <= |s|
  {
    StripRight(StripLeft(s))
  }

  /** `strip` yields "" exactly for all-blank input, and otherwise a slice of `s` without blank ends. */
  lemma StripSpec(s: string)
    ensures var r := Strip(s);
      && (r == [] <==> Blank(s))
      && (r != [] ==> !IsSpace(r[0]) && !IsSpace(r[|r| - 1]))
      && (NoNewline(s) ==> NoNewline(r))
  {
    var l := StripLeft(s);
    var r := StripRight(l);
    StripLeftSpec(s);
    StripRightSpec(l);
    assert r == s[|s| - |l|..|s| - |l| + |r|];
  }

  /** A master-list entry: non-empty and already stripped. */
  predicate IsEntry(e: string) {
    e != [] && !IsSpace(e[0]) && !IsSpace(e[|e| - 1])
  }

  predicate NoNewline(e: string) {
    '\n' !in e
  }

  /** Stripping leaves a string unchanged exactly when it is empty or an entry. */
  lemma StripFixpoint(s: string)
    ensures Strip(s) == s <==> (s == [] || IsEntry(s))
  {
    StripSpec(s);
  }

  /** Stripping twice is stripping once. */
  lemma StripIdempotent(s: string)
    ensures Strip(Strip(s)) == Strip(s)
  {
    StripSpec(s);
    StripFixpoint(Strip(s));
  }

  /** Leading blanks do not matter to `strip`. */
  lemma StripConsSpace(c: char, x: string)
    requires IsSpace(c)
    ensures Strip([c] + x) == Strip(x)
  {
    assert ([c] + x)[1..] == x;
  }

  lemma {:induction false} StripLeftSnoc(x: string, c: char)
    requires !Blank(x)
    ensures StripLeft(x + [c]) == StripLeft(x) + [c]
    decreases |x|
  {
    if IsSpace(x[0]) {
      assert (x + [c])[1..] == x[1..] + [c];
      assert !Blank(x[1..]) by {
        var j :| 0 <= j < |x| && !IsSpace(x[j]);
        assert j != 0 && x[1..][j - 1] == x[j];
      }
      StripLeftSnoc(x[1..], c);
    }
  }

  /** Trailing blanks do not matter to `strip`. */
  lemma StripSnocSpace(x: string, c: char)
    requires IsSpace(c)
    ensures Strip(x + [c]) == Strip(x)
  {
    if Blank(x) {
      assert Blank(x + [c]);
      StripSpec(x);
      StripSpec(x + [c]);
    } else {
      StripLeftSnoc(x, c);
      var y := StripLeft(x);
      assert (y + [c])[..|y|] == y;
      assert StripRight(y + [c]) == StripRight(y);
    }
  }

  // ---------------------------------------------------------------------------
  // The master-list text: split on '\n', join with '\n', strip-and-drop-empty
  // ---------------------------------------------------------------------------

  /** Python's `s.split('\n')`: always at least one piece. */
  function Split(s: string): (lines: seq<string>)
    ensures |lines| >= 1
    decreases |s|
  {
    if s == [] then [""]
    else
      var rest := Split(s[1..]);
      if s[0] == '\n' then [""] + rest
      else [[s[0]] + rest[0]] + rest[1..]
  }

  /** No piece of the split text holds a newline. */
  lemma {:induction false} SplitNoNewlines(s: string)
    ensures forall i :: 0 <= i < |Split(s)| ==> NoNewline(Split(s)[i])
    decreases |s|
  {
    if s != [] {
      SplitNoNewlines(s[1..]);
      var rest := Split(s[1..]);
      if s[0] != '\n' {
        assert NoNewline(rest[0]);
        assert NoNewline([s[0]] + rest[0]);
      }
    }
  }

  /** Python's `'\n'.join(lines)`. */
  function Join(lines: seq<string>): (text: string)
    decreases |lines|
  {
    if lines == [] then ""
    else if |lines| == 1 then lines[0]
    else lines[0] + "\n" + Join(lines[1..])
  }

  /** `'\n'.join(s.split('\n')) == s` for every string. */
  lemma {:induction false} JoinSplit(s: string)
    ensures Join(Split(s)) == s
    decreases |s|
  {
    if s != [] {
      var rest := Split(s[1..]);
      JoinSplit(s[1..]);
      if s[0] == '\n' {
        assert Join([""] + rest) == "" + "\n" + Join(rest);
      } else {
        var first := [s[0]] + rest[0];
        if |rest| == 1 {
          assert Split(s) == [first];
        } else {
          assert Join(rest) == rest[0] + "\n" + Join(rest[1..]);
          assert Join([first] + rest[1..]) == first + "\n" + Join(rest[1..]);
        }
      }
    }
  }

  lemma {:induction false} SplitNoNewline(x: string)
    requires NoNewline(x)
    ensures Split(x) == [x]
    decreases |x|
  {
    if x != [] {
      assert x[0] in x;
      assert x[1..] == x[1..] && forall k :: 0 <= k < |x[1..]| ==> x[1..][k] == x[k + 1];
      SplitNoNewline(x[1..]);
      assert [x[0]] + x[1..] == x;
    }
  }

  lemma {:induction false} SplitLineBreak(x: string, y: string)
    requires NoNewline(x)
    ensures Split(x + "\n" + y) == [x] + Split(y)
    decreases |x|
  {
    if x == [] {
      assert (x + "\n" + y)[1..] == y;
    } else {
      assert (x + "\n" + y)[1..] == x[1..] + "\n" + y;
      assert x[0] in x;
      assert forall k :: 0 <= k < |x[1..]| ==> x[1..][k] == x[k + 1];
      SplitLineBreak(x[1..], y);
      assert [x[0]] + x[1..] == x;
    }
  }

  /** Splitting the joined text gives back the lines, when none holds a newline. */
  lemma {:induction false} SplitJoin(lines: seq<string>)
    requires lines != []
    requires forall i :: 0 <= i < |lines| ==> NoNewline(lines[i])
    ensures Split(Join(lines)) == lines
    decreases |lines|
  {
    if |lines| == 1 {
      SplitNoNewline(lines[0]);
    } else {
      SplitLineBreak(lines[0], Join(lines[1..]));
      SplitJoin(lines[1..]);
      assert [lines[0]] + lines[1..] == lines;
    }
  }

  /** A newline at the end of the text opens an empty last line. */
  lemma {:induction false} SplitSnocNewline(s: string)
    ensures Split(s + "\n") == Split(s) + [""]
    decreases |s|
  {
    if s == [] {
      assert s + "\n" == "\n";
    } else {
      assert (s + "\n")[1..] == s[1..] + "\n";
      SplitSnocNewline(s[1..]);
      var q := Split(s[1..]);
      if s[0] != '\n' {
        assert (q + [""])[1..] == q[1..] + [""];
      }
    }
  }

  /** Any other character at the end of the text extends the last line. */
  function ExtendLast(p: seq<string>, c: char): (r: seq<string>)
    requires p != []
  {
    p[..|p| - 1] + [p[|p| - 1] + [c]]
  }

  lemma ExtendLastPrepend(x: string, q: seq<string>, c: char)
    requires q != []
    ensures ExtendLast([x] + q, c) == [x] + ExtendLast(q, c)
  {
    assert ([x] + q)[..|q|] == [x] + q[..|q| - 1];
  }

  lemma ExtendLastHead(a: char, q: seq<string>, c: char)
    requires q != []
    ensures var e := ExtendLast(q, c);
      ExtendLast([[a] + q[0]] + q[1..], c) == [[a] + e[0]] + e[1..]
  {
    var e := ExtendLast(q, c);
    if |q| == 1 {
      assert [a] + (q[0] + [c]) == ([a] + q[0]) + [c];
    } else {
      ExtendLastPrepend([a] + q[0], q[1..], c);
      ExtendLastPrepend(q[0], q[1..], c);
      assert [q[0]] + q[1..] == q;
    }
  }

  lemma {:induction false} SplitSnocChar(s: string, c: char)
    requires c != '\n'
    ensures Split(s + [c]) == ExtendLast(Split(s), c)
    decreases |s|
  {
    if s == [] {
      assert s + [c] == [c];
      assert [c][1..] == [];
      assert Split([]) == [""];
      assert Split([c]) == [[c] + ""];
      assert [c] + "" == [c] == "" + [c];
      assert ExtendLast([""], c) == [] + ["" + [c]];
    } else {
      assert (s + [c])[1..] == s[1..] + [c];
      assert (s + [c])[0] == s[0];
      SplitSnocChar(s[1..], c);
      var q := Split(s[1..]);
      if s[0] == '\n' {
        ExtendLastPrepend("", q, c);
      } else {
        ExtendLastHead(s[0], q, c);
      }
    }
  }

  /** The strip-and-drop-empty cleaning of text lines, order kept. */
  function CleanLines(lines: seq<string>): (r: seq<string>)
    ensures |r| <= |lines|
    decreases |lines|
  {
    if lines == [] then []
    else
      var c := Strip(lines[0]);
      (if c == [] then [] else [c]) + CleanLines(lines[1..])
  }

  /** Every cleaned entry is a non-empty stripped string. */
  lemma {:induction false} CleanLinesEntries(lines: seq<string>)
    ensures forall i :: 0 <= i < |CleanLines(lines)| ==> IsEntry(CleanLines(lines)[i])
    decreases |lines|
  {
    if lines != [] {
      var tail := lines[1..];
      CleanLinesEntries(tail);
      StripSpec(lines[0]);
      var c := Strip(lines[0]);
      var head := if c == [] then [] else [c];
      var r, rest := CleanLines(lines), CleanLines(tail);
      assert r == head + rest;
      forall i | 0 <= i < |r| ensures IsEntry(r[i]) {
        if i >= |head| {
          assert r[i] == rest[i - |head|];
          assert IsEntry(rest[i - |head|]);
        } else {
          assert r[i] == c;
          assert IsEntry(c);
        }
      }
    }
  }

  /** Cleaning lines free of line breaks yields entries free of line breaks. */
  lemma {:induction false} CleanLinesNoNewline(lines: seq<string>)
    requires forall i :: 0 <= i < |lines| ==> NoNewline(lines[i])
    ensures forall i :: 0 <= i < |CleanLines(lines)| ==> NoNewline(CleanLines(lines)[i])
    decreases |lines|
  {
    if lines != [] {
      var tail := lines[1..];
      assert forall i :: 0 <= i < |tail| ==> tail[i] == lines[i + 1];
      CleanLinesNoNewline(tail);
      StripSpec(lines[0]);
      var c := Strip(lines[0]);
      var head := if c == [] then [] else [c];
      var r, rest := CleanLines(lines), CleanLines(tail);
      assert r == head + rest;
      forall i | 0 <= i < |r| ensures NoNewline(r[i]) {
        if i >= |head| {
          assert r[i] == rest[i - |head|];
          assert NoNewline(rest[i - |head|]);
        } else {
          assert r[i] == c;
          assert NoNewline(lines[0]);
        }
      }
    }
  }

  lemma {:induction false} CleanLinesAppend(a: seq<string>, b: seq<string>)
    ensures CleanLines(a + b) == CleanLines(a) + CleanLines(b)
    decreases |a|
  {
    if a != [] {
      assert (a + b)[1..] == a[1..] + b;
      CleanLinesAppend(a[1..], b);
    } else {
      assert a + b == b;
    }
  }

  /** A list that cleaning leaves unchanged starts with an entry and continues with such a list. */
  lemma CleanLinesCons(lines: seq<string>)
    requires lines != [] && CleanLines(lines) == lines
    ensures Strip(lines[0]) == lines[0] && IsEntry(lines[0])
    ensures CleanLines(lines[1..]) == lines[1..]
  {
    var c := Strip(lines[0]);
    var rest := CleanLines(lines[1..]);
    assert lines == (if c == [] then [] else [c]) + rest;
    StripFixpoint(lines[0]);
    assert lines[1..] == rest;
  }

  /** Cleaning twice is cleaning once. */
  lemma CleanLinesIdempotent(lines: seq<string>)
    ensures CleanLines(CleanLines(lines)) == CleanLines(lines)
  {
    CleanLinesEntries(lines);
    CleanLinesOfEntries(CleanLines(lines));
  }

  /** Entries already clean pass through unchanged. */
  lemma {:induction false} CleanLinesOfEntries(lines: seq<string>)
    requires forall i :: 0 <= i < |lines| ==> IsEntry(lines[i])
    ensures CleanLines(lines) == lines
    decreases |lines|
  {
    if lines != [] {
      StripFixpoint(lines[0]);
      CleanLinesOfEntries(lines[1..]);
    }
  }

  /**
    Showing a list of entries one per line and cleaning that text again yields
    the list itself: the text box and the master list stay in step.
  */
  lemma DisplayRoundTrip(list: seq<string>)
    requires forall i :: 0 <= i < |list| ==> IsEntry(list[i]) && NoNewline(list[i])
    ensures CleanLines(Split(Join(list))) == list
  {
    if list == [] {
      assert Split("") == [""];
      assert Strip("") == "";
    } else {
      SplitJoin(list);
      CleanLinesOfEntries(list);
    }
  }

  lemma {:induction false} CleanLinesStripLeft(s: string)
    ensures CleanLines(Split(StripLeft(s))) == CleanLines(Split(s))
    decreases |s|
  {
    if s != [] && IsSpace(s[0]) {
      CleanLinesStripLeft(s[1..]);
      var rest := Split(s[1..]);
      if s[0] == '\n' {
        assert Split(s) == [""] + rest;
        assert Strip("") == "";
      } else {
        StripConsSpace(s[0], rest[0]);
        assert Split(s) == [[s[0]] + rest[0]] + rest[1..];
        assert CleanLines(rest) == (if Strip(rest[0]) == [] then [] else [Strip(rest[0])]) + CleanLines(rest[1..]);
      }
    }
  }

  lemma CleanLinesSingle(x: string)
    ensures CleanLines([x]) == if Strip(x) == [] then [] else [Strip(x)]
  {
    assert [x][1..] == [];
  }

  /** A blank character at the end of the text changes no cleaned entry. */
  lemma CleanLinesSnocSpace(init: string, c: char)
    requires IsSpace(c)
    ensures CleanLines(Split(init + [c])) == CleanLines(Split(init))
  {
    var p := Split(init);
    if c == '\n' {
      SplitSnocNewline(init);
      CleanLinesAppend(p, [""]);
      CleanLinesSingle("");
    } else {
      SplitSnocChar(init, c);
      var front, last := p[..|p| - 1], p[|p| - 1];
      assert p == front + [last];
      CleanLinesAppend(front, [last]);
      CleanLinesAppend(front, [last + [c]]);
      StripSnocSpace(last, c);
      CleanLinesSingle(last);
      CleanLinesSingle(last + [c]);
    }
  }

  lemma {:induction false} CleanLinesStripRight(s: string)
    ensures CleanLines(Split(StripRight(s))) == CleanLines(Split(s))
    decreases |s|
  {
    if s != [] && IsSpace(s[|s| - 1]) {
      var init := s[..|s| - 1];
      assert s == init + [s[|s| - 1]];
      CleanLinesStripRight(init);
      CleanLinesSnocSpace(init, s[|s| - 1]);
    }
  }

  /**
    Cleaning ignores the outer whitespace `strip` removes from the whole text
    (including the newline Tk appends at its end).
  */
  lemma CleanLinesIgnoreOuterStrip(text: string)
    ensures CleanLines(Split(Strip(text + "\n"))) == CleanLines(Split(text))
  {
    StripSnocSpace(text, '\n');
    CleanLinesStripRight(StripLeft(text));
    CleanLinesStripLeft(text);
  }

  // ---------------------------------------------------------------------------
  // Swapping two adjacent lines
  // ---------------------------------------------------------------------------

  /** Exchange the lines at `i` and `i + 1`, as the move-up/move-down buttons do. */
  function SwapAdjacent<T>(s: seq<T>, i: nat): (r: seq<T>)
    requires i + 1 < |s|
    ensures |r| == |s|
  {
    s[..i] + [s[i + 1], s[i]] + s[i + 2..]
  }

  /** The swap exchanges exactly the two chosen elements and so permutes the sequence. */
  lemma SwapAdjacentSpec<T>(s: seq<T>, i: nat)
    requires i + 1 < |s|
    ensures var r := SwapAdjacent(s, i);
      && r[i] == s[i + 1] && r[i + 1] == s[i]
      && (forall k :: 0 <= k < |s| && k != i && k != i + 1 ==> r[k] == s[k])
      && multiset(r) == multiset(s)
  {
    assert s == s[..i] + [s[i], s[i + 1]] + s[i + 2..];
    assert SwapAdjacent(s, i) == s[i := s[i + 1]][i + 1 := s[i]];
  }

  /** Swapping the same pair twice restores the lines: move up, then move down. */
  lemma SwapAdjacentInvolution<T>(s: seq<T>, i: nat)
    requires i + 1 < |s|
    ensures SwapAdjacent(SwapAdjacent(s, i), i) == s
  {
  }

  lemma CleanLinesAround(pre: seq<string>, mid: seq<string>, post: seq<string>)
    ensures CleanLines(pre + mid + post) == CleanLines(pre) + CleanLines(mid) + CleanLines(post)
  {
    CleanLinesAppend(pre + mid, post);
    CleanLinesAppend(pre, mid);
  }

  lemma CleanLinesPair(a: string, b: string)
    ensures CleanLines([a, b]) == CleanLines([a]) + CleanLines([b])
  {
    assert [a, b] == [a] + [b];
    CleanLinesAppend([a], [b]);
  }

  lemma SwapShape<T>(s: seq<T>, i: nat)
    requires i + 1 < |s|
    ensures s == s[..i] + [s[i], s[i + 1]] + s[i + 2..]
    ensures SwapAdjacent(s, i) == s[..i] + [s[i + 1], s[i]] + s[i + 2..]
  {
    assert s == s[..i] + [s[i], s[i + 1]] + s[i + 2..];
  }

  /** The cleaned entries of the lines around a swapped pair. */
  lemma CleanLinesSwapSplit(lines: seq<string>, i: nat)
    requires i + 1 < |lines|
    ensures var ca, cb := CleanLines([lines[i]]), CleanLines([lines[i + 1]]);
      var cpre, cpost := CleanLines(lines[..i]), CleanLines(lines[i + 2..]);
      && CleanLines(lines) == cpre + (ca + cb) + cpost
      && CleanLines(SwapAdjacent(lines, i)) == cpre + (cb + ca) + cpost
  {
    var a, b := lines[i], lines[i + 1];
    var pre, post := lines[..i], lines[i + 2..];
    SwapShape(lines, i);
    CleanLinesAround(pre, [a, b], post);
    CleanLinesAround(pre, [b, a], post);
    CleanLinesPair(a, b);
    CleanLinesPair(b, a);
  }

  /** Swapping two text lines keeps the multiset of cleaned entries. */
  lemma CleanLinesSwapMultiset(lines: seq<string>, i: nat)
    requires i + 1 < |lines|
    ensures multiset(CleanLines(SwapAdjacent(lines, i))) == multiset(CleanLines(lines))
  {
    CleanLinesSwapSplit(lines, i);
  }

  /** When both swapped lines hold an entry, the cleaned list is swapped at the matching position. */
  lemma CleanLinesSwapEntries(lines: seq<string>, i: nat)
    requires i + 1 < |lines|
    requires Strip(lines[i]) != [] && Strip(lines[i + 1]) != []
    ensures var j := |CleanLines(lines[..i])|;
      j + 1 < |CleanLines(lines)| &&
      CleanLines(SwapAdjacent(lines, i)) == SwapAdjacent(CleanLines(lines), j)
  {
    CleanLinesSwapSplit(lines, i);
    CleanLinesSingle(lines[i]);
    CleanLinesSingle(lines[i + 1]);
  }

  /** Text with two of its lines swapped splits back into exactly those swapped lines. */
  lemma SwapLinesRoundTrip(text: string, i: nat)
    requires i + 1 < |Split(text)|
    ensures Split(Join(SwapAdjacent(Split(text), i))) == SwapAdjacent(Split(text), i)
  {
    var lines := Split(text);
    var swapped := SwapAdjacent(lines, i);
    SplitNoNewlines(text);
    SwapAdjacentSpec(lines, i);
    forall k | 0 <= k < |swapped| ensures NoNewline(swapped[k]) {
      assert swapped[k] == lines[if k == i then i + 1 else if k == i + 1 then i else k];
    }
    SplitJoin(swapped);
  }

  // ---------------------------------------------------------------------------
  // Decimal numbers and the Tk entry validators
  // ---------------------------------------------------------------------------

  predicate IsDigit(c: char) {
    '0' <= c <= '9'
  }

  predicate AllDigits(s: string) {
    forall k :: 0 <= k < |s| ==> IsDigit(s[k])
  }

  function DigitsValue(s: string): (n: nat)
    requires AllDigits(s)
    decreases |s|
  {
    if s == [] then 0 else 10 * DigitsValue(s[..|s| - 1]) + (s[|s| - 1] as int - '0' as int)
  }

  /** `int(s)` for a string of plain decimal digits; `None` where `int` raises `ValueError`. */
  function ParseDecimal(s: string): (r: Option<nat>)
    ensures r.Some? <==> s != [] && AllDigits(s)
  {
    if s != [] && AllDigits(s) then Some(DigitsValue(s)) else None
  }

  function DigitChar(d: nat): (c: char)
    requires d < 10
    ensures IsDigit(c) && c as int - '0' as int == d
  {
    ('0' as int + d) as char
  }

  /** `str(n)`: the canonical decimal spelling of `n`. */
  function Decimal(n: nat): (s: string)
    ensures s != [] && AllDigits(s)
    decreases n
  {
    if n < 10 then [DigitChar(n)] else Decimal(n / 10) + [DigitChar(n % 10)]
  }

  /** `int(str(n)) == n`. */
  lemma {:induction false} ParseDecimalRoundTrip(n: nat)
    ensures ParseDecimal(Decimal(n)) == Some(n)
    decreases n
  {
    var s := Decimal(n);
    if n < 10 {
      assert s[..0] == [];
      assert DigitsValue(s) == 10 * DigitsValue([]) + n;
    } else {
      ParseDecimalRoundTrip(n / 10);
      assert s[..|s| - 1] == Decimal(n / 10);
      assert DigitsValue(s) == 10 * (n / 10) + n % 10;
    }
  }

  /** `validate_length_input`: the barcode-length entry accepts "" or a number in 1..100. */
  function ValidateLengthInput(value: string): (ok: bool)
    ensures value == "" ==> ok
    ensures !AllDigits(value) ==> !ok
  {
    value == "" ||
    match ParseDecimal(value)
    case None => false
    case Some(n) => 0 < n <= 100
  }

  /** `validate_switch_input`: the switch entry accepts "" or a number in 1..2. */
  function ValidateSwitchInput(value: string): (ok: bool)
    ensures value == "" ==> ok
    ensures !AllDigits(value) ==> !ok
  {
    value == "" ||
    match ParseDecimal(value)
    case None => false
    case Some(n) => 0 < n <= 2
  }

  /** Leading zeros do not change the number: `int("014") == int("14")`. */
  lemma {:induction false} ParseDecimalLeadingZero(s: string)
    requires s != [] && AllDigits(s)
    ensures ParseDecimal(['0'] + s) == ParseDecimal(s)
    decreases |s|
  {
    var z := ['0'] + s;
    assert z[..|z| - 1] == ['0'] + s[..|s| - 1];
    if |s| == 1 {
      assert DigitsValue(['0']) == 10 * DigitsValue([]) + 0 by { assert ['0'][..0] == []; }
    } else {
      ParseDecimalLeadingZero(s[..|s| - 1]);
    }
  }

  /** Any text that parses, leading zeros included, is accepted by the length entry exactly when its number lies in 1..100. */
  lemma LengthInputOnText(value: string)
    requires ParseDecimal(value).Some?
    ensures ValidateLengthInput(value) <==> 1 <= ParseDecimal(value).value <= 100
  {
  }

  /** Any text that parses, leading zeros included, is accepted by the switch entry exactly when its number is 1 or 2. */
  lemma SwitchInputOnText(value: string)
    requires ParseDecimal(value).Some?
    ensures ValidateSwitchInput(value) <==> ParseDecimal(value).value == 1 || ParseDecimal(value).value == 2
  {
  }

  lemma LengthInputOnNumbers(n: nat)
    ensures ValidateLengthInput(Decimal(n)) <==> 1 <= n <= 100
  {
    ParseDecimalRoundTrip(n);
    LengthInputOnText(Decimal(n));
  }

  lemma SwitchInputOnNumbers(n: nat)
    ensures ValidateSwitchInput(Decimal(n)) <==> n == 1 || n == 2
  {
    ParseDecimalRoundTrip(n);
    SwitchInputOnText(Decimal(n));
  }

  // ---------------------------------------------------------------------------
  // COM-port names
  // ---------------------------------------------------------------------------

  /** The port list shows each port as `device + " - " + description`. */
  const Separator: string := " - "

  predicate SeparatorAt(s: string, i: nat) {
    i + 3 <= |s| && s[i..i + 3] == Separator
  }

  /** The first position at or after `from` where the separator starts. */
  function FindSeparator(s: string, from: nat): (r: Option<nat>)
    ensures r.Some? ==> from <= r.value && SeparatorAt(s, r.value)
    ensures r.Some? ==> forall k :: from <= k < r.value ==> !SeparatorAt(s, k)
    ensures r.None? ==> forall k :: from <= k ==> !SeparatorAt(s, k)
    decreases |s| - from
  {
    if from + 3 > |s| then None
    else if SeparatorAt(s, from) then Some(from)
    else FindSeparator(s, from + 1)
  }

  /** `extract_port_name`: `s.split(' - ')[0]`, the text before the first separator. */
  function ExtractPortName(s: string): (r: string)
    ensures r <= s
    ensures forall k :: 0 <= k < |r| ==> !SeparatorAt(s, k)
    ensures r == s || SeparatorAt(s, |r|)
  {
    match FindSeparator(s, 0)
    case None => s
    case Some(i) => s[..i]
  }

  /** The search from `from` stops at the first separator `at`, skipping every earlier position. */
  lemma {:induction false} FindSeparatorFirst(s: string, from: nat, at: nat)
    requires from <= at && SeparatorAt(s, at)
    requires forall k :: from <= k < at ==> !SeparatorAt(s, k)
    ensures FindSeparator(s, from) == Some(at)
    decreases at - from
  {
    if from < at {
      FindSeparatorFirst(s, from + 1, at);
    }
  }

  /**
    A device name the separator cannot hide in or straddle: it holds no " - "
    and does not end in " -" (which, followed by the separator, reads " - ").
  */
  predicate PlainDevice(device: string) {
    && (forall k :: 0 <= k < |device| ==> !SeparatorAt(device, k))
    && !(|device| >= 2 && device[|device| - 2..] == " -")
  }

  /** The port name is recovered from the displayed `device - description` entry. */
  lemma PortNameRoundTrip(device: string, description: string)
    requires PlainDevice(device)
    ensures ExtractPortName(device + Separator + description) == device
  {
    var s := device + Separator + description;
    var n := |device|;
    assert s[..n] == device;
    assert SeparatorAt(s, n) by {
      assert s[n..n + 3] == Separator;
    }
    forall k | 0 <= k < n ensures !SeparatorAt(s, k) {
      PortNameNoEarlySeparator(device, description, k);
    }
    FindSeparatorFirst(s, 0, n);
  }

  lemma PortNameNoEarlySeparator(device: string, description: string, k: nat)
    requires PlainDevice(device) && k < |device|
    ensures !SeparatorAt(device + Separator + description, k)
  {
    var s := device + Separator + description;
    var n := |device|;
    if k + 3 <= n {
      assert s[k..k + 3] == device[k..k + 3];
      assert !SeparatorAt(device, k);
    } else if k == n - 1 {
      assert s[k..k + 3][1] == s[k + 1] == ' ';
    } else {
      assert s[k..k + 3][..2] == device[n - 2..];
      assert Separator[..2] == " -";
    }
  }

  /** Without the tail condition the round trip fails: the device "COM1 -" is cut short. */
  lemma PortNameTailMatters()
    ensures ExtractPortName("COM1 -" + Separator + "USB") == "COM1"
  {
    var s := "COM1 -" + Separator + "USB";
    assert SeparatorAt(s, 4) by { assert s[4..7] == " - "; }
    assert !SeparatorAt(s, 0) by { assert s[0] == 'C'; }
    assert !SeparatorAt(s, 1) by { assert s[1] == 'O'; }
    assert !SeparatorAt(s, 2) by { assert s[2] == 'M'; }
    assert !SeparatorAt(s, 3) by { assert s[3] == '1'; }
    FindSeparatorFirst(s, 0, 4);
    assert s[..4] == "COM1";
  }
}
