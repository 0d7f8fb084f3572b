/** Python's text primitives the task keys and the activity store lean on: whitespace stripping, decimal
    numbers, splitting at a delimiter. */
module PyText {
  import opened TaskTypes

  /* ------------------------------------------------------------- stripping */

  // `str.isspace` for one character.
  predicate IsSpace(ch: char) {
    var n := ch as int;
    0x09 <= n <= 0x0D || 0x1C <= n <= 0x20 || n == 0x85 || n == 0xA0 || n == 0x1680 || 0x2000 <= n <= 0x200A
    || n == 0x2028 || n == 0x2029 || n == 0x202F || n == 0x205F || n == 0x3000
  }

  /** The characters Python takes for whitespace. */
  lemma SpacesAreListed(ch: char)
    ensures IsSpace(ch) <==>
            ch in {'\t', '\n', '\U{B}', '\U{C}', '\r', '\U{1C}', '\U{1D}', '\U{1E}', '\U{1F}', ' ', '\U{85}', '\U{A0}',
                   '\U{1680}', '\U{2000}', '\U{2001}', '\U{2002}', '\U{2003}', '\U{2004}', '\U{2005}', '\U{2006}', '\U{2007}',
                   '\U{2008}', '\U{2009}', '\U{200A}', '\U{2028}', '\U{2029}', '\U{202F}', '\U{205F}', '\U{3000}'}
  {}

  function StripLeft(s: string): string {
    if s != "" && IsSpace(s[0]) then StripLeft(s[1..]) else s
  }

  function StripRight(s: string): string {
    if s != "" && IsSpace(s[|s| - 1]) then StripRight(s[..|s| - 1]) else s
  }

  // `str.strip()`
  function Strip(s: string): string {
    StripRight(StripLeft(s))
  }

  ghost predicate Stripped(s: string) {
    s == "" || (!IsSpace(s[0]) && !IsSpace(s[|s| - 1]))
  }

  ghost predicate AllSpace(s: string) {
    forall i :: 0 <= i < |s| ==> IsSpace(s[i])
  }

  lemma {:induction false} StripLeftCuts(s: string) returns (before: string)
    ensures s == before + StripLeft(s) && AllSpace(before)
    ensures StripLeft(s) != "" ==> !IsSpace(StripLeft(s)[0])
  {
    before := "";
    if s != "" && IsSpace(s[0]) {
      var more := StripLeftCuts(s[1..]);
      before := [s[0]] + more;
    }
  }

  lemma {:induction false} StripRightAt(s: string) returns (k: nat)
    ensures k <= |s| && StripRight(s) == s[..k] && forall i :: k <= i < |s| ==> IsSpace(s[i])
    ensures k > 0 ==> !IsSpace(s[k - 1])
  {
    k := |s|;
    if s != "" && IsSpace(s[|s| - 1]) {
      k := StripRightAt(s[..|s| - 1]);
      assert s[..|s| - 1][..k] == s[..k];
    } else {
      assert s[..k] == s;
    }
  }

  lemma StripRightCuts(s: string) returns (after: string)
    ensures s == StripRight(s) + after && AllSpace(after)
    ensures StripRight(s) != "" ==> !IsSpace(StripRight(s)[|StripRight(s)| - 1])
  {
    var k := StripRightAt(s);
    after := s[k..];
  }

  /** Stripping removes whitespace at the two ends, all of it and nothing else. */
  lemma StripCutsEnds(s: string) returns (before: string, after: string)
    ensures s == before + Strip(s) + after && AllSpace(before) && AllSpace(after) && Stripped(Strip(s))
  {
    before := StripLeftCuts(s);
    after := StripRightCuts(StripLeft(s));
    var t := Strip(s);
    assert t + after == StripLeft(s);
    assert t != "" ==> t[0] == StripLeft(s)[0];
    assert before + t + after == before + (t + after);
  }

  // Whatever whitespace surrounds a text, stripping gives the text.
  lemma {:induction false} StripExact(before: string, s: string, after: string)
    requires AllSpace(before) && AllSpace(after) && Stripped(s) && s != ""
    ensures Strip(before + s + after) == s
    decreases |before| + |after|
  {
    if before != "" {
      assert (before + s + after)[1..] == before[1..] + s + after;
      StripExact(before[1..], s, after);
    } else {
      assert before + s + after == s + after;
      StripTail(s, after);
    }
  }

  lemma {:induction false} StripTail(s: string, after: string)
    requires AllSpace(after) && Stripped(s) && s != ""
    ensures StripLeft(s + after) == s + after && StripRight(s + after) == s
    decreases |after|
  {
    if after == "" {
      assert s + after == s;
    } else {
      assert (s + after)[..|s + after| - 1] == s + after[..|after| - 1];
      StripTail(s, after[..|after| - 1]);
    }
  }

  lemma StripKeeps(s: string)
    requires Stripped(s)
    ensures Strip(s) == s
  {}

  /* -------------------------------------------------------------- decimals */

  function Digit(d: nat): char
    requires d < 10
  {
    ('0' as int + d) as char
  }

  predicate IsDigit(ch: char) {
    '0' <= ch <= '9'
  }

  // `str(n)` for a natural number.
  function Decimal(n: nat): (s: string)
    ensures s != "" && forall i :: 0 <= i < |s| ==> IsDigit(s[i])
  {
    if n < 10 then [Digit(n)] else Decimal(n / 10) + [Digit(n % 10)]
  }

  // Digits, single underscores allowed between them.
  function Natural(s: string): Option<nat> {
    if s == "" || !IsDigit(s[|s| - 1]) then None
    else
      var d := s[|s| - 1] as int - '0' as int;
      if |s| == 1 then Some(d)
      else
        var front := if s[|s| - 2] == '_' then s[..|s| - 2] else s[..|s| - 1];
        match Natural(front)
        case None => None
        case Some(n) => Some(10 * n + d)
  }

  /** `int(s)`; `None` is its `ValueError`. */
  function PyInt(s: string): Option<int> {
    var t := Strip(s);
    if t != "" && t[0] == '-' then Signed(-1, Natural(t[1..]))
    else if t != "" && t[0] == '+' then Signed(1, Natural(t[1..]))
    else Signed(1, Natural(t))
  }

  function Signed(sign: int, n: Option<nat>): Option<int> {
    if n.None? then None else var v: int := sign * n.value; Some(v)
  }

  lemma {:induction false} NaturalOfDecimal(n: nat)
    ensures Natural(Decimal(n)) == Some(n)
  {
    var s := Decimal(n);
    if n >= 10 {
      NaturalOfDecimal(n / 10);
      assert s[..|s| - 1] == Decimal(n / 10);
      assert IsDigit(s[|s| - 2]);
    }
  }

  /** Reading back a printed number. */
  lemma IntOfDecimal(n: nat)
    ensures PyInt(Decimal(n)) == Some(n)
  {
    StripKeeps(Decimal(n));
    NaturalOfDecimal(n);
  }

  /** Digits, and underscores only singly between two digits. */
  ghost predicate Numeral(s: string) {
    s != "" && forall i: nat :: i < |s| ==> NumeralAt(s, i)
  }

  /** What `int` accepts after a sign, and how one more digit changes its value. */
  lemma {:induction false} NumeralsAreRead(s: string)
    ensures Natural(s).Some? <==> Numeral(s)
  {
    if Numeral(s) { assert NumeralAt(s, |s| - 1); }
    if |s| == 1 && IsDigit(s[0]) { assert NumeralAt(s, 0); }
    if s != "" && IsDigit(s[|s| - 1]) && |s| > 1 {
      var front := if s[|s| - 2] == '_' then s[..|s| - 2] else s[..|s| - 1];
      NumeralsAreRead(front);
      if Numeral(s) { FrontIsNumeral(s, front); }
      if Numeral(front) { MoreIsNumeral(s, front); }
    }
  }

  ghost predicate NumeralAt(s: string, i: nat)
    requires i < |s|
  {
    IsDigit(s[i]) || (s[i] == '_' && 0 < i < |s| - 1 && IsDigit(s[i - 1]) && IsDigit(s[i + 1]))
  }

  lemma FrontIsNumeral(s: string, front: string)
    requires |s| > 1 && Numeral(s) && front == if s[|s| - 2] == '_' then s[..|s| - 2] else s[..|s| - 1]
    ensures Numeral(front)
  {
    assert NumeralAt(s, |s| - 2);
    forall i: nat | i < |front| ensures NumeralAt(front, i) { assert NumeralAt(s, i); }
  }

  lemma MoreIsNumeral(s: string, front: string)
    requires |s| > 1 && IsDigit(s[|s| - 1]) && front == if s[|s| - 2] == '_' then s[..|s| - 2] else s[..|s| - 1]
    requires Numeral(front)
    ensures Numeral(s)
  {
    assert NumeralAt(front, |front| - 1) && IsDigit(front[|front| - 1]);
    forall i: nat | i < |s| ensures NumeralAt(s, i) {
      if i < |front| { assert NumeralAt(front, i); }
    }
  }

  lemma DigitByDigit(s: string, t: string)
    requires Natural(s).Some? && t != "" && IsDigit(t[|t| - 1]) && |s| < |t| && t[..|s|] == s
    requires |t| == |s| + 1 || (|t| == |s| + 2 && t[|s|] == '_')
    ensures Natural(t) == Some(10 * Natural(s).value + (t[|t| - 1] as int - '0' as int))
  {
    assert s != "" && s[|s| - 1] == t[|s| - 1] && IsDigit(s[|s| - 1]);
  }

  /** A sign and whitespace around a number. */
  lemma SignedIsRead(before: string, n: nat, after: string)
    requires AllSpace(before) && AllSpace(after)
    ensures PyInt(before + ("-" + Decimal(n)) + after).Some? && PyInt(before + ("-" + Decimal(n)) + after).value + n == 0
    ensures PyInt(before + ("+" + Decimal(n)) + after) == PyInt(before + Decimal(n) + after) == Some(n)
  {
    var minus, plus := "-" + Decimal(n), "+" + Decimal(n);
    StripExact(before, minus, after);
    StripExact(before, plus, after);
    StripExact(before, Decimal(n), after);
    NaturalOfDecimal(n);
    assert minus[1..] == Decimal(n) && plus[1..] == Decimal(n);
  }

  /* -------------------------------------------------------------- splitting */

  // The position of the first `ch`, or the length.
  function Find(s: string, ch: char): (i: nat)
    ensures i <= |s| && (i < |s| ==> s[i] == ch) && forall j :: 0 <= j < i ==> s[j] != ch
  {
    if s == "" || s[0] == ch then 0 else 1 + Find(s[1..], ch)
  }

  // `s.split(ch, most)`
  function Split(s: string, ch: char, most: nat): (parts: seq<string>)
    ensures parts != []
    decreases most
  {
    var i := Find(s, ch);
    if most == 0 || i == |s| then [s] else [s[..i]] + Split(s[i + 1..], ch, most - 1)
  }

  lemma FindAfter(a: string, b: string, ch: char)
    requires ch !in a
    ensures Find(a + b, ch) == |a| + Find(b, ch)
  {
    if a != "" {
      assert (a + b)[1..] == a[1..] + b;
      FindAfter(a[1..], b, ch);
    } else {
      assert a + b == b;
    }
  }

  lemma FindIn(s: string, ch: char)
    ensures Find(s, ch) < |s| <==> ch in s
  {}

  // How often `ch` occurs.
  function Count(s: string, ch: char): nat {
    if s == "" then 0 else Count(s[1..], ch) + if s[0] == ch then 1 else 0
  }

  lemma {:induction false} CountAfter(a: string, s: string, ch: char)
    requires ch !in a
    ensures Count(a + s, ch) == Count(s, ch)
  {
    if a == "" {
      assert a + s == s;
    } else {
      assert (a + s)[1..] == a[1..] + s;
      CountAfter(a[1..], s, ch);
    }
  }

  lemma CountCut(s: string, ch: char)
    ensures var i := Find(s, ch); Count(s, ch) == if i < |s| then 1 + Count(s[i + 1..], ch) else 0
  {
    var i := Find(s, ch);
    assert s == s[..i] + s[i..];
    CountAfter(s[..i], s[i..], ch);
    if i < |s| { assert s[i..][1..] == s[i + 1..]; }
  }

  /** There is a piece more than there are delimiters, up to `most` of them. */
  lemma {:induction false} PiecesAreCounted(s: string, ch: char, most: nat)
    ensures |Split(s, ch, most)| == 1 + if Count(s, ch) < most then Count(s, ch) else most
    decreases most
  {
    var i := Find(s, ch);
    CountCut(s, ch);
    if most > 0 && i < |s| {
      var rest := Split(s[i + 1..], ch, most - 1);
      PiecesAreCounted(s[i + 1..], ch, most - 1);
      assert Split(s, ch, most) == [s[..i]] + rest;
    }
  }

  /** A piece without the delimiter is split off whole. */
  lemma SplitPiece(a: string, b: string, ch: char, most: nat)
    requires ch !in a && most > 0
    ensures Split(a + [ch] + b, ch, most) == [a] + Split(b, ch, most - 1)
  {
    assert a + [ch] + b == a + ([ch] + b);
    FindAfter(a, [ch] + b, ch);
    assert (a + [ch] + b)[..|a|] == a && (a + [ch] + b)[|a| + 1..] == b;
  }

  lemma SplitLast(a: string, ch: char, most: nat)
    requires ch !in a
    ensures Split(a, ch, most) == [a]
  {}

  // Every piece but the last is free of the delimiter.
  lemma {:induction false} PiecesAreClean(s: string, ch: char, most: nat, k: nat)
    requires k < |Split(s, ch, most)| - 1
    ensures ch !in Split(s, ch, most)[k]
    decreases most
  {
    var i := Find(s, ch);
    if k > 0 { PiecesAreClean(s[i + 1..], ch, most - 1, k - 1); }
  }
}
