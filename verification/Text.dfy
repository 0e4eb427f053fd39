/** The few operations of Python's `str` and `int` that the modelled code relies on. */
module Text {
  import opened Wrappers

  predicate IsDigit(c: char) { '0' <= c <= '9' }

  function DigitValue(c: char): nat
    requires IsDigit(c)
  {
    (c as int) - ('0' as int)
  }

  function Digit(d: nat): (c: char)
    requires d < 10
    ensures IsDigit(c) && DigitValue(c) == d
  {
    (('0' as int) + d) as char
  }

  /** `str(n)` for a natural number. */
  function Decimal(n: nat): (s: string)
    ensures s != [] && forall c <- s :: IsDigit(c)
  {
    if n < 10 then [Digit(n)] else Decimal(n / 10) + [Digit(n % 10)]
  }

  /** Digits with single underscores between them, as `int` accepts. */
  function DigitsValue(s: string): Option<nat> {
    if s == [] || !IsDigit(s[|s| - 1]) then None
    else
      var d := DigitValue(s[|s| - 1]);
      if |s| == 1 then Some(d)
      else
        var front := s[..|s| - 1];
        var digits := if front[|front| - 1] == '_' then front[..|front| - 1] else front;
        match DigitsValue(digits)
        case None => None
        case Some(v) => Some(10 * v + d)
  }

  /** `int(s)` on ASCII text; None where Python raises ValueError. */
  function ParseInt(s: string): Option<int> {
    if s != [] && s[0] == '-' then
      match DigitsValue(s[1..])
      case None => None
      case Some(v) =>
        var negated: int := 0 - v;
        Some(negated)
    else if s != [] && s[0] == '+' then DigitsValue(s[1..])
    else DigitsValue(s)
  }

  lemma {:induction false} DigitsOfDecimal(n: nat)
    ensures DigitsValue(Decimal(n)) == Some(n)
  {
    if n >= 10 {
      DigitsOfDecimal(n / 10);
      var s := Decimal(n);
      assert s[..|s| - 1] == Decimal(n / 10);
    }
  }

  function Zeros(n: nat): (s: string)
    ensures |s| == n && forall c <- s :: c == '0'
  {
    if n == 0 then [] else Zeros(n - 1) + ['0']
  }

  lemma {:induction false} ZerosAreNothing(n: nat)
    ensures n > 0 ==> DigitsValue(Zeros(n)) == Some(0)
  {
    if n > 0 {
      var front := Zeros(n - 1);
      assert Zeros(n) == front + ['0'] && (front + ['0'])[..n - 1] == front;
      if n > 1 {
        ZerosAreNothing(n - 1);
        assert front[n - 2] in front;
      }
    }
  }

  /** Leading zeros do not change the value. */
  lemma {:induction false} DigitsOfPadded(zeros: nat, n: nat)
    ensures DigitsValue(Zeros(zeros) + Decimal(n)) == Some(n)
  {
    var s := Zeros(zeros) + Decimal(n);
    ZerosAreNothing(zeros);
    if n < 10 {
      assert s[..|s| - 1] == Zeros(zeros);
      assert zeros > 0 ==> Zeros(zeros)[zeros - 1] in Zeros(zeros);
    } else {
      DigitsOfPadded(zeros, n / 10);
      var front := Zeros(zeros) + Decimal(n / 10);
      assert s[..|s| - 1] == front;
      assert front[|front| - 1] == Decimal(n / 10)[|Decimal(n / 10)| - 1];
      assert front[|front| - 1] in Decimal(n / 10);
    }
  }

  lemma ParseZeros(zeros: nat, n: nat)
    ensures ParseInt(Zeros(zeros) + Decimal(n)) == Some(n)
  {
    DigitsOfPadded(zeros, n);
    var s := Zeros(zeros) + Decimal(n);
    assert s[0] in s && (s[0] in Zeros(zeros) || s[0] in Decimal(n));
  }

  lemma ParseDecimal(n: nat)
    ensures ParseInt(Decimal(n)) == Some(n)
  {
    DigitsOfDecimal(n);
    assert IsDigit(Decimal(n)[0]);
  }

  /** `s.split(sep)` for a one-character separator. */
  function Split(s: string, sep: char): (parts: seq<string>)
    ensures parts != []
    ensures forall p <- parts :: sep !in p
  {
    if s == [] then [[]]
    else
      var rest := Split(s[1..], sep);
      if s[0] == sep then [[]] + rest
      else [[s[0]] + rest[0]] + rest[1..]
  }

  /** `sep.join(parts)`. */
  function Join(parts: seq<string>, sep: char): string {
    if parts == [] then []
    else if |parts| == 1 then parts[0]
    else parts[0] + [sep] + Join(parts[1..], sep)
  }

  lemma {:induction false} SplitPrefix(p: string, s: string, sep: char)
    requires sep !in p
    ensures Split(p + s, sep) == [p + Split(s, sep)[0]] + Split(s, sep)[1..]
  {
    if p == [] {
      assert p + s == s && p + Split(s, sep)[0] == Split(s, sep)[0];
    } else {
      SplitPrefix(p[1..], s, sep);
      assert (p + s)[1..] == p[1..] + s && (p + s)[0] == p[0] && p[0] in p;
      assert [p[0]] + (p[1..] + Split(s, sep)[0]) == p + Split(s, sep)[0];
    }
  }

  lemma {:induction false} SplitJoin(parts: seq<string>, sep: char)
    requires parts != [] && forall p <- parts :: sep !in p
    ensures Split(Join(parts, sep), sep) == parts
  {
    if |parts| == 1 {
      SplitPrefix(parts[0], [], sep);
      assert parts[0] + [] == parts[0];
    } else {
      SplitJoin(parts[1..], sep);
      var rest := Join(parts[1..], sep);
      SplitPrefix(parts[0], [sep] + rest, sep);
      assert ([sep] + rest)[1..] == rest;
      assert Split([sep] + rest, sep) == [[]] + Split(rest, sep);
      assert parts[0] + [sep] + rest == parts[0] + ([sep] + rest);
      assert parts[0] + [] == parts[0] && [[]] + parts[1..] == [[]] + Split(rest, sep);
      assert parts == [parts[0]] + parts[1..];
    }
  }

  lemma JoinCons(c: char, parts: seq<string>, sep: char)
    requires parts != []
    ensures Join([[c] + parts[0]] + parts[1..], sep) == [c] + Join(parts, sep)
  {
    var longer := [[c] + parts[0]] + parts[1..];
    assert longer[1..] == parts[1..];
    if |parts| > 1 {
      assert ([c] + parts[0]) + [sep] + Join(parts[1..], sep) == [c] + (parts[0] + [sep] + Join(parts[1..], sep));
    }
  }

  lemma {:induction false} JoinSplit(s: string, sep: char)
    ensures Join(Split(s, sep), sep) == s
  {
    if s != [] {
      JoinSplit(s[1..], sep);
      var rest := Split(s[1..], sep);
      if s[0] == sep {
        assert Split(s, sep) == [[]] + rest && ([[]] + rest)[1..] == rest;
        assert [] + [sep] + s[1..] == s;
      } else {
        JoinCons(s[0], rest, sep);
        assert [s[0]] + s[1..] == s;
      }
    }
  }

  /** `s.split(sep, 1)` where `sep` occurs in `s`. */
  function SplitOnce(s: string, sep: char): (r: (string, string))
    requires sep in s
    ensures sep !in r.0 && s == r.0 + [sep] + r.1
  {
    if s[0] == sep then ([], s[1..])
    else
      var r := SplitOnce(s[1..], sep);
      ([s[0]] + r.0, r.1)
  }

  lemma {:induction false} SplitOnceAt(a: string, b: string, sep: char)
    requires sep !in a
    ensures sep in a + [sep] + b
    ensures SplitOnce(a + [sep] + b, sep) == (a, b)
  {
    var s := a + [sep] + b;
    assert s[|a|] == sep;
    if a != [] {
      SplitOnceAt(a[1..], b, sep);
      assert s[1..] == a[1..] + [sep] + b;
      assert s[0] == a[0] && a[0] in a && a == [a[0]] + a[1..];
    } else {
      assert s[1..] == b;
    }
  }

  /** `str.lower` on ASCII text. */
  function Lower(s: string): string {
    seq(|s|, i requires 0 <= i < |s| =>
      if 'A' <= s[i] <= 'Z' then ((s[i] as int) + 32) as char else s[i])
  }

  predicate IsSpace(c: char) { c in " \t\n\r" }

  /** `s.split()`: the maximal runs of non-blank characters. */
  function Words(s: string): (ws: seq<string>)
    ensures forall w <- ws :: IsWord(w)
    decreases |s|
  {
    if s == [] then []
    else if IsSpace(s[0]) then Words(s[1..])
    else
      var n := WordLength(s);
      [s[..n]] + Words(s[n..])
  }

  function WordLength(s: string): (n: nat)
    ensures n <= |s| && forall i :: 0 <= i < n ==> !IsSpace(s[i])
    ensures s != [] && !IsSpace(s[0]) ==> n > 0
  {
    if s == [] || IsSpace(s[0]) then 0 else 1 + WordLength(s[1..])
  }

  predicate IsWord(w: string) { w != [] && forall c <- w :: !IsSpace(c) }

  lemma WordAtEnd(w: string, rest: string)
    requires IsWord(w) && (rest == [] || IsSpace(rest[0]))
    ensures Words(w + rest) == [w] + Words(rest)
  {
    WordLengthOf(w, rest);
    var s := w + rest;
    assert s[0] == w[0] && w[0] in w;
    assert s[..|w|] == w && s[|w|..] == rest;
  }

  lemma {:induction false} WordLengthOf(w: string, rest: string)
    requires (forall c <- w :: !IsSpace(c)) && (rest == [] || IsSpace(rest[0]))
    ensures WordLength(w + rest) == |w|
  {
    if w == [] {
      assert w + rest == rest;
    } else {
      WordLengthOf(w[1..], rest);
      assert (w + rest)[1..] == w[1..] + rest && (w + rest)[0] == w[0] && w[0] in w;
    }
  }

  /** Words joined by single blanks are read back. */
  lemma {:induction false} WordsJoin(ws: seq<string>)
    requires forall i :: 0 <= i < |ws| ==> IsWord(ws[i])
    ensures Words(Join(ws, ' ')) == ws
  {
    if |ws| == 1 {
      WordAtEnd(ws[0], []);
      assert ws[0] + [] == ws[0];
    } else if ws != [] {
      WordsJoin(ws[1..]);
      var rest := [' '] + Join(ws[1..], ' ');
      WordAtEnd(ws[0], rest);
      assert ws[0] + [' '] + Join(ws[1..], ' ') == ws[0] + rest;
      assert rest[1..] == Join(ws[1..], ' ');
      assert ws == [ws[0]] + ws[1..];
    }
  }

  lemma {:induction false} JoinEnds(ws: seq<string>, sep: char)
    requires ws != [] && IsWord(ws[0]) && forall i :: 0 <= i < |ws| ==> IsWord(ws[i])
    ensures var s := Join(ws, sep);
      s != "" && s[0] == ws[0][0] && !IsSpace(s[0]) && !IsSpace(s[|s| - 1])
  {
    assert ws[0][0] in ws[0] && ws[0][|ws[0]| - 1] in ws[0];
    if |ws| > 1 {
      JoinEnds(ws[1..], sep);
      var rest := Join(ws[1..], sep);
      var s := Join(ws, sep);
      assert s == ws[0] + [sep] + rest && s[|s| - 1] == rest[|rest| - 1];
    }
  }

  /** `s.strip()`. */
  function Strip(s: string): string
    decreases |s|
  {
    if s == [] then s
    else if IsSpace(s[0]) then Strip(s[1..])
    else if IsSpace(s[|s| - 1]) then Strip(s[..|s| - 1])
    else s
  }

  lemma {:induction false} StripKeeps(s: string, c: char)
    requires c in s && !IsSpace(c)
    ensures c in Strip(s)
    decreases |s|
  {
    if IsSpace(s[0]) {
      StripKeeps(s[1..], c);
    } else if IsSpace(s[|s| - 1]) {
      StripKeeps(s[..|s| - 1], c);
    }
  }

  lemma SplitUnbroken(s: string, sep: char)
    requires sep !in s
    ensures Split(s, sep) == [s]
  {
    SplitPrefix(s, [], sep);
    assert s + [] == s;
  }
}
