/** JSON Pointers (RFC 6901): printing token lists, and decoding by one pass. */
module Pointer {
  import opened Wrappers
  import Text

  /** `s.replace(c, sub)` for a one-character pattern. */
  function ReplaceChar(s: string, c: char, sub: string): string {
    if s == [] then []
    else (if s[0] == c then sub else [s[0]]) + ReplaceChar(s[1..], c, sub)
  }

  /** `s.replace(ab, sub)` for a two-character pattern. */
  function ReplacePair(s: string, a: char, b: char, sub: char): string {
    if s == [] then []
    else if |s| >= 2 && s[0] == a && s[1] == b then [sub] + ReplacePair(s[2..], a, b, sub)
    else [s[0]] + ReplacePair(s[1..], a, b, sub)
  }

  /** The escape rule of both the redactor and the codec. */
  function Escape(token: string): string {
    ReplaceChar(ReplaceChar(token, '~', "~0"), '/', "~1")
  }

  /** The path of a child: `_pointer(path, token)`. */
  function Extend(path: string, token: string): string { path + "/" + Escape(token) }

  /** The pointer that prints a list of tokens. */
  function Print(tokens: seq<string>): string {
    if tokens == [] then [] else Extend(Print(tokens[..|tokens| - 1]), tokens[|tokens| - 1])
  }

  /** One reference token: `~0` and `~1` stand for `~` and `/`; any other `~` is an error. */
  function Unescape(raw: string): Option<string> {
    if raw == [] then Some([])
    else if raw[0] != '~' then Prepend(raw[0], Unescape(raw[1..]))
    else if |raw| < 2 || raw[1] !in "01" then None
    else Prepend(if raw[1] == '0' then '~' else '/', Unescape(raw[2..]))
  }

  function Prepend(c: char, r: Option<string>): Option<string> {
    match r case None => None case Some(t) => Some([c] + t)
  }

  function UnescapeAll(raws: seq<string>): Option<seq<string>> {
    if raws == [] then Some([])
    else
      match Unescape(raws[0])
      case None => None
      case Some(t) =>
        match UnescapeAll(raws[1..])
        case None => None
        case Some(ts) => Some([t] + ts)
  }

  function Decode(pointer: string): Option<seq<string>> {
    if pointer == [] || pointer[0] != '/' then None
    else UnescapeAll(Text.Split(pointer[1..], '/'))
  }

  // -------------------------------------------------- the loop, as it is run

  method DecodePointer(pointer: string) returns (tokens: Option<seq<string>>)
    ensures tokens == Decode(pointer)
  {
    if pointer == [] || pointer[0] != '/' {
      return None;
    }
    var raws := Text.Split(pointer[1..], '/');
    var decoded: seq<string> := [];
    assert raws[0..] == raws;
    AppendNone(UnescapeAll(raws));
    for k := 0 to |raws|
      invariant Decode(pointer) == Append(decoded, UnescapeAll(raws[k..]))
    {
      assert raws[k..][1..] == raws[k + 1..];
      var token := DecodeToken(raws[k]);
      if token.None? {
        return None;
      }
      AppendOne(decoded, token.value, UnescapeAll(raws[k + 1..]));
      decoded := decoded + [token.value];
    }
    assert decoded + [] == decoded;
    return Some(decoded);
  }

  function Append<T>(done: seq<T>, rest: Option<seq<T>>): Option<seq<T>> {
    match rest case None => None case Some(ts) => Some(done + ts)
  }

  lemma AppendNone<T>(rest: Option<seq<T>>)
    ensures Append([], rest) == rest
  {
    if rest.Some? {
      assert [] + rest.value == rest.value;
    }
  }

  lemma AppendOne<T>(done: seq<T>, x: T, rest: Option<seq<T>>)
    ensures Append(done, Append([x], rest)) == Append(done + [x], rest)
  {
    if rest.Some? {
      assert done + ([x] + rest.value) == (done + [x]) + rest.value;
    }
  }

  method DecodeToken(raw: string) returns (r: Option<string>)
    ensures r == Unescape(raw)
  {
    var token := "";
    var index := 0;
    assert raw[0..] == raw;
    AppendNone(Unescape(raw));
    while index < |raw|
      invariant 0 <= index <= |raw|
      invariant Unescape(raw) == Append(token, Unescape(raw[index..]))
    {
      var rest := raw[index..];
      if raw[index] != '~' {
        assert rest[1..] == raw[index + 1..];
        AppendOne(token, raw[index], Unescape(raw[index + 1..]));
        token := token + [raw[index]];
        index := index + 1;
      } else {
        if index + 1 >= |raw| || raw[index + 1] !in "01" {
          return None;
        }
        assert rest[2..] == raw[index + 2..];
        var c := if raw[index + 1] == '0' then '~' else '/';
        AppendOne(token, c, Unescape(raw[index + 2..]));
        token := token + [c];
        index := index + 2;
      }
    }
    assert token + [] == token;
    return Some(token);
  }

  // -------------------------------------------------------------- inverses

  function EscapeChar(c: char): string { if c == '~' then "~0" else if c == '/' then "~1" else [c] }

  lemma EscapeStep(token: string)
    requires token != []
    ensures Escape(token) == EscapeChar(token[0]) + Escape(token[1..])
  {
    var first := ReplaceChar(token, '~', "~0");
    var rest := ReplaceChar(token[1..], '~', "~0");
    if token[0] == '~' {
      assert first == ['~'] + (['0'] + rest);
      assert first[1..] == ['0'] + rest;
      assert (['0'] + rest)[1..] == rest;
      assert ReplaceChar(['0'] + rest, '/', "~1") == ['0'] + ReplaceChar(rest, '/', "~1");
      assert Escape(token) == ['~'] + (['0'] + ReplaceChar(rest, '/', "~1"));
    } else {
      assert first == [token[0]] + rest && first[1..] == rest;
    }
  }

  lemma {:induction false} UnescapeEscape(token: string)
    ensures Unescape(Escape(token)) == Some(token) && '/' !in Escape(token)
  {
    if token != [] {
      UnescapeEscape(token[1..]);
      EscapeStep(token);
      var e := Escape(token);
      var rest := Escape(token[1..]);
      if token[0] in "~/" {
        assert e[0] == '~' && e[2..] == rest;
      } else {
        assert e[0] == token[0] && e[1..] == rest;
      }
      assert token == [token[0]] + token[1..];
    }
  }

  lemma {:induction false} EscapeUnescape(raw: string)
    requires Unescape(raw).Some? && '/' !in raw
    ensures Escape(Unescape(raw).value) == raw
    decreases |raw|
  {
    if raw != [] {
      var n := if raw[0] == '~' then 2 else 1;
      var rest := raw[n..];
      assert Unescape(rest).Some?;
      EscapeUnescape(rest);
      var token := Unescape(raw).value;
      assert token[1..] == Unescape(rest).value;
      EscapeStep(token);
      assert raw == raw[..n] + rest;
    }
  }

  /** The escaped tokens, in order. */
  function EscapeAll(tokens: seq<string>): (raws: seq<string>)
    ensures |raws| == |tokens|
  {
    seq(|tokens|, i requires 0 <= i < |tokens| => Escape(tokens[i]))
  }

  lemma {:induction false} PrintIsJoin(tokens: seq<string>)
    requires tokens != []
    ensures Print(tokens) == ['/'] + Text.Join(EscapeAll(tokens), '/')
  {
    var front := tokens[..|tokens| - 1];
    var last := Escape(tokens[|tokens| - 1]);
    if front != [] {
      PrintIsJoin(front);
      var joined := Text.Join(EscapeAll(front), '/');
      JoinAppend(EscapeAll(front), last);
      assert EscapeAll(tokens) == EscapeAll(front) + [last];
      Regroup(['/'], joined, ['/'], last);
    } else {
      assert EscapeAll(tokens) == [last];
    }
  }

  lemma Regroup(a: string, b: string, c: string, d: string)
    ensures (a + b) + c + d == a + (b + c + d)
  {
  }

  lemma {:induction false} JoinAppend(parts: seq<string>, last: string)
    requires parts != []
    ensures Text.Join(parts + [last], '/') == Text.Join(parts, '/') + ['/'] + last
  {
    var all := parts + [last];
    assert all[1..] == parts[1..] + [last] && all[0] == parts[0];
    if |parts| > 1 {
      JoinAppend(parts[1..], last);
      var tail := Text.Join(parts[1..], '/');
      assert Text.Join(all, '/') == parts[0] + ['/'] + (tail + ['/'] + last);
      assert Text.Join(parts, '/') == parts[0] + ['/'] + tail;
    } else {
      assert Text.Join(all[1..], '/') == last;
    }
  }

  lemma {:induction false} UnescapeAllEscapes(tokens: seq<string>)
    ensures UnescapeAll(EscapeAll(tokens)) == Some(tokens)
  {
    if tokens != [] {
      UnescapeEscape(tokens[0]);
      UnescapeAllEscapes(tokens[1..]);
      assert EscapeAll(tokens)[1..] == EscapeAll(tokens[1..]);
      assert tokens == [tokens[0]] + tokens[1..];
    }
  }

  lemma {:induction false} EscapeAllUnescapes(raws: seq<string>)
    requires UnescapeAll(raws).Some? && forall r <- raws :: '/' !in r
    ensures EscapeAll(UnescapeAll(raws).value) == raws
  {
    if raws != [] {
      EscapeUnescape(raws[0]);
      EscapeAllUnescapes(raws[1..]);
      var ts := UnescapeAll(raws).value;
      assert EscapeAll(ts) == [Escape(ts[0])] + EscapeAll(ts[1..]);
    }
  }

  /** Decoding a printed pointer gives back its tokens. */
  lemma DecodePrint(tokens: seq<string>)
    requires tokens != []
    ensures Decode(Print(tokens)) == Some(tokens)
  {
    PrintIsJoin(tokens);
    var raws := EscapeAll(tokens);
    forall r | r in raws ensures '/' !in r {
      var i :| 0 <= i < |tokens| && r == Escape(tokens[i]);
      UnescapeEscape(tokens[i]);
    }
    Text.SplitJoin(raws, '/');
    UnescapeAllEscapes(tokens);
    assert Print(tokens)[1..] == Text.Join(raws, '/');
  }

  /** Printing a decoded pointer gives back its text; a pointer has at least one token. */
  lemma PrintDecode(pointer: string)
    requires Decode(pointer).Some?
    ensures Decode(pointer).value != [] && Print(Decode(pointer).value) == pointer
  {
    var raws := Text.Split(pointer[1..], '/');
    EscapeAllUnescapes(raws);
    PrintIsJoin(Decode(pointer).value);
    Text.JoinSplit(pointer[1..], '/');
  }

  /** Distinct token lists print differently. */
  lemma PrintInjective(a: seq<string>, b: seq<string>)
    requires a != [] && b != [] && Print(a) == Print(b)
    ensures a == b
  {
    DecodePrint(a);
    DecodePrint(b);
  }

  /** The one-pass decoding of an accepted token is the substitution of section 4 of
      RFC 6901: first every `~1`, then every `~0`. */
  lemma {:induction false} OnePassIsTwoPass(raw: string)
    requires Unescape(raw).Some?
    ensures Unescape(raw).value == ReplacePair(ReplacePair(raw, '~', '1', '/'), '~', '0', '~')
    decreases |raw|
  {
    if raw != [] {
      var n := if raw[0] == '~' then 2 else 1;
      var rest := raw[n..];
      assert Unescape(rest).Some?;
      OnePassIsTwoPass(rest);
      var pass := ReplacePair(rest, '~', '1', '/');
      var first := ReplacePair(raw, '~', '1', '/');
      if raw[0] != '~' {
        assert first == [raw[0]] + pass && first[1..] == pass;
      } else if raw[1] == '1' {
        assert first == ['/'] + pass && first[1..] == pass;
      } else {
        assert raw[1..][1..] == rest;
        assert first == ['~'] + (['0'] + pass);
        assert first[2..] == pass;
      }
    }
  }

  /** Printing token by token from the front. */
  lemma {:induction false} PrintCons(token: string, rest: seq<string>)
    ensures Print([token] + rest) == ['/'] + Escape(token) + Print(rest)
  {
    var tokens := [token] + rest;
    if rest == [] {
      assert tokens[..|tokens| - 1] == [];
    } else {
      var front := rest[..|rest| - 1];
      PrintCons(token, front);
      assert tokens[..|tokens| - 1] == [token] + front;
    }
  }
}
