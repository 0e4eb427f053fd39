/** Five-field cron expressions: parsing, the day rule, and the minute-by-minute
    search for the next fire time.

    Instants are microseconds of wall clock since 1 January of year 1; a candidate
    fire time is a whole minute, named by its index. */
module Cron {
  import opened Wrappers
  import opened Gregorian
  import Text

  // ---------------------------------------------------------------- fields

  datatype Limits = Limits(minimum: int, maximum: int, names: map<string, int>, sundayAsZero: bool)

  /** A parsed field: whether it was written `*`, and the values it admits. */
  datatype Field = Field(any: bool, values: set<int>)

  const MONTH_NAMES: map<string, int> := map[
    "jan" := 1, "feb" := 2, "mar" := 3, "apr" := 4, "may" := 5, "jun" := 6,
    "jul" := 7, "aug" := 8, "sep" := 9, "oct" := 10, "nov" := 11, "dec" := 12]

  const DOW_NAMES: map<string, int> := map[
    "sun" := 0, "mon" := 1, "tue" := 2, "wed" := 3, "thu" := 4, "fri" := 5, "sat" := 6]

  const MINUTE_LIMITS := Limits(0, 59, map[], false)
  const HOUR_LIMITS := Limits(0, 23, map[], false)
  const DAY_LIMITS := Limits(1, 31, map[], false)
  const MONTH_LIMITS := Limits(1, 12, MONTH_NAMES, false)
  const WEEKDAY_LIMITS := Limits(0, 6, DOW_NAMES, true)

  predicate OnStep(v: int, start: int, step: int)
    requires step > 0
  {
    (v - start) % step == 0
  }

  /** `set(range(start, end + 1, step))`. */
  function Steps(start: int, end: int, step: int): set<int>
    requires step > 0
  {
    set v | start <= v <= end && OnStep(v, start, step)
  }

  ghost predicate ValidField(f: Field, lim: Limits) {
    && f.values != {}
    && (forall v <- f.values :: lim.minimum <= v <= lim.maximum)
    && (f.any ==> f.values == Steps(lim.minimum, lim.maximum, 1))
  }

  function ParseValue(text: string, lim: Limits): (r: Option<int>)
    ensures r.Some? ==> lim.minimum <= r.value <= lim.maximum
  {
    var lowered := Text.Lower(text);
    var parsed := if lowered in lim.names then Some(lim.names[lowered]) else Text.ParseInt(text);
    match parsed
    case None => None
    case Some(p) =>
      var v := if lim.sundayAsZero && p == 7 then 0 else p;
      if v < lim.minimum || v > lim.maximum then None else Some(v)
  }

  function ParseRange(start: Option<int>, end: Option<int>, step: int): (r: Option<set<int>>)
    requires step > 0
  {
    if start.None? || end.None? || start.value > end.value then None
    else Some(Steps(start.value, end.value, step))
  }

  function ParseChunk(chunk: string, lim: Limits): Option<set<int>>
    requires lim.minimum <= lim.maximum
  {
    if chunk == "" then None
    else if chunk == "*" then Some(Steps(lim.minimum, lim.maximum, 1))
    else if '/' in chunk then
      var (base, stepText) := Text.SplitOnce(chunk, '/');
      match Text.ParseInt(stepText)
      case None => None
      case Some(step) =>
        if step <= 0 then None
        else if base == "*" then ParseRange(Some(lim.minimum), Some(lim.maximum), step)
        else if '-' in base then
          var (startText, endText) := Text.SplitOnce(base, '-');
          ParseRange(ParseValue(startText, lim), ParseValue(endText, lim), step)
        else ParseRange(ParseValue(base, lim), Some(lim.maximum), step)
    else if '-' in chunk then
      var (startText, endText) := Text.SplitOnce(chunk, '-');
      ParseRange(ParseValue(startText, lim), ParseValue(endText, lim), 1)
    else
      match ParseValue(chunk, lim)
      case None => None
      case Some(v) => Some({v})
  }

  function ParseChunks(chunks: seq<string>, lim: Limits): Option<set<int>>
    requires lim.minimum <= lim.maximum
  {
    if chunks == [] then Some({})
    else
      match ParseChunk(Text.Strip(chunks[0]), lim)
      case None => None
      case Some(vs) =>
        match ParseChunks(chunks[1..], lim)
        case None => None
        case Some(rest) => Some(vs + rest)
  }

  function ParseField(expression: string, lim: Limits): Option<Field>
    requires lim.minimum <= lim.maximum
  {
    match ParseChunks(Text.Split(expression, ','), lim)
    case None => None
    case Some(values) => Some(Field(Text.Strip(expression) == "*", values))
  }

  lemma ChunkInRange(chunk: string, lim: Limits)
    requires lim.minimum <= lim.maximum && ParseChunk(chunk, lim).Some?
    ensures ParseChunk(chunk, lim).value != {}
    ensures forall v <- ParseChunk(chunk, lim).value :: lim.minimum <= v <= lim.maximum
  {
    if chunk == "*" {
      assert lim.minimum in Steps(lim.minimum, lim.maximum, 1);
    } else if '/' in chunk {
      var (base, stepText) := Text.SplitOnce(chunk, '/');
      var step := Text.ParseInt(stepText).value;
      if base == "*" {
        assert lim.minimum in Steps(lim.minimum, lim.maximum, step);
      } else if '-' in base {
        var (startText, endText) := Text.SplitOnce(base, '-');
        assert ParseValue(startText, lim).value in ParseChunk(chunk, lim).value;
      } else {
        assert ParseValue(base, lim).value in ParseChunk(chunk, lim).value;
      }
    } else if '-' in chunk {
      var (startText, endText) := Text.SplitOnce(chunk, '-');
      assert ParseValue(startText, lim).value in ParseChunk(chunk, lim).value;
    }
  }

  lemma {:induction false} ChunksInRange(chunks: seq<string>, lim: Limits)
    requires lim.minimum <= lim.maximum && ParseChunks(chunks, lim).Some?
    ensures chunks != [] ==> ParseChunks(chunks, lim).value != {}
    ensures forall v <- ParseChunks(chunks, lim).value :: lim.minimum <= v <= lim.maximum
  {
    if chunks != [] {
      ChunkInRange(Text.Strip(chunks[0]), lim);
      ChunksInRange(chunks[1..], lim);
    }
  }

  /** Every accepted field admits some value, and only values of its range. */
  lemma ParsedFieldValid(expression: string, lim: Limits)
    requires lim.minimum <= lim.maximum && ParseField(expression, lim).Some?
    ensures ValidField(ParseField(expression, lim).value, lim)
  {
    ChunksInRange(Text.Split(expression, ','), lim);
    if Text.Strip(expression) == "*" {
      if ',' in expression {
        Text.StripKeeps(expression, ',');
      }
      Text.SplitUnbroken(expression, ',');
    }
  }

  // ------------------------------------------------- what the grammar denotes

  /** A written value: a number, perhaps with leading zeros, or a month or weekday
      name in any mixture of cases. */
  datatype Atom = Number(zeros: nat, n: nat) | Word(name: string)

  /** The written forms of one comma-separated chunk. */
  datatype Chunk =
    | Star
    | StarStep(step: nat)
    | Value(v: Atom)
    | ValueStep(v: Atom, step: nat)
    | Range(lo: Atom, hi: Atom)
    | RangeStep(lo: Atom, hi: Atom, step: nat)

  function AtomText(a: Atom): string {
    match a
    case Number(zeros, n) => Text.Zeros(zeros) + Text.Decimal(n)
    case Word(name) => name
  }

  predicate Known(a: Atom, lim: Limits) {
    a.Word? ==> Text.Lower(a.name) in lim.names
  }

  /** What a written value denotes; a weekday 7 is Sunday, like 0. */
  function AtomValue(a: Atom, lim: Limits): int
    requires Known(a, lim)
  {
    var v := match a case Number(_, n) => n case Word(name) => lim.names[Text.Lower(name)];
    if lim.sundayAsZero && v == 7 then 0 else v
  }

  predicate InRange(a: Atom, lim: Limits) {
    Known(a, lim) && lim.minimum <= AtomValue(a, lim) <= lim.maximum
  }

  function Render(c: Chunk): string {
    match c
    case Star => "*"
    case StarStep(step) => "*" + "/" + Text.Decimal(step)
    case Value(v) => AtomText(v)
    case ValueStep(v, step) => AtomText(v) + "/" + Text.Decimal(step)
    case Range(lo, hi) => AtomText(lo) + "-" + AtomText(hi)
    case RangeStep(lo, hi, step) => (AtomText(lo) + "-" + AtomText(hi)) + "/" + Text.Decimal(step)
  }

  function RenderAll(cs: seq<Chunk>): seq<string> {
    seq(|cs|, i requires 0 <= i < |cs| => Render(cs[i]))
  }

  /** A chunk the field accepts: values in range, in order, with a positive step. */
  predicate Accepts(c: Chunk, lim: Limits) {
    match c
    case Star => true
    case StarStep(step) => step > 0
    case Value(v) => InRange(v, lim)
    case ValueStep(v, step) => InRange(v, lim) && step > 0
    case Range(lo, hi) => InRange(lo, lim) && InRange(hi, lim) && AtomValue(lo, lim) <= AtomValue(hi, lim)
    case RangeStep(lo, hi, step) =>
      InRange(lo, lim) && InRange(hi, lim) && AtomValue(lo, lim) <= AtomValue(hi, lim) && step > 0
  }

  /** Does the chunk admit value `x` of the field's range? */
  predicate Admits(c: Chunk, lim: Limits, x: int)
    requires Accepts(c, lim)
  {
    lim.minimum <= x <= lim.maximum &&
    match c
    case Star => true
    case StarStep(step) => (x - lim.minimum) % step == 0
    case Value(v) => x == AtomValue(v, lim)
    case ValueStep(v, step) => x >= AtomValue(v, lim) && (x - AtomValue(v, lim)) % step == 0
    case Range(lo, hi) => AtomValue(lo, lim) <= x <= AtomValue(hi, lim)
    case RangeStep(lo, hi, step) =>
      AtomValue(lo, lim) <= x <= AtomValue(hi, lim) && (x - AtomValue(lo, lim)) % step == 0
  }

  predicate IsLetter(c: char) { 'a' <= c <= 'z' || 'A' <= c <= 'Z' }

  /** Names are made of letters, as the month and weekday names are. */
  predicate PlainNames(lim: Limits) {
    forall name <- lim.names :: name != "" && forall c <- name :: IsLetter(c)
  }

  lemma LimitsArePlain(lim: Limits)
    requires lim in {MINUTE_LIMITS, HOUR_LIMITS, DAY_LIMITS, MONTH_LIMITS, WEEKDAY_LIMITS}
    ensures PlainNames(lim) && 0 <= lim.minimum <= lim.maximum
  {
  }

  /** An atom is written in digits or letters only. */
  lemma AtomClean(a: Atom, lim: Limits)
    requires PlainNames(lim) && Known(a, lim)
    ensures AtomText(a) != "" && forall c <- AtomText(a) :: Text.IsDigit(c) || IsLetter(c)
  {
    if a.Word? {
      var lowered := Text.Lower(a.name);
      forall c | c in a.name ensures IsLetter(c) {
        var i :| 0 <= i < |a.name| && a.name[i] == c;
        assert lowered[i] in lowered;
      }
    }
  }

  lemma DigitsAreNoName(s: string, lim: Limits)
    requires PlainNames(lim) && s != "" && forall i :: 0 <= i < |s| ==> Text.IsDigit(s[i])
    ensures Text.Lower(s) == s && s !in lim.names
  {
    assert Text.Lower(s) == s;
    assert s[0] in s && !IsLetter(s[0]);
  }

  lemma NumberParses(zeros: nat, n: nat, lim: Limits)
    requires PlainNames(lim)
    ensures var s := AtomText(Number(zeros, n)); Text.Lower(s) !in lim.names && Text.ParseInt(s) == Some(n)
  {
    var padding, digits := Text.Zeros(zeros), Text.Decimal(n);
    var s := padding + digits;
    forall i | 0 <= i < |s| ensures Text.IsDigit(s[i]) {
      if i < zeros {
        assert s[i] == padding[i] && padding[i] in padding;
      } else {
        assert s[i] == digits[i - zeros] && digits[i - zeros] in digits;
      }
    }
    DigitsAreNoName(s, lim);
    Text.ParseZeros(zeros, n);
  }

  lemma AtomParses(a: Atom, lim: Limits)
    requires PlainNames(lim) && Known(a, lim)
    ensures ParseValue(AtomText(a), lim) == if InRange(a, lim) then Some(AtomValue(a, lim)) else None
  {
    if a.Number? {
      NumberParses(a.zeros, a.n, lim);
    }
  }

  lemma StarStepMeaning(step: nat, lim: Limits)
    requires lim.minimum <= lim.maximum
    ensures ParseChunk(Render(StarStep(step)), lim) ==
      if step > 0 then Some(Steps(lim.minimum, lim.maximum, step)) else None
  {
    Text.ParseDecimal(step);
    Text.SplitOnceAt("*", Text.Decimal(step), '/');
    assert Render(StarStep(step)) == "*" + ['/'] + Text.Decimal(step);
  }

  /** A written step multiplies out over the base it follows. */
  lemma StepSplits(base: string, step: nat, lim: Limits)
    requires lim.minimum <= lim.maximum && '/' !in base && base != "*"
    ensures ParseChunk(base + ['/'] + Text.Decimal(step), lim) ==
      if step == 0 then None
      else if '-' in base then
        var (startText, endText) := Text.SplitOnce(base, '-');
        ParseRange(ParseValue(startText, lim), ParseValue(endText, lim), step)
      else ParseRange(ParseValue(base, lim), Some(lim.maximum), step)
  {
    Text.ParseDecimal(step);
    Text.SplitOnceAt(base, Text.Decimal(step), '/');
    var chunk := base + ['/'] + Text.Decimal(step);
    assert '/' in chunk && chunk != "*" && chunk != "";
  }

  /** Letters and digits hold none of the marks the grammar splits at. */
  lemma NoMarks(s: string)
    requires s != "" && forall c <- s :: Text.IsDigit(c) || IsLetter(c)
    ensures '/' !in s && '-' !in s && ',' !in s && '*' !in s && s != "*"
    ensures !Text.IsSpace(s[0]) && !Text.IsSpace(s[|s| - 1])
  {
    assert s[0] in s && s[|s| - 1] in s;
  }

  /** A value as it is written: letters and digits. */
  predicate IsValueText(s: string) { s != "" && forall c <- s :: Text.IsDigit(c) || IsLetter(c) }

  lemma ValueStepMeaning(v: string, step: nat, lim: Limits)
    requires IsValueText(v) && lim.minimum <= lim.maximum
    ensures ParseChunk(v + "/" + Text.Decimal(step), lim) ==
      if step == 0 then None else ParseRange(ParseValue(v, lim), Some(lim.maximum), step)
  {
    NoMarks(v);
    StepSplits(v, step, lim);
  }

  lemma RangeMeaning(lo: string, hi: string, lim: Limits)
    requires IsValueText(lo) && IsValueText(hi) && lim.minimum <= lim.maximum
    ensures ParseChunk(lo + "-" + hi, lim) == ParseRange(ParseValue(lo, lim), ParseValue(hi, lim), 1)
  {
    NoMarks(lo);
    NoMarks(hi);
    Text.SplitOnceAt(lo, hi, '-');
    assert (lo + "-" + hi)[|lo|] == '-';
  }

  lemma RangeStepMeaning(lo: string, hi: string, step: nat, lim: Limits)
    requires IsValueText(lo) && IsValueText(hi) && lim.minimum <= lim.maximum
    ensures ParseChunk((lo + "-" + hi) + "/" + Text.Decimal(step), lim) ==
      if step == 0 then None else ParseRange(ParseValue(lo, lim), ParseValue(hi, lim), step)
  {
    NoMarks(lo);
    NoMarks(hi);
    Text.SplitOnceAt(lo, hi, '-');
    assert (lo + "-" + hi)[|lo|] == '-';
    StepSplits(lo + "-" + hi, step, lim);
  }

  lemma ValueMeaning(v: string, lim: Limits)
    requires IsValueText(v) && lim.minimum <= lim.maximum
    ensures ParseChunk(v, lim) == match ParseValue(v, lim) case None => None case Some(n) => Some({n})
  {
    NoMarks(v);
  }

  /** The arithmetic progression a chunk stands for. */
  function ValuesOf(c: Chunk, lim: Limits): set<int>
    requires Accepts(c, lim)
  {
    match c
    case Star => Steps(lim.minimum, lim.maximum, 1)
    case StarStep(step) => Steps(lim.minimum, lim.maximum, step)
    case Value(v) => {AtomValue(v, lim)}
    case ValueStep(v, step) => Steps(AtomValue(v, lim), lim.maximum, step)
    case Range(lo, hi) => Steps(AtomValue(lo, lim), AtomValue(hi, lim), 1)
    case RangeStep(lo, hi, step) => Steps(AtomValue(lo, lim), AtomValue(hi, lim), step)
  }

  /** The values of the chunk are numbers, or names of the field. */
  predicate Written(c: Chunk, lim: Limits) {
    match c
    case Star => true
    case StarStep(_) => true
    case Value(v) => Known(v, lim)
    case ValueStep(v, _) => Known(v, lim)
    case Range(lo, hi) => Known(lo, lim) && Known(hi, lim)
    case RangeStep(lo, hi, _) => Known(lo, lim) && Known(hi, lim)
  }

  lemma AtomReads(a: Atom, lim: Limits)
    requires PlainNames(lim) && Known(a, lim)
    ensures ParseValue(AtomText(a), lim) == if InRange(a, lim) then Some(AtomValue(a, lim)) else None
    ensures IsValueText(AtomText(a))
  {
    AtomParses(a, lim);
    AtomClean(a, lim);
  }

  /** A chunk parses if and only if its values are in range and in order and its step is
      positive, and then to the values it stands for. */
  lemma ChunkParses(c: Chunk, lim: Limits)
    requires PlainNames(lim) && 0 <= lim.minimum <= lim.maximum && Written(c, lim)
    ensures ParseChunk(Render(c), lim) == if Accepts(c, lim) then Some(ValuesOf(c, lim)) else None
  {
    match c {
      case Star => assert Render(c) == "*";
      case StarStep(step) => StarStepMeaning(step, lim);
      case Value(v) =>
        AtomReads(v, lim);
        ValueMeaning(AtomText(v), lim);
      case ValueStep(v, step) =>
        AtomReads(v, lim);
        ValueStepMeaning(AtomText(v), step, lim);
      case Range(lo, hi) =>
        AtomReads(lo, lim);
        AtomReads(hi, lim);
        RangeMeaning(AtomText(lo), AtomText(hi), lim);
      case RangeStep(lo, hi, step) =>
        AtomReads(lo, lim);
        AtomReads(hi, lim);
        RangeStepMeaning(AtomText(lo), AtomText(hi), step, lim);
    }
  }

  lemma ValuesAdmitted(c: Chunk, lim: Limits, x: int)
    requires 0 <= lim.minimum <= lim.maximum && Accepts(c, lim)
    ensures x in ValuesOf(c, lim) <==> Admits(c, lim, x)
  {
    match c {
      case Star => assert OnStep(x, lim.minimum, 1);
      case Range(lo, hi) => assert OnStep(x, AtomValue(lo, lim), 1);
      case _ =>
    }
  }

  /** Parsing a chunk yields exactly the values the chunk admits. */
  lemma ChunkMeaning(c: Chunk, lim: Limits)
    requires PlainNames(lim) && 0 <= lim.minimum <= lim.maximum && Written(c, lim)
    ensures ParseChunk(Render(c), lim).Some? <==> Accepts(c, lim)
    ensures Accepts(c, lim) ==> forall x :: x in ParseChunk(Render(c), lim).value <==> Admits(c, lim, x)
  {
    ChunkParses(c, lim);
    if Accepts(c, lim) {
      forall x ensures x in ValuesOf(c, lim) <==> Admits(c, lim, x) {
        ValuesAdmitted(c, lim, x);
      }
    }
  }

  lemma StripPlain(s: string)
    requires s == "" || (!Text.IsSpace(s[0]) && !Text.IsSpace(s[|s| - 1]))
    ensures Text.Strip(s) == s
  {
  }

  /** Does the field admit `x`? */
  ghost predicate FieldAdmits(cs: seq<Chunk>, lim: Limits, x: int)
    requires forall c <- cs :: Accepts(c, lim)
  {
    exists c <- cs :: Admits(c, lim, x)
  }

  lemma FieldAdmitsStep(cs: seq<Chunk>, lim: Limits, x: int)
    requires cs != [] && (forall c <- cs :: Accepts(c, lim)) && (forall c <- cs[1..] :: Accepts(c, lim))
    requires Accepts(cs[0], lim)
    ensures FieldAdmits(cs, lim, x) <==> Admits(cs[0], lim, x) || FieldAdmits(cs[1..], lim, x)
  {
    FirstOrRest(cs);
  }

  /** `r` is what a field of these chunks has to parse to. */
  ghost predicate MeantBy(r: Option<set<int>>, cs: seq<Chunk>, lim: Limits) {
    && (r.Some? <==> forall c <- cs :: Accepts(c, lim))
    && (r.Some? ==> forall x :: x in r.value <==> FieldAdmits(cs, lim, x))
  }

  lemma MeantStep(cs: seq<Chunk>, lim: Limits, first: Option<set<int>>, rest: Option<set<int>>)
    requires cs != [] && MeantBy(rest, cs[1..], lim)
    requires first.Some? <==> Accepts(cs[0], lim)
    requires first.Some? ==> forall x :: x in first.value <==> Admits(cs[0], lim, x)
    ensures MeantBy(if first.Some? && rest.Some? then Some(first.value + rest.value) else None, cs, lim)
  {
    FirstOrRest(cs);
    if first.Some? && rest.Some? {
      forall x ensures x in first.value + rest.value <==> FieldAdmits(cs, lim, x) {
        FieldAdmitsStep(cs, lim, x);
      }
    }
  }

  lemma {:induction false} ChunksMeaning(cs: seq<Chunk>, lim: Limits)
    requires PlainNames(lim) && 0 <= lim.minimum <= lim.maximum && forall c <- cs :: Written(c, lim)
    ensures MeantBy(ParseChunks(RenderAll(cs), lim), cs, lim)
  {
    if cs != [] {
      assert cs[0] in cs && forall c <- cs[1..] :: c in cs;
      ChunkMeaning(cs[0], lim);
      RenderedChunkClean(cs[0], lim);
      FirstOfAll(cs);
      ChunksMeaning(cs[1..], lim);
      MeantStep(cs, lim, ParseChunk(Render(cs[0]), lim), ParseChunks(RenderAll(cs[1..]), lim));
    }
  }

  lemma FirstOfAll(cs: seq<Chunk>)
    requires cs != [] && Render(cs[0]) != "" && forall ch <- Render(cs[0]) :: !Text.IsSpace(ch)
    ensures RenderAll(cs)[1..] == RenderAll(cs[1..])
    ensures RenderAll(cs) != [] && Text.Strip(RenderAll(cs)[0]) == Render(cs[0])
  {
    var s := Render(cs[0]);
    assert s[0] in s && s[|s| - 1] in s;
    StripPlain(s);
  }

  lemma FirstOrRest(cs: seq<Chunk>)
    requires cs != []
    ensures forall c :: c in cs <==> c == cs[0] || c in cs[1..]
  {
  }

  lemma RenderedChunkClean(c: Chunk, lim: Limits)
    requires PlainNames(lim) && Written(c, lim)
    ensures ',' !in Render(c) && Render(c) != "" && (Render(c) == "*" <==> c == Star)
    ensures forall ch <- Render(c) :: !Text.IsSpace(ch)
  {
    match c {
      case Star =>
      case StarStep(_) =>
      case Value(v) => AtomClean(v, lim);
      case ValueStep(v, _) => AtomClean(v, lim);
      case Range(lo, hi) =>
        AtomClean(lo, lim);
        AtomClean(hi, lim);
      case RangeStep(lo, hi, _) =>
        AtomClean(lo, lim);
        AtomClean(hi, lim);
    }
    assert forall ch | ch in Render(c) :: Text.IsDigit(ch) || IsLetter(ch) || ch in {'*', '/', '-'};
    OnlyStarIsStar(c, lim);
  }

  lemma RenderedChunkPlain(c: Chunk, lim: Limits)
    requires PlainNames(lim) && Written(c, lim)
    ensures Render(c) != "" && '@' !in Render(c)
  {
    match c {
      case Star =>
      case StarStep(_) =>
      case Value(v) => AtomClean(v, lim);
      case ValueStep(v, _) => AtomClean(v, lim);
      case Range(lo, hi) =>
        AtomClean(lo, lim);
        AtomClean(hi, lim);
      case RangeStep(lo, hi, _) =>
        AtomClean(lo, lim);
        AtomClean(hi, lim);
    }
    assert forall ch | ch in Render(c) :: Text.IsDigit(ch) || IsLetter(ch) || ch in {'*', '/', '-'};
  }

  lemma OnlyStarIsStar(c: Chunk, lim: Limits)
    requires PlainNames(lim) && Written(c, lim)
    ensures Render(c) == "*" <==> c == Star
  {
    match c {
      case Value(v) =>
        AtomClean(v, lim);
        NoMarks(AtomText(v));
      case _ =>
        if c != Star {
          LongerThanOne(c, lim);
        }
    }
  }

  lemma LongerThanOne(c: Chunk, lim: Limits)
    requires PlainNames(lim) && Written(c, lim) && c != Star && !c.Value?
    ensures |Render(c)| >= 2
  {
    match c {
      case StarStep(_) =>
      case ValueStep(v, _) => AtomClean(v, lim);
      case Range(lo, hi) => AtomClean(lo, lim);
      case RangeStep(lo, hi, _) => AtomClean(lo, lim);
    }
  }

  /** The text of a field written as a list of chunks. */
  function FieldText(cs: seq<Chunk>): string { Text.Join(RenderAll(cs), ',') }

  lemma {:induction false} JoinClean(parts: seq<string>)
    requires parts != [] && forall p <- parts :: p != "" && forall ch <- p :: !Text.IsSpace(ch)
    ensures Text.Join(parts, ',') != "" && forall ch <- Text.Join(parts, ',') :: !Text.IsSpace(ch)
    ensures |parts| > 1 ==> ',' in Text.Join(parts, ',')
  {
    assert parts[0] in parts;
    if |parts| > 1 {
      assert forall p <- parts[1..] :: p in parts;
      JoinClean(parts[1..]);
      assert (parts[0] + [','] + Text.Join(parts[1..], ','))[|parts[0]|] == ',';
    }
  }

  lemma FieldClean(cs: seq<Chunk>, lim: Limits)
    requires PlainNames(lim) && cs != [] && forall c <- cs :: Written(c, lim)
    ensures Text.IsWord(FieldText(cs)) && (FieldText(cs) == "*" <==> cs == [Star])
    ensures forall p <- RenderAll(cs) :: ',' !in p
  {
    forall p | p in RenderAll(cs) ensures ',' !in p && p != "" && forall ch <- p :: !Text.IsSpace(ch) {
      var i :| 0 <= i < |cs| && p == Render(cs[i]);
      RenderedChunkClean(cs[i], lim);
    }
    JoinClean(RenderAll(cs));
    assert cs[0] in cs;
    OnlyStarIsStar(cs[0], lim);
    if |cs| == 1 {
      assert cs == [cs[0]] && FieldText(cs) == Render(cs[0]);
    }
  }

  /** A field written as a list of chunks is accepted if and only if each of them is, means
      the union of what they admit, and counts as `*` if that is all it says. */
  lemma FieldMeaning(cs: seq<Chunk>, lim: Limits)
    requires PlainNames(lim) && 0 <= lim.minimum <= lim.maximum
    requires cs != [] && forall c <- cs :: Written(c, lim)
    ensures var field := ParseField(FieldText(cs), lim);
      && (field.Some? <==> forall c <- cs :: Accepts(c, lim))
      && (field.Some? ==>
            && (forall x :: x in field.value.values <==> FieldAdmits(cs, lim, x))
            && (field.value.any <==> cs == [Star]))
  {
    FieldClean(cs, lim);
    Text.SplitJoin(RenderAll(cs), ',');
    ChunksMeaning(cs, lim);
    var text := FieldText(cs);
    assert text[0] in text && text[|text| - 1] in text;
    StripPlain(text);
  }

  lemma LoneChunk(s: string, lim: Limits)
    requires lim.minimum <= lim.maximum && ParseChunk(Text.Strip(s), lim).Some? && ',' !in s
    ensures ParseField(s, lim) == Some(Field(Text.Strip(s) == "*", ParseChunk(Text.Strip(s), lim).value))
  {
    Text.SplitUnbroken(s, ',');
    var values := ParseChunk(Text.Strip(s), lim).value;
    assert values + {} == values;
    assert [s][1..] == [] && ParseChunks([], lim) == Some({});
  }

  /** A field written as one number. */
  lemma NumberField(n: nat, lim: Limits)
    requires PlainNames(lim) && lim.minimum <= n <= lim.maximum && (lim.sundayAsZero ==> n != 7)
    ensures ParseField(Text.Decimal(n), lim) == Some(Field(false, {n}))
  {
    var s := Text.Decimal(n);
    NumberParses(0, n, lim);
    assert Text.Zeros(0) + s == s;
    ValueMeaning(s, lim);
    NoMarks(s);
    StripPlain(s);
    LoneChunk(s, lim);
  }

  lemma StarField(lim: Limits)
    requires lim.minimum <= lim.maximum
    ensures ParseField("*", lim) == Some(Field(true, Steps(lim.minimum, lim.maximum, 1)))
  {
    StripPlain("*");
    LoneChunk("*", lim);
  }
}
