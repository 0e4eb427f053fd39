/** The order in which sets happen to be iterated leaves no trace in the encoding. */
module SetOrder {
  import opened Wrappers
  import opened Values
  import opened Codec
  import opened CodecLaws
  import Pointer

  // ------------------------------------------------- the order of the texts

  lemma {:induction false} LessEqReflexive(a: string)
    ensures LessEq(a, a)
  {
    if a != [] {
      LessEqReflexive(a[1..]);
    }
  }

  lemma {:induction false} LessEqTotal(a: string, b: string)
    ensures LessEq(a, b) || LessEq(b, a)
  {
    if a != [] && b != [] {
      LessEqTotal(a[1..], b[1..]);
    }
  }

  lemma {:induction false} LessEqAntisymmetric(a: string, b: string)
    requires LessEq(a, b) && LessEq(b, a)
    ensures a == b
  {
    if a != [] {
      LessEqAntisymmetric(a[1..], b[1..]);
      assert a == [a[0]] + a[1..] && b == [b[0]] + b[1..];
    }
  }

  lemma {:induction false} LessEqTransitive(a: string, b: string, c: string)
    requires LessEq(a, b) && LessEq(b, c)
    ensures LessEq(a, c)
  {
    if a != [] && a[0] == b[0] == c[0] {
      LessEqTransitive(a[1..], b[1..], c[1..]);
    }
  }

  // ---------------------------------------------------------------- sorting

  ghost predicate Sorted(key: Json -> string, xs: seq<Json>) {
    forall i, j :: 0 <= i < j < |xs| ==> LessEq(key(xs[i]), key(xs[j]))
  }

  lemma {:induction false} InsertSorts(key: Json -> string, x: Json, xs: seq<Json>)
    requires Sorted(key, xs)
    ensures Sorted(key, Insert(key, x, xs))
  {
    if xs == [] {
    } else if LessEq(key(x), key(xs[0])) {
      forall i | 0 <= i < |xs| ensures LessEq(key(x), key(xs[i])) {
        if i > 0 {
          LessEqTransitive(key(x), key(xs[0]), key(xs[i]));
        }
      }
    } else {
      LessEqTotal(key(x), key(xs[0]));
      InsertSorts(key, x, xs[1..]);
      var rest := Insert(key, x, xs[1..]);
      forall i | 0 <= i < |rest| ensures LessEq(key(xs[0]), key(rest[i])) {
        assert rest[i] in multiset(rest);
        assert rest[i] == x || rest[i] in xs[1..];
      }
    }
  }

  lemma {:induction false} SortSorts(key: Json -> string, xs: seq<Json>)
    ensures Sorted(key, Sort(key, xs))
  {
    if xs != [] {
      SortSorts(key, xs[1..]);
      InsertSorts(key, xs[0], Sort(key, xs[1..]));
    }
  }

  /** Different elements have different keys. */
  ghost predicate KeysTell(key: Json -> string, xs: seq<Json>) {
    forall x, y :: x in xs && y in xs && key(x) == key(y) ==> x == y
  }

  ghost predicate Distinct(xs: seq<Json>) {
    forall i, j :: 0 <= i < j < |xs| ==> xs[i] != xs[j]
  }

  lemma SameHead(key: Json -> string, a: seq<Json>, b: seq<Json>)
    requires a != [] && b != [] && a[0] in b && b[0] in a
    requires Sorted(key, a) && Sorted(key, b) && KeysTell(key, a)
    ensures a[0] == b[0]
  {
    var i :| 0 <= i < |b| && b[i] == a[0];
    var j :| 0 <= j < |a| && a[j] == b[0];
    LessEqReflexive(key(a[0]));
    LessEqAntisymmetric(key(a[0]), key(b[0]));
  }

  lemma SameTail(a: seq<Json>, b: seq<Json>)
    requires a != [] && b != [] && a[0] == b[0] && multiset(a) == multiset(b)
    ensures multiset(a[1..]) == multiset(b[1..])
  {
    assert a == [a[0]] + a[1..] && b == [b[0]] + b[1..];
    assert multiset(a[1..]) == multiset(a) - multiset{a[0]};
    assert multiset(b[1..]) == multiset(b) - multiset{b[0]};
  }

  /** Two sorted lists of the same elements are the same list. */
  lemma {:induction false} SortedUnique(key: Json -> string, a: seq<Json>, b: seq<Json>)
    requires Sorted(key, a) && Sorted(key, b) && KeysTell(key, a) && multiset(a) == multiset(b)
    ensures a == b
  {
    assert |a| == |multiset(a)| == |multiset(b)| == |b|;
    if a != [] {
      assert a[0] in multiset(b) && b[0] in multiset(a);
      SameHead(key, a, b);
      SameTail(a, b);
      SortedUnique(key, a[1..], b[1..]);
      assert a == [a[0]] + a[1..] && b == [b[0]] + b[1..];
    }
  }

  // ------------------------------------------------- equal up to field order

  /** The same JSON value, dict entries in any order. */
  ghost predicate Reordered(a: Json, b: Json)
    decreases a
  {
    match (a, b)
    case (JList(xs), JList(ys)) => |xs| == |ys| && forall i :: 0 <= i < |xs| ==> Reordered(xs[i], ys[i])
    case (JDict(es), JDict(fs)) =>
      && EntryKeys(es) == EntryKeys(fs)
      && forall k :: k in EntryKeys(es) ==>
        (FindIsSmaller(a, k); FindIsSmaller(b, k); Reordered(Find(es, k).value, Find(fs, k).value))
    case _ => a == b
  }

  /** The JSON text with sorted keys determines the JSON value up to entry order. */
  ghost predicate TextDetermines(env: Env) {
    forall a, b :: env.dumps(a) == env.dumps(b) ==> Reordered(a, b)
  }

  lemma ReorderedField(a: Json, b: Json, k: string)
    requires a.JDict? && b.JDict? && Reordered(a, b) && k in EntryKeys(a.entries)
    ensures Find(a.entries, k).Some? && Find(b.entries, k).Some?
    ensures Reordered(Find(a.entries, k).value, Find(b.entries, k).value)
  {
    FindIsSmaller(a, k);
    FindIsSmaller(b, k);
  }

  lemma FindFirst(entries: seq<(string, Json)>)
    requires entries != []
    ensures entries[0].0 in EntryKeys(entries) && Find(entries, entries[0].0) == Some(entries[0].1)
  {
  }

  /** Tagged values equal up to order have the same type and pairwise equal fields. */
  lemma TaggedReordered(s: string, fs: seq<(string, Json)>, t: string, gs: seq<(string, Json)>)
    requires Reordered(Tagged(s, fs), Tagged(t, gs))
    ensures s == t
    ensures Reordered(JDict(Payload(s, fs)), JDict(Payload(t, gs)))
  {
    var a, b := Tagged(s, fs), Tagged(t, gs);
    FindFirst(a.entries);
    FindFirst(b.entries);
    ReorderedField(a, b, TAG);
    FindFirst(Payload(s, fs));
    FindFirst(Payload(t, gs));
    ReorderedField(JDict(Payload(s, fs)), JDict(Payload(t, gs)), "type");
  }

  lemma FieldReordered(s: string, fs: seq<(string, Json)>, gs: seq<(string, Json)>, k: string)
    requires Reordered(Tagged(s, fs), Tagged(s, gs)) && Find(Payload(s, fs), k).Some? && Find(Payload(s, gs), k).Some?
    requires k in EntryKeys(Payload(s, fs))
    ensures Reordered(Find(Payload(s, fs), k).value, Find(Payload(s, gs), k).value)
  {
    TaggedReordered(s, fs, s, gs);
    ReorderedField(JDict(Payload(s, fs)), JDict(Payload(s, gs)), k);
  }

  // --------------------------------------- a hashable value from its encoding

  /** The extension type a hashable value is encoded as, if any. */
  function TagOf(v: Value): Option<string> {
    match v
    case DateTime(_, _) => Some("datetime")
    case Leaf(kind, _) => Some(LeafTag(kind))
    case Tuple(_) => Some("tuple")
    case NamedTuple(_, _) => Some("namedtuple")
    case FrozenSet(_) => Some("frozenset")
    case Enum(_, _, _) => Some("enum")
    case _ => None
  }

  predicate HasTag(j: Json, typeName: string) {
    && j.JDict? && |j.entries| == 1 && j.entries[0].0 == TAG && j.entries[0].1.JDict?
    && |j.entries[0].1.entries| > 0 && j.entries[0].1.entries[0] == ("type", JStr(typeName))
  }

  lemma EncodedTag(env: Env, it: Iteration, v: Value, path: string)
    requires ValidIteration(it) && Hashable(v) && Encode(env, it, v, path).Good?
    ensures var j := Encode(env, it, v, path).value;
      if TagOf(v).None? then !j.JDict? && !j.JList? else HasTag(j, TagOf(v).value)
  {
    match v {
      case FrozenSet(members) =>
        var js := EncodeAll(env, it, v, it(members), SetTokens(|it(members)|), path).value;
        assert HasTag(Tagged("frozenset", [("values", JList(Sort(env.dumps, js)))]), "frozenset");
      case _ =>
    }
  }

  lemma ReorderedTags(a: Json, s: string, b: Json, t: string)
    requires Reordered(a, b) && HasTag(a, s) && HasTag(b, t)
    ensures s == t
  {
    FindFirst(a.entries);
    FindFirst(b.entries);
    ReorderedField(a, b, TAG);
    FindFirst(a.entries[0].1.entries);
    FindFirst(b.entries[0].1.entries);
    ReorderedField(a.entries[0].1, b.entries[0].1, "type");
  }

  lemma PlainAgree(env: Env, it: Iteration, it': Iteration, x: Value, y: Value, p: string, q: string)
    requires ValidIteration(it) && ValidIteration(it') && Hashable(x) && Hashable(y)
    requires TagOf(x).None? && TagOf(y).None?
    requires Encode(env, it, x, p).Good? && Encode(env, it', y, q) == Encode(env, it, x, p)
    ensures x == y
  {
  }

  lemma TagsAgree(env: Env, it: Iteration, it': Iteration, x: Value, y: Value, p: string, q: string)
    requires ValidIteration(it) && ValidIteration(it') && Hashable(x) && Hashable(y)
    requires Encode(env, it, x, p).Good? && Encode(env, it', y, q).Good?
    requires Reordered(Encode(env, it, x, p).value, Encode(env, it', y, q).value)
    ensures TagOf(x) == TagOf(y)
    ensures TagOf(x).None? ==> x == y
  {
    EncodedTag(env, it, x, p);
    EncodedTag(env, it', y, q);
    var a, b := Encode(env, it, x, p).value, Encode(env, it', y, q).value;
    if TagOf(x).Some? && TagOf(y).Some? {
      ReorderedTags(a, TagOf(x).value, b, TagOf(y).value);
    } else {
      assert a.JDict? <==> b.JDict?;
      PlainAgree(env, it, it', x, y, p, q);
    }
  }

  lemma SameTagSameKind(x: Value, y: Value)
    requires TagOf(x) == TagOf(y) && TagOf(x).Some?
    ensures x.DateTime? ==> y.DateTime?
    ensures x.Leaf? ==> y.Leaf? && x.kind == y.kind
    ensures x.Tuple? ==> y.Tuple?
    ensures x.NamedTuple? ==> y.NamedTuple?
    ensures x.FrozenSet? ==> y.FrozenSet?
    ensures x.Enum? ==> y.Enum?
  {
    assert LeafTag(Uuid)[0] == 'u' && LeafTag(Bytes)[0] == 'b' && LeafTag(Decimal)[2] == 'c';
    assert "datetime"[2] == 't' && "tuple"[0] == 't' && "namedtuple"[0] == 'n' && "frozenset"[0] == 'f' && "enum"[0] == 'e';
  }

  /** The two field lists hold the same string under `k`. */
  lemma SameText(s: string, fs: seq<(string, Json)>, gs: seq<(string, Json)>, k: string, a: string, b: string)
    requires Reordered(Tagged(s, fs), Tagged(s, gs)) && k in EntryKeys(Payload(s, fs))
    requires Find(Payload(s, fs), k) == Some(JStr(a)) && Find(Payload(s, gs), k) == Some(JStr(b))
    ensures a == b
  {
    FieldReordered(s, fs, gs, k);
  }

  lemma LeafFromJson(env: Env, kind: LeafKind, a: int, b: int)
    requires LeavesInvert(env)
    requires Reordered(Tagged(LeafTag(kind), [("value", JStr(env.printLeaf(kind, a)))]),
                       Tagged(LeafTag(kind), [("value", JStr(env.printLeaf(kind, b)))]))
    ensures a == b
  {
    var fs, gs := [("value", JStr(env.printLeaf(kind, a)))], [("value", JStr(env.printLeaf(kind, b)))];
    PayloadOne(LeafTag(kind), "value", fs[0].1);
    PayloadOne(LeafTag(kind), "value", gs[0].1);
    SameText(LeafTag(kind), fs, gs, "value", env.printLeaf(kind, a), env.printLeaf(kind, b));
    assert env.parseLeaf(kind, env.printLeaf(kind, a)) == Some(a);
  }

  lemma DateTimeFromJson(env: Env, a: int, fold: int, b: int, fold': int)
    requires LeavesInvert(env)
    requires Reordered(Tagged("datetime", [("value", JStr(env.printInstant(a))), ("fold", JInt(fold))]),
                       Tagged("datetime", [("value", JStr(env.printInstant(b))), ("fold", JInt(fold'))]))
    ensures a == b && fold == fold'
  {
    var fs := [("value", JStr(env.printInstant(a))), ("fold", JInt(fold))];
    var gs := [("value", JStr(env.printInstant(b))), ("fold", JInt(fold'))];
    PayloadTwo("datetime", "value", fs[0].1, "fold", fs[1].1);
    PayloadTwo("datetime", "value", gs[0].1, "fold", gs[1].1);
    SameText("datetime", fs, gs, "value", env.printInstant(a), env.printInstant(b));
    FieldReordered("datetime", fs, gs, "fold");
    assert env.parseInstant(env.printInstant(a)) == Some(a);
  }

  /** The "values" lists of two tagged containers agree item by item. */
  ghost predicate AllReordered(xs: seq<Json>, ys: seq<Json>) {
    |xs| == |ys| && forall i :: 0 <= i < |xs| ==> Reordered(xs[i], ys[i])
  }

  lemma ValuesFromJson(s: string, xs: seq<Json>, ys: seq<Json>)
    requires Reordered(Tagged(s, [("values", JList(xs))]), Tagged(s, [("values", JList(ys))]))
    ensures AllReordered(xs, ys)
  {
    PayloadOne(s, "values", JList(xs));
    PayloadOne(s, "values", JList(ys));
    FieldReordered(s, [("values", JList(xs))], [("values", JList(ys))], "values");
  }

  lemma EnumFromJson(env: Env, c: Class, m: string, j: Json, d: Class, n: string, k: Json)
    requires Replayable(env, c) && Replayable(env, d)
    requires Reordered(Tagged("enum", EnumFields(c, m, j)), Tagged("enum", EnumFields(d, n, k)))
    ensures c == d && m == n
  {
    PayloadFour("enum", "module", JStr(c.mod), "qualname", JStr(c.qualname), "name", JStr(m), "value", j);
    PayloadFour("enum", "module", JStr(d.mod), "qualname", JStr(d.qualname), "name", JStr(n), "value", k);
    SameText("enum", EnumFields(c, m, j), EnumFields(d, n, k), "module", c.mod, d.mod);
    SameText("enum", EnumFields(c, m, j), EnumFields(d, n, k), "qualname", c.qualname, d.qualname);
    SameText("enum", EnumFields(c, m, j), EnumFields(d, n, k), "name", m, n);
  }

  function TupleFields(env: Env, cls: Class, js: seq<Json>): seq<(string, Json)> {
    [("module", JStr(cls.mod)), ("qualname", JStr(cls.qualname)),
     ("fields", JList(Strings(Fields(env, cls)))), ("values", JList(js))]
  }

  lemma NamedTupleFromJson(env: Env, c: Class, xs: seq<Json>, d: Class, ys: seq<Json>)
    requires Replayable(env, c) && Replayable(env, d)
    requires Reordered(Tagged("namedtuple", TupleFields(env, c, xs)), Tagged("namedtuple", TupleFields(env, d, ys)))
    ensures c == d && |xs| == |ys| && forall i :: 0 <= i < |xs| ==> Reordered(xs[i], ys[i])
  {
    var fs, gs := TupleFields(env, c, xs), TupleFields(env, d, ys);
    PayloadFour("namedtuple", "module", fs[0].1, "qualname", fs[1].1, "fields", fs[2].1, "values", fs[3].1);
    PayloadFour("namedtuple", "module", gs[0].1, "qualname", gs[1].1, "fields", gs[2].1, "values", gs[3].1);
    SameText("namedtuple", fs, gs, "module", c.mod, d.mod);
    SameText("namedtuple", fs, gs, "qualname", c.qualname, d.qualname);
    FieldReordered("namedtuple", fs, gs, "values");
  }

  /** What is compared: two hashable values encoded under possibly different set orders. */
  ghost predicate Comparable(env: Env, it: Iteration, it': Iteration, x: Value, y: Value, p: string, q: string) {
    && ValidIteration(it) && ValidIteration(it') && LeavesInvert(env)
    && Hashable(x) && Real(x) && Consistent(env, x) && Encode(env, it, x, p).Good?
    && Hashable(y) && Real(y) && Consistent(env, y) && Encode(env, it', y, q).Good?
  }

  /** A hashable value is determined by its encoding up to entry order, whichever order
      its own sets were iterated in. */
  lemma {:induction false} EncodingDetermines(env: Env, it: Iteration, it': Iteration, x: Value, y: Value, p: string, q: string)
    requires Comparable(env, it, it', x, y, p, q)
    requires Reordered(Encode(env, it, x, p).value, Encode(env, it', y, q).value)
    ensures x == y
    decreases x, 1
  {
    TagsAgree(env, it, it', x, y, p, q);
    if TagOf(x).Some? {
      SameTagSameKind(x, y);
      match x {
        case DateTime(_, _) => SameDateTime(env, it, it', x, y, p, q);
        case Leaf(_, _) => SameLeaf(env, it, it', x, y, p, q);
        case Tuple(_) => SameTuple(env, it, it', x, y, p, q);
        case NamedTuple(_, _) => SameNamedTuple(env, it, it', x, y, p, q);
        case FrozenSet(_) => SameFrozenSet(env, it, it', x, y, p, q);
        case Enum(_, _, _) => SameEnum(env, it, it', x, y, p, q);
      }
    }
  }

  lemma SameDateTime(env: Env, it: Iteration, it': Iteration, x: Value, y: Value, p: string, q: string)
    requires Comparable(env, it, it', x, y, p, q) && x.DateTime? && y.DateTime?
    requires Reordered(Encode(env, it, x, p).value, Encode(env, it', y, q).value)
    ensures x == y
  {
    DateTimeFromJson(env, x.instant, x.fold, y.instant, y.fold);
  }

  lemma SameLeaf(env: Env, it: Iteration, it': Iteration, x: Value, y: Value, p: string, q: string)
    requires Comparable(env, it, it', x, y, p, q) && x.Leaf? && y.Leaf? && x.kind == y.kind
    requires Reordered(Encode(env, it, x, p).value, Encode(env, it', y, q).value)
    ensures x == y
  {
    LeafFromJson(env, x.kind, x.id, y.id);
  }

  /** Class and name determine an enum object, so its value needs no comparison. */
  lemma SameEnum(env: Env, it: Iteration, it': Iteration, x: Value, y: Value, p: string, q: string)
    requires Comparable(env, it, it', x, y, p, q) && x.Enum? && y.Enum?
    requires Reordered(Encode(env, it, x, p).value, Encode(env, it', y, q).value)
    ensures x == y
  {
    EnumTags(env, x.cls, x.name, Encode(env, it, x, p).value, y.cls, y.name, Encode(env, it', y, q).value);
  }

  lemma EnumTags(env: Env, c: Class, m: string, j: Json, d: Class, n: string, k: Json)
    requires IsEnumTag(env, c, m, j) && IsEnumTag(env, d, n, k) && Reordered(j, k)
    ensures c == d && m == n
  {
    var a :| j == Tagged("enum", EnumFields(c, m, a));
    var b :| k == Tagged("enum", EnumFields(d, n, b));
    EnumFromJson(env, c, m, a, d, n, b);
  }

  lemma SameItems(env: Env, it: Iteration, it': Iteration, x: Value, y: Value, xs: seq<Value>, ys: seq<Value>,
                  ts: seq<string>, us: seq<string>, p: string, q: string)
    requires ValidIteration(it) && ValidIteration(it') && LeavesInvert(env) && |xs| == |ts| && |ys| == |us|
    requires forall v <- xs :: v < x && Hashable(v) && Real(v) && Consistent(env, v)
    requires forall v <- ys :: v < y && Hashable(v) && Real(v) && Consistent(env, v)
    requires EncodeAll(env, it, x, xs, ts, p).Good? && EncodeAll(env, it', y, ys, us, q).Good?
    requires |xs| == |ys|
    requires forall i :: 0 <= i < |xs| ==>
      Reordered(EncodeAll(env, it, x, xs, ts, p).value[i], EncodeAll(env, it', y, ys, us, q).value[i])
    ensures xs == ys
    decreases x, 0, 1
  {
    EncodeAllItems(env, it, x, xs, ts, p);
    EncodeAllItems(env, it', y, ys, us, q);
    forall i | 0 <= i < |xs| ensures xs[i] == ys[i] {
      assert xs[i] in xs && ys[i] in ys;
      EncodingDetermines(env, it, it', xs[i], ys[i], Pointer.Extend(p, ts[i]), Pointer.Extend(q, us[i]));
    }
  }

  lemma SameTuple(env: Env, it: Iteration, it': Iteration, x: Value, y: Value, p: string, q: string)
    requires Comparable(env, it, it', x, y, p, q) && x.Tuple? && y.Tuple?
    requires Reordered(Encode(env, it, x, p).value, Encode(env, it', y, q).value)
    ensures x == y
    decreases x, 0, 2
  {
    ValuesFromJson("tuple", EncodeAll(env, it, x, x.items, Indices(|x.items|), p).value,
                   EncodeAll(env, it', y, y.items, Indices(|y.items|), q).value);
    SameItems(env, it, it', x, y, x.items, y.items, Indices(|x.items|), Indices(|y.items|), p, q);
  }

  lemma SameNamedTuple(env: Env, it: Iteration, it': Iteration, x: Value, y: Value, p: string, q: string)
    requires Comparable(env, it, it', x, y, p, q) && x.NamedTuple? && y.NamedTuple?
    requires Reordered(Encode(env, it, x, p).value, Encode(env, it', y, q).value)
    ensures x == y
    decreases x, 0, 2
  {
    var fs, gs := Fields(env, x.cls), Fields(env, y.cls);
    assert x.items[..|x.items|] == x.items && fs[..|x.items|] == fs;
    assert y.items[..|y.items|] == y.items && gs[..|y.items|] == gs;
    NamedTupleFromJson(env, x.cls, EncodeAll(env, it, x, x.items, fs, p).value,
                       y.cls, EncodeAll(env, it', y, y.items, gs, q).value);
    SameItems(env, it, it', x, y, x.items, y.items, fs, gs, p, q);
  }

  /** The encoded members of a set, one for each in iteration order. */
  ghost predicate MembersAs(env: Env, it: Iteration, members: set<Value>, path: string, js: seq<Json>)
    requires ValidIteration(it)
  {
    && |js| == |it(members)|
    && forall i :: 0 <= i < |js| ==> Encode(env, it, it(members)[i], Pointer.Extend(path, "set")) == Good(js[i])
  }

  lemma FrozenSetParts(env: Env, it: Iteration, x: Value, p: string) returns (js: seq<Json>)
    requires ValidIteration(it) && x.FrozenSet? && Encode(env, it, x, p).Good?
    ensures MembersAs(env, it, x.members, p, js)
    ensures Encode(env, it, x, p).value == Tagged("frozenset", [("values", JList(Sort(env.dumps, js)))])
  {
    FrozenSetEncoded(env, it, x.members, p);
    js := SetEncoded(env, it, x, x.members, "frozenset", p);
  }

  lemma FrozenSetEncoded(env: Env, it: Iteration, members: set<Value>, p: string)
    requires ValidIteration(it)
    ensures Encode(env, it, FrozenSet(members), p) == EncodeSet(env, it, FrozenSet(members), members, "frozenset", p)
  {
  }

  lemma SetEncoded(env: Env, it: Iteration, x: Value, members: set<Value>, typeName: string, p: string) returns (js: seq<Json>)
    requires ValidIteration(it) && (forall m <- members :: m < x)
    requires EncodeSet(env, it, x, members, typeName, p).Good?
    ensures MembersAs(env, it, members, p, js)
    ensures EncodeSet(env, it, x, members, typeName, p).value == Tagged(typeName, [("values", JList(Sort(env.dumps, js)))])
  {
    var order := it(members);
    assert Enumerates(order, members);
    js := EncodeAll(env, it, x, order, SetTokens(|order|), p).value;
    EncodeAllItems(env, it, x, order, SetTokens(|order|), p);
  }

  lemma SameFrozenSet(env: Env, it: Iteration, it': Iteration, x: Value, y: Value, p: string, q: string)
    requires Comparable(env, it, it', x, y, p, q) && x.FrozenSet? && y.FrozenSet?
    requires Reordered(Encode(env, it, x, p).value, Encode(env, it', y, q).value)
    ensures x == y
    decreases x, 0, 3
  {
    var js := FrozenSetParts(env, it, x, p);
    var ks := FrozenSetParts(env, it', y, q);
    ListsMatch("frozenset", Sort(env.dumps, js), Sort(env.dumps, ks),
               Encode(env, it, x, p).value, Encode(env, it', y, q).value);
    SideOf(env, it, x, p, js);
    SideOf(env, it', y, q, ks);
    MembersMatch(env, it, it', x, y, p, q, js, ks);
  }

  ghost predicate Side(env: Env, it: Iteration, members: set<Value>, path: string, js: seq<Json>) {
    && ValidIteration(it) && LeavesInvert(env) && MembersAs(env, it, members, path, js)
    && Enumerates(it(members), members)
    && forall v <- members :: Hashable(v) && Real(v) && Consistent(env, v)
  }

  lemma SideOf(env: Env, it: Iteration, x: Value, p: string, js: seq<Json>)
    requires ValidIteration(it) && LeavesInvert(env) && x.FrozenSet? && MembersAs(env, it, x.members, p, js)
    requires Real(x) && Consistent(env, x)
    ensures Side(env, it, x.members, p, js)
  {
  }

  lemma ListsMatch(s: string, xs: seq<Json>, ys: seq<Json>, j: Json, k: Json)
    requires j == Tagged(s, [("values", JList(xs))]) && k == Tagged(s, [("values", JList(ys))]) && Reordered(j, k)
    ensures AllReordered(xs, ys)
  {
    ValuesFromJson(s, xs, ys);
  }

  /** Two members with encodings equal up to order are the same member. */
  lemma SameMember(env: Env, it: Iteration, it': Iteration, x: Value, y: Value, p: string, q: string,
                   js: seq<Json>, ks: seq<Json>, i: nat, l: nat)
    requires x.FrozenSet? && y.FrozenSet?
    requires Side(env, it, x.members, p, js) && Side(env, it', y.members, q, ks)
    requires i < |js| && l < |ks| && Reordered(js[i], ks[l])
    ensures it(x.members)[i] == it'(y.members)[l]
    decreases x, 0, 0
  {
    var v, w := it(x.members)[i], it'(y.members)[l];
    assert v in x.members && w in y.members;
    EncodingDetermines(env, it, it', v, w, Pointer.Extend(p, "set"), Pointer.Extend(q, "set"));
  }

  /** Item `i` of the one order is a member of the other set. */
  lemma ForwardMatch(env: Env, it: Iteration, it': Iteration, x: Value, y: Value, p: string, q: string,
                     js: seq<Json>, ks: seq<Json>, i: nat)
    requires x.FrozenSet? && y.FrozenSet? && i < |it(x.members)|
    requires Side(env, it, x.members, p, js) && Side(env, it', y.members, q, ks) && |js| == |ks|
    requires AllReordered(Sort(env.dumps, js), Sort(env.dumps, ks))
    ensures it(x.members)[i] in y.members
    decreases x, 0, 1
  {
    var k, l := SortedPartner(env, js, ks, i);
    SameMember(env, it, it', x, y, p, q, js, ks, i, l);
    assert it'(y.members)[l] in it'(y.members);
  }

  lemma BackwardMatch(env: Env, it: Iteration, it': Iteration, x: Value, y: Value, p: string, q: string,
                      js: seq<Json>, ks: seq<Json>, i: nat)
    requires x.FrozenSet? && y.FrozenSet? && i < |it'(y.members)|
    requires Side(env, it, x.members, p, js) && Side(env, it', y.members, q, ks) && |js| == |ks|
    requires AllReordered(Sort(env.dumps, js), Sort(env.dumps, ks))
    ensures it'(y.members)[i] in x.members
    decreases x, 0, 1
  {
    var k, l := PartnerSorted(env, js, ks, i);
    SameMember(env, it, it', x, y, p, q, js, ks, l, i);
    assert it(x.members)[l] in it(x.members);
  }

  lemma SameSets(a: seq<Value>, xs: set<Value>, b: seq<Value>, ys: set<Value>)
    requires Enumerates(a, xs) && Enumerates(b, ys)
    requires (forall i :: 0 <= i < |a| ==> a[i] in ys) && (forall i :: 0 <= i < |b| ==> b[i] in xs)
    ensures xs == ys
  {
    forall v ensures v in xs <==> v in ys {
      assert v in xs <==> v in a;
      assert v in ys <==> v in b;
    }
  }

  lemma MembersMatch(env: Env, it: Iteration, it': Iteration, x: Value, y: Value, p: string, q: string,
                     js: seq<Json>, ks: seq<Json>)
    requires x.FrozenSet? && y.FrozenSet?
    requires Side(env, it, x.members, p, js) && Side(env, it', y.members, q, ks) && |js| == |ks|
    requires AllReordered(Sort(env.dumps, js), Sort(env.dumps, ks))
    ensures x.members == y.members
    decreases x, 0, 2
  {
    forall i | 0 <= i < |it(x.members)| ensures it(x.members)[i] in y.members {
      ForwardMatch(env, it, it', x, y, p, q, js, ks, i);
    }
    forall i | 0 <= i < |it'(y.members)| ensures it'(y.members)[i] in x.members {
      BackwardMatch(env, it, it', x, y, p, q, js, ks, i);
    }
    SameSets(it(x.members), x.members, it'(y.members), y.members);
  }

  lemma PositionOf<T>(x: T, xs: seq<T>, ys: seq<T>) returns (k: nat)
    requires multiset(xs) == multiset(ys) && x in xs
    ensures k < |ys| && ys[k] == x
  {
    assert x in multiset(ys);
    k :| 0 <= k < |ys| && ys[k] == x;
  }

  lemma SortedPartner(env: Env, js: seq<Json>, ks: seq<Json>, i: nat) returns (k: nat, l: nat)
    requires i < |js| && |js| == |ks|
    requires AllReordered(Sort(env.dumps, js), Sort(env.dumps, ks))
    ensures l < |ks| && Reordered(js[i], ks[l])
  {
    k := PositionOf(js[i], js, Sort(env.dumps, js));
    l := PositionOf(Sort(env.dumps, ks)[k], Sort(env.dumps, ks), ks);
  }

  lemma PartnerSorted(env: Env, js: seq<Json>, ks: seq<Json>, i: nat) returns (k: nat, l: nat)
    requires i < |ks| && |js| == |ks|
    requires AllReordered(Sort(env.dumps, js), Sort(env.dumps, ks))
    ensures l < |js| && Reordered(js[l], ks[i])
  {
    k := PositionOf(ks[i], ks, Sort(env.dumps, ks));
    l := PositionOf(Sort(env.dumps, js)[k], Sort(env.dumps, js), js);
  }

  // ------------------------------------------------ one encoding per value

  lemma {:induction false} DistinctCounts(xs: seq<Json>, x: Json)
    requires Distinct(xs)
    ensures multiset(xs)[x] == if x in xs then 1 else 0
  {
    if xs != [] {
      assert xs == [xs[0]] + xs[1..];
      DistinctCounts(xs[1..], x);
    }
  }

  lemma SameElements(xs: seq<Json>, ys: seq<Json>)
    requires Distinct(xs) && Distinct(ys) && forall x :: x in xs <==> x in ys
    ensures multiset(xs) == multiset(ys)
  {
    forall x ensures multiset(xs)[x] == multiset(ys)[x] {
      DistinctCounts(xs, x);
      DistinctCounts(ys, x);
    }
  }

  /** The texts the members are sorted by tell them apart. */
  lemma TextsTellMembers(env: Env, it: Iteration, members: set<Value>, p: string, js: seq<Json>)
    requires Side(env, it, members, p, js) && TextDetermines(env)
    ensures KeysTell(env.dumps, js) && Distinct(js)
  {
    var a := it(members);
    forall i, l | 0 <= i < |js| && 0 <= l < |js| && env.dumps(js[i]) == env.dumps(js[l]) ensures i == l {
      assert a[i] in members && a[l] in members && Reordered(js[i], js[l]);
      EncodingDetermines(env, it, it, a[i], a[l], Pointer.Extend(p, "set"), Pointer.Extend(p, "set"));
    }
  }

  ghost predicate Agree(env: Env, it: Iteration, it': Iteration, members: set<Value>, p: string)
    requires ValidIteration(it) && ValidIteration(it')
  {
    forall x <- members :: Encode(env, it, x, Pointer.Extend(p, "set")) == Encode(env, it', x, Pointer.Extend(p, "set"))
  }

  lemma EncodedInBoth(env: Env, it: Iteration, it': Iteration, members: set<Value>, p: string,
                      js: seq<Json>, ks: seq<Json>, j: Json)
    requires Side(env, it, members, p, js) && Side(env, it', members, p, ks)
    requires Agree(env, it, it', members, p) && j in js
    ensures j in ks
  {
    var a, b := it(members), it'(members);
    var i :| 0 <= i < |js| && js[i] == j;
    assert a[i] in a;
    assert a[i] in members;
    var l :| 0 <= l < |b| && b[l] == a[i];
    assert ks[l] == j;
  }

  lemma SortKeepsTelling(key: Json -> string, xs: seq<Json>)
    requires KeysTell(key, xs)
    ensures KeysTell(key, Sort(key, xs))
  {
    forall x | x in Sort(key, xs) ensures x in xs {
      assert x in multiset(Sort(key, xs));
    }
  }

  lemma SortedAlike(env: Env, it: Iteration, it': Iteration, members: set<Value>, p: string, js: seq<Json>, ks: seq<Json>)
    requires Side(env, it, members, p, js) && Side(env, it', members, p, ks) && TextDetermines(env)
    requires Agree(env, it, it', members, p)
    ensures Sort(env.dumps, js) == Sort(env.dumps, ks)
  {
    TextsTellMembers(env, it, members, p, js);
    TextsTellMembers(env, it', members, p, ks);
    forall j ensures j in js <==> j in ks {
      if j in js {
        EncodedInBoth(env, it, it', members, p, js, ks, j);
      }
      if j in ks {
        EncodedInBoth(env, it', it, members, p, ks, js, j);
      }
    }
    SameElements(js, ks);
    SortSorts(env.dumps, js);
    SortSorts(env.dumps, ks);
    SortKeepsTelling(env.dumps, js);
    SortedUnique(env.dumps, Sort(env.dumps, js), Sort(env.dumps, ks));
  }

  lemma SetParts(env: Env, it: Iteration, v: Value, members: set<Value>, typeName: string, p: string) returns (js: seq<Json>)
    requires ValidIteration(it) && LeavesInvert(env) && EncodeSet.requires(env, it, v, members, typeName, p)
    requires forall x <- members :: Hashable(x) && Real(x) && Consistent(env, x)
    requires EncodeSet(env, it, v, members, typeName, p).Good?
    ensures Side(env, it, members, p, js)
    ensures EncodeSet(env, it, v, members, typeName, p).value == Tagged(typeName, [("values", JList(Sort(env.dumps, js)))])
  {
    assert Enumerates(it(members), members);
    js := EncodeAll(env, it, v, it(members), SetTokens(|it(members)|), p).value;
    EncodeAllItems(env, it, v, it(members), SetTokens(|it(members)|), p);
  }

  /** What is assumed of the environment, the two orders and the value. */
  ghost predicate Setting(env: Env, it: Iteration, it': Iteration) {
    ValidIteration(it) && ValidIteration(it') && LeavesInvert(env) && TextDetermines(env)
  }

  /** An accepted value has one encoding, whatever order its sets are iterated in. */
  lemma {:induction false} EncodingIsCanonical(env: Env, it: Iteration, it': Iteration, v: Value, path: string)
    requires Setting(env, it, it') && Real(v) && Consistent(env, v) && Encodable(env, v)
    ensures Encode(env, it, v, path) == Encode(env, it', v, path)
    decreases v, 2
  {
    match v {
      case Enum(cls, name, value) => EncodingIsCanonical(env, it, it', value, Pointer.Extend(path, "value"));
      case NamedTuple(cls, items) =>
        var fields := Fields(env, cls);
        assert items[..|items|] == items && fields[..|items|] == fields;
        ItemsCanonical(env, it, it', v, items, fields, path);
      case Tuple(items) => ItemsCanonical(env, it, it', v, items, Indices(|items|), path);
      case List(items) => ItemsCanonical(env, it, it', v, items, Indices(|items|), path);
      case PySet(members) => SetCanonical(env, it, it', v, members, "set", path);
      case FrozenSet(members) => SetCanonical(env, it, it', v, members, "frozenset", path);
      case Dict(entries) => DictCanonical(env, it, it', v, entries, path);
      case _ =>
    }
  }

  lemma {:induction false} ItemsCanonical(env: Env, it: Iteration, it': Iteration, v: Value, items: seq<Value>,
                                          tokens: seq<string>, path: string)
    requires Setting(env, it, it') && |items| == |tokens|
    requires forall x <- items :: x < v && Real(x) && Consistent(env, x) && Encodable(env, x)
    ensures EncodeAll(env, it, v, items, tokens, path) == EncodeAll(env, it', v, items, tokens, path)
    decreases v, 0, |items|
  {
    if items != [] {
      assert items[0] in items && forall x <- items[1..] :: x in items;
      EncodingIsCanonical(env, it, it', items[0], Pointer.Extend(path, tokens[0]));
      ItemsCanonical(env, it, it', v, items[1..], tokens[1..], path);
    }
  }

  lemma DictCanonical(env: Env, it: Iteration, it': Iteration, v: Value, entries: seq<(Key, Value)>, path: string)
    requires Setting(env, it, it') && v == Dict(entries) && Real(v) && Consistent(env, v) && Encodable(env, v)
    ensures Encode(env, it, v, path) == Encode(env, it', v, path)
    decreases v, 1
  {
    forall x | x in Children(v) ensures x < v && Real(x) && Consistent(env, x) && Encodable(env, x) {
      var i :| 0 <= i < |entries| && Children(v)[i] == x;
      ChildIsSmaller(v, i);
      assert entries[i] in entries;
    }
    ItemsCanonical(env, it, it', v, Children(v), KeysOf(entries), path);
  }

  lemma SetCanonical(env: Env, it: Iteration, it': Iteration, v: Value, members: set<Value>, typeName: string, path: string)
    requires Setting(env, it, it')
    requires forall x <- members :: x < v && Hashable(x) && Real(x) && Consistent(env, x) && Encodable(env, x)
    ensures EncodeSet(env, it, v, members, typeName, path) == EncodeSet(env, it', v, members, typeName, path)
    decreases v, 1
  {
    MembersAccepted(env, it, v, members, path);
    MembersAccepted(env, it', v, members, path);
    var js := SetParts(env, it, v, members, typeName, path);
    var ks := SetParts(env, it', v, members, typeName, path);
    forall x | x in members
      ensures Encode(env, it, x, Pointer.Extend(path, "set")) == Encode(env, it', x, Pointer.Extend(path, "set"))
    {
      EncodingIsCanonical(env, it, it', x, Pointer.Extend(path, "set"));
    }
    SortedAlike(env, it, it', members, path, js, ks);
  }
}
