/** What the capture codec guarantees: which values it accepts, the round trip, and that
    the iteration order of sets leaves no trace. */
module CodecLaws {
  import opened Wrappers
  import opened Values
  import opened Codec
  import Text
  import Pointer

  // ------------------------------------------------------ what is accepted

  /** Every part is of a supported type, every recorded class replayable, every mapping
      key a string. */
  ghost predicate Encodable(env: Env, v: Value)
    decreases v
  {
    match v
    case NonFinite => false
    case Other(_) => false
    case Enum(cls, _, value) => Replayable(env, cls) && Encodable(env, value)
    case NamedTuple(cls, items) => Replayable(env, cls) && forall x <- items :: Encodable(env, x)
    case Tuple(items) => forall x <- items :: Encodable(env, x)
    case List(items) => forall x <- items :: Encodable(env, x)
    case PySet(members) => forall x <- members :: Encodable(env, x)
    case FrozenSet(members) => forall x <- members :: Encodable(env, x)
    case Dict(entries) => forall e <- entries :: e.0.Name? && Encodable(env, e.1)
    case _ => true
  }

  /** The objects of an enum by name: its members and the combined ones. */
  function Object(def: ClassDef, name: string): Option<Value>
    requires def.EnumClass?
  {
    if name in def.members then Some(def.members[name])
    else if name in def.composites then Some(def.composites[name])
    else None
  }

  /** The value is made of objects of the loaded classes. */
  ghost predicate Consistent(env: Env, v: Value)
    decreases v
  {
    match v
    case DateTime(_, fold) => fold in {0, 1}
    case Enum(cls, name, value) =>
      && cls in env.defs && env.defs[cls].EnumClass? && Object(env.defs[cls], name) == Some(value)
      && Consistent(env, value)
    case NamedTuple(cls, items) =>
      && cls in env.defs && env.defs[cls].TupleClass? && |env.defs[cls].fields| == |items|
      && forall x <- items :: Consistent(env, x)
    case Tuple(items) => forall x <- items :: Consistent(env, x)
    case List(items) => forall x <- items :: Consistent(env, x)
    case PySet(members) => forall x <- members :: Consistent(env, x)
    case FrozenSet(members) => forall x <- members :: Consistent(env, x)
    case Dict(entries) => forall e <- entries :: Consistent(env, e.1)
    case _ => true
  }

  /** Parsing undoes printing for the leaf types. */
  ghost predicate LeavesInvert(env: Env) {
    && (forall kind, id :: env.parseLeaf(kind, env.printLeaf(kind, id)) == Some(id))
    && (forall t :: env.parseInstant(env.printInstant(t)) == Some(t))
  }

  /** Item `i` of an accepted sequence is encoded under its own path. */
  lemma {:induction false} EncodeAllItems(env: Env, it: Iteration, v: Value, items: seq<Value>, tokens: seq<string>, path: string)
    requires ValidIteration(it) && |items| == |tokens| && forall x <- items :: x < v
    ensures var r := EncodeAll(env, it, v, items, tokens, path);
      if r.Good? then
        forall i :: 0 <= i < |items| ==> Encode(env, it, items[i], Pointer.Extend(path, tokens[i])) == Good(r.value[i])
      else
        exists i :: 0 <= i < |items| && Encode(env, it, items[i], Pointer.Extend(path, tokens[i])).Bad?
    decreases |items|
  {
    if items != [] {
      assert items[0] in items && forall x <- items[1..] :: x in items;
      EncodeAllItems(env, it, v, items[1..], tokens[1..], path);
      var rest := EncodeAll(env, it, v, items[1..], tokens[1..], path);
      if Encode(env, it, items[0], Pointer.Extend(path, tokens[0])).Good? && rest.Bad? {
        var k :| 0 <= k < |items[1..]| && Encode(env, it, items[1..][k], Pointer.Extend(path, tokens[1..][k])).Bad?;
        assert Encode(env, it, items[k + 1], Pointer.Extend(path, tokens[k + 1])).Bad?;
      }
    }
  }

  /** Encoding accepts exactly the encodable values. */
  lemma {:induction false} EncodeAcceptsIff(env: Env, it: Iteration, v: Value, path: string)
    requires ValidIteration(it) && Consistent(env, v)
    ensures Encode(env, it, v, path).Good? <==> Encodable(env, v)
    decreases v, 2
  {
    match v
    case Enum(cls, name, value) =>
      EncodeAcceptsIff(env, it, value, Pointer.Extend(path, "value"));
    case NamedTuple(cls, items) => NamedTupleAccepted(env, it, v, cls, items, path);
    case Tuple(items) => ItemsAccepted(env, it, v, items, Indices(|items|), path);
    case List(items) => ItemsAccepted(env, it, v, items, Indices(|items|), path);
    case PySet(members) => MembersAccepted(env, it, v, members, path);
    case FrozenSet(members) => MembersAccepted(env, it, v, members, path);
    case Dict(entries) => EntriesAccepted(env, it, v, entries, path);
    case _ =>
  }

  lemma NamedTupleAccepted(env: Env, it: Iteration, v: Value, cls: Class, items: seq<Value>, path: string)
    requires ValidIteration(it) && v == NamedTuple(cls, items) && Consistent(env, v)
    ensures Encode(env, it, v, path).Good? <==> Encodable(env, v)
    decreases v, 1
  {
    var fields := Fields(env, cls);
    assert items[..|items|] == items && fields[..|items|] == fields;
    ItemsAccepted(env, it, v, items, fields, path);
  }

  lemma EntriesAccepted(env: Env, it: Iteration, v: Value, entries: seq<(Key, Value)>, path: string)
    requires ValidIteration(it) && v == Dict(entries) && Consistent(env, v)
    ensures Encode(env, it, v, path).Good? <==> Encodable(env, v)
    decreases v, 1
  {
    forall i | 0 <= i < |entries| ensures entries[i].1 == Children(v)[i] && entries[i] in entries {}
    if FirstOtherKey(entries).None? {
      forall x | x in Children(v) ensures x < v && Consistent(env, x) {
        var i :| 0 <= i < |entries| && Children(v)[i] == x;
        ChildIsSmaller(v, i);
      }
      ItemsAccepted(env, it, v, Children(v), KeysOf(entries), path);
      if forall x <- Children(v) :: Encodable(env, x) {
        forall e | e in entries ensures Encodable(env, e.1) {
          var i :| 0 <= i < |entries| && entries[i] == e;
          assert Children(v)[i] in Children(v);
        }
      }
    }
  }

  lemma ItemsAccepted(env: Env, it: Iteration, v: Value, items: seq<Value>, tokens: seq<string>, path: string)
    requires ValidIteration(it) && |items| == |tokens| && forall x <- items :: x < v && Consistent(env, x)
    ensures EncodeAll(env, it, v, items, tokens, path).Good? <==> forall x <- items :: Encodable(env, x)
    decreases v, 0
  {
    EncodeAllItems(env, it, v, items, tokens, path);
    forall i | 0 <= i < |items|
      ensures Encode(env, it, items[i], Pointer.Extend(path, tokens[i])).Good? <==> Encodable(env, items[i])
    {
      assert items[i] in items;
      EncodeAcceptsIff(env, it, items[i], Pointer.Extend(path, tokens[i]));
    }
    if EncodeAll(env, it, v, items, tokens, path).Bad? {
      var i :| 0 <= i < |items| && Encode(env, it, items[i], Pointer.Extend(path, tokens[i])).Bad?;
      assert items[i] in items;
    }
  }

  lemma MembersAccepted(env: Env, it: Iteration, v: Value, members: set<Value>, path: string)
    requires ValidIteration(it) && forall x <- members :: x < v && Consistent(env, x)
    ensures EncodeAll(env, it, v, it(members), SetTokens(|it(members)|), path).Good?
      <==> forall x <- members :: Encodable(env, x)
    decreases v, 1
  {
    var order := it(members);
    assert Enumerates(order, members);
    ItemsAccepted(env, it, v, order, SetTokens(|order|), path);
  }

  // ------------------------------------------------------------ round trip

  /** Every enum object in the value is a member that its class finds by name. */
  ghost predicate NamedMembers(env: Env, v: Value)
    decreases v
  {
    match v
    case Enum(cls, name, value) =>
      cls in env.defs && env.defs[cls].EnumClass? && name in env.defs[cls].members && NamedMembers(env, value)
    case NamedTuple(_, items) => forall x <- items :: NamedMembers(env, x)
    case Tuple(items) => forall x <- items :: NamedMembers(env, x)
    case List(items) => forall x <- items :: NamedMembers(env, x)
    case PySet(members) => forall x <- members :: NamedMembers(env, x)
    case FrozenSet(members) => forall x <- members :: NamedMembers(env, x)
    case Dict(entries) => forall e <- entries :: NamedMembers(env, e.1)
    case _ => true
  }

  /** Decoding a list decodes each item, and fails if one fails. */
  lemma {:induction false} DecodeAllItems(env: Env, js: seq<Json>)
    ensures var r := DecodeAll(env, js);
      && (r.Some? <==> forall i :: 0 <= i < |js| ==> Decode(env, js[i]).Some?)
      && (r.Some? ==> forall i :: 0 <= i < |js| ==> Decode(env, js[i]) == Some(r.value[i]))
  {
    if js != [] {
      DecodeAllItems(env, js[1..]);
      if DecodeAll(env, js[1..]).None? {
        var k :| 0 <= k < |js[1..]| && Decode(env, js[1..][k]).None?;
        assert Decode(env, js[k + 1]).None?;
      }
    }
  }

  /** What the round trip of `v` from `j` means. */
  ghost predicate Returns(env: Env, v: Value, j: Json) {
    Decode(env, j) == if NamedMembers(env, v) then Some(v) else None
  }

  lemma ItemsReturn(env: Env, items: seq<Value>, js: seq<Json>)
    requires |items| == |js| && forall i :: 0 <= i < |items| ==> Returns(env, items[i], js[i])
    ensures DecodeAll(env, js) == if forall x <- items :: NamedMembers(env, x) then Some(items) else None
  {
    DecodeAllItems(env, js);
    if forall x <- items :: NamedMembers(env, x) {
      forall i | 0 <= i < |items| ensures Decode(env, js[i]) == Some(items[i]) {
        assert items[i] in items && Returns(env, items[i], js[i]);
      }
      assert DecodeAll(env, js).value == items;
    } else {
      var x :| x in items && !NamedMembers(env, x);
      var i :| 0 <= i < |items| && items[i] == x;
      assert Returns(env, items[i], js[i]);
    }
  }

  /** The same for a set, whose encoded members come in sorted order. */
  lemma MembersReturn(env: Env, members: set<Value>, order: seq<Value>, js: seq<Json>, sorted: seq<Json>)
    requires Enumerates(order, members) && |order| == |js| && multiset(sorted) == multiset(js)
    requires forall i :: 0 <= i < |order| ==> Returns(env, order[i], js[i])
    ensures var r := DecodeAll(env, sorted);
      if forall x <- members :: NamedMembers(env, x) then r.Some? && (set x | x in r.value) == members
      else r.None?
  {
    DecodeAllItems(env, sorted);
    forall j ensures j in sorted <==> j in js {
      assert j in sorted <==> j in multiset(sorted);
    }
    if forall x <- members :: NamedMembers(env, x) {
      forall k | 0 <= k < |sorted| ensures Decode(env, sorted[k]).Some? && Decode(env, sorted[k]).value in members {
        assert sorted[k] in js;
        var i :| 0 <= i < |js| && js[i] == sorted[k];
        assert order[i] in members && Returns(env, order[i], js[i]);
      }
      var r := DecodeAll(env, sorted);
      forall x | x in members ensures x in r.value {
        assert x in order;
        var i :| 0 <= i < |order| && order[i] == x;
        assert Returns(env, order[i], js[i]) && js[i] in sorted;
        var k :| 0 <= k < |sorted| && sorted[k] == js[i];
        assert r.value[k] == x;
      }
    } else {
      var x :| x in members && !NamedMembers(env, x);
      assert x in order;
      var i :| 0 <= i < |order| && order[i] == x;
      assert Returns(env, order[i], js[i]) && js[i] in sorted;
    }
  }

  // --------------------------------------------------------- tagged payloads

  function Payload(typeName: string, fields: seq<(string, Json)>): seq<(string, Json)> {
    [("type", JStr(typeName))] + fields
  }

  lemma DecodeOfTagged(env: Env, typeName: string, fields: seq<(string, Json)>)
    ensures Decode(env, Tagged(typeName, fields)) == DecodeTagged(env, JDict(Payload(typeName, fields)), typeName)
  {
    var j := Tagged(typeName, fields);
    var payload := Payload(typeName, fields);
    assert j.entries == [(TAG, JDict(payload))];
    assert j.entries[0].0 == TAG;
    assert EntryKeys(j.entries) == {TAG};
    assert payload[0] == ("type", JStr(typeName));
    assert StringField(payload, "type") == Some(typeName);
  }

  /** The decoder of each container type, told apart by the type name. */
  lemma Dispatch(env: Env, tag: Json)
    requires tag.JDict?
    ensures DecodeTagged(env, tag, "tuple") == DecodeItems(env, tag, "tuple")
    ensures DecodeTagged(env, tag, "set") == DecodeItems(env, tag, "set")
    ensures DecodeTagged(env, tag, "frozenset") == DecodeItems(env, tag, "frozenset")
    ensures DecodeTagged(env, tag, "mapping") == DecodeMapping(env, tag)
    ensures DecodeTagged(env, tag, "enum") == DecodeEnum(env, tag)
    ensures DecodeTagged(env, tag, "namedtuple") == DecodeNamedTuple(env, tag)
  {
  }

  lemma {:induction false} FindAt(entries: seq<(string, Json)>, i: nat)
    requires i < |entries| && forall k :: 0 <= k < i ==> entries[k].0 != entries[i].0
    ensures Find(entries, entries[i].0) == Some(entries[i].1)
  {
    if i > 0 {
      FindAt(entries[1..], i - 1);
    }
  }

  lemma PayloadOne(typeName: string, k: string, x: Json)
    requires k != "type"
    ensures var p := Payload(typeName, [(k, x)]);
      Find(p, k) == Some(x) && HasFields(p, {k})
  {
    var p := Payload(typeName, [(k, x)]);
    assert p == [("type", JStr(typeName)), (k, x)];
    assert p[0].0 == "type" && p[1].0 == k;
    FindAt(p, 1);
  }

  lemma PayloadTwo(typeName: string, k1: string, x1: Json, k2: string, x2: Json)
    requires k1 != "type" && k2 != "type" && k1 != k2
    ensures var p := Payload(typeName, [(k1, x1), (k2, x2)]);
      Find(p, k1) == Some(x1) && Find(p, k2) == Some(x2) && HasFields(p, {k1, k2})
  {
    var p := Payload(typeName, [(k1, x1), (k2, x2)]);
    assert p == [("type", JStr(typeName)), (k1, x1), (k2, x2)];
    assert p[0].0 == "type" && p[1].0 == k1 && p[2].0 == k2;
    FindAt(p, 1);
    FindAt(p, 2);
  }

  lemma PayloadFour(typeName: string, k1: string, x1: Json, k2: string, x2: Json, k3: string, x3: Json, k4: string, x4: Json)
    requires "type" !in {k1, k2, k3, k4} && k1 !in {k2, k3, k4} && k2 !in {k3, k4} && k3 != k4
    ensures var p := Payload(typeName, [(k1, x1), (k2, x2), (k3, x3), (k4, x4)]);
      && Find(p, k1) == Some(x1) && Find(p, k2) == Some(x2) && Find(p, k3) == Some(x3) && Find(p, k4) == Some(x4)
      && HasFields(p, {k1, k2, k3, k4})
  {
    var p := Payload(typeName, [(k1, x1), (k2, x2), (k3, x3), (k4, x4)]);
    assert p[0].0 == "type" && p[1].0 == k1 && p[2].0 == k2 && p[3].0 == k3 && p[4].0 == k4;
    FindAt(p, 1);
    FindAt(p, 2);
    FindAt(p, 3);
    FindAt(p, 4);
  }

  lemma {:induction false} AllStringsOf(texts: seq<string>)
    ensures AllStrings(Strings(texts)) == Some(texts)
  {
    if texts != [] {
      AllStringsOf(texts[1..]);
      assert Strings(texts)[1..] == Strings(texts[1..]);
      assert texts == [texts[0]] + texts[1..];
    }
  }

  // ------------------------------------------------- the round trip, by kind

  lemma ReturnsDateTime(env: Env, instant: int, fold: int)
    requires LeavesInvert(env) && fold in {0, 1}
    ensures Returns(env, DateTime(instant, fold),
      Tagged("datetime", [("value", JStr(env.printInstant(instant))), ("fold", JInt(fold))]))
  {
    var text := env.printInstant(instant);
    DecodeOfTagged(env, "datetime", [("value", JStr(text)), ("fold", JInt(fold))]);
    PayloadTwo("datetime", "value", JStr(text), "fold", JInt(fold));
  }

  lemma ReturnsLeaf(env: Env, kind: LeafKind, id: int)
    requires LeavesInvert(env)
    ensures Returns(env, Leaf(kind, id), Tagged(LeafTag(kind), [("value", JStr(env.printLeaf(kind, id)))]))
  {
    var text := env.printLeaf(kind, id);
    DecodeOfTagged(env, LeafTag(kind), [("value", JStr(text))]);
    PayloadOne(LeafTag(kind), "value", JStr(text));
  }

  lemma ReturnsTuple(env: Env, items: seq<Value>, js: seq<Json>)
    requires |items| == |js| && forall i :: 0 <= i < |items| ==> Returns(env, items[i], js[i])
    ensures Returns(env, Tuple(items), Tagged("tuple", [("values", JList(js))]))
  {
    DecodeOfTagged(env, "tuple", [("values", JList(js))]);
    Dispatch(env, JDict(Payload("tuple", [("values", JList(js))])));
    PayloadOne("tuple", "values", JList(js));
    ItemsReturn(env, items, js);
  }

  lemma ReturnsNamedTuple(env: Env, cls: Class, items: seq<Value>, js: seq<Json>)
    requires |items| == |js| && forall i :: 0 <= i < |items| ==> Returns(env, items[i], js[i])
    requires Replayable(env, cls) && |Fields(env, cls)| == |items|
    ensures Returns(env, NamedTuple(cls, items),
      Tagged("namedtuple", [("module", JStr(cls.mod)), ("qualname", JStr(cls.qualname)),
                            ("fields", JList(Strings(Fields(env, cls)))), ("values", JList(js))]))
  {
    var fields := Fields(env, cls);
    var entries := [("module", JStr(cls.mod)), ("qualname", JStr(cls.qualname)),
                    ("fields", JList(Strings(fields))), ("values", JList(js))];
    var tag := JDict(Payload("namedtuple", entries));
    DecodeOfTagged(env, "namedtuple", entries);
    Dispatch(env, tag);
    PayloadFour("namedtuple", "module", JStr(cls.mod), "qualname", JStr(cls.qualname),
                "fields", JList(Strings(fields)), "values", JList(js));
    NamedTupleDecodes(env, tag, cls, items, js);
  }

  lemma NamedTupleDecodes(env: Env, tag: Json, cls: Class, items: seq<Value>, js: seq<Json>)
    requires tag.JDict? && HasFields(tag.entries, {"module", "qualname", "fields", "values"})
    requires Find(tag.entries, "module") == Some(JStr(cls.mod)) && Find(tag.entries, "qualname") == Some(JStr(cls.qualname))
    requires Find(tag.entries, "fields") == Some(JList(Strings(Fields(env, cls))))
    requires Find(tag.entries, "values") == Some(JList(js))
    requires |items| == |js| && forall i :: 0 <= i < |items| ==> Returns(env, items[i], js[i])
    requires Replayable(env, cls) && |Fields(env, cls)| == |items|
    ensures DecodeNamedTuple(env, tag)
      == if NamedMembers(env, NamedTuple(cls, items)) then Some(NamedTuple(cls, items)) else None
  {
    AllStringsOf(Fields(env, cls));
    ItemsReturn(env, items, js);
  }

  lemma ReturnsSet(env: Env, v: Value, members: set<Value>, typeName: string, order: seq<Value>, js: seq<Json>, sorted: seq<Json>)
    requires (v == PySet(members) && typeName == "set") || (v == FrozenSet(members) && typeName == "frozenset")
    requires Enumerates(order, members) && |order| == |js| && multiset(sorted) == multiset(js)
    requires forall i :: 0 <= i < |order| ==> Returns(env, order[i], js[i])
    requires forall x <- members :: Hashable(x)
    ensures Returns(env, v, Tagged(typeName, [("values", JList(sorted))]))
  {
    DecodeOfTagged(env, typeName, [("values", JList(sorted))]);
    Dispatch(env, JDict(Payload(typeName, [("values", JList(sorted))])));
    PayloadOne(typeName, "values", JList(sorted));
    MembersReturn(env, members, order, js, sorted);
    var r := DecodeAll(env, sorted);
    if r.Some? && (set x | x in r.value) == members {
      forall x | x in r.value ensures Hashable(x) {
        assert x in members;
      }
    }
  }

  lemma ReturnsList(env: Env, items: seq<Value>, js: seq<Json>)
    requires |items| == |js| && forall i :: 0 <= i < |items| ==> Returns(env, items[i], js[i])
    ensures Returns(env, List(items), JList(js))
  {
    ItemsReturn(env, items, js);
  }

  lemma MemberDecodes(env: Env, tag: Json, cls: Class, name: string, value: Value, j: Json)
    requires tag.JDict? && "value" in EntryKeys(tag.entries) && Find(tag.entries, "value") == Some(j)
    requires Returns(env, value, j) && Consistent(env, Enum(cls, name, value))
    ensures DecodeMember(env, tag, cls, env.defs[cls].members, name)
      == if NamedMembers(env, Enum(cls, name, value)) then Some(Enum(cls, name, value)) else None
  {
  }

  lemma ReturnsEnum(env: Env, cls: Class, name: string, value: Value, j: Json)
    requires Returns(env, value, j) && Replayable(env, cls) && Consistent(env, Enum(cls, name, value))
    ensures Returns(env, Enum(cls, name, value), Tagged("enum", EnumFields(cls, name, j)))
  {
    var entries := EnumFields(cls, name, j);
    var tag := JDict(Payload("enum", entries));
    DecodeOfTagged(env, "enum", entries);
    Dispatch(env, tag);
    PayloadFour("enum", "module", JStr(cls.mod), "qualname", JStr(cls.qualname), "name", JStr(name), "value", j);
    EnumDecodes(env, tag, cls, name, value, j);
  }

  lemma EnumDecodes(env: Env, tag: Json, cls: Class, name: string, value: Value, j: Json)
    requires tag.JDict? && HasFields(tag.entries, {"module", "qualname", "name", "value"})
    requires Find(tag.entries, "module") == Some(JStr(cls.mod)) && Find(tag.entries, "qualname") == Some(JStr(cls.qualname))
    requires Find(tag.entries, "name") == Some(JStr(name)) && Find(tag.entries, "value") == Some(j)
    requires Returns(env, value, j) && Replayable(env, cls) && Consistent(env, Enum(cls, name, value))
    ensures DecodeEnum(env, tag)
      == if NamedMembers(env, Enum(cls, name, value)) then Some(Enum(cls, name, value)) else None
  {
    MemberDecodes(env, tag, cls, name, value, j);
  }

  function Entries(keys: seq<string>, items: seq<Value>): seq<(Key, Value)>
    requires |keys| == |items|
  {
    seq(|keys|, i requires 0 <= i < |keys| => (Name(keys[i]), items[i]))
  }

  ghost predicate AllNamed(env: Env, items: seq<Value>) { forall x <- items :: NamedMembers(env, x) }

  lemma AllNamedStep(env: Env, items: seq<Value>)
    requires items != []
    ensures AllNamed(env, items) <==> NamedMembers(env, items[0]) && AllNamed(env, items[1..])
  {
    assert forall x :: x in items <==> x == items[0] || x in items[1..];
  }

  lemma EntriesStep(keys: seq<string>, items: seq<Value>)
    requires |keys| == |items| && keys != []
    ensures Entries(keys, items) == [(Name(keys[0]), items[0])] + Entries(keys[1..], items[1..])
  {
  }

  lemma ZipStep(keys: seq<string>, js: seq<Json>, j: Json)
    requires |keys| == |js| && keys != [] && forall e <- Zip(keys, js) :: e.1 < j
    ensures js[0] < j && Zip(keys, js) == [(keys[0], js[0])] + Zip(keys[1..], js[1..])
    ensures forall e <- Zip(keys[1..], js[1..]) :: e.1 < j
  {
    assert Zip(keys, js)[0] in Zip(keys, js) && Zip(keys, js)[1..] == Zip(keys[1..], js[1..]);
    forall e | e in Zip(keys[1..], js[1..]) ensures e.1 < j {
      assert e in Zip(keys, js)[1..];
      assert e in Zip(keys, js);
    }
  }

  lemma {:induction false} EntriesReturn(env: Env, j: Json, keys: seq<string>, items: seq<Value>, js: seq<Json>)
    requires |keys| == |items| == |js| && forall e <- Zip(keys, js) :: e.1 < j
    requires forall i :: 0 <= i < |items| ==> Returns(env, items[i], js[i])
    ensures DecodeEntries(env, j, Zip(keys, js)) == if AllNamed(env, items) then Some(Entries(keys, items)) else None
    decreases |keys|
  {
    if keys != [] {
      ZipStep(keys, js, j);
      assert Returns(env, items[0], js[0]);
      EntriesReturn(env, j, keys[1..], items[1..], js[1..]);
      AllNamedStep(env, items);
      EntriesStep(keys, items);
    } else {
      assert Entries(keys, items) == [];
    }
  }

  lemma {:induction false} PairsReturn(env: Env, keys: seq<string>, items: seq<Value>, js: seq<Json>)
    requires |keys| == |items| == |js|
    requires forall i :: 0 <= i < |items| ==> Returns(env, items[i], js[i])
    ensures DecodePairs(env, PairLists(keys, js)) == if AllNamed(env, items) then Some(Entries(keys, items)) else None
    decreases |keys|
  {
    if keys != [] {
      assert PairLists(keys, js)[1..] == PairLists(keys[1..], js[1..]);
      assert Returns(env, items[0], js[0]);
      PairsReturn(env, keys[1..], items[1..], js[1..]);
      AllNamedStep(env, items);
      EntriesStep(keys, items);
    } else {
      assert Entries(keys, items) == [];
    }
  }

  lemma EntriesOfDict(entries: seq<(Key, Value)>)
    requires forall e <- entries :: e.0.Name?
    ensures |Children(Dict(entries))| == |entries| && Entries(KeysOf(entries), Children(Dict(entries))) == entries
  {
    forall i | 0 <= i < |entries| ensures entries[i] == (Name(KeysOf(entries)[i]), Children(Dict(entries))[i]) {
      assert entries[i] in entries;
    }
  }

  lemma ReturnsMapping(env: Env, entries: seq<(Key, Value)>, js: seq<Json>)
    requires |js| == |entries| && DistinctKeys(entries) && forall e <- entries :: e.0.Name?
    requires forall i :: 0 <= i < |entries| ==> Returns(env, Children(Dict(entries))[i], js[i])
    ensures Returns(env, Dict(entries), Tagged("mapping", [("items", JList(PairLists(KeysOf(entries), js)))]))
  {
    var pairs := PairLists(KeysOf(entries), js);
    DecodeOfTagged(env, "mapping", [("items", JList(pairs))]);
    Dispatch(env, JDict(Payload("mapping", [("items", JList(pairs))])));
    PayloadOne("mapping", "items", JList(pairs));
    PairsReturn(env, KeysOf(entries), Children(Dict(entries)), js);
    EntriesOfDict(entries);
    NamedDict(env, entries);
  }

  lemma ReturnsPlainDict(env: Env, entries: seq<(Key, Value)>, js: seq<Json>)
    requires |js| == |entries| && TAG !in KeysOf(entries) && forall e <- entries :: e.0.Name?
    requires forall i :: 0 <= i < |entries| ==> Returns(env, Children(Dict(entries))[i], js[i])
    ensures Returns(env, Dict(entries), JDict(Zip(KeysOf(entries), js)))
  {
    var keys := KeysOf(entries);
    var j := JDict(Zip(keys, js));
    forall e | e in Zip(keys, js) ensures e.1 < j {
      assert e in j.entries;
    }
    assert forall i :: 0 <= i < |j.entries| ==> j.entries[i].0 == keys[i];
    EntriesReturn(env, j, keys, Children(Dict(entries)), js);
    EntriesOfDict(entries);
    NamedDict(env, entries);
  }

  lemma NamedDict(env: Env, entries: seq<(Key, Value)>)
    ensures NamedMembers(env, Dict(entries)) <==> forall x <- Children(Dict(entries)) :: NamedMembers(env, x)
  {
    var items := Children(Dict(entries));
    if forall x <- items :: NamedMembers(env, x) {
      forall e | e in entries ensures NamedMembers(env, e.1) {
        var i :| 0 <= i < |entries| && entries[i] == e;
        assert items[i] in items;
      }
    } else {
      var x :| x in items && !NamedMembers(env, x);
      var i :| 0 <= i < |items| && items[i] == x;
      assert entries[i] in entries;
    }
  }

  // ---------------------------------------------------------- the round trip

  /** Encoding and decoding gives back the very value, for every value the encoder
      accepts, exactly when each enum object in it is a member its class finds by name;
      otherwise decoding fails. */
  lemma {:induction false} RoundTripIff(env: Env, it: Iteration, v: Value, path: string)
    requires ValidIteration(it) && LeavesInvert(env) && Real(v) && Consistent(env, v)
    requires Encode(env, it, v, path).Good?
    ensures Decode(env, Encode(env, it, v, path).value) == if NamedMembers(env, v) then Some(v) else None
    decreases v
  {
    match v {
      case Enum(cls, name, value) =>
        RoundTripIff(env, it, value, Pointer.Extend(path, "value"));
        ReturnsEnum(env, cls, name, value, Encode(env, it, value, Pointer.Extend(path, "value")).value);
      case DateTime(instant, fold) => ReturnsDateTime(env, instant, fold);
      case Leaf(kind, id) => ReturnsLeaf(env, kind, id);
      case NamedTuple(cls, items) =>
        var fields := Fields(env, cls);
        assert items[..|items|] == items && fields[..|items|] == fields;
        ItemsRoundTrip(env, it, v, items, fields, path);
        ReturnsNamedTuple(env, cls, items, EncodeAll(env, it, v, items, fields, path).value);
      case Tuple(items) =>
        ItemsRoundTrip(env, it, v, items, Indices(|items|), path);
        ReturnsTuple(env, items, EncodeAll(env, it, v, items, Indices(|items|), path).value);
      case List(items) =>
        ItemsRoundTrip(env, it, v, items, Indices(|items|), path);
        ReturnsList(env, items, EncodeAll(env, it, v, items, Indices(|items|), path).value);
      case PySet(members) => SetRoundTrip(env, it, v, members, "set", path);
      case FrozenSet(members) => SetRoundTrip(env, it, v, members, "frozenset", path);
      case Dict(entries) => DictRoundTrip(env, it, v, entries, path);
      case _ =>
    }
  }

  lemma ItemsRoundTrip(env: Env, it: Iteration, v: Value, items: seq<Value>, tokens: seq<string>, path: string)
    requires ValidIteration(it) && LeavesInvert(env) && |items| == |tokens|
    requires forall x <- items :: x < v && Real(x) && Consistent(env, x)
    requires EncodeAll(env, it, v, items, tokens, path).Good?
    ensures var js := EncodeAll(env, it, v, items, tokens, path).value;
      |js| == |items| && forall i :: 0 <= i < |items| ==> Returns(env, items[i], js[i])
    decreases v, 0
  {
    EncodeAllItems(env, it, v, items, tokens, path);
    forall i | 0 <= i < |items|
      ensures Returns(env, items[i], EncodeAll(env, it, v, items, tokens, path).value[i])
    {
      assert items[i] in items;
      RoundTripIff(env, it, items[i], Pointer.Extend(path, tokens[i]));
    }
  }

  lemma SetRoundTrip(env: Env, it: Iteration, v: Value, members: set<Value>, typeName: string, path: string)
    requires ValidIteration(it) && LeavesInvert(env)
    requires (v == PySet(members) && typeName == "set") || (v == FrozenSet(members) && typeName == "frozenset")
    requires forall x <- members :: x < v && Hashable(x) && Real(x) && Consistent(env, x)
    requires EncodeSet(env, it, v, members, typeName, path).Good?
    ensures Returns(env, v, EncodeSet(env, it, v, members, typeName, path).value)
    decreases v, 1
  {
    var order := it(members);
    assert Enumerates(order, members);
    var tokens := SetTokens(|order|);
    var js := EncodeAll(env, it, v, order, tokens, path).value;
    ItemsRoundTrip(env, it, v, order, tokens, path);
    ReturnsSet(env, v, members, typeName, order, js, Sort(env.dumps, js));
  }

  lemma DictRoundTrip(env: Env, it: Iteration, v: Value, entries: seq<(Key, Value)>, path: string)
    requires ValidIteration(it) && LeavesInvert(env) && v == Dict(entries) && Real(v) && Consistent(env, v)
    requires Encode(env, it, v, path).Good?
    ensures Returns(env, v, Encode(env, it, v, path).value)
    decreases v, 1
  {
    var keys := KeysOf(entries);
    forall x | x in Children(v) ensures x < v && Real(x) && Consistent(env, x) {
      var i :| 0 <= i < |entries| && Children(v)[i] == x;
      ChildIsSmaller(v, i);
      assert entries[i] in entries;
    }
    ItemsRoundTrip(env, it, v, Children(v), keys, path);
    var js := EncodeAll(env, it, v, Children(v), keys, path).value;
    if TAG in keys {
      ReturnsMapping(env, entries, js);
    } else {
      ReturnsPlainDict(env, entries, js);
    }
  }

  // ------------------------------------------------------------- an example

  function Signed(i: int): string {
    if i < 0 then "-" + Text.Decimal(0 - i) else Text.Decimal(i)
  }

  lemma ParseSigned(i: int)
    ensures Text.ParseInt(Signed(i)) == Some(i)
  {
    if i < 0 {
      Text.DigitsOfDecimal(0 - i);
      assert Signed(i)[1..] == Text.Decimal(0 - i);
    } else {
      Text.ParseDecimal(i);
    }
  }

  const PERMISSION := Class("app", "Permission", 0)

  /** One loaded class: flags READ and WRITE, and the combined object `READ|WRITE`. */
  const FLAGS := Env(
    map[("app", "Permission") := PERMISSION],
    map[PERMISSION := EnumClass(map["READ" := Int(1), "WRITE" := Int(2)], map["READ|WRITE" := Int(3)])],
    (kind, id) => Signed(id), (kind, text) => Text.ParseInt(text),
    t => Signed(t), text => Text.ParseInt(text),
    j => "")

  const READ_WRITE := Enum(PERMISSION, "READ|WRITE", Int(3))

  lemma FlagsInvert()
    ensures LeavesInvert(FLAGS)
  {
    forall kind: LeafKind, id ensures FLAGS.parseLeaf(kind, FLAGS.printLeaf(kind, id)) == Some(id) {
      ParseSigned(id);
    }
    forall t ensures FLAGS.parseInstant(FLAGS.printInstant(t)) == Some(t) {
      ParseSigned(t);
    }
  }

  lemma PermissionIsGlobal()
    ensures !IsLocal(PERMISSION.qualname) && Replayable(FLAGS, PERMISSION)
  {
    Text.SplitUnbroken("Permission", '.');
    assert Text.Split("Permission", '.') == ["Permission"];
  }

  /** A combined flag is encoded, and the encoding cannot be decoded. */
  lemma CombinedFlagIsLost(it: Iteration, path: string)
    requires ValidIteration(it)
    ensures LeavesInvert(FLAGS) && Real(READ_WRITE) && Consistent(FLAGS, READ_WRITE)
    ensures Encode(FLAGS, it, READ_WRITE, path).Good?
    ensures Decode(FLAGS, Encode(FLAGS, it, READ_WRITE, path).value).None?
  {
    FlagsInvert();
    PermissionIsGlobal();
    assert Object(FLAGS.defs[PERMISSION], "READ|WRITE") == Some(Int(3));
    EncodeAcceptsIff(FLAGS, it, READ_WRITE, path);
    RoundTripIff(FLAGS, it, READ_WRITE, path);
  }
}
