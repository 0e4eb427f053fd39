/** What the decoder gives: values of the loaded classes, which can be captured again and
    then come back. */
module CodecSound {
  import opened Wrappers
  import opened Values
  import opened Codec
  import opened CodecLaws

  /** JSON as a parser gives it: no key occurs twice in an object. */
  predicate Parsed(j: Json) {
    match j
    case JList(items) => forall x <- items :: Parsed(x)
    case JDict(entries) => DistinctNames(entries) && forall e <- entries :: Parsed(e.1)
    case _ => true
  }

  predicate DistinctNames(entries: seq<(string, Json)>) {
    forall i, k :: 0 <= i < k < |entries| ==> entries[i].0 != entries[k].0
  }

  /** Each loaded class is loaded under its own name. */
  ghost predicate Canonical(env: Env) { forall name <- env.loaded :: Replayable(env, env.loaded[name]) }

  /** A proper value of replayable classes: members of enums, named tuples with as many items
      as fields, sets of hashable members, mappings of distinct strings. */
  ghost predicate Sound(env: Env, v: Value)
    decreases v
  {
    match v
    case NonFinite => false
    case Other(_) => false
    case DateTime(_, fold) => fold in {0, 1}
    case Enum(cls, name, value) =>
      && Replayable(env, cls) && cls in env.defs && env.defs[cls].EnumClass? && name in env.defs[cls].members
      && env.defs[cls].members[name] == value && Sound(env, value)
    case NamedTuple(cls, items) =>
      Replayable(env, cls) && |Fields(env, cls)| == |items| && forall x <- items :: Sound(env, x)
    case Tuple(items) => forall x <- items :: Sound(env, x)
    case List(items) => forall x <- items :: Sound(env, x)
    case PySet(members) => forall x <- members :: Hashable(x) && Sound(env, x)
    case FrozenSet(members) => forall x <- members :: Hashable(x) && Sound(env, x)
    case Dict(entries) => DistinctKeys(entries) && forall e <- entries :: e.0.Name? && Sound(env, e.1)
    case _ => true
  }

  // --------------------------------------------------------- entries and pairs

  /** Keys stay in their places, and values are decoded one by one. */
  lemma {:induction false} EntriesDecoded(env: Env, j: Json, entries: seq<(string, Json)>)
    requires forall e <- entries :: e.1 < j
    requires DecodeEntries(env, j, entries).Some?
    ensures var es := DecodeEntries(env, j, entries).value;
      |es| == |entries| && forall i :: 0 <= i < |es| ==> es[i].0 == Name(entries[i].0) && Decode(env, entries[i].1) == Some(es[i].1)
    decreases |entries|
  {
    if entries != [] {
      assert entries[0] in entries && forall e <- entries[1..] :: e in entries;
      EntriesDecoded(env, j, entries[1..]);
    }
  }

  /** The value of a pair of a "mapping" tag. */
  predicate IsPair(j: Json) { j.JList? && |j.items| == 2 && j.items[0].JStr? }

  lemma {:induction false} PairsDecoded(env: Env, items: seq<Json>)
    requires DecodePairs(env, items).Some?
    ensures var es := DecodePairs(env, items).value;
      |es| == |items| && forall i :: 0 <= i < |es| ==>
        IsPair(items[i]) && es[i].0 == Name(items[i].items[0].s) && Decode(env, items[i].items[1]) == Some(es[i].1)
    decreases |items|
  {
    if items != [] {
      PairsDecoded(env, items[1..]);
    }
  }

  lemma {:induction false} AllStringsLength(items: seq<Json>)
    ensures AllStrings(items).Some? ==> |AllStrings(items).value| == |items|
  {
    if items != [] {
      AllStringsLength(items[1..]);
    }
  }

  lemma {:induction false} FindParsed(entries: seq<(string, Json)>, key: string)
    requires forall e <- entries :: Parsed(e.1)
    ensures Find(entries, key).Some? ==> Parsed(Find(entries, key).value)
  {
    if entries != [] {
      assert entries[0] in entries;
      FindParsed(entries[1..], key);
    }
  }

  // ------------------------------------------------------------- sound values

  /** The parts of a tag are parsed, and smaller than it. */
  lemma PartOf(tag: Json, key: string)
    requires tag.JDict? && Parsed(tag) && key in EntryKeys(tag.entries)
    ensures Find(tag.entries, key).Some?
    ensures var part := Find(tag.entries, key).value; part < tag && Parsed(part)
  {
    FindIsSmaller(tag, key);
    FindParsed(tag.entries, key);
  }

  lemma AllSound(env: Env, items: seq<Json>)
    requires Canonical(env) && (forall x <- items :: Parsed(x)) && DecodeAll(env, items).Some?
    ensures |DecodeAll(env, items).value| == |items| && forall v <- DecodeAll(env, items).value :: Sound(env, v)
    decreases items, 0
  {
    DecodeAllItems(env, items);
    var vs := DecodeAll(env, items).value;
    forall v | v in vs ensures Sound(env, v) {
      var k :| 0 <= k < |vs| && vs[k] == v;
      DecodedIsSound(env, items[k]);
    }
  }

  lemma DictSound(env: Env, j: Json)
    requires Canonical(env) && j.JDict? && Parsed(j) && DecodeEntries(env, j, j.entries).Some?
    ensures Sound(env, Dict(DecodeEntries(env, j, j.entries).value))
    decreases j, 2
  {
    EntriesDecoded(env, j, j.entries);
    var es := DecodeEntries(env, j, j.entries).value;
    forall e | e in es ensures e.0.Name? && Sound(env, e.1) {
      var k :| 0 <= k < |es| && es[k] == e;
      assert j.entries[k] in j.entries;
      DecodedIsSound(env, j.entries[k].1);
    }
  }

  lemma MappingSound(env: Env, tag: Json)
    requires Canonical(env) && tag.JDict? && Parsed(tag) && DecodeMapping(env, tag).Some?
    ensures Sound(env, DecodeMapping(env, tag).value)
    decreases tag, 1
  {
    PartOf(tag, "items");
    var items := Find(tag.entries, "items").value.items;
    PairsDecoded(env, items);
    var es := DecodePairs(env, items).value;
    forall e | e in es ensures e.0.Name? && Sound(env, e.1) {
      var k :| 0 <= k < |es| && es[k] == e;
      assert items[k] in items && items[k].items[1] in items[k].items;
      DecodedIsSound(env, items[k].items[1]);
    }
  }

  lemma ItemsSound(env: Env, tag: Json, typeName: string)
    requires Canonical(env) && tag.JDict? && Parsed(tag) && DecodeItems(env, tag, typeName).Some?
    ensures Sound(env, DecodeItems(env, tag, typeName).value)
    decreases tag, 1
  {
    PartOf(tag, "values");
    AllSound(env, Find(tag.entries, "values").value.items);
  }

  lemma EnumSound(env: Env, tag: Json)
    requires Canonical(env) && tag.JDict? && Parsed(tag) && DecodeEnum(env, tag).Some?
    ensures Sound(env, DecodeEnum(env, tag).value)
    decreases tag, 1
  {
    PartOf(tag, "value");
    DecodedIsSound(env, Find(tag.entries, "value").value);
  }

  lemma NamedTupleSound(env: Env, tag: Json)
    requires Canonical(env) && tag.JDict? && Parsed(tag) && DecodeNamedTuple(env, tag).Some?
    ensures Sound(env, DecodeNamedTuple(env, tag).value)
    decreases tag, 1
  {
    PartOf(tag, "values");
    AllStringsLength(Find(tag.entries, "fields").value.items);
    AllSound(env, Find(tag.entries, "values").value.items);
  }

  lemma TaggedSound(env: Env, tag: Json, typeName: string)
    requires Canonical(env) && tag.JDict? && Parsed(tag) && DecodeTagged(env, tag, typeName).Some?
    ensures Sound(env, DecodeTagged(env, tag, typeName).value)
    decreases tag, 2
  {
    if typeName in {"tuple", "set", "frozenset"} {
      ItemsSound(env, tag, typeName);
    } else if typeName == "mapping" {
      MappingSound(env, tag);
    } else if typeName == "enum" {
      EnumSound(env, tag);
    } else if typeName == "namedtuple" {
      NamedTupleSound(env, tag);
    }
  }

  /** Everything decoded is a proper value of the loaded classes. */
  lemma {:induction false} DecodedIsSound(env: Env, j: Json)
    requires Canonical(env) && Parsed(j) && Decode(env, j).Some?
    ensures Sound(env, Decode(env, j).value)
    decreases j, 3
  {
    match j
    case JList(items) => AllSound(env, items);
    case JDict(entries) =>
      if TAG !in EntryKeys(entries) {
        DictSound(env, j);
      } else {
        assert entries[0] in entries;
        TaggedSound(env, entries[0].1, StringField(entries[0].1.entries, "type").value);
      }
    case _ =>
  }

  // --------------------------------------------------------------- captured again

  /** Every named tuple in it is of a class of named tuples. */
  ghost predicate ProperTuples(env: Env, v: Value)
    decreases v
  {
    match v
    case Enum(_, _, value) => ProperTuples(env, value)
    case NamedTuple(cls, items) =>
      cls in env.defs && env.defs[cls].TupleClass? && forall x <- items :: ProperTuples(env, x)
    case Tuple(items) => forall x <- items :: ProperTuples(env, x)
    case List(items) => forall x <- items :: ProperTuples(env, x)
    case PySet(members) => forall x <- members :: ProperTuples(env, x)
    case FrozenSet(members) => forall x <- members :: ProperTuples(env, x)
    case Dict(entries) => forall e <- entries :: ProperTuples(env, e.1)
    case _ => true
  }

  lemma {:induction false} SoundIsCapturable(env: Env, v: Value)
    requires Sound(env, v) && ProperTuples(env, v)
    ensures Real(v) && Encodable(env, v) && NamedMembers(env, v) && Consistent(env, v)
    decreases v
  {
    match v
    case Enum(_, _, value) => SoundIsCapturable(env, value);
    case NamedTuple(_, items) => forall x | x in items { SoundIsCapturable(env, x); }
    case Tuple(items) => forall x | x in items { SoundIsCapturable(env, x); }
    case List(items) => forall x | x in items { SoundIsCapturable(env, x); }
    case PySet(members) => forall x | x in members { SoundIsCapturable(env, x); }
    case FrozenSet(members) => forall x | x in members { SoundIsCapturable(env, x); }
    case Dict(entries) => forall e | e in entries { SoundIsCapturable(env, e.1); }
    case _ =>
  }

  /** What is decoded, from whatever text, is accepted by the encoder, and its encoding is
      decoded to the very same value. */
  lemma DecodedComesBack(env: Env, it: Iteration, j: Json, path: string)
    requires ValidIteration(it) && LeavesInvert(env) && Canonical(env)
    requires Parsed(j) && Decode(env, j).Some? && ProperTuples(env, Decode(env, j).value)
    ensures var v := Decode(env, j).value;
      Encode(env, it, v, path).Good? && Decode(env, Encode(env, it, v, path).value) == Some(v)
  {
    var v := Decode(env, j).value;
    DecodedIsSound(env, j);
    SoundIsCapturable(env, v);
    EncodeAcceptsIff(env, it, v, path);
    RoundTripIff(env, it, v, path);
  }
}
