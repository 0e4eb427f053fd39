/** What the decoder refuses: captures of classes that have changed since, and tags that are
    not what the encoder writes. */
module CodecDrift {
  import opened Wrappers
  import opened Values
  import opened Codec
  import opened CodecLaws
  import Text

  /** The fields each kind of tag has, besides its type. */
  function Expected(typeName: string): set<string> {
    if typeName == "datetime" then {"value", "fold"}
    else if typeName in {"uuid", "bytes", "decimal"} then {"value"}
    else if typeName in {"tuple", "set", "frozenset"} then {"values"}
    else if typeName == "mapping" then {"items"}
    else if typeName == "enum" then {"module", "qualname", "name", "value"}
    else if typeName == "namedtuple" then {"module", "qualname", "fields", "values"}
    else {}
  }

  /** A tag is decoded only if it has the fields of its type, no more and no less, and
      none of an unknown type is. */
  lemma TagsAreStrict(env: Env, tag: Json, typeName: string)
    requires tag.JDict? && DecodeTagged(env, tag, typeName).Some?
    ensures Expected(typeName) != {} && EntryKeys(tag.entries) == {"type"} + Expected(typeName)
  {
  }

  /** On whole values. */
  lemma TaggedIsStrict(env: Env, typeName: string, fields: seq<(string, Json)>)
    requires Decode(env, Tagged(typeName, fields)).Some?
    ensures Expected(typeName) != {} && EntryKeys(Payload(typeName, fields)) == {"type"} + Expected(typeName)
  {
    DecodeOfTagged(env, typeName, fields);
    TagsAreStrict(env, JDict(Payload(typeName, fields)), typeName);
  }

  /** An object with the tag among its keys is decoded only if it is nothing but the tag. */
  lemma TagStandsAlone(env: Env, entries: seq<(string, Json)>)
    requires TAG in EntryKeys(entries) && Decode(env, JDict(entries)).Some?
    ensures |entries| == 1 && entries[0].0 == TAG && entries[0].1.JDict?
  {
    assert entries[0].0 in EntryKeys(entries);
  }

  function TupleTag(cls: Class, fields: seq<string>, js: seq<Json>): Json {
    Tagged("namedtuple", [("module", JStr(cls.mod)), ("qualname", JStr(cls.qualname)),
                          ("fields", JList(Strings(fields))), ("values", JList(js))])
  }

  /** A named tuple whose class has other fields by now is refused. */
  lemma ChangedTupleRefused(env: Env, cls: Class, fields: seq<string>, js: seq<Json>)
    requires Replayable(env, cls) && Fields(env, cls) != fields
    ensures Decode(env, TupleTag(cls, fields, js)).None?
  {
    var entries := [("module", JStr(cls.mod)), ("qualname", JStr(cls.qualname)),
                    ("fields", JList(Strings(fields))), ("values", JList(js))];
    var tag := JDict(Payload("namedtuple", entries));
    DecodeOfTagged(env, "namedtuple", entries);
    Dispatch(env, tag);
    PayloadFour("namedtuple", "module", JStr(cls.mod), "qualname", JStr(cls.qualname),
                "fields", JList(Strings(fields)), "values", JList(js));
    AllStringsOf(fields);
  }

  /** An enum object is refused where its class cannot be found, is no enum, or has under the
      name no member, or one of another value. */
  lemma ChangedEnumRefused(env: Env, cls: Class, name: string, j: Json)
    requires Replayable(env, cls)
    ensures Decode(env, Tagged("enum", EnumFields(cls, name, j))).Some? ==>
      cls in env.defs && env.defs[cls].EnumClass? && name in env.defs[cls].members
      && Decode(env, j) == Some(env.defs[cls].members[name])
  {
    var entries := EnumFields(cls, name, j);
    DecodeOfTagged(env, "enum", entries);
    Dispatch(env, JDict(Payload("enum", entries)));
    PayloadFour("enum", "module", JStr(cls.mod), "qualname", JStr(cls.qualname), "name", JStr(name), "value", j);
  }

  /** Nothing of a class that is not loaded under its name is decoded. */
  lemma UnloadedRefused(env: Env, cls: Class, name: string, fields: seq<string>, j: Json, js: seq<Json>)
    requires Resolve(env, Some(cls.mod), Some(cls.qualname)).None?
    ensures Decode(env, Tagged("enum", EnumFields(cls, name, j))).None? && Decode(env, TupleTag(cls, fields, js)).None?
  {
    var entries := EnumFields(cls, name, j);
    DecodeOfTagged(env, "enum", entries);
    Dispatch(env, JDict(Payload("enum", entries)));
    PayloadFour("enum", "module", JStr(cls.mod), "qualname", JStr(cls.qualname), "name", JStr(name), "value", j);
    UnloadedTuple(env, cls, fields, js);
  }

  lemma UnloadedTuple(env: Env, cls: Class, fields: seq<string>, js: seq<Json>)
    requires Resolve(env, Some(cls.mod), Some(cls.qualname)).None?
    ensures Decode(env, TupleTag(cls, fields, js)).None?
  {
    var entries := [("module", JStr(cls.mod)), ("qualname", JStr(cls.qualname)),
                    ("fields", JList(Strings(fields))), ("values", JList(js))];
    DecodeOfTagged(env, "namedtuple", entries);
    Dispatch(env, JDict(Payload("namedtuple", entries)));
    PayloadFour("namedtuple", "module", JStr(cls.mod), "qualname", JStr(cls.qualname),
                "fields", JList(Strings(fields)), "values", JList(js));
  }
}
