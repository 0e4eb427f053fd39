/** The tagged encoder and decoder of captured values, over an abstract environment of
    loaded classes, leaf texts and JSON serialisation. */
module Codec {
  import opened Wrappers
  import opened Values
  import Text
  import Pointer

  const TAG: string := "$onestep"

  datatype Json =
    | JNull
    | JBool(b: bool)
    | JInt(i: int)
    | JFloat(id: int)
    | JNonFinite
    | JStr(s: string)
    | JList(items: seq<Json>)
    | JDict(entries: seq<(string, Json)>)

  /** What a loaded class is.  An enum's composite objects (combined flags) have names
      that its member lookup does not know. */
  datatype ClassDef =
    | EnumClass(members: map<string, Value>, composites: map<string, Value>)
    | TupleClass(fields: seq<string>)
    | PlainClass

  datatype Env = Env(
    loaded: map<(string, string), Class>,      // what a module and qualified name resolve to
    defs: map<Class, ClassDef>,
    printLeaf: (LeafKind, int) -> string,
    parseLeaf: (LeafKind, string) -> Option<int>,
    printInstant: int -> string,
    parseInstant: string -> Option<int>,
    dumps: Json -> string)                     // JSON text with sorted keys

  /** The order in which a set is iterated. */
  type Iteration = set<Value> -> seq<Value>

  ghost predicate Enumerates(order: seq<Value>, members: set<Value>) {
    && (forall x :: x in order <==> x in members)
    && (forall i, j :: 0 <= i < j < |order| ==> order[i] != order[j])
  }

  ghost predicate ValidIteration(it: Iteration) {
    forall members :: Enumerates(it(members), members)
  }

  // ---------------------------------------------------------------- encoding

  /** A result, or the path and type name of what cannot be encoded. */
  datatype Outcome<T> = Good(value: T) | Bad(path: string, typeName: string)

  function IsLocal(qualname: string): bool { "<locals>" in Text.Split(qualname, '.') }

  predicate Replayable(env: Env, cls: Class) {
    && !IsLocal(cls.qualname)
    && (cls.mod, cls.qualname) in env.loaded && env.loaded[(cls.mod, cls.qualname)] == cls
  }

  function Refuse<T>(path: string, typeName: string): Outcome<T> {
    Bad(if path == "" then "/" else path, typeName)
  }

  function ClassName(cls: Class): string { cls.mod + "." + cls.qualname }

  function Tagged(typeName: string, fields: seq<(string, Json)>): Json {
    JDict([(TAG, JDict([("type", JStr(typeName))] + fields))])
  }

  /** Tokens "0", "1", ... for the items of a sequence. */
  function Indices(n: nat): (ts: seq<string>)
    ensures |ts| == n
  {
    seq(n, i requires 0 <= i < n => Text.Decimal(i))
  }

  /** Every member of a set has the same token. */
  function SetTokens(n: nat): (ts: seq<string>)
    ensures |ts| == n
  {
    seq(n, i => "set")
  }

  function Fields(env: Env, cls: Class): seq<string> {
    if cls in env.defs && env.defs[cls].TupleClass? then env.defs[cls].fields else []
  }

  function Strings(texts: seq<string>): seq<Json> {
    seq(|texts|, i requires 0 <= i < |texts| => JStr(texts[i]))
  }

  function KeysOf(entries: seq<(Key, Value)>): seq<string> {
    seq(|entries|, i requires 0 <= i < |entries| => entries[i].0.text)
  }

  function FirstOtherKey(entries: seq<(Key, Value)>): (r: Option<string>)
    ensures r.None? <==> forall e <- entries :: e.0.Name?
  {
    if entries == [] then None
    else if entries[0].0.OtherKey? then Some(entries[0].0.typeName)
    else
      assert entries == [entries[0]] + entries[1..];
      FirstOtherKey(entries[1..])
  }

  function Zip<A>(names: seq<string>, xs: seq<A>): seq<(string, A)>
    requires |names| == |xs|
  {
    seq(|names|, i requires 0 <= i < |names| => (names[i], xs[i]))
  }

  function PairLists(names: seq<string>, xs: seq<Json>): seq<Json>
    requires |names| == |xs|
  {
    seq(|names|, i requires 0 <= i < |names| => JList([JStr(names[i]), xs[i]]))
  }

  function EnumFields(cls: Class, name: string, j: Json): seq<(string, Json)> {
    [("module", JStr(cls.mod)), ("qualname", JStr(cls.qualname)), ("name", JStr(name)), ("value", j)]
  }

  /** `j` records an object of a replayable enum by its class and name. */
  ghost predicate IsEnumTag(env: Env, cls: Class, name: string, j: Json) {
    Replayable(env, cls) && exists value :: j == Tagged("enum", EnumFields(cls, name, value))
  }

  /** An enum object, given what its value is encoded to. */
  function EncodedEnum(cls: Class, name: string, part: Outcome<Json>): Outcome<Json> {
    match part
    case Bad(p, t) => Bad(p, t)
    case Good(j) => Good(Tagged("enum", EnumFields(cls, name, j)))
  }

  ghost function Encode(env: Env, it: Iteration, v: Value, path: string): (r: Outcome<Json>)
    requires ValidIteration(it)
    ensures v.Enum? && r.Good? ==> IsEnumTag(env, v.cls, v.name, r.value)
    decreases v, 1, 0
  {
    match v
    case Enum(cls, name, value) =>
      EncodeObject(env, it, v, path)
    case Null => Good(JNull)
    case Bool(b) => Good(JBool(b))
    case Int(i) => Good(JInt(i))
    case Str(s) => Good(JStr(s))
    case Float(id) => Good(JFloat(id))
    case NonFinite => Refuse(path, "builtins.float")
    case DateTime(instant, fold) =>
      Good(Tagged("datetime", [("value", JStr(env.printInstant(instant))), ("fold", JInt(fold))]))
    case Leaf(kind, id) => Good(Tagged(LeafTag(kind), [("value", JStr(env.printLeaf(kind, id)))]))
    case NamedTuple(cls, items) =>
      if !Replayable(env, cls) then Refuse(path, ClassName(cls))
      else
        var fields := Fields(env, cls);
        var n := if |fields| <= |items| then |fields| else |items|;
        (match EncodeAll(env, it, v, items[..n], fields[..n], path)
         case Bad(p, t) => Bad(p, t)
         case Good(js) =>
           Good(Tagged("namedtuple", [("module", JStr(cls.mod)), ("qualname", JStr(cls.qualname)),
                                      ("fields", JList(Strings(fields))), ("values", JList(js))])))
    case Tuple(items) =>
      (match EncodeAll(env, it, v, items, Indices(|items|), path)
       case Bad(p, t) => Bad(p, t)
       case Good(js) => Good(Tagged("tuple", [("values", JList(js))])))
    case PySet(members) => EncodeSet(env, it, v, members, "set", path)
    case FrozenSet(members) => EncodeSet(env, it, v, members, "frozenset", path)
    case List(items) =>
      (match EncodeAll(env, it, v, items, Indices(|items|), path)
       case Bad(p, t) => Bad(p, t)
       case Good(js) => Good(JList(js)))
    case Dict(entries) =>
      (match FirstOtherKey(entries)
       case Some(t) => Refuse(path, t)
       case None =>
         var keys := KeysOf(entries);
         match EncodeAll(env, it, v, Children(v), keys, path)
         case Bad(p, t) => Bad(p, t)
         case Good(js) =>
           if TAG in keys then Good(Tagged("mapping", [("items", JList(PairLists(keys, js)))]))
           else Good(JDict(Zip(keys, js))))
    case Other(typeName) => Refuse(path, typeName)
  }

  function LeafTag(kind: LeafKind): string {
    match kind case Uuid => "uuid" case Bytes => "bytes" case Decimal => "decimal"
  }

  ghost function EncodeObject(env: Env, it: Iteration, v: Value, path: string): (r: Outcome<Json>)
    requires ValidIteration(it) && v.Enum?
    ensures r.Good? ==> IsEnumTag(env, v.cls, v.name, r.value)
    decreases v, 0, 0
  {
    if !Replayable(env, v.cls) then Refuse(path, ClassName(v.cls))
    else EncodedEnum(v.cls, v.name, Encode(env, it, v.value, Pointer.Extend(path, "value")))
  }

  /** Encodes parts of `v` in order, each under its own token, up to the first refusal. */
  ghost function EncodeAll(env: Env, it: Iteration, v: Value, items: seq<Value>, tokens: seq<string>, path: string)
      : (r: Outcome<seq<Json>>)
    requires ValidIteration(it) && |items| == |tokens|
    requires forall x <- items :: x < v
    ensures r.Good? ==> |r.value| == |items|
    decreases v, 0, |items|
  {
    if items == [] then Good([])
    else
      assert items[0] in items && forall x <- items[1..] :: x in items;
      match Encode(env, it, items[0], Pointer.Extend(path, tokens[0]))
      case Bad(p, t) => Bad(p, t)
      case Good(j) =>
        match EncodeAll(env, it, v, items[1..], tokens[1..], path)
        case Bad(p, t) => Bad(p, t)
        case Good(js) => Good([j] + js)
  }

  ghost function EncodeSet(env: Env, it: Iteration, v: Value, members: set<Value>, typeName: string, path: string)
      : Outcome<Json>
    requires ValidIteration(it) && forall x <- members :: x < v
    decreases v, 0, |it(members)| + 1
  {
    var order := it(members);
    match EncodeAll(env, it, v, order, SetTokens(|order|), path)
    case Bad(p, t) => Bad(p, t)
    case Good(js) => Good(Tagged(typeName, [("values", JList(Sort(env.dumps, js)))]))
  }

  // ----------------------------------------------------------------- sorting

  /** Lexicographic order of strings. */
  predicate LessEq(a: string, b: string) {
    a == [] || (b != [] && (a[0] < b[0] || (a[0] == b[0] && LessEq(a[1..], b[1..]))))
  }

  function Insert(key: Json -> string, x: Json, xs: seq<Json>): (r: seq<Json>)
    ensures multiset(r) == multiset{x} + multiset(xs) && |r| == |xs| + 1
  {
    if xs == [] || LessEq(key(x), key(xs[0])) then [x] + xs
    else
      assert xs == [xs[0]] + xs[1..];
      [xs[0]] + Insert(key, x, xs[1..])
  }

  /** A stable sort by key. */
  function Sort(key: Json -> string, xs: seq<Json>): (r: seq<Json>)
    ensures multiset(r) == multiset(xs) && |r| == |xs|
  {
    if xs == [] then []
    else
      assert xs == [xs[0]] + xs[1..];
      Insert(key, xs[0], Sort(key, xs[1..]))
  }

  // ---------------------------------------------------------------- decoding

  function Find(entries: seq<(string, Json)>, key: string): Option<Json> {
    if entries == [] then None
    else if entries[0].0 == key then Some(entries[0].1)
    else Find(entries[1..], key)
  }

  function EntryKeys(entries: seq<(string, Json)>): set<string> {
    set i | 0 <= i < |entries| :: entries[i].0
  }

  /** `_require_fields`: the payload has exactly the type and these fields. */
  predicate HasFields(payload: seq<(string, Json)>, fields: set<string>) {
    EntryKeys(payload) == {"type"} + fields
  }

  /** The payload's `key` where it is a string. */
  function StringField(payload: seq<(string, Json)>, key: string): Option<string> {
    match Find(payload, key)
    case Some(JStr(s)) => Some(s)
    case _ => None
  }

  function AllStrings(items: seq<Json>): Option<seq<string>> {
    if items == [] then Some([])
    else
      match (items[0], AllStrings(items[1..]))
      case (JStr(s), Some(rest)) => Some([s] + rest)
      case _ => None
  }

  function Resolve(env: Env, mod: Option<string>, qualname: Option<string>): Option<Class> {
    if mod.None? || qualname.None? || IsLocal(qualname.value) || (mod.value, qualname.value) !in env.loaded then None
    else Some(env.loaded[(mod.value, qualname.value)])
  }

  /** `decode_value`; None where it raises. */
  function Decode(env: Env, j: Json): Option<Value>
    decreases j, 3
  {
    match j
    case JNull => Some(Null)
    case JBool(b) => Some(Bool(b))
    case JInt(i) => Some(Int(i))
    case JStr(s) => Some(Str(s))
    case JFloat(id) => Some(Float(id))
    case JNonFinite => None
    case JList(items) =>
      (match DecodeAll(env, items) case None => None case Some(vs) => Some(List(vs)))
    case JDict(entries) =>
      if TAG !in EntryKeys(entries) then
        (match DecodeEntries(env, j, entries) case None => None case Some(es) => Some(Dict(es)))
      else if EntryKeys(entries) != {TAG} || |entries| != 1 || !entries[0].1.JDict? then None
      else
        var payload := entries[0].1.entries;
        match StringField(payload, "type")
        case None => None
        case Some(typeName) => DecodeTagged(env, entries[0].1, typeName)
  }

  function DecodeTagged(env: Env, tag: Json, typeName: string): Option<Value>
    requires tag.JDict?
    decreases tag, 2
  {
    var payload := tag.entries;
    if typeName == "datetime" then
      if !HasFields(payload, {"value", "fold"}) then None
      else
        (match (StringField(payload, "value"), Find(payload, "fold"))
         case (Some(text), Some(JInt(fold))) =>
           if fold !in {0, 1} then None
           else (match env.parseInstant(text) case None => None case Some(t) => Some(DateTime(t, fold)))
         case _ => None)
    else if typeName == "uuid" then DecodeLeaf(env, payload, Uuid)
    else if typeName == "bytes" then DecodeLeaf(env, payload, Bytes)
    else if typeName == "decimal" then DecodeLeaf(env, payload, Decimal)
    else if typeName == "tuple" || typeName == "set" || typeName == "frozenset" then DecodeItems(env, tag, typeName)
    else if typeName == "mapping" then DecodeMapping(env, tag)
    else if typeName == "enum" then DecodeEnum(env, tag)
    else if typeName == "namedtuple" then DecodeNamedTuple(env, tag)
    else None
  }

  function DecodeItems(env: Env, tag: Json, typeName: string): Option<Value>
    requires tag.JDict?
    decreases tag, 1
  {
    var payload := tag.entries;
    if !HasFields(payload, {"values"}) || Find(payload, "values").None? || !Find(payload, "values").value.JList? then None
    else
      FindIsSmaller(tag, "values");
      match DecodeAll(env, Find(payload, "values").value.items)
      case None => None
      case Some(items) =>
        if typeName == "tuple" then Some(Tuple(items))
        else if exists x <- items :: !Hashable(x) then None
        else if typeName == "frozenset" then Some(FrozenSet(set x | x in items))
        else Some(PySet(set x | x in items))
  }

  function DecodeMapping(env: Env, tag: Json): Option<Value>
    requires tag.JDict?
    decreases tag, 1
  {
    var payload := tag.entries;
    if !HasFields(payload, {"items"}) || Find(payload, "items").None? || !Find(payload, "items").value.JList? then None
    else
      FindIsSmaller(tag, "items");
      match DecodePairs(env, Find(payload, "items").value.items)
      case None => None
      case Some(entries) => if DistinctKeys(entries) then Some(Dict(entries)) else None
  }

  function DecodeEnum(env: Env, tag: Json): Option<Value>
    requires tag.JDict?
    decreases tag, 1
  {
    var payload := tag.entries;
    if !HasFields(payload, {"module", "qualname", "name", "value"}) then None
    else
      match Resolve(env, StringField(payload, "module"), StringField(payload, "qualname"))
      case None => None
      case Some(cls) =>
        if cls !in env.defs || !env.defs[cls].EnumClass? || StringField(payload, "name").None? then None
        else DecodeMember(env, tag, cls, env.defs[cls].members, StringField(payload, "name").value)
  }

  function DecodeNamedTuple(env: Env, tag: Json): Option<Value>
    requires tag.JDict?
    decreases tag, 1
  {
    var payload := tag.entries;
    if !HasFields(payload, {"module", "qualname", "fields", "values"}) then None
    else
      match Resolve(env, StringField(payload, "module"), StringField(payload, "qualname"))
      case None => None
      case Some(cls) =>
        var fields := Find(payload, "fields");
        var values := Find(payload, "values");
        if fields.None? || !fields.value.JList? || AllStrings(fields.value.items).None?
           || values.None? || !values.value.JList? || |fields.value.items| != |values.value.items|
           || Fields(env, cls) != AllStrings(fields.value.items).value then None
        else
          FindIsSmaller(tag, "values");
          match DecodeAll(env, values.value.items)
          case None => None
          case Some(items) => Some(NamedTuple(cls, items))
  }

  function DecodeLeaf(env: Env, payload: seq<(string, Json)>, kind: LeafKind): Option<Value> {
    if !HasFields(payload, {"value"}) then None
    else
      match StringField(payload, "value")
      case None => None
      case Some(text) =>
        match env.parseLeaf(kind, text) case None => None case Some(id) => Some(Leaf(kind, id))
  }

  /** The member of an enum by name, if its value is still the recorded one. */
  function DecodeMember(env: Env, tag: Json, cls: Class, members: map<string, Value>, name: string): Option<Value>
    requires tag.JDict? && "value" in EntryKeys(tag.entries)
    decreases tag, 0
  {
    if name !in members then None
    else
      FindIsSmaller(tag, "value");
      match Decode(env, Find(tag.entries, "value").value)
      case None => None
      case Some(recorded) => if members[name] == recorded then Some(Enum(cls, name, recorded)) else None
  }

  function DecodeAll(env: Env, items: seq<Json>): (r: Option<seq<Value>>)
    ensures r.Some? ==> |r.value| == |items|
    decreases items, 0
  {
    if items == [] then Some([])
    else
      match Decode(env, items[0])
      case None => None
      case Some(v) =>
        match DecodeAll(env, items[1..])
        case None => None
        case Some(vs) => Some([v] + vs)
  }

  /** Decodes the entries of `j` in order. */
  function DecodeEntries(env: Env, j: Json, entries: seq<(string, Json)>): Option<seq<(Key, Value)>>
    requires forall e <- entries :: e.1 < j
    decreases j, 2, |entries|
  {
    if entries == [] then Some([])
    else
      assert entries[0] in entries && forall e <- entries[1..] :: e in entries;
      match Decode(env, entries[0].1)
      case None => None
      case Some(v) =>
        match DecodeEntries(env, j, entries[1..])
        case None => None
        case Some(es) => Some([(Name(entries[0].0), v)] + es)
  }

  /** The items of a "mapping" tag: two-element lists of a string and a value. */
  function DecodePairs(env: Env, items: seq<Json>): Option<seq<(Key, Value)>>
    decreases items, 0
  {
    if items == [] then Some([])
    else if !items[0].JList? || |items[0].items| != 2 || !items[0].items[0].JStr? then None
    else
      match Decode(env, items[0].items[1])
      case None => None
      case Some(v) =>
        match DecodePairs(env, items[1..])
        case None => None
        case Some(es) => Some([(Name(items[0].items[0].s), v)] + es)
  }

  lemma FindIsSmaller(tag: Json, key: string)
    requires tag.JDict? && key in EntryKeys(tag.entries)
    ensures Find(tag.entries, key).Some? && Find(tag.entries, key).value < tag
  {
    var i := FindIndex(tag.entries, key);
    assert tag.entries[i] in tag.entries;
  }

  lemma {:induction false} FindIndex(entries: seq<(string, Json)>, key: string) returns (i: nat)
    requires key in EntryKeys(entries)
    ensures i < |entries| && Find(entries, key) == Some(entries[i].1)
  {
    if entries[0].0 == key {
      i := 0;
    } else {
      var k :| 0 <= k < |entries| && entries[k].0 == key;
      assert entries[1..][k - 1].0 == key;
      i := FindIndex(entries[1..], key);
      i := i + 1;
    }
  }
}
