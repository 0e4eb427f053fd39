/** The Python values a failure capture can hold, down to the distinctions the capture
    code makes, and how a container's children are addressed by path tokens. */
module Values {
  import opened Wrappers
  import Text

  /** A class, by the names it is recorded under; `stamp` tells apart classes that
      share those names. */
  datatype Class = Class(mod: string, qualname: string, stamp: nat)

  datatype LeafKind = Uuid | Bytes | Decimal

  /** A mapping key: a string, or another object with its `str` text. */
  datatype Key = Name(text: string) | OtherKey(text: string, typeName: string)

  datatype Value =
    | Null
    | Bool(b: bool)
    | Int(i: int)
    | Str(s: string)
    | Float(id: int)
    | NonFinite
    | DateTime(instant: int, fold: int)
    | Leaf(kind: LeafKind, id: int)
    | List(items: seq<Value>)
    | Tuple(items: seq<Value>)
    | NamedTuple(cls: Class, items: seq<Value>)
    | PySet(members: set<Value>)
    | FrozenSet(members: set<Value>)
    | Dict(entries: seq<(Key, Value)>)
    | Enum(cls: Class, name: string, value: Value)
    | Other(typeName: string)

  // -------------------------------------------------------------- containers

  predicate IsSequence(v: Value) { v.List? || v.Tuple? || v.NamedTuple? }

  /** The addressable children of a value. */
  function Children(v: Value): seq<Value> {
    if IsSequence(v) then v.items
    else if v.Dict? then seq(|v.entries|, i requires 0 <= i < |v.entries| => v.entries[i].1)
    else []
  }

  /** The path token of child `i`. */
  function Label(v: Value, i: nat): string
    requires i < |Children(v)|
  {
    if v.Dict? then v.entries[i].0.text else Text.Decimal(i)
  }

  /** The same container with child `i` replaced. */
  function WithChild(v: Value, i: nat, x: Value): Value
    requires i < |Children(v)|
  {
    if v.Dict? then v.(entries := v.entries[i := (v.entries[i].0, x)]) else v.(items := v.items[i := x])
  }

  /** The position of the first entry whose key is the string `token`. */
  function FindKey(entries: seq<(Key, Value)>, token: string): (r: Option<nat>)
    ensures r.Some? ==> r.value < |entries| && entries[r.value].0 == Name(token)
    ensures r.None? ==> forall i :: 0 <= i < |entries| ==> entries[i].0 != Name(token)
  {
    if entries == [] then None
    else if entries[0].0 == Name(token) then Some(0)
    else
      match FindKey(entries[1..], token)
      case None => None
      case Some(i) => Some(i + 1)
  }

  /** The child a token addresses: a string key, or the plain decimal of an index. */
  function Child(v: Value, token: string): (r: Option<nat>)
    ensures r.Some? ==> r.value < |Children(v)|
  {
    if v.Dict? then FindKey(v.entries, token)
    else if IsSequence(v) then
      match Text.ParseInt(token)
      case None => None
      case Some(index) =>
        if index < 0 || index >= |v.items| || Text.Decimal(index) != token then None else Some(index)
    else None
  }

  lemma ChildIsSmaller(v: Value, i: nat)
    requires i < |Children(v)|
    ensures Children(v)[i] < v
  {
    if v.Dict? {
      assert v.entries[i] in v.entries;
    }
  }

  /** Replacing a child keeps every address and every other child. */
  lemma WithChildFrame(v: Value, i: nat, x: Value)
    requires i < |Children(v)|
    ensures Children(WithChild(v, i, x)) == Children(v)[i := x]
    ensures forall token :: Child(WithChild(v, i, x), token) == Child(v, token)
    ensures WithChild(v, i, Children(v)[i]) == v
  {
    var v' := WithChild(v, i, x);
    if v.Dict? {
      assert forall k :: 0 <= k < |v.entries| ==> v'.entries[k].0 == v.entries[k].0;
      forall token ensures FindKey(v'.entries, token) == FindKey(v.entries, token) {
        FindKeyByKeys(v.entries, v'.entries, token);
      }
      assert Children(v') == Children(v)[i := x];
      assert WithChild(v, i, Children(v)[i]).entries == v.entries;
    }
  }

  lemma {:induction false} FindKeyByKeys(a: seq<(Key, Value)>, b: seq<(Key, Value)>, token: string)
    requires |a| == |b| && forall k :: 0 <= k < |a| ==> a[k].0 == b[k].0
    ensures FindKey(a, token) == FindKey(b, token)
  {
    if a != [] {
      FindKeyByKeys(a[1..], b[1..], token);
    }
  }

  lemma WithChildCommutes(v: Value, i: nat, x: Value, j: nat, y: Value)
    requires i < |Children(v)| && j < |Children(v)| && i != j
    ensures |Children(WithChild(v, i, x))| == |Children(WithChild(v, j, y))| == |Children(v)|
    ensures WithChild(WithChild(v, i, x), j, y) == WithChild(WithChild(v, j, y), i, x)
  {
    if v.Dict? {
      assert v.entries[i := (v.entries[i].0, x)][j := (v.entries[j].0, y)]
          == v.entries[j := (v.entries[j].0, y)][i := (v.entries[i].0, x)];
    } else {
      assert v.items[i := x][j := y] == v.items[j := y][i := x];
    }
  }

  lemma WithChildTwice(v: Value, i: nat, x: Value, y: Value)
    requires i < |Children(v)|
    ensures |Children(WithChild(v, i, x))| == |Children(v)|
    ensures WithChild(WithChild(v, i, x), i, y) == WithChild(v, i, y)
  {
    WithChildFrame(v, i, x);
    if v.Dict? {
      assert v.entries[i := (v.entries[i].0, x)][i := (v.entries[i].0, y)] == v.entries[i := (v.entries[i].0, y)];
    } else {
      assert v.items[i := x][i := y] == v.items[i := y];
    }
  }

  // ------------------------------------------------------------- well-formed

  /** Can Python hash it, so that it may be a set member? */
  predicate Hashable(v: Value) {
    match v
    case List(_) => false
    case Dict(_) => false
    case PySet(_) => false
    case Tuple(items) => forall x <- items :: Hashable(x)
    case NamedTuple(_, items) => forall x <- items :: Hashable(x)
    case _ => true
  }

  predicate DistinctKeys(entries: seq<(Key, Value)>) {
    forall i, j :: 0 <= i < j < |entries| ==> entries[i].0 != entries[j].0
  }

  /** What holds of every Python object: keys differ, set members are hashable. */
  predicate Real(v: Value) {
    match v
    case List(items) => forall x <- items :: Real(x)
    case Tuple(items) => forall x <- items :: Real(x)
    case NamedTuple(_, items) => forall x <- items :: Real(x)
    case PySet(members) => forall x <- members :: Hashable(x) && Real(x)
    case FrozenSet(members) => forall x <- members :: Hashable(x) && Real(x)
    case Dict(entries) => DistinctKeys(entries) && forall e <- entries :: Real(e.1)
    case Enum(_, _, value) => Real(value)
    case _ => true
  }

  lemma RealChild(v: Value, i: nat)
    requires Real(v) && i < |Children(v)|
    ensures Real(Children(v)[i])
  {
    if v.Dict? {
      assert v.entries[i] in v.entries;
    } else {
      assert v.items[i] in v.items;
    }
  }

  /** A child with a string key, or of a sequence, is found by its own label. */
  lemma ChildByLabel(v: Value, i: nat)
    requires i < |Children(v)| && (v.Dict? ==> DistinctKeys(v.entries) && v.entries[i].0.Name?)
    ensures Child(v, Label(v, i)) == Some(i)
  {
    if v.Dict? {
      var r := FindKey(v.entries, Label(v, i));
      assert v.entries[i].0 == Name(Label(v, i));
      assert r.Some?;
    } else {
      Text.ParseDecimal(i);
    }
  }

  lemma LabelOfChild(v: Value, token: string)
    requires Child(v, token).Some?
    ensures Label(v, Child(v, token).value) == token
    ensures v.Dict? ==> v.entries[Child(v, token).value].0 == Name(token)
  {
  }
}
