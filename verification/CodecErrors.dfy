/** Where the encoder says it stopped: the path and type name of a refusal. */
module CodecErrors {
  import opened Wrappers
  import opened Values
  import opened Codec
  import Pointer

  /** `c` is the part of `v` that the encoder visits under `token`. */
  ghost predicate Part(env: Env, v: Value, token: string, c: Value) {
    match v
    case Enum(_, _, value) => token == "value" && c == value
    case NamedTuple(cls, items) =>
      exists i :: 0 <= i < |items| && i < |Fields(env, cls)| && Fields(env, cls)[i] == token && items[i] == c
    case Tuple(items) => exists i :: 0 <= i < |items| && Indices(|items|)[i] == token && items[i] == c
    case List(items) => exists i :: 0 <= i < |items| && Indices(|items|)[i] == token && items[i] == c
    case PySet(members) => token == "set" && c in members
    case FrozenSet(members) => token == "set" && c in members
    case Dict(entries) => exists i :: 0 <= i < |entries| && entries[i].0.text == token && entries[i].1 == c
    case _ => false
  }

  /** `u` lies in `v` at the end of these tokens. */
  ghost predicate At(env: Env, v: Value, tokens: seq<string>, u: Value)
    decreases |tokens|
  {
    if tokens == [] then u == v
    else exists c :: Part(env, v, tokens[0], c) && At(env, c, tokens[1..], u)
  }

  /** The encoder refuses `u` itself, naming this type. */
  ghost predicate Refused(env: Env, u: Value, typeName: string) {
    match u
    case NonFinite => typeName == "builtins.float"
    case Other(t) => typeName == t
    case Enum(cls, _, _) => !Replayable(env, cls) && typeName == ClassName(cls)
    case NamedTuple(cls, _) => !Replayable(env, cls) && typeName == ClassName(cls)
    case Dict(entries) => FirstOtherKey(entries) == Some(typeName)
    case _ => false
  }

  function Shown(path: string): string { if path == "" then "/" else path }

  /** The refusal, met at `path`, points at a part of `v` that is refused itself. */
  ghost predicate Locates(env: Env, v: Value, path: string, p: string, typeName: string) {
    exists tokens, u ::
      At(env, v, tokens, u) && Refused(env, u, typeName) && p == Shown(path + Pointer.Print(tokens))
  }

  lemma LocatesHere(env: Env, v: Value, path: string, typeName: string)
    requires Refused(env, v, typeName)
    ensures Locates(env, v, path, Shown(path), typeName)
  {
    assert At(env, v, [], v) && path + Pointer.Print([]) == path;
  }

  lemma LocatesBelow(env: Env, v: Value, token: string, c: Value, path: string, p: string, typeName: string)
    requires Part(env, v, token, c) && Locates(env, c, Pointer.Extend(path, token), p, typeName)
    ensures Locates(env, v, path, p, typeName)
  {
    var tokens, u :|
      At(env, c, tokens, u) && Refused(env, u, typeName) && p == Shown(Pointer.Extend(path, token) + Pointer.Print(tokens));
    var longer := [token] + tokens;
    assert longer[1..] == tokens && longer[0] == token;
    assert At(env, v, longer, u);
    Pointer.PrintCons(token, tokens);
    Pointer.Regroup(path, "/", Pointer.Escape(token), Pointer.Print(tokens));
    assert At(env, v, longer, u) && p == Shown(path + Pointer.Print(longer));
  }

  /** Every refusal names a position of the value, as a JSON Pointer from the root, whose
      own type, class, float or key is refused, and the type to blame. */
  lemma {:induction false} RefusalLocates(env: Env, it: Iteration, v: Value, path: string)
    requires ValidIteration(it) && Encode(env, it, v, path).Bad?
    ensures var r := Encode(env, it, v, path); Locates(env, v, path, r.path, r.typeName)
    decreases v, 2
  {
    var r := Encode(env, it, v, path);
    match v {
      case Enum(cls, name, value) =>
        if Replayable(env, cls) {
          RefusalLocates(env, it, value, Pointer.Extend(path, "value"));
          LocatesBelow(env, v, "value", value, path, r.path, r.typeName);
        } else {
          LocatesHere(env, v, path, r.typeName);
        }
      case NamedTuple(cls, items) =>
        if Replayable(env, cls) {
          var fields := Fields(env, cls);
          var n := if |fields| <= |items| then |fields| else |items|;
          PartRefused(env, it, v, items[..n], fields[..n], path);
        } else {
          LocatesHere(env, v, path, r.typeName);
        }
      case Tuple(items) => PartRefused(env, it, v, items, Indices(|items|), path);
      case List(items) => PartRefused(env, it, v, items, Indices(|items|), path);
      case PySet(members) => MemberRefused(env, it, v, members, "set", path);
      case FrozenSet(members) => MemberRefused(env, it, v, members, "frozenset", path);
      case Dict(entries) =>
        if FirstOtherKey(entries).Some? {
          LocatesHere(env, v, path, r.typeName);
        } else {
          forall x | x in Children(v) ensures x < v {
            var i :| 0 <= i < |entries| && Children(v)[i] == x;
            ChildIsSmaller(v, i);
          }
          PartRefused(env, it, v, Children(v), KeysOf(entries), path);
        }
      case NonFinite => LocatesHere(env, v, path, "builtins.float");
      case Other(typeName) => LocatesHere(env, v, path, typeName);
      case _ =>
    }
  }

  lemma {:induction false} PartRefused(env: Env, it: Iteration, v: Value, items: seq<Value>, tokens: seq<string>, path: string)
    requires ValidIteration(it) && |items| == |tokens| && forall x <- items :: x < v
    requires forall i :: 0 <= i < |items| ==> Part(env, v, tokens[i], items[i])
    requires EncodeAll(env, it, v, items, tokens, path).Bad?
    ensures var r := EncodeAll(env, it, v, items, tokens, path); Locates(env, v, path, r.path, r.typeName)
    decreases v, 0, |items|
  {
    assert items[0] in items && forall x <- items[1..] :: x in items;
    var first := Encode(env, it, items[0], Pointer.Extend(path, tokens[0]));
    if first.Bad? {
      RefusalLocates(env, it, items[0], Pointer.Extend(path, tokens[0]));
      LocatesBelow(env, v, tokens[0], items[0], path, first.path, first.typeName);
    } else {
      PartRefused(env, it, v, items[1..], tokens[1..], path);
    }
  }

  lemma MemberRefused(env: Env, it: Iteration, v: Value, members: set<Value>, typeName: string, path: string)
    requires ValidIteration(it) && forall x <- members :: x < v
    requires (v.PySet? || v.FrozenSet?) && v.members == members
    requires EncodeSet(env, it, v, members, typeName, path).Bad?
    ensures var r := EncodeSet(env, it, v, members, typeName, path); Locates(env, v, path, r.path, r.typeName)
    decreases v, 1
  {
    var order := it(members);
    assert Enumerates(order, members);
    MembersRefused(env, it, v, order, path);
  }

  lemma MembersRefused(env: Env, it: Iteration, v: Value, order: seq<Value>, path: string)
    requires ValidIteration(it) && (v.PySet? || v.FrozenSet?) && forall x <- order :: x < v && x in v.members
    requires EncodeAll(env, it, v, order, SetTokens(|order|), path).Bad?
    ensures var r := EncodeAll(env, it, v, order, SetTokens(|order|), path); Locates(env, v, path, r.path, r.typeName)
    decreases v, 0, |order| + 1
  {
    var tokens := SetTokens(|order|);
    forall i | 0 <= i < |order| ensures Part(env, v, tokens[i], order[i]) {
      assert order[i] in order && tokens[i] == "set";
    }
    PartRefused(env, it, v, order, tokens, path);
  }
}
