/** Two ways of redacting a captured value: by secret key, walking the value, and by
    pointer, one addressed position at a time; and their agreement. */
module Redaction {
  import opened Wrappers
  import opened Values
  import Text
  import Pointer

  type Path = seq<string>

  const MARK: Value := Str("<redacted>")

  const SECRET_KEYS: set<string> := {
    "password", "passwd", "secret", "token", "authorization", "cookie", "api_key", "apikey",
    "dsn", "database_url", "connection_string"}

  // ------------------------------------------------------------- by pointer

  /** `_replace_tokens`: the value with the addressed position replaced, and whether
      the path led anywhere. */
  function ReplaceTokens(v: Value, path: Path, x: Value): (Value, bool)
    decreases |path|
  {
    if path == [] then (x, true)
    else
      match Child(v, path[0])
      case None => (v, false)
      case Some(i) =>
        var (replaced, changed) := ReplaceTokens(Children(v)[i], path[1..], x);
        if changed then (WithChild(v, i, replaced), true) else (v, false)
  }

  /** What a path leads to. */
  function Lookup(v: Value, path: Path): Option<Value>
    decreases |path|
  {
    if path == [] then Some(v)
    else
      match Child(v, path[0])
      case None => None
      case Some(i) => Lookup(Children(v)[i], path[1..])
  }

  /** The value after one replacement. */
  function Put(v: Value, path: Path, x: Value): Value { ReplaceTokens(v, path, x).0 }

  lemma PutStep(v: Value, path: Path, x: Value)
    requires path != []
    ensures Put(v, path, x) ==
      match Child(v, path[0])
      case None => v
      case Some(i) => WithChild(v, i, Put(Children(v)[i], path[1..], x))
  {
    var c := Child(v, path[0]);
    if c.Some? {
      WithChildFrame(v, c.value, MARK);
      UnchangedKeeps(Children(v)[c.value], path[1..], x);
    }
  }

  /** The flag says whether the path resolves; if not, the value is returned as it was. */
  lemma {:induction false} UnchangedKeeps(v: Value, path: Path, x: Value)
    ensures ReplaceTokens(v, path, x).1 <==> Lookup(v, path).Some?
    ensures !ReplaceTokens(v, path, x).1 ==> Put(v, path, x) == v
    decreases |path|
  {
    if path != [] && Child(v, path[0]).Some? {
      UnchangedKeeps(Children(v)[Child(v, path[0]).value], path[1..], x);
    }
  }

  lemma TailPrefix(p: Path, q: Path)
    requires p != [] && q != [] && p[0] == q[0]
    ensures p <= q <==> p[1..] <= q[1..]
    ensures p <= q ==> q[1..][|p[1..]|..] == q[|p|..]
  {
    assert p == [p[0]] + p[1..] && q == [q[0]] + q[1..];
  }

  /** A replacement that resolves puts `x` at its path, leaves every lookup at an
      incomparable path alone, and acts inside each container above the path. */
  lemma {:induction false} PutIsLocal(v: Value, path: Path, x: Value, q: Path)
    requires Lookup(v, path).Some?
    ensures path <= q ==> Lookup(Put(v, path, x), q) == Lookup(x, q[|path|..])
    ensures !(path <= q) && !(q <= path) ==> Lookup(Put(v, path, x), q) == Lookup(v, q)
    ensures q <= path ==>
      Lookup(v, q).Some? && Lookup(Put(v, path, x), q) == Some(Put(Lookup(v, q).value, path[|q|..], x))
    decreases |path|
  {
    if path == [] {
      assert q[0..] == q;
    } else {
      PutStep(v, path, x);
      var i := Child(v, path[0]).value;
      var child := Put(Children(v)[i], path[1..], x);
      WithChildFrame(v, i, child);
      if q == [] {
        assert path[0..] == path;
      } else {
        PutIsLocal(Children(v)[i], path[1..], x, q[1..]);
        if q[0] == path[0] {
          TailPrefix(path, q);
          TailPrefix(q, path);
        } else {
          OtherChild(v, path[0], q[0]);
        }
      }
    }
  }

  /** Different tokens address different children. */
  lemma OtherChild(v: Value, s: string, t: string)
    requires s != t && Child(v, s).Some?
    ensures Child(v, t) != Child(v, s)
  {
    LabelOfChild(v, s);
    if Child(v, t).Some? {
      LabelOfChild(v, t);
    }
  }

  // ------------------------------------------------------------- confluence

  /** The marker has no positions inside. */
  lemma MarkIsAtomic(path: Path)
    requires path != []
    ensures Put(MARK, path, MARK) == MARK
  {
  }

  /** Replacements by the marker commute, whatever their paths. */
  lemma {:induction false} PutsCommute(v: Value, p: Path, q: Path)
    ensures Put(Put(v, p, MARK), q, MARK) == Put(Put(v, q, MARK), p, MARK)
    decreases |p|
  {
    if p == [] || q == [] {
      if p != [] { MarkIsAtomic(p); }
      if q != [] { MarkIsAtomic(q); }
    } else {
      PutStep(v, p, MARK);
      PutStep(v, q, MARK);
      var cp, cq := Child(v, p[0]), Child(v, q[0]);
      PutStep(Put(v, p, MARK), q, MARK);
      PutStep(Put(v, q, MARK), p, MARK);
      if cp.Some? {
        WithChildFrame(v, cp.value, Put(Children(v)[cp.value], p[1..], MARK));
      }
      if cq.Some? {
        WithChildFrame(v, cq.value, Put(Children(v)[cq.value], q[1..], MARK));
      }
      if cp.Some? && cq.Some? {
        var i, j := cp.value, cq.value;
        var x, y := Put(Children(v)[i], p[1..], MARK), Put(Children(v)[j], q[1..], MARK);
        if i == j {
          PutsCommute(Children(v)[i], p[1..], q[1..]);
          WithChildTwice(v, i, x, Put(x, q[1..], MARK));
          WithChildTwice(v, i, y, Put(y, p[1..], MARK));
        } else {
          WithChildCommutes(v, i, x, j, y);
        }
      }
    }
  }

  lemma {:induction false} PutTwice(v: Value, p: Path)
    ensures Put(Put(v, p, MARK), p, MARK) == Put(v, p, MARK)
    decreases |p|
  {
    if p != [] {
      PutStep(v, p, MARK);
      PutStep(Put(v, p, MARK), p, MARK);
      var c := Child(v, p[0]);
      if c.Some? {
        var x := Put(Children(v)[c.value], p[1..], MARK);
        WithChildFrame(v, c.value, x);
        PutTwice(Children(v)[c.value], p[1..]);
        WithChildTwice(v, c.value, x, x);
      }
    }
  }

  /** Replacing along each path in turn. */
  function PutAll(v: Value, paths: seq<Path>): Value
    decreases |paths|
  {
    if paths == [] then v else PutAll(Put(v, paths[0], MARK), paths[1..])
  }

  /** A path in the list may as well be replaced first. */
  lemma {:induction false} PutFirst(v: Value, paths: seq<Path>, p: Path)
    requires p in paths
    ensures PutAll(v, paths) == PutAll(Put(v, p, MARK), paths)
    decreases |paths|
  {
    if paths[0] == p {
      PutTwice(v, p);
    } else {
      PutFirst(Put(v, paths[0], MARK), paths[1..], p);
      PutsCommute(v, paths[0], p);
    }
  }

  function Without(paths: seq<Path>, p: Path): (r: seq<Path>)
    ensures |r| <= |paths| && (p in paths ==> |r| < |paths|)
    ensures forall q :: q in r <==> q in paths && q != p
  {
    if paths == [] then []
    else if paths[0] == p then Without(paths[1..], p)
    else [paths[0]] + Without(paths[1..], p)
  }

  /** A path already replaced may be left out. */
  lemma {:induction false} PutSkips(v: Value, paths: seq<Path>, p: Path)
    requires Put(v, p, MARK) == v
    ensures PutAll(v, paths) == PutAll(v, Without(paths, p))
    decreases |paths|
  {
    if paths != [] {
      if paths[0] == p {
        PutSkips(v, paths[1..], p);
      } else {
        PutsCommute(v, paths[0], p);
        PutSkips(Put(v, paths[0], MARK), paths[1..], p);
        assert Without(paths, p) == [paths[0]] + Without(paths[1..], p);
      }
    }
  }

  /** Confluence: the result depends on the set of paths only. */
  lemma {:induction false} PutAllBySet(v: Value, ps: seq<Path>, qs: seq<Path>)
    requires forall p :: p in ps <==> p in qs
    ensures PutAll(v, ps) == PutAll(v, qs)
    decreases |ps|
  {
    assert qs != [] ==> qs[0] in qs;
    if ps != [] {
      var p := ps[0];
      var v' := Put(v, p, MARK);
      PutTwice(v, p);
      PutFirst(v, ps, p);
      PutFirst(v, qs, p);
      PutSkips(v', ps, p);
      PutSkips(v', qs, p);
      PutAllBySet(v', Without(ps, p), Without(qs, p));
    }
  }

  // ---------------------------------------------------------- by secret key

  /** Is the key one whose value is secret?  `casefold` is Python's. */
  predicate IsSecret(casefold: string -> string, key: Key) {
    key.Name? && Pointer.ReplaceChar(casefold(key.text), '-', "_") in SECRET_KEYS
  }

  predicate SecretChild(casefold: string -> string, v: Value, i: nat)
    requires i < |Children(v)|
  {
    v.Dict? && IsSecret(casefold, v.entries[i].0)
  }

  /** `_redact_secret_keys`: every value under a secret key is masked. */
  function Redact(casefold: string -> string, v: Value): Value
    decreases v
  {
    match v
    case Dict(entries) =>
      Dict(seq(|entries|, i requires 0 <= i < |entries| =>
        (entries[i].0, if IsSecret(casefold, entries[i].0) then MARK else Redact(casefold, entries[i].1))))
    case List(items) => List(seq(|items|, i requires 0 <= i < |items| => Redact(casefold, items[i])))
    case NamedTuple(cls, items) =>
      NamedTuple(cls, seq(|items|, i requires 0 <= i < |items| => Redact(casefold, items[i])))
    case Tuple(items) => Tuple(seq(|items|, i requires 0 <= i < |items| => Redact(casefold, items[i])))
    case PySet(members) => PySet(set x | x in members :: Redact(casefold, x))
    case FrozenSet(members) => FrozenSet(set x | x in members :: Redact(casefold, x))
    case _ => v
  }

  function Under(token: string, paths: set<Path>): set<Path> { set p | p in paths :: [token] + p }

  /** The paths `_redact_secret_keys` records, as token lists. */
  function SecretPaths(casefold: string -> string, v: Value): set<Path>
    decreases v
  {
    match v
    case Dict(entries) =>
      (set i | 0 <= i < |entries| && IsSecret(casefold, entries[i].0) :: [entries[i].0.text])
      + (set i, p | 0 <= i < |entries| && !IsSecret(casefold, entries[i].0)
                    && p in Under(entries[i].0.text, SecretPaths(casefold, entries[i].1)) :: p)
    case List(items) =>
      set i, p | 0 <= i < |items| && p in Under(Text.Decimal(i), SecretPaths(casefold, items[i])) :: p
    case NamedTuple(_, items) =>
      set i, p | 0 <= i < |items| && p in Under(Text.Decimal(i), SecretPaths(casefold, items[i])) :: p
    case Tuple(items) =>
      set i, p | 0 <= i < |items| && p in Under(Text.Decimal(i), SecretPaths(casefold, items[i])) :: p
    case PySet(members) => set x, p | x in members && p in SecretPaths(casefold, x) :: p
    case FrozenSet(members) => set x, p | x in members && p in SecretPaths(casefold, x) :: p
    case _ => {}
  }

  // -------------------------------------------------------------- agreement

  /** Same container, same addresses; only the children may differ. */
  predicate SameFrame(v: Value, w: Value) {
    match v
    case Dict(entries) =>
      w.Dict? && |w.entries| == |entries| && forall i :: 0 <= i < |entries| ==> w.entries[i].0 == entries[i].0
    case List(items) => w.List? && |w.items| == |items|
    case Tuple(items) => w.Tuple? && |w.items| == |items|
    case NamedTuple(cls, items) => w.NamedTuple? && w.cls == cls && |w.items| == |items|
    case _ => w == v
  }

  lemma FrameAddresses(v: Value, w: Value)
    requires SameFrame(v, w)
    ensures |Children(v)| == |Children(w)| && forall t :: Child(w, t) == Child(v, t)
  {
    if v.Dict? {
      forall t ensures FindKey(w.entries, t) == FindKey(v.entries, t) {
        FindKeyByKeys(v.entries, w.entries, t);
      }
    }
  }

  lemma SameChildrenSame(v: Value, w: Value)
    requires SameFrame(v, w) && Children(v) == Children(w)
    ensures v == w
  {
    if v.Dict? {
      forall i | 0 <= i < |v.entries| ensures v.entries[i] == w.entries[i] {
        assert Children(v)[i] == Children(w)[i];
      }
    }
  }

  lemma WithChildSameFrame(v: Value, i: nat, x: Value)
    requires i < |Children(v)|
    ensures SameFrame(v, WithChild(v, i, x))
  {
  }

  lemma PutSameFrame(v: Value, p: Path)
    requires p != []
    ensures SameFrame(v, Put(v, p, MARK))
  {
    PutStep(v, p, MARK);
    var c := Child(v, p[0]);
    if c.Some? {
      WithChildSameFrame(v, c.value, Put(Children(v)[c.value], p[1..], MARK));
    }
  }

  lemma {:induction false} PutAllSameFrame(v: Value, paths: seq<Path>)
    requires [] !in paths
    ensures SameFrame(v, PutAll(v, paths))
    decreases |paths|
  {
    if paths != [] {
      assert paths[0] in paths;
      PutSameFrame(v, paths[0]);
      PutAllSameFrame(Put(v, paths[0], MARK), paths[1..]);
    }
  }

  /** The rests of the paths that begin with `token`. */
  function Below(paths: seq<Path>, token: string): (r: seq<Path>)
    ensures forall p :: p in r <==> [token] + p in paths
  {
    if paths == [] then []
    else if paths[0] != [] && paths[0][0] == token then
      assert paths[0] == [token] + paths[0][1..];
      [paths[0][1..]] + Below(paths[1..], token)
    else Below(paths[1..], token)
  }

  /** What a list of paths does to the child that `token` addresses. */
  lemma {:induction false} PutAllInChild(v: Value, paths: seq<Path>, token: string)
    requires [] !in paths && Child(v, token).Some?
    ensures var w := PutAll(v, paths); var i := Child(v, token).value;
      i < |Children(w)| && Children(w)[i] == PutAll(Children(v)[i], Below(paths, token))
    decreases |paths|
  {
    if paths != [] {
      var p := paths[0];
      assert p in paths;
      var v' := Put(v, p, MARK);
      var i := Child(v, token).value;
      PutSameFrame(v, p);
      FrameAddresses(v, v');
      PutAllInChild(v', paths[1..], token);
      PutStep(v, p, MARK);
      var c := Child(v, p[0]);
      if c.Some? {
        WithChildFrame(v, c.value, Put(Children(v)[c.value], p[1..], MARK));
        if p[0] != token {
          OtherChild(v, token, p[0]);
        }
      }
    }
  }

  /** A child that no token addresses is out of every path's reach. */
  lemma {:induction false} PutAllMisses(v: Value, paths: seq<Path>, i: nat)
    requires [] !in paths && i < |Children(v)| && forall t :: Child(v, t) != Some(i)
    ensures var w := PutAll(v, paths); i < |Children(w)| && Children(w)[i] == Children(v)[i]
    decreases |paths|
  {
    if paths != [] {
      var p := paths[0];
      assert p in paths;
      var v' := Put(v, p, MARK);
      PutSameFrame(v, p);
      FrameAddresses(v, v');
      PutAllMisses(v', paths[1..], i);
      PutStep(v, p, MARK);
      var c := Child(v, p[0]);
      if c.Some? {
        WithChildFrame(v, c.value, Put(Children(v)[c.value], p[1..], MARK));
      }
    }
  }

  lemma {:induction false} PutAllMark(paths: seq<Path>)
    ensures PutAll(MARK, paths) == MARK
    decreases |paths|
  {
    if paths != [] {
      if paths[0] != [] {
        MarkIsAtomic(paths[0]);
      }
      PutAllMark(paths[1..]);
    }
  }

  /** Replacing at the root masks everything. */
  lemma PutAllRoot(v: Value, paths: seq<Path>)
    requires [] in paths
    ensures PutAll(v, paths) == MARK
  {
    PutFirst(v, paths, []);
    PutAllMark(paths);
  }

  lemma RedactFrame(casefold: string -> string, v: Value)
    requires IsSequence(v) || v.Dict?
    ensures SameFrame(v, Redact(casefold, v))
    ensures var w := Redact(casefold, v);
      |Children(w)| == |Children(v)| &&
      forall i :: 0 <= i < |Children(v)| ==>
        Children(w)[i] == if SecretChild(casefold, v, i) then MARK else Redact(casefold, Children(v)[i])
  {
  }

  /** What is hashable holds no mapping, so nothing in it is secret. */
  lemma {:induction false} HashableUntouched(casefold: string -> string, v: Value)
    requires Hashable(v) && Real(v)
    ensures Redact(casefold, v) == v && SecretPaths(casefold, v) == {}
    decreases v
  {
    if IsSequence(v) {
      forall i | 0 <= i < |v.items| ensures Redact(casefold, v.items[i]) == v.items[i] && SecretPaths(casefold, v.items[i]) == {} {
        assert v.items[i] in v.items;
        HashableUntouched(casefold, v.items[i]);
      }
      assert Redact(casefold, v).items == v.items;
      assert SecretPaths(casefold, v) == {};
    } else if v.FrozenSet? {
      MembersUntouched(casefold, v, v.members);
    }
  }

  lemma {:induction false} MembersUntouched(casefold: string -> string, v: Value, members: set<Value>)
    requires (v.PySet? || v.FrozenSet?) && v.members == members && Real(v)
    ensures Redact(casefold, v) == v && SecretPaths(casefold, v) == {}
    decreases v, 0
  {
    forall x | x in members ensures Redact(casefold, x) == x && SecretPaths(casefold, x) == {} {
      HashableUntouched(casefold, x);
    }
    assert (set x | x in members :: Redact(casefold, x)) == members;
  }

  predicate EndsSecret(casefold: string -> string, p: Path) {
    p != [] && IsSecret(casefold, Name(p[|p| - 1]))
  }

  lemma UnderMembers(token: string, paths: set<Path>, p: Path)
    ensures p in Under(token, paths) <==> p != [] && p[0] == token && p[1..] in paths
  {
    if p != [] {
      assert p == [p[0]] + p[1..];
    }
  }

  /** Path `p` is recorded for child `i`: by its label, if it is secret, or below it. */
  predicate RecordedAt(casefold: string -> string, v: Value, p: Path, i: nat)
    requires i < |Children(v)|
  {
    && p != [] && p[0] == Label(v, i)
    && if SecretChild(casefold, v, i) then p[1..] == [] else p[1..] in SecretPaths(casefold, Children(v)[i])
  }

  lemma RecordedForChild(casefold: string -> string, v: Value, p: Path, i: nat)
    requires (IsSequence(v) || v.Dict?) && i < |Children(v)| && RecordedAt(casefold, v, p, i)
    ensures p in SecretPaths(casefold, v)
  {
    if SecretChild(casefold, v, i) {
      assert p == [v.entries[i].0.text];
    } else {
      UnderMembers(Label(v, i), SecretPaths(casefold, Children(v)[i]), p);
    }
  }

  /** Every recorded path was recorded for one of the children. */
  lemma PathsOfChildren(casefold: string -> string, v: Value, p: Path) returns (i: nat)
    requires (IsSequence(v) || v.Dict?) && p in SecretPaths(casefold, v)
    ensures i < |Children(v)| && RecordedAt(casefold, v, p, i)
  {
    if v.Dict? {
      if k :| 0 <= k < |v.entries| && IsSecret(casefold, v.entries[k].0) && p == [v.entries[k].0.text] {
        i := k;
      } else {
        i :| 0 <= i < |v.entries| && !IsSecret(casefold, v.entries[i].0)
          && p in Under(v.entries[i].0.text, SecretPaths(casefold, v.entries[i].1));
        UnderMembers(v.entries[i].0.text, SecretPaths(casefold, v.entries[i].1), p);
      }
    } else {
      i :| 0 <= i < |v.items| && p in Under(Text.Decimal(i), SecretPaths(casefold, v.items[i]));
      UnderMembers(Text.Decimal(i), SecretPaths(casefold, v.items[i]), p);
    }
  }

  lemma {:induction false} PathsEndSecret(casefold: string -> string, v: Value)
    requires Real(v)
    ensures forall p <- SecretPaths(casefold, v) :: EndsSecret(casefold, p)
    decreases v
  {
    if IsSequence(v) || v.Dict? {
      forall p | p in SecretPaths(casefold, v) ensures EndsSecret(casefold, p) {
        var i := PathsOfChildren(casefold, v, p);
        if !SecretChild(casefold, v, i) {
          RealChild(v, i);
          ChildIsSmaller(v, i);
          PathsEndSecret(casefold, Children(v)[i]);
          assert EndsSecret(casefold, p[1..]);
        } else {
          assert p == [p[0]];
        }
      }
    } else if v.PySet? || v.FrozenSet? {
      MembersUntouched(casefold, v, v.members);
    }
  }

  /** Case folding leaves decimal numbers alone, so no index is a secret key. */
  ghost predicate KeepsNumbers(casefold: string -> string) {
    forall n: nat :: !IsSecret(casefold, Name(Text.Decimal(n)))
  }

  /** Wherever a secret key occurs in the value, it stands over a mask. */
  predicate Masked(casefold: string -> string, v: Value)
    decreases v
  {
    match v
    case Dict(entries) =>
      forall i :: 0 <= i < |entries| ==>
        if IsSecret(casefold, entries[i].0) then entries[i].1 == MARK else Masked(casefold, entries[i].1)
    case List(items) => forall i :: 0 <= i < |items| ==> Masked(casefold, items[i])
    case Tuple(items) => forall i :: 0 <= i < |items| ==> Masked(casefold, items[i])
    case NamedTuple(_, items) => forall i :: 0 <= i < |items| ==> Masked(casefold, items[i])
    case _ => true
  }

  lemma MaskedChild(casefold: string -> string, v: Value)
    requires IsSequence(v) || v.Dict?
    ensures Masked(casefold, v) <==> forall i :: 0 <= i < |Children(v)| ==>
      if SecretChild(casefold, v, i) then Children(v)[i] == MARK else Masked(casefold, Children(v)[i])
  {
    if v.Dict? {
      assert forall i :: 0 <= i < |v.entries| ==> Children(v)[i] == v.entries[i].1;
    } else {
      assert forall i :: 0 <= i < |v.items| ==> Children(v)[i] == v.items[i] && !SecretChild(casefold, v, i);
    }
  }

  /** The walk leaves a value as it is exactly where every secret key is masked. */
  lemma {:induction false} MaskedIff(casefold: string -> string, v: Value)
    requires Real(v)
    ensures Redact(casefold, v) == v <==> Masked(casefold, v)
    decreases v
  {
    if IsSequence(v) || v.Dict? {
      RedactFrame(casefold, v);
      MaskedChild(casefold, v);
      forall i | 0 <= i < |Children(v)|
        ensures Redact(casefold, Children(v)[i]) == Children(v)[i] <==> Masked(casefold, Children(v)[i])
      {
        RealChild(v, i);
        ChildIsSmaller(v, i);
        MaskedIff(casefold, Children(v)[i]);
      }
      if Masked(casefold, v) {
        SameChildrenSame(v, Redact(casefold, v));
      }
    } else if v.PySet? || v.FrozenSet? {
      MembersUntouched(casefold, v, v.members);
    }
  }

  /** Under a key that is not a string, where no pointer reaches, every secret key is
      masked already. */
  predicate Reachable(casefold: string -> string, v: Value)
    decreases v
  {
    match v
    case Dict(entries) =>
      forall i :: 0 <= i < |entries| ==>
        if entries[i].0.OtherKey? then Masked(casefold, entries[i].1)
        else IsSecret(casefold, entries[i].0) || Reachable(casefold, entries[i].1)
    case List(items) => forall i :: 0 <= i < |items| ==> Reachable(casefold, items[i])
    case Tuple(items) => forall i :: 0 <= i < |items| ==> Reachable(casefold, items[i])
    case NamedTuple(_, items) => forall i :: 0 <= i < |items| ==> Reachable(casefold, items[i])
    case _ => true
  }

  /** Any list of secret-key paths that includes the recorded ones redacts as the walk does. */
  lemma {:induction false} PathsRedact(casefold: string -> string, v: Value, paths: seq<Path>)
    requires Real(v) && Reachable(casefold, v) && KeepsNumbers(casefold)
    requires forall p <- SecretPaths(casefold, v) :: p in paths
    requires forall p <- paths :: EndsSecret(casefold, p)
    ensures PutAll(v, paths) == Redact(casefold, v)
    decreases v
  {
    var w := PutAll(v, paths);
    assert [] !in paths;
    PutAllSameFrame(v, paths);
    if IsSequence(v) || v.Dict? {
      RedactFrame(casefold, v);
      FrameAddresses(v, w);
      forall i | 0 <= i < |Children(v)| ensures Children(w)[i] == Children(Redact(casefold, v))[i] {
        ChildRedacts(casefold, v, paths, i);
      }
      SameFrameTrans(v, w, Redact(casefold, v));
      SameChildrenSame(w, Redact(casefold, v));
    } else if v.PySet? || v.FrozenSet? {
      MembersUntouched(casefold, v, v.members);
    }
  }

  lemma SameFrameTrans(v: Value, w: Value, u: Value)
    requires SameFrame(v, w) && SameFrame(v, u)
    ensures SameFrame(w, u)
  {
  }

  /** No path reaches below a key that is not a string. */
  lemma UnreachedChild(v: Value, paths: seq<Path>, i: nat)
    requires v.Dict? && i < |v.entries| && v.entries[i].0.OtherKey? && [] !in paths
    ensures i < |Children(PutAll(v, paths))| && Children(PutAll(v, paths))[i] == v.entries[i].1
  {
    forall t ensures Child(v, t) != Some(i) {
      if Child(v, t) == Some(i) {
        LabelOfChild(v, t);
      }
    }
    PutAllMisses(v, paths, i);
  }

  lemma BelowCovers(casefold: string -> string, v: Value, paths: seq<Path>, i: nat)
    requires (IsSequence(v) || v.Dict?) && i < |Children(v)| && !SecretChild(casefold, v, i)
    requires v.Dict? ==> v.entries[i].0.Name?
    requires Real(v) && KeepsNumbers(casefold)
    requires forall p <- SecretPaths(casefold, v) :: p in paths
    requires forall p <- paths :: EndsSecret(casefold, p)
    ensures forall p <- SecretPaths(casefold, Children(v)[i]) :: p in Below(paths, Label(v, i))
    ensures forall p <- Below(paths, Label(v, i)) :: EndsSecret(casefold, p)
  {
    var token := Label(v, i);
    forall p | p in SecretPaths(casefold, Children(v)[i]) ensures p in Below(paths, token) {
      assert ([token] + p)[1..] == p;
      RecordedForChild(casefold, v, [token] + p, i);
    }
    forall p | p in Below(paths, token) ensures EndsSecret(casefold, p) {
      assert EndsSecret(casefold, [token] + p);
      assert p == [] ==> IsSecret(casefold, Name(token));
    }
  }

  lemma SecretChildMasked(casefold: string -> string, v: Value, paths: seq<Path>, i: nat)
    requires v.Dict? && i < |v.entries| && SecretChild(casefold, v, i) && Real(v)
    requires (forall p <- SecretPaths(casefold, v) :: p in paths) && [] !in paths
    ensures i < |Children(PutAll(v, paths))| && Children(PutAll(v, paths))[i] == MARK
  {
    var token := Label(v, i);
    ChildByLabel(v, i);
    PutAllInChild(v, paths, token);
    RecordedForChild(casefold, v, [token], i);
    assert [token] + [] == [token];
    PutAllRoot(Children(v)[i], Below(paths, token));
  }

  lemma ChildRedacts(casefold: string -> string, v: Value, paths: seq<Path>, i: nat)
    requires (IsSequence(v) || v.Dict?) && i < |Children(v)|
    requires Real(v) && Reachable(casefold, v) && KeepsNumbers(casefold)
    requires forall p <- SecretPaths(casefold, v) :: p in paths
    requires (forall p <- paths :: EndsSecret(casefold, p)) && [] !in paths
    ensures i < |Children(PutAll(v, paths))|
    ensures Children(PutAll(v, paths))[i] ==
      if SecretChild(casefold, v, i) then MARK else Redact(casefold, Children(v)[i])
    decreases v, 0
  {
    RealChild(v, i);
    ChildIsSmaller(v, i);
    if v.Dict? && v.entries[i].0.OtherKey? {
      UnreachedChild(v, paths, i);
      MaskedIff(casefold, Children(v)[i]);
    } else if SecretChild(casefold, v, i) {
      SecretChildMasked(casefold, v, paths, i);
    } else {
      ChildByLabel(v, i);
      PutAllInChild(v, paths, Label(v, i));
      BelowCovers(casefold, v, paths, i);
      PathsRedact(casefold, Children(v)[i], Below(paths, Label(v, i)));
    }
  }

  /** Conversely, whatever list of paths redacts as the walk does, no unmasked secret lies
      under a key that is not a string. */
  lemma {:induction false} RedactedReachable(casefold: string -> string, v: Value, paths: seq<Path>)
    requires Real(v) && PutAll(v, paths) == Redact(casefold, v)
    ensures Reachable(casefold, v)
    decreases v
  {
    if [] in paths {
      PutAllRoot(v, paths);
    } else if IsSequence(v) || v.Dict? {
      forall i | 0 <= i < |Children(v)|
        ensures if v.Dict? && v.entries[i].0.OtherKey? then Masked(casefold, Children(v)[i])
                else SecretChild(casefold, v, i) || Reachable(casefold, Children(v)[i])
      {
        RedactedChildReachable(casefold, v, paths, i);
      }
      if IsSequence(v) {
        assert forall i :: 0 <= i < |v.items| ==> Children(v)[i] == v.items[i];
      }
    }
  }

  lemma RedactedChildReachable(casefold: string -> string, v: Value, paths: seq<Path>, i: nat)
    requires (IsSequence(v) || v.Dict?) && i < |Children(v)| && [] !in paths
    requires Real(v) && PutAll(v, paths) == Redact(casefold, v)
    ensures if v.Dict? && v.entries[i].0.OtherKey? then Masked(casefold, Children(v)[i])
            else SecretChild(casefold, v, i) || Reachable(casefold, Children(v)[i])
    decreases v, 0
  {
    RedactFrame(casefold, v);
    RealChild(v, i);
    ChildIsSmaller(v, i);
    if v.Dict? && v.entries[i].0.OtherKey? {
      UnreachedChild(v, paths, i);
      MaskedIff(casefold, Children(v)[i]);
    } else if !SecretChild(casefold, v, i) {
      ChildByLabel(v, i);
      PutAllInChild(v, paths, Label(v, i));
      RedactedReachable(casefold, Children(v)[i], Below(paths, Label(v, i)));
    }
  }

  /** The two mechanisms agree, in any order of the recorded paths, exactly when no
      unmasked secret lies under a key that is not a string. */
  lemma MechanismsAgreeIff(casefold: string -> string, v: Value, paths: seq<Path>)
    requires Real(v) && KeepsNumbers(casefold)
    requires forall p :: p in paths <==> p in SecretPaths(casefold, v)
    ensures PutAll(v, paths) == Redact(casefold, v) <==> Reachable(casefold, v)
  {
    PathsEndSecret(casefold, v);
    if Reachable(casefold, v) {
      PathsRedact(casefold, v, paths);
    } else if PutAll(v, paths) == Redact(casefold, v) {
      RedactedReachable(casefold, v, paths);
    }
  }

  /** All mapping keys are strings. */
  predicate StringKeyed(v: Value)
    decreases v
  {
    match v
    case Dict(entries) =>
      forall i :: 0 <= i < |entries| ==> entries[i].0.Name? && StringKeyed(entries[i].1)
    case List(items) => forall i :: 0 <= i < |items| ==> StringKeyed(items[i])
    case Tuple(items) => forall i :: 0 <= i < |items| ==> StringKeyed(items[i])
    case NamedTuple(_, items) => forall i :: 0 <= i < |items| ==> StringKeyed(items[i])
    case _ => true
  }

  lemma {:induction false} StringKeyedReachable(casefold: string -> string, v: Value)
    requires StringKeyed(v)
    ensures Reachable(casefold, v)
    decreases v
  {
    if v.Dict? {
      forall i | 0 <= i < |v.entries| ensures Reachable(casefold, v.entries[i].1) {
        StringKeyedReachable(casefold, v.entries[i].1);
      }
    } else if IsSequence(v) {
      forall i | 0 <= i < |v.items| ensures Reachable(casefold, v.items[i]) {
        StringKeyedReachable(casefold, v.items[i]);
      }
    }
  }

  // --------------------------------------------------------- whole envelopes

  datatype Envelope = Envelope(body: Value, meta: Value, attempts: nat)

  /** The two parts of an envelope as one value, so that pointers start at a part. */
  function Logical(e: Envelope): Value { Dict([(Name("body"), e.body), (Name("meta"), e.meta)]) }

  /** Replaces along each decoded pointer in turn; None where one is malformed. */
  function ApplyPointers(v: Value, pointers: seq<string>): Option<Value>
    decreases |pointers|
  {
    if pointers == [] then Some(v)
    else
      match Pointer.Decode(pointers[0])
      case None => None
      case Some(path) => ApplyPointers(Put(v, path, MARK), pointers[1..])
  }

  function PathOf(pointer: string): Path
    requires Pointer.Decode(pointer).Some?
  {
    Pointer.Decode(pointer).value
  }

  /** The recorded paths as the pointers the code writes. */
  function SecretPointers(casefold: string -> string, v: Value): set<string> {
    set p | p in SecretPaths(casefold, v) :: Pointer.Print(p)
  }

  lemma {:induction false} ApplyIsPutAll(v: Value, pointers: seq<string>)
    ensures if forall p <- pointers :: Pointer.Decode(p).Some? then
        ApplyPointers(v, pointers) == Some(PutAll(v, Paths(pointers)))
      else ApplyPointers(v, pointers).None?
    decreases |pointers|
  {
    if pointers != [] && Pointer.Decode(pointers[0]).Some? {
      ApplyIsPutAll(Put(v, PathOf(pointers[0]), MARK), pointers[1..]);
      if forall p <- pointers :: Pointer.Decode(p).Some? {
        assert Paths(pointers)[1..] == Paths(pointers[1..]);
      } else {
        assert pointers == [pointers[0]] + pointers[1..];
      }
    }
  }

  function Paths(pointers: seq<string>): seq<Path>
    requires forall p <- pointers :: Pointer.Decode(p).Some?
  {
    seq(|pointers|, i requires 0 <= i < |pointers| => PathOf(pointers[i]))
  }

  /** The same set of pointers gives the same value, in every order. */
  lemma PointersConfluent(v: Value, ps: seq<string>, qs: seq<string>)
    requires forall p :: p in ps <==> p in qs
    ensures ApplyPointers(v, ps) == ApplyPointers(v, qs)
  {
    ApplyIsPutAll(v, ps);
    ApplyIsPutAll(v, qs);
    if forall p <- ps :: Pointer.Decode(p).Some? {
      forall path ensures path in Paths(ps) <==> path in Paths(qs) {
        PathsMembers(ps, path);
        PathsMembers(qs, path);
      }
      PutAllBySet(v, Paths(ps), Paths(qs));
    }
  }

  lemma PathsMembers(ps: seq<string>, path: Path)
    requires forall p <- ps :: Pointer.Decode(p).Some?
    ensures path in Paths(ps) <==> exists p :: p in ps && PathOf(p) == path
  {
    if p :| p in ps && PathOf(p) == path {
      var i :| 0 <= i < |ps| && ps[i] == p;
      assert Paths(ps)[i] == path;
    }
  }

  /** On text: replacing along exactly the recorded pointers, in any order, gives what the
      walk by secret key gives, if and only if no unmasked secret lies under a key that
      is not a string. */
  lemma PointersAgreeIff(casefold: string -> string, v: Value, pointers: seq<string>)
    requires Real(v) && KeepsNumbers(casefold)
    requires forall p :: p in pointers <==> p in SecretPointers(casefold, v)
    ensures ApplyPointers(v, pointers) == Some(Redact(casefold, v)) <==> Reachable(casefold, v)
  {
    PathsEndSecret(casefold, v);
    forall p | p in pointers ensures Pointer.Decode(p).Some? && PathOf(p) in SecretPaths(casefold, v) {
      var path :| path in SecretPaths(casefold, v) && p == Pointer.Print(path);
      Pointer.DecodePrint(path);
    }
    forall path ensures path in Paths(pointers) <==> path in SecretPaths(casefold, v) {
      PathsMembers(pointers, path);
      if path in SecretPaths(casefold, v) {
        Pointer.DecodePrint(path);
        assert Pointer.Print(path) in pointers && PathOf(Pointer.Print(path)) == path;
      }
    }
    ApplyIsPutAll(v, pointers);
    MechanismsAgreeIff(casefold, v, Paths(pointers));
  }

  // ------------------------------------------------------------- an example

  function Same(text: string): string { text }

  lemma {:induction false} ReplaceKeepsHead(s: string)
    requires s != "" && s[0] != '-'
    ensures var r := Pointer.ReplaceChar(s, '-', "_"); r != "" && r[0] == s[0]
  {
  }

  lemma SecretsStartWithLetters(key: string)
    requires key in SECRET_KEYS
    ensures key != "" && !Text.IsDigit(key[0])
  {
  }

  lemma SameKeepsNumbers()
    ensures KeepsNumbers(Same)
  {
    forall n: nat ensures !IsSecret(Same, Name(Text.Decimal(n))) {
      var s := Text.Decimal(n);
      assert s[0] in s;
      ReplaceKeepsHead(s);
      var r := Pointer.ReplaceChar(s, '-', "_");
      if r in SECRET_KEYS {
        SecretsStartWithLetters(r);
      }
    }
  }

  /** Does the text spell the key, a hyphen counting as an underscore? */
  predicate Spells(text: string, key: string) {
    |text| == |key| && forall i :: 0 <= i < |text| ==> key[i] == if text[i] == '-' then '_' else text[i]
  }

  lemma {:induction false} SpellsIff(text: string, key: string)
    ensures Pointer.ReplaceChar(text, '-', "_") == key <==> Spells(text, key)
  {
    if text != "" {
      var r := Pointer.ReplaceChar(text[1..], '-', "_");
      SpellsIff(text[1..], r);
      var first := if text[0] == '-' then '_' else text[0];
      assert Pointer.ReplaceChar(text, '-', "_") == [first] + r;
      if Spells(text, key) {
        assert key == [first] + key[1..];
        assert Spells(text[1..], key[1..]) by {
          assert forall i :: 0 <= i < |text| - 1 ==> key[1..][i] == key[i + 1] && text[1..][i] == text[i + 1];
        }
        SpellsIff(text[1..], key[1..]);
      }
      if key == [first] + r {
        forall i | 0 <= i < |text| ensures key[i] == if text[i] == '-' then '_' else text[i] {
          if i > 0 {
            assert key[i] == r[i - 1] && text[i] == text[1..][i - 1];
          }
        }
      }
    }
  }

  /** A key is secret if and only if it is a string that, case folded, spells a secret word;
      a key that is no string never is. */
  lemma SecretIff(casefold: string -> string, key: Key)
    ensures IsSecret(casefold, key) <==> key.Name? && exists word <- SECRET_KEYS :: Spells(casefold(key.text), word)
  {
    if key.Name? {
      var folded := Pointer.ReplaceChar(casefold(key.text), '-', "_");
      forall word | word in SECRET_KEYS ensures Spells(casefold(key.text), word) <==> folded == word {
        SpellsIff(casefold(key.text), word);
      }
    }
  }

  lemma SpelledSecret(text: string, word: string)
    requires word in SECRET_KEYS && Spells(Text.Lower(text), word)
    ensures IsSecret(Text.Lower, Name(text))
  {
    SecretIff(Text.Lower, Name(text));
  }

  /** The words, in some of their spellings, with ASCII letters folded. */
  lemma SecretWords()
    ensures IsSecret(Text.Lower, Name("Password")) && IsSecret(Text.Lower, Name("PASSWD"))
    ensures IsSecret(Text.Lower, Name("secret")) && IsSecret(Text.Lower, Name("Token"))
    ensures IsSecret(Text.Lower, Name("Authorization")) && IsSecret(Text.Lower, Name("Cookie"))
  {
    SpelledSecret("Password", "password");
    SpelledSecret("PASSWD", "passwd");
    SpelledSecret("secret", "secret");
    SpelledSecret("Token", "token");
    SpelledSecret("Authorization", "authorization");
    SpelledSecret("Cookie", "cookie");
  }

  lemma SecretCompounds()
    ensures IsSecret(Text.Lower, Name("API-Key")) && IsSecret(Text.Lower, Name("ApiKey"))
    ensures IsSecret(Text.Lower, Name("DSN")) && IsSecret(Text.Lower, Name("database_url"))
    ensures IsSecret(Text.Lower, Name("Connection-String"))
  {
    SpelledSecret("API-Key", "api_key");
    SpelledSecret("ApiKey", "apikey");
    SpelledSecret("DSN", "dsn");
    SpelledSecret("database_url", "database_url");
    SpelledSecret("Connection-String", "connection_string");
  }

  /** A password two levels down, below the number 1 used as a key. */
  function UnderNumber(password: Value): Value {
    Dict([(OtherKey("1", "builtins.int"), Dict([(Name("password"), password)]))])
  }

  lemma PasswordIsSecret()
    ensures IsSecret(Same, Name("password"))
  {
    assert Pointer.ReplaceChar("password", '-', "_") == "password";
  }

  lemma LoneEntry(casefold: string -> string, key: Key, x: Value)
    ensures var v := Dict([(key, x)]);
      && (Real(v) <==> Real(x))
      && Redact(casefold, v) == Dict([(key, if IsSecret(casefold, key) then MARK else Redact(casefold, x))])
      && (Masked(casefold, v) <==> if IsSecret(casefold, key) then x == MARK else Masked(casefold, x))
      && (Reachable(casefold, v) <==>
            if key.OtherKey? then Masked(casefold, x) else IsSecret(casefold, key) || Reachable(casefold, x))
  {
    var v := Dict([(key, x)]);
    assert v.entries[0] == (key, x);
    assert Redact(casefold, v).entries ==
      [(key, if IsSecret(casefold, key) then MARK else Redact(casefold, x))];
  }

  lemma UnderNumberRedacts(password: Value)
    requires Real(password)
    ensures Real(UnderNumber(password)) && Redact(Same, UnderNumber(password)) == UnderNumber(MARK)
    ensures Reachable(Same, UnderNumber(password)) <==> password == MARK
  {
    PasswordIsSecret();
    LoneEntry(Same, Name("password"), password);
    LoneEntry(Same, OtherKey("1", "builtins.int"), Dict([(Name("password"), password)]));
  }

  /** The recorded pointers do not reach it: the walk masks it, they do not, unless it was
      masked before. */
  lemma MechanismsDiffer(password: Value, pointers: seq<string>)
    requires Real(password)
    requires forall p :: p in pointers <==> p in SecretPointers(Same, UnderNumber(password))
    ensures KeepsNumbers(Same) && Redact(Same, UnderNumber(password)) == UnderNumber(MARK)
    ensures ApplyPointers(UnderNumber(password), pointers) == Some(UnderNumber(MARK)) <==> password == MARK
  {
    SameKeepsNumbers();
    UnderNumberRedacts(password);
    PointersAgreeIff(Same, UnderNumber(password), pointers);
  }
}
