/** Redaction as the capture writer carries it out: a walk that fills a set of recorded
    pointers, then the configured pointers one by one. */
module CaptureWriter {
  import opened Wrappers
  import opened Values
  import opened Redaction
  import Text
  import Pointer

  type Casefold = string -> string

  /** The pointers below `path` that print `paths`. */
  function Printed(path: string, paths: set<Path>): set<string> {
    set p | p in paths :: path + Pointer.Print(p)
  }

  /** The paths recorded for child `i`. */
  function ChildPaths(casefold: Casefold, v: Value, i: nat): set<Path>
    requires i < |Children(v)|
  {
    if SecretChild(casefold, v, i) then {[Label(v, i)]}
    else Under(Label(v, i), SecretPaths(casefold, Children(v)[i]))
  }

  function UnionOf(sets: seq<set<Path>>): set<Path> {
    if sets == [] then {} else UnionOf(sets[..|sets| - 1]) + sets[|sets| - 1]
  }

  lemma {:induction false} UnionMembers(sets: seq<set<Path>>, p: Path)
    ensures p in UnionOf(sets) <==> exists i :: 0 <= i < |sets| && p in sets[i]
  {
    if sets != [] {
      UnionMembers(sets[..|sets| - 1], p);
    }
  }

  /** The paths recorded for the first `n` children. */
  function PathsUpTo(casefold: Casefold, v: Value, n: nat): set<Path>
    requires n <= |Children(v)|
  {
    UnionOf(seq(n, i requires 0 <= i < n => ChildPaths(casefold, v, i)))
  }

  lemma PathsOneMore(casefold: Casefold, v: Value, n: nat)
    requires n < |Children(v)|
    ensures PathsUpTo(casefold, v, n + 1) == PathsUpTo(casefold, v, n) + ChildPaths(casefold, v, n)
  {
    var more := seq(n + 1, i requires 0 <= i < n + 1 => ChildPaths(casefold, v, i));
    assert more[..n] == seq(n, i requires 0 <= i < n => ChildPaths(casefold, v, i));
  }

  lemma PathsUpToMembers(casefold: Casefold, v: Value, n: nat, p: Path)
    requires n <= |Children(v)|
    ensures p in PathsUpTo(casefold, v, n) <==> exists i :: 0 <= i < n && p in ChildPaths(casefold, v, i)
  {
    var sets := seq(n, i requires 0 <= i < n => ChildPaths(casefold, v, i));
    UnionMembers(sets, p);
    if i :| 0 <= i < n && p in ChildPaths(casefold, v, i) {
      assert p in sets[i];
    }
  }

  lemma ChildPathsRecorded(casefold: Casefold, v: Value, i: nat, p: Path)
    requires i < |Children(v)|
    ensures p in ChildPaths(casefold, v, i) <==> RecordedAt(casefold, v, p, i)
  {
    if SecretChild(casefold, v, i) {
      assert [Label(v, i)][1..] == [];
      if p != [] && p[1..] == [] {
        assert p == [p[0]];
      }
    } else {
      UnderMembers(Label(v, i), SecretPaths(casefold, Children(v)[i]), p);
    }
  }

  lemma PathsUpToAll(casefold: Casefold, v: Value)
    requires IsSequence(v) || v.Dict?
    ensures PathsUpTo(casefold, v, |Children(v)|) == SecretPaths(casefold, v)
  {
    forall p ensures p in PathsUpTo(casefold, v, |Children(v)|) <==> p in SecretPaths(casefold, v) {
      PathsUpToMembers(casefold, v, |Children(v)|, p);
      if p in SecretPaths(casefold, v) {
        var i := PathsOfChildren(casefold, v, p);
        ChildPathsRecorded(casefold, v, i, p);
      } else if p in PathsUpTo(casefold, v, |Children(v)|) {
        var i :| 0 <= i < |Children(v)| && p in ChildPaths(casefold, v, i);
        ChildPathsRecorded(casefold, v, i, p);
        RecordedForChild(casefold, v, p, i);
      }
    }
  }

  lemma PrintedUnion(path: string, a: set<Path>, b: set<Path>)
    ensures Printed(path, a + b) == Printed(path, a) + Printed(path, b)
  {
  }

  lemma PrintedUnder(path: string, token: string, paths: set<Path>)
    ensures Printed(path, Under(token, paths)) == Printed(Pointer.Extend(path, token), paths)
  {
    forall p: Path ensures path + Pointer.Print([token] + p) == Pointer.Extend(path, token) + Pointer.Print(p) {
      Pointer.PrintCons(token, p);
    }
    forall q | q in Printed(Pointer.Extend(path, token), paths) ensures q in Printed(path, Under(token, paths)) {
      var p :| p in paths && q == Pointer.Extend(path, token) + Pointer.Print(p);
      assert [token] + p in Under(token, paths);
    }
  }

  /** The walk: masks secrets and adds their pointers below `path` to `redacted`. */
  method RedactSecretKeys(casefold: Casefold, v: Value, path: string, redacted: set<string>)
      returns (result: Value, recorded: set<string>)
    ensures result == Redact(casefold, v)
    ensures recorded == redacted + Printed(path, SecretPaths(casefold, v))
    decreases v, 2
  {
    if v.Dict? || IsSequence(v) {
      var items;
      items, recorded := RedactChildren(casefold, v, path, redacted);
      RedactFrame(casefold, v);
      if v.Dict? {
        result := Dict(seq(|items|, i requires 0 <= i < |items| => (v.entries[i].0, items[i])));
      } else {
        result := v.(items := items);
      }
      assert SameFrame(result, Redact(casefold, v));
      assert Children(result) == items;
      SameChildrenSame(result, Redact(casefold, v));
    } else if v.PySet? {
      var members;
      members, recorded := RedactMembers(casefold, v, v.members, path, redacted);
      result := PySet(members);
    } else if v.FrozenSet? {
      var members;
      members, recorded := RedactMembers(casefold, v, v.members, path, redacted);
      result := FrozenSet(members);
    } else {
      result, recorded := v, redacted;
    }
  }

  function RedactedChild(casefold: Casefold, v: Value, i: nat): Value
    requires i < |Children(v)|
  {
    if SecretChild(casefold, v, i) then MARK else Redact(casefold, Children(v)[i])
  }

  method RedactChildren(casefold: Casefold, v: Value, path: string, redacted: set<string>)
      returns (items: seq<Value>, recorded: set<string>)
    requires v.Dict? || IsSequence(v)
    ensures |items| == |Children(v)|
    ensures forall i :: 0 <= i < |items| ==> items[i] == RedactedChild(casefold, v, i)
    ensures recorded == redacted + Printed(path, SecretPaths(casefold, v))
    decreases v, 1
  {
    items, recorded := [], redacted;
    var n := |Children(v)|;
    assert redacted + Printed(path, {}) == redacted;
    for i := 0 to n
      invariant |items| == i
      invariant forall j :: 0 <= j < i ==> items[j] == RedactedChild(casefold, v, j)
      invariant recorded == redacted + Printed(path, PathsUpTo(casefold, v, i))
    {
      var item, more := RedactChild(casefold, v, i, path, recorded);
      RecordsOneMore(casefold, v, i, path, redacted, recorded);
      items, recorded := items + [item], more;
    }
    PathsUpToAll(casefold, v);
  }

  lemma RecordsOneMore(casefold: Casefold, v: Value, i: nat, path: string, redacted: set<string>, recorded: set<string>)
    requires i < |Children(v)| && recorded == redacted + Printed(path, PathsUpTo(casefold, v, i))
    ensures recorded + Printed(path, ChildPaths(casefold, v, i)) == redacted + Printed(path, PathsUpTo(casefold, v, i + 1))
  {
    PathsOneMore(casefold, v, i);
    PrintedUnion(path, PathsUpTo(casefold, v, i), ChildPaths(casefold, v, i));
  }

  method RedactChild(casefold: Casefold, v: Value, i: nat, path: string, redacted: set<string>)
      returns (item: Value, recorded: set<string>)
    requires i < |Children(v)|
    ensures item == RedactedChild(casefold, v, i)
    ensures recorded == redacted + Printed(path, ChildPaths(casefold, v, i))
    decreases v, 0
  {
    var childPath := Pointer.Extend(path, Label(v, i));
    if v.Dict? && IsSecret(casefold, v.entries[i].0) {
      Pointer.PrintCons(Label(v, i), []);
      assert path + Pointer.Print([Label(v, i)]) == childPath;
      assert Printed(path, {[Label(v, i)]}) == {childPath};
      return MARK, redacted + {childPath};
    }
    ChildIsSmaller(v, i);
    PrintedUnder(path, Label(v, i), SecretPaths(casefold, Children(v)[i]));
    item, recorded := RedactSecretKeys(casefold, Children(v)[i], childPath, redacted);
  }

  function AllPaths(casefold: Casefold, members: set<Value>): set<Path> {
    set x, p | x in members && p in SecretPaths(casefold, x) :: p
  }

  method RedactMembers(casefold: Casefold, v: Value, members: set<Value>, path: string, redacted: set<string>)
      returns (results: set<Value>, recorded: set<string>)
    requires (v.PySet? || v.FrozenSet?) && members == v.members
    ensures results == set x | x in members :: Redact(casefold, x)
    ensures recorded == redacted + Printed(path, AllPaths(casefold, members))
    decreases v, 1
  {
    results, recorded := {}, redacted;
    var todo := members;
    ghost var done: set<Value> := {};
    while todo != {}
      invariant done + todo == members
      invariant results == set x | x in done :: Redact(casefold, x)
      invariant recorded == redacted + Printed(path, AllPaths(casefold, done))
      decreases todo
    {
      var x :| x in todo;
      var result;
      result, recorded := RedactSecretKeys(casefold, x, path, recorded);
      assert AllPaths(casefold, done + {x}) == AllPaths(casefold, done) + SecretPaths(casefold, x);
      PrintedUnion(path, AllPaths(casefold, done), SecretPaths(casefold, x));
      results := results + {result};
      todo := todo - {x};
      done := done + {x};
    }
  }

  // ------------------------------------------------------ the whole envelope

  /** The pointers that resolve when their turn comes. */
  function Changed(v: Value, pointers: seq<string>): set<string>
    requires forall p <- pointers :: Pointer.Decode(p).Some?
    decreases |pointers|
  {
    if pointers == [] then {}
    else
      var path := PathOf(pointers[0]);
      (if ReplaceTokens(v, path, MARK).1 then {pointers[0]} else {})
      + Changed(Put(v, path, MARK), pointers[1..])
  }

  /** What is left to do with `rest`, after some pointers of the list. */
  ghost predicate Remains(start: Value, all: seq<string>, redacted: set<string>, v: Value, rest: seq<string>, recorded: set<string>) {
    && ApplyPointers(start, all) == ApplyPointers(v, rest)
    && ((forall p <- all :: Pointer.Decode(p).Some?) ==>
          (forall p <- rest :: Pointer.Decode(p).Some?) && redacted + Changed(start, all) == recorded + Changed(v, rest))
  }

  lemma OneLess(start: Value, all: seq<string>, redacted: set<string>, v: Value, rest: seq<string>, recorded: set<string>)
    requires Remains(start, all, redacted, v, rest, recorded) && rest != [] && Pointer.Decode(rest[0]).Some?
    ensures var (replaced, changed) := ReplaceTokens(v, PathOf(rest[0]), MARK);
      Remains(start, all, redacted, replaced, rest[1..], if changed then recorded + {rest[0]} else recorded)
  {
    assert forall p <- rest[1..] :: p in rest;
  }

  /** The loop over the configured pointers; None where one is malformed. */
  method ReplacePointers(start: Value, pointers: seq<string>, redacted: set<string>)
      returns (r: Option<(Value, set<string>)>)
    ensures r.Some? <==> forall p <- pointers :: Pointer.Decode(p).Some?
    ensures r.Some? ==>
      ApplyPointers(start, pointers) == Some(r.value.0) && r.value.1 == redacted + Changed(start, pointers)
  {
    var v, recorded := start, redacted;
    assert pointers[0..] == pointers;
    for k := 0 to |pointers|
      invariant forall p <- pointers[..k] :: Pointer.Decode(p).Some?
      invariant Remains(start, pointers, redacted, v, pointers[k..], recorded)
    {
      var decoded := Pointer.DecodePointer(pointers[k]);
      if decoded.None? {
        assert pointers[k] in pointers;
        return None;
      }
      OneLess(start, pointers, redacted, v, pointers[k..], recorded);
      assert pointers[k..][1..] == pointers[k + 1..] && pointers[..k + 1] == pointers[..k] + [pointers[k]];
      var (replaced, changed) := ReplaceTokens(v, decoded.value, MARK);
      v := replaced;
      if changed {
        recorded := recorded + {pointers[k]};
      }
    }
    assert pointers[..|pointers|] == pointers && pointers[|pointers|..] == [];
    return Some((v, recorded));
  }

  /** The record of an envelope's capture: what the walk masks, and what the pointers
      change after it. */
  function Record(casefold: Casefold, e: Envelope, pointers: seq<string>): set<string>
    requires forall p <- pointers :: Pointer.Decode(p).Some?
  {
    SecretPointers(casefold, Logical(e)) + Changed(Redact(casefold, Logical(e)), pointers)
  }

  /** None where a pointer is malformed; otherwise the redacted envelope and the
      pointers recorded in its capture. */
  method RedactEnvelope(casefold: Casefold, e: Envelope, pointers: seq<string>)
      returns (r: Option<(Envelope, set<string>)>)
    ensures r.Some? <==> forall p <- pointers :: Pointer.Decode(p).Some?
    ensures r.Some? ==>
      var (e', recorded) := r.value;
      var walked := Redact(casefold, Logical(e));
      && ApplyPointers(walked, pointers) == Some(Logical(e')) && e'.attempts == e.attempts
      && recorded == Record(casefold, e, pointers)
  {
    var walked, recorded := RedactSecretKeys(casefold, Logical(e), "", {});
    assert forall p: Path :: "" + Pointer.Print(p) == Pointer.Print(p);
    assert recorded == SecretPointers(casefold, Logical(e));
    var replaced := ReplacePointers(walked, pointers, recorded);
    if replaced.None? {
      return None;
    }
    var v := replaced.value.0;
    PartsRemain(casefold, e, pointers);
    var e' := Envelope(v.entries[0].1, v.entries[1].1, e.attempts);
    assert Logical(e').entries == v.entries;
    return Some((e', replaced.value.1));
  }

  /** Pointers start at a part of the envelope, so both parts remain. */
  lemma PartsRemain(casefold: Casefold, e: Envelope, pointers: seq<string>)
    requires forall p <- pointers :: Pointer.Decode(p).Some?
    ensures var r := ApplyPointers(Redact(casefold, Logical(e)), pointers);
      r.Some? && SameFrame(Logical(e), r.value)
  {
    var walked := Redact(casefold, Logical(e));
    RedactFrame(casefold, Logical(e));
    ApplyIsPutAll(walked, pointers);
    forall path | path in Paths(pointers) ensures path != [] {
      PathsMembers(pointers, path);
      var p :| p in pointers && PathOf(p) == path;
      Pointer.PrintDecode(p);
    }
    PutAllSameFrame(walked, Paths(pointers));
  }

  /** The redacted envelope does not depend on the order of the pointers. */
  lemma EnvelopeConfluent(casefold: Casefold, e: Envelope, ps: seq<string>, qs: seq<string>)
    requires forall p :: p in ps <==> p in qs
    ensures ApplyPointers(Redact(casefold, Logical(e)), ps) == ApplyPointers(Redact(casefold, Logical(e)), qs)
  {
    PointersConfluent(Redact(casefold, Logical(e)), ps, qs);
  }

  /** No pointer that resolves, and is not recorded yet, addresses a position strictly
      inside that of another one. */
  predicate Unnested(v: Value, pointers: seq<string>, recorded: set<string>)
    requires forall p <- pointers :: Pointer.Decode(p).Some?
  {
    forall p, q :: p in pointers && q in pointers && q !in recorded && Lookup(v, PathOf(q)).Some? ==>
      !(PathOf(p) < PathOf(q))
  }

  /** Masking a position leaves all that do not lie strictly inside it resolving. */
  lemma MaskKeepsResolving(v: Value, p: Path, q: Path)
    requires Lookup(v, q).Some? && !(p < q)
    ensures Lookup(Put(v, p, MARK), q).Some?
  {
    if Lookup(v, p).Some? {
      PutIsLocal(v, p, MARK, q);
      if p == q {
        assert q[|p|..] == [];
      }
    } else {
      UnchangedKeeps(v, p, MARK);
    }
  }

  /** A pointer that resolves is recorded in every order, if none lies strictly above it. */
  lemma {:induction false} ExposedRecorded(v: Value, pointers: seq<string>, q: string)
    requires (forall p <- pointers :: Pointer.Decode(p).Some?) && q in pointers && Lookup(v, PathOf(q)).Some?
    requires forall p <- pointers :: !(PathOf(p) < PathOf(q))
    ensures q in Changed(v, pointers)
    decreases |pointers|
  {
    var p := pointers[0];
    UnchangedKeeps(v, PathOf(p), MARK);
    if p != q {
      MaskKeepsResolving(v, PathOf(p), PathOf(q));
      ExposedRecorded(Put(v, PathOf(p), MARK), pointers[1..], q);
    }
  }

  lemma {:induction false} ChangedAreListed(v: Value, pointers: seq<string>)
    requires forall p <- pointers :: Pointer.Decode(p).Some?
    ensures forall q <- Changed(v, pointers) :: q in pointers
    decreases |pointers|
  {
    if pointers != [] {
      ChangedAreListed(Put(v, PathOf(pointers[0]), MARK), pointers[1..]);
      assert forall q <- pointers[1..] :: q in pointers;
    }
  }

  /** Below a masked position nothing resolves. */
  lemma UnresolvedBelow(v: Value, p: Path, q: Path)
    requires p < q && Lookup(v, p).Some?
    ensures Lookup(Put(v, p, MARK), q).None?
  {
    PutIsLocal(v, p, MARK, q);
    assert q[|p|..] != [];
    assert Lookup(MARK, q[|p|..]).None?;
  }

  /** What does not resolve is never recorded, whatever is masked before. */
  lemma {:induction false} UnresolvedUnrecorded(v: Value, pointers: seq<string>, q: string)
    requires (forall p <- pointers :: Pointer.Decode(p).Some?) && Pointer.Decode(q).Some?
    requires Lookup(v, PathOf(q)).None?
    ensures q !in Changed(v, pointers)
    decreases |pointers|
  {
    if pointers != [] {
      var p := pointers[0];
      assert p in pointers;
      UnchangedKeeps(v, PathOf(p), MARK);
      var v' := Put(v, PathOf(p), MARK);
      if Lookup(v, PathOf(p)).Some? {
        PutIsLocal(v, PathOf(p), MARK, PathOf(q));
        if PathOf(p) <= PathOf(q) {
          assert PathOf(p) != PathOf(q);
          UnresolvedBelow(v, PathOf(p), PathOf(q));
        }
      }
      UnresolvedUnrecorded(v', pointers[1..], q);
    }
  }

  /** Then the record names, besides what it held, exactly the pointers that resolve. */
  lemma UnnestedRecord(v: Value, pointers: seq<string>, recorded: set<string>)
    requires (forall p <- pointers :: Pointer.Decode(p).Some?) && Unnested(v, pointers, recorded)
    ensures forall q :: q !in recorded ==>
      (q in Changed(v, pointers) <==> q in pointers && Lookup(v, PathOf(q)).Some?)
  {
    ChangedAreListed(v, pointers);
    forall q | q in pointers && q !in recorded
      ensures q in Changed(v, pointers) <==> Lookup(v, PathOf(q)).Some?
    {
      if Lookup(v, PathOf(q)).Some? {
        ExposedRecorded(v, pointers, q);
      } else {
        UnresolvedUnrecorded(v, pointers, q);
      }
    }
  }

  /** A resolving pointer strictly inside another one is recorded if its turn is first,
      and not if the other's is. */
  lemma NestedRecordDiffers(v: Value, outer: string, inner: string, xs: seq<string>, ys: seq<string>)
    requires (forall p <- xs :: Pointer.Decode(p).Some?) && (forall p <- ys :: Pointer.Decode(p).Some?)
    requires xs != [] && xs[0] == outer && ys != [] && ys[0] == inner
    requires PathOf(outer) < PathOf(inner) && Lookup(v, PathOf(inner)).Some?
    ensures inner !in Changed(v, xs) && inner in Changed(v, ys)
  {
    OuterResolves(v, PathOf(outer), PathOf(inner));
    UnchangedKeeps(v, PathOf(inner), MARK);
    UnchangedKeeps(v, PathOf(outer), MARK);
    UnresolvedBelow(v, PathOf(outer), PathOf(inner));
    UnresolvedUnrecorded(Put(v, PathOf(outer), MARK), xs[1..], inner);
  }

  lemma {:induction false} OuterResolves(v: Value, p: Path, q: Path)
    requires p <= q && Lookup(v, q).Some?
    ensures Lookup(v, p).Some?
    decreases |p|
  {
    if p != [] {
      var i := Child(v, q[0]).value;
      OuterResolves(Children(v)[i], p[1..], q[1..]);
    }
  }

  function RemoveFirst(pointers: seq<string>, p: string): (r: seq<string>)
    requires p in pointers
    ensures multiset([p] + r) == multiset(pointers) && forall q <- r :: q in pointers
  {
    if pointers[0] == p then
      assert pointers == [p] + pointers[1..];
      pointers[1..]
    else
      assert pointers == [pointers[0]] + pointers[1..];
      [pointers[0]] + RemoveFirst(pointers[1..], p)
  }

  /** Another order of the same list. */
  predicate Reorders(qs: seq<string>, ps: seq<string>) { multiset(qs) == multiset(ps) }

  lemma SameMembers(qs: seq<string>, ps: seq<string>)
    requires Reorders(qs, ps)
    ensures forall p :: p in qs <==> p in ps
  {
    forall p ensures p in qs <==> p in ps {
      assert p in multiset(qs) <==> p in multiset(ps);
    }
  }

  /** Every order of the list leads from `recorded` to the same record. */
  ghost predicate SameRecord(v: Value, ps: seq<string>, recorded: set<string>)
    requires forall p <- ps :: Pointer.Decode(p).Some?
  {
    forall qs :: Reorders(qs, ps) && (forall p <- qs :: Pointer.Decode(p).Some?) ==>
      recorded + Changed(v, qs) == recorded + Changed(v, ps)
  }

  lemma UnnestedSame(v: Value, ps: seq<string>, qs: seq<string>, recorded: set<string>)
    requires (forall p <- ps :: Pointer.Decode(p).Some?) && (forall p <- qs :: Pointer.Decode(p).Some?)
    requires Unnested(v, ps, recorded) && Reorders(qs, ps)
    ensures recorded + Changed(v, qs) == recorded + Changed(v, ps)
  {
    SameMembers(qs, ps);
    UnnestedRecord(v, ps, recorded);
    UnnestedRecord(v, qs, recorded);
  }

  /** `p` first, and the others as they were. */
  function ToFront(pointers: seq<string>, p: string): (r: seq<string>)
    requires p in pointers
    ensures r != [] && r[0] == p && Reorders(r, pointers) && forall q <- r :: q in pointers
  {
    [p] + RemoveFirst(pointers, p)
  }

  lemma NestedOrders(v: Value, ps: seq<string>, recorded: set<string>, p: string, q: string) returns (qs: seq<string>)
    requires (forall x <- ps :: Pointer.Decode(x).Some?) && p in ps && q in ps
    requires q !in recorded && Lookup(v, PathOf(q)).Some? && PathOf(p) < PathOf(q)
    ensures Reorders(qs, ps) && (forall x <- qs :: Pointer.Decode(x).Some?)
    ensures recorded + Changed(v, qs) != recorded + Changed(v, ps)
  {
    var xs, ys := ToFront(ps, p), ToFront(ps, q);
    NestedRecordDiffers(v, p, q, xs, ys);
    if q in Changed(v, ps) {
      qs := xs;
      assert q !in recorded + Changed(v, xs) && q in recorded + Changed(v, ps);
    } else {
      qs := ys;
      assert q in recorded + Changed(v, ys) && q !in recorded + Changed(v, ps);
    }
  }

  lemma UnnestedSameRecord(v: Value, ps: seq<string>, recorded: set<string>)
    requires (forall p <- ps :: Pointer.Decode(p).Some?) && Unnested(v, ps, recorded)
    ensures SameRecord(v, ps, recorded)
  {
    forall qs | Reorders(qs, ps) && (forall p <- qs :: Pointer.Decode(p).Some?)
      ensures recorded + Changed(v, qs) == recorded + Changed(v, ps)
    {
      UnnestedSame(v, ps, qs, recorded);
    }
  }

  lemma NestedOtherRecord(v: Value, ps: seq<string>, recorded: set<string>)
    requires (forall p <- ps :: Pointer.Decode(p).Some?) && !Unnested(v, ps, recorded)
    ensures !SameRecord(v, ps, recorded)
  {
    var p, q :| p in ps && q in ps && q !in recorded && Lookup(v, PathOf(q)).Some? && PathOf(p) < PathOf(q);
    var qs := NestedOrders(v, ps, recorded, p, q);
  }

  /** From any record on, every order of the list leads to the same record if and only if
      no pointer that resolves and is not recorded lies strictly inside another pointer
      of the list. */
  lemma RecordOrderIff(v: Value, ps: seq<string>, recorded: set<string>)
    requires forall p <- ps :: Pointer.Decode(p).Some?
    ensures SameRecord(v, ps, recorded) <==> Unnested(v, ps, recorded)
  {
    if Unnested(v, ps, recorded) {
      UnnestedSameRecord(v, ps, recorded);
    } else {
      NestedOtherRecord(v, ps, recorded);
    }
  }

  /** So the record of an envelope is the same for every order of the pointers if and only
      if each pointer strictly inside another one leads nowhere once the secret keys are
      masked, or is the pointer of a secret key itself. */
  lemma EnvelopeRecordOrderIff(casefold: Casefold, e: Envelope, ps: seq<string>)
    requires forall p <- ps :: Pointer.Decode(p).Some?
    ensures (forall qs :: Reorders(qs, ps) && (forall p <- qs :: Pointer.Decode(p).Some?) ==>
               Record(casefold, e, qs) == Record(casefold, e, ps))
      <==> forall p, q :: p in ps && q in ps && PathOf(p) < PathOf(q) ==>
             q in SecretPointers(casefold, Logical(e)) || Lookup(Redact(casefold, Logical(e)), PathOf(q)).None?
  {
    var v, recorded := Redact(casefold, Logical(e)), SecretPointers(casefold, Logical(e));
    RecordOrderIff(v, ps, recorded);
    assert forall qs :: Reorders(qs, ps) && (forall p <- qs :: Pointer.Decode(p).Some?) ==>
      Record(casefold, e, qs) == recorded + Changed(v, qs);
  }

  // ------------------------------------------------------------------- examples

  /** An envelope of a user with one field. */
  function UserEnvelope(field: string, x: Value): Envelope {
    Envelope(Dict([(Name("user"), Dict([(Name(field), x)]))]), Dict([]), 0)
  }

  lemma LoneLookup(key: string, y: Value, rest: Path)
    ensures Lookup(Dict([(Name(key), y)]), [key] + rest) == Lookup(y, rest)
  {
    var v := Dict([(Name(key), y)]);
    assert v.entries[0].0 == Name(key);
    assert Child(v, key) == Some(0) && Children(v)[0] == y && ([key] + rest)[1..] == rest;
  }

  lemma BodyLookup(casefold: Casefold, e: Envelope, rest: Path)
    requires !IsSecret(casefold, Name("body"))
    ensures Lookup(Redact(casefold, Logical(e)), ["body"] + rest) == Lookup(Redact(casefold, e.body), rest)
  {
    var v := Logical(e);
    RedactFrame(casefold, v);
    FrameAddresses(v, Redact(casefold, v));
    assert v.entries[0] == (Name("body"), e.body);
    assert Child(v, "body") == Some(0) && Children(v)[0] == e.body && (["body"] + rest)[1..] == rest;
  }

  /** A field that is no secret key is still there after the walk. */
  lemma FieldResolves(casefold: Casefold, field: string, x: Value)
    requires !IsSecret(casefold, Name("body")) && !IsSecret(casefold, Name("user")) && !IsSecret(casefold, Name(field))
    ensures Lookup(Redact(casefold, Logical(UserEnvelope(field, x))), ["body"] + (["user"] + ([field] + []))).Some?
  {
    var user := Dict([(Name(field), x)]);
    LoneEntry(casefold, Name(field), x);
    LoneEntry(casefold, Name("user"), user);
    LoneLookup(field, Redact(casefold, x), []);
    LoneLookup("user", Redact(casefold, user), [field] + []);
    BodyLookup(casefold, UserEnvelope(field, x), ["user"] + ([field] + []));
  }

  lemma PlainPointersUnrecorded(casefold: Casefold, v: Value, path: Path)
    requires Real(v) && path != [] && !EndsSecret(casefold, path)
    ensures Pointer.Print(path) !in SecretPointers(casefold, v)
  {
    PathsEndSecret(casefold, v);
    Pointer.DecodePrint(path);
    forall p | p in SecretPaths(casefold, v) ensures Pointer.Print(p) != Pointer.Print(path) {
      assert EndsSecret(casefold, p);
      Pointer.DecodePrint(p);
    }
  }

  lemma TwoOrders(casefold: Casefold, e: Envelope, outer: string, inner: string)
    requires Pointer.Decode(outer).Some? && Pointer.Decode(inner).Some? && PathOf(outer) < PathOf(inner)
    requires inner !in SecretPointers(casefold, Logical(e))
    requires Lookup(Redact(casefold, Logical(e)), PathOf(inner)).Some?
    ensures Record(casefold, e, [outer, inner]) != Record(casefold, e, [inner, outer])
  {
    NestedRecordDiffers(Redact(casefold, Logical(e)), outer, inner, [outer, inner], [inner, outer]);
    assert inner !in Record(casefold, e, [outer, inner]);
    assert inner in Record(casefold, e, [inner, outer]);
  }

  lemma UserIsReal(field: string, x: Value)
    requires Real(x)
    ensures Real(Logical(UserEnvelope(field, x)))
  {
    var user := Dict([(Name(field), x)]);
    var body := Dict([(Name("user"), user)]);
    assert Real(user);
    assert Real(body);
    assert Real(Dict([]));
  }

  /** With a pointer to the user and one to a field of it that is no secret key, the order
      of the two decides the record. */
  lemma OrderDecidesRecord(casefold: Casefold, field: string, x: Value)
    requires !IsSecret(casefold, Name("body")) && !IsSecret(casefold, Name("user")) && !IsSecret(casefold, Name(field))
    requires Real(x)
    ensures var outer, inner := Pointer.Print(["body", "user"]), Pointer.Print(["body", "user", field]);
      && Pointer.Decode(outer).Some? && Pointer.Decode(inner).Some?
      && Record(casefold, UserEnvelope(field, x), [outer, inner]) != Record(casefold, UserEnvelope(field, x), [inner, outer])
  {
    var above, below := ["body", "user"], ["body", "user", field];
    assert below[..2] == above && below == ["body"] + (["user"] + ([field] + []));
    Pointer.DecodePrint(above);
    Pointer.DecodePrint(below);
    FieldResolves(casefold, field, x);
    UserIsReal(field, x);
    PlainPointersUnrecorded(casefold, Logical(UserEnvelope(field, x)), below);
    TwoOrders(casefold, UserEnvelope(field, x), Pointer.Print(above), Pointer.Print(below));
  }

  lemma {:induction false} NothingReplaced(s: string)
    requires '-' !in s
    ensures Pointer.ReplaceChar(s, '-', "_") == s
  {
    if s != "" {
      NothingReplaced(s[1..]);
      assert s == [s[0]] + s[1..];
    }
  }

  lemma ShortKeysArePlain(key: string)
    requires |key| == 4 && '-' !in key
    ensures !IsSecret(Same, Name(key))
  {
    NothingReplaced(key);
    if key in SECRET_KEYS {
      SecretsAreNotOfFour(key);
    }
  }

  lemma SecretsAreNotOfFour(key: string)
    requires key in SECRET_KEYS
    ensures |key| != 4
  {
  }

  /** For one: the name of a user, and the user. */
  lemma UserNameExample(x: Value)
    requires Real(x)
    ensures var outer, inner := Pointer.Print(["body", "user"]), Pointer.Print(["body", "user", "name"]);
      && Pointer.Decode(outer).Some? && Pointer.Decode(inner).Some?
      && Record(Same, UserEnvelope("name", x), [outer, inner]) != Record(Same, UserEnvelope("name", x), [inner, outer])
  {
    ShortKeysArePlain("body");
    ShortKeysArePlain("user");
    ShortKeysArePlain("name");
    OrderDecidesRecord(Same, "name", x);
  }
}
