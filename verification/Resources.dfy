/** Building configured resources: collecting their specs from the sections of a
    configuration, and the memoised depth-first build with cycle detection. */
module Resources {
  import opened Wrappers

  /** A resource spec, to the build: is its type supported, which resources does it
      resolve (in order), and does its handler then accept it? */
  datatype Spec = Spec(supported: bool, refs: seq<string>, accepted: bool)

  /** A built resource holds the resources it resolved. */
  datatype Resource = Resource(name: string, parts: seq<Resource>)

  datatype Failure =
    | Unknown(name: string)
    | Cyclic(path: seq<string>)
    | Unsupported(name: string)
    | Rejected(name: string)

  datatype Outcome = Built(resource: Resource) | Failed(failure: Failure)

  type Specs = map<string, Spec>

  // ------------------------------------------------------------------ graphs

  /** Each name is defined, but perhaps the last, and refers to the next. */
  ghost predicate Chain(specs: Specs, path: seq<string>) {
    forall i :: 0 <= i < |path| - 1 ==> path[i] in specs && path[i + 1] in specs[path[i]].refs
  }

  ghost predicate Cycle(specs: Specs, path: seq<string>) {
    |path| >= 2 && Chain(specs, path) && path[0] == path[|path| - 1]
  }

  ghost predicate Acyclic(specs: Specs) { forall path :: !Cycle(specs, path) }

  ghost predicate Closed(specs: Specs) {
    forall name <- specs, target <- specs[name].refs :: target in specs
  }

  /** Nothing stands in the way of building everything. */
  ghost predicate Buildable(specs: Specs) {
    Closed(specs) && Acyclic(specs) && forall name <- specs :: specs[name].supported && specs[name].accepted
  }

  /** A failure names what is wrong with the specs. */
  ghost predicate Justified(specs: Specs, failure: Failure) {
    match failure
    case Unknown(name) => name !in specs && exists user <- specs :: name in specs[user].refs
    case Cyclic(path) => Chain(specs, path) && exists i :: 0 <= i < |path| - 1 && Cycle(specs, path[i..])
    case Unsupported(name) => name in specs && !specs[name].supported
    case Rejected(name) => name in specs && !specs[name].accepted
  }

  lemma JustifiedMeansUnbuildable(specs: Specs, failure: Failure)
    requires Justified(specs, failure)
    ensures !Buildable(specs)
  {
    match failure
    case Unknown(name) =>
      var user :| user in specs && name in specs[user].refs;
    case Cyclic(path) =>
      var i :| 0 <= i < |path| - 1 && Cycle(specs, path[i..]);
    case _ =>
  }

  // ------------------------------------------------------------- build order

  /** A build order: no name twice, each after all it refers to. */
  ghost predicate Ordered(specs: Specs, built: seq<string>) {
    && (forall i, j :: 0 <= i < j < |built| ==> built[i] != built[j])
    && (forall i :: 0 <= i < |built| ==>
          built[i] in specs && forall target <- specs[built[i]].refs :: target in built[..i])
  }

  lemma OrderedGrows(specs: Specs, built: seq<string>, name: string)
    requires Ordered(specs, built) && name in specs && name !in built
    requires forall target <- specs[name].refs :: target in built
    ensures Ordered(specs, built + [name])
  {
    var longer := built + [name];
    forall i, target | 0 <= i < |longer| && target in specs[longer[i]].refs ensures target in longer[..i] {
      if i < |built| {
        assert longer[..i] == built[..i];
      } else {
        assert longer[..i] == built;
      }
    }
  }

  /** Along a chain inside a build order, positions go down. */
  lemma {:induction false} ChainGoesDown(specs: Specs, built: seq<string>, path: seq<string>, first: nat)
    requires Ordered(specs, built) && Chain(specs, path) && |path| >= 2
    requires first < |built| && built[first] == path[0]
    ensures exists last :: 0 <= last < first && built[last] == path[|path| - 1]
    decreases |path|
  {
    assert path[1] in specs[path[0]].refs;
    var next :| 0 <= next < first && built[..first][next] == path[1];
    if |path| > 2 {
      forall i | 0 <= i < |path[1..]| - 1 ensures path[1..][i] in specs && path[1..][i + 1] in specs[path[1..][i]].refs {
        assert path[i + 1] in specs && path[i + 2] in specs[path[i + 1]].refs;
      }
      ChainGoesDown(specs, built, path[1..], next);
    } else {
      assert built[next] == path[|path| - 1];
    }
  }

  /** A build order of everything shows that there is no cycle and no undefined name. */
  lemma OrderedIsAcyclic(specs: Specs, built: seq<string>)
    requires Ordered(specs, built) && forall name <- specs :: name in built
    ensures Acyclic(specs) && Closed(specs)
  {
    forall path ensures !Cycle(specs, path) {
      if Cycle(specs, path) {
        var first :| 0 <= first < |built| && built[first] == path[0];
        ChainGoesDown(specs, built, path, first);
      }
    }
    forall name, target | name in specs && target in specs[name].refs ensures target in specs {
      var i :| 0 <= i < |built| && built[i] == name;
      assert target in built[..i];
      var k :| 0 <= k < i && built[k] == target;
    }
  }

  // --------------------------------------------------------------- the build

  class Builder {
    const specs: Specs
    var resources: map<string, Resource>
    var resolving: seq<string>
    var built: seq<string>      // the names in the order of their builds

    constructor (specs: Specs)
      ensures this.specs == specs && Valid() && resources == map[] && resolving == [] && built == []
    {
      this.specs, resources, resolving, built := specs, map[], [], [];
    }

    /** What is built: each name once, after what it refers to, holding just that. */
    ghost predicate ValidBuilt()
      reads this
    {
      && Ordered(specs, built)
      && (forall name :: name in resources <==> name in built)
      && (forall name <- resources :: Fits(name, resources[name]))
    }

    /** A stack of resources being resolved: each asks for the next, none is built. */
    ghost predicate ValidStack(stack: seq<string>)
      reads this
    {
      && Chain(specs, stack)
      && (forall i, j :: 0 <= i < j < |stack| ==> stack[i] != stack[j])
      && (forall name <- stack :: name in specs && name !in resources)
    }

    ghost predicate Valid()
      reads this
    {
      ValidBuilt() && ValidStack(resolving)
    }

    /** The resource was built from the very resources its spec refers to. */
    ghost predicate Fits(name: string, x: Resource)
      reads this
    {
      && name in specs && specs[name].supported && specs[name].accepted
      && x.name == name && |x.parts| == |specs[name].refs|
      && forall i :: 0 <= i < |x.parts| ==>
        specs[name].refs[i] in resources && resources[specs[name].refs[i]] == x.parts[i]
    }

    /** Is the name asked for by the resource on top of the stack, or by nobody? */
    ghost predicate Asked(name: string)
      reads this
      requires forall n <- resolving :: n in specs
    {
      if resolving == [] then name in specs else name in specs[resolving[|resolving| - 1]].refs
    }

    ghost predicate Extends(before: map<string, Resource>, order: seq<string>)
      reads this
    {
      && order <= built
      && forall name <- before :: name in resources && resources[name] == before[name]
    }

    method Resolve(name: string) returns (r: Outcome)
      requires Valid() && Asked(name)
      modifies this`resources, this`resolving, this`built
      ensures Valid() && resolving == old(resolving) && Extends(old(resources), old(built))
      ensures r.Built? ==> name in resources && resources[name] == r.resource
      ensures r.Failed? ==> Justified(specs, r.failure)
      decreases Rest(specs, resolving), 0
    {
      if name in resources {
        return Built(resources[name]);
      }
      if name !in specs {
        return Failed(Unknown(name));
      }
      if name in resolving {
        CycleFound(name);
        return Failed(Cyclic(resolving + [name]));
      }
      PushedIsSmaller(specs, resolving, name);
      Push(name);
      r := Build(name);
      if r.Built? {
        Keep(name, r.resource);
      }
      Pop();
    }

    method Push(name: string)
      requires Valid() && Asked(name) && name in specs && name !in resources && name !in resolving
      modifies this`resolving
      ensures Valid() && resolving == old(resolving) + [name]
    {
      ghost var path := resolving + [name];
      forall i | 0 <= i < |path| - 1 ensures path[i] in specs && path[i + 1] in specs[path[i]].refs {
        if i < |resolving| - 1 {
          assert resolving[i + 1] in specs[resolving[i]].refs;
        }
      }
      resolving := resolving + [name];
    }

    method Pop()
      requires resolving != []
      requires ValidBuilt() && ValidStack(resolving[..|resolving| - 1])
      modifies this`resolving
      ensures Valid() && resolving == old(resolving[..|resolving| - 1])
    {
      resolving := resolving[..|resolving| - 1];
    }

    method Keep(name: string, x: Resource)
      requires Valid() && resolving != [] && resolving[|resolving| - 1] == name && Fits(name, x)
      modifies this`resources, this`built
      ensures resources == old(resources)[name := x] && built == old(built) + [name]
      ensures ValidBuilt() && ValidStack(resolving[..|resolving| - 1])
    {
      OrderedGrows(specs, built, name);
      resources := resources[name := x];
      built := built + [name];
      assert Fits(name, x);
      assert forall n <- old(resources) :: old(Fits(n, resources[n])) && resources[n] == old(resources[n]);
    }

    /** `_build_resource`: resolves what the spec refers to, then builds. */
    method Build(name: string) returns (r: Outcome)
      requires Valid() && resolving != [] && resolving[|resolving| - 1] == name
      modifies this`resources, this`resolving, this`built
      ensures Valid() && resolving == old(resolving) && Extends(old(resources), old(built))
      ensures r.Built? ==> Fits(name, r.resource)
      ensures r.Failed? ==> Justified(specs, r.failure)
      decreases Rest(specs, resolving), 1
    {
      var spec := specs[name];
      if !spec.supported {
        return Failed(Unsupported(name));
      }
      var parts: seq<Resource> := [];
      var i := 0;
      while i < |spec.refs|
        invariant 0 <= i == |parts| <= |spec.refs|
        invariant Valid() && resolving == old(resolving) && Extends(old(resources), old(built))
        invariant forall k :: 0 <= k < i ==> spec.refs[k] in resources && resources[spec.refs[k]] == parts[k]
      {
        r := Resolve(spec.refs[i]);
        if r.Failed? {
          return;
        }
        parts := parts + [r.resource];
        i := i + 1;
      }
      if !spec.accepted {
        return Failed(Rejected(name));
      }
      r := Built(Resource(name, parts));
    }

    lemma CycleFound(name: string)
      requires Valid() && Asked(name) && name in resolving
      ensures Justified(specs, Cyclic(resolving + [name]))
    {
      var path := resolving + [name];
      var i :| 0 <= i < |resolving| && resolving[i] == name;
      forall k | 0 <= k < |path| - 1 ensures path[k] in specs && path[k + 1] in specs[path[k]].refs {
        if k < |resolving| - 1 {
          assert resolving[k + 1] in specs[resolving[k]].refs;
        }
      }
      assert Cycle(specs, path[i..]);
    }
  }

  /** The defined names outside a stack. */
  ghost function Rest(specs: Specs, stack: seq<string>): set<string> {
    specs.Keys - (set name | name in stack)
  }

  lemma PushedIsSmaller(specs: Specs, stack: seq<string>, name: string)
    requires name in specs && name !in stack
    ensures Rest(specs, stack + [name]) < Rest(specs, stack)
  {
    assert name in Rest(specs, stack) && name !in Rest(specs, stack + [name]);
  }

  // --------------------------------------------------------- the whole build

  /** A resource of that name, holding the very resources its spec refers to. */
  predicate Assembled(specs: Specs, resources: map<string, Resource>, name: string) {
    && name in specs && name in resources && resources[name].name == name
    && |resources[name].parts| == |specs[name].refs|
    && forall i :: 0 <= i < |specs[name].refs| ==>
      specs[name].refs[i] in resources && resources[name].parts[i] == resources[specs[name].refs[i]]
  }

  /** `_build_resources`: succeeds exactly for specs without an undefined name, a cycle or
      a refusing handler; then builds each resource once, after all it refers to. */
  method BuildResources(specs: Specs, order: seq<string>)
      returns (failure: Option<Failure>, resources: map<string, Resource>, built: seq<string>)
    requires forall name :: name in order <==> name in specs
    ensures failure.None? <==> Buildable(specs)
    ensures failure.None? ==>
      && resources.Keys == specs.Keys && (forall name <- specs :: Assembled(specs, resources, name))
      && (forall name :: name in built <==> name in specs) && Ordered(specs, built)
    ensures failure.Some? ==> Justified(specs, failure.value)
  {
    var builder := new Builder(specs);
    var i := 0;
    while i < |order|
      invariant 0 <= i <= |order| && fresh(builder) && builder.specs == specs
      invariant builder.Valid() && builder.resolving == []
      invariant forall k :: 0 <= k < i ==> order[k] in builder.resources
    {
      assert order[i] in order;
      var r := builder.Resolve(order[i]);
      if r.Failed? {
        JustifiedMeansUnbuildable(specs, r.failure);
        return Some(r.failure), map[], [];
      }
      i := i + 1;
    }
    failure, resources, built := None, builder.resources, builder.built;
    forall name | name in specs ensures name in resources {
      assert name in order;
      var k :| 0 <= k < |order| && order[k] == name;
    }
    OrderedIsAcyclic(specs, built);
    assert forall name <- specs :: builder.Fits(name, resources[name]);
  }

  // -------------------------------------------------------------- collecting

  /** An entry of a section: a spec, or something that is no mapping. */
  datatype RawSpec = Mapping(spec: Spec) | NoMapping

  /** A section of the configuration: absent, no mapping, or named entries. */
  datatype Section = Absent | Malformed | Entries(entries: seq<(string, RawSpec)>)

  datatype Complaint = BadSection(section: nat) | BadEntry(name: string) | Conflict(name: string)

  /** The entries of all sections, in order. */
  function Flatten(sections: seq<Section>): seq<(string, RawSpec)> {
    if sections == [] then []
    else
      var last := sections[|sections| - 1];
      Flatten(sections[..|sections| - 1]) + if last.Entries? then last.entries else []
  }

  /** The entries are specs, and one name has one spec. */
  ghost predicate Agree(entries: seq<(string, RawSpec)>) {
    && (forall e <- entries :: e.1.Mapping?)
    && (forall e <- entries, f <- entries :: e.0 == f.0 ==> e.1 == f.1)
  }

  /** The position of the first entry of the name; the length, if there is none. */
  function FirstPlace(entries: seq<(string, RawSpec)>, name: string): (i: nat)
    ensures i <= |entries| && (i < |entries| ==> entries[i].0 == name)
    ensures forall k :: 0 <= k < i ==> entries[k].0 != name
  {
    if entries == [] || entries[0].0 == name then 0 else 1 + FirstPlace(entries[1..], name)
  }

  lemma FirstPlaceStays(entries: seq<(string, RawSpec)>, e: (string, RawSpec), name: string)
    ensures var i := FirstPlace(entries, name);
      FirstPlace(entries + [e], name) == if i < |entries| || e.0 == name then i else i + 1
  {
    var all := entries + [e];
    var i, j := FirstPlace(entries, name), FirstPlace(all, name);
    assert forall k :: 0 <= k < |entries| ==> all[k] == entries[k];
    assert all[|entries|] == e;
  }

  /** The names stand in the order of their first places. */
  predicate InFirstPlaces(entries: seq<(string, RawSpec)>, order: seq<string>) {
    && (forall i :: 0 <= i < |order| ==> FirstPlace(entries, order[i]) < |entries|)
    && forall i, j :: 0 <= i < j < |order| ==> FirstPlace(entries, order[i]) < FirstPlace(entries, order[j])
  }

  /** `specs` holds what the entries say. */
  ghost predicate Holds(entries: seq<(string, RawSpec)>, specs: Specs) {
    && (forall e <- entries :: e.0 in specs && e.1 == Mapping(specs[e.0]))
    && (forall name <- specs :: (name, Mapping(specs[name])) in entries)
  }

  /** `specs` and `order` hold what the entries say, the names in the order of their first
      places. */
  ghost predicate Collected(entries: seq<(string, RawSpec)>, specs: Specs, order: seq<string>) {
    Holds(entries, specs) && InFirstPlaces(entries, order) && forall name :: name in order <==> name in specs
  }

  lemma PlacesStay(done: seq<(string, RawSpec)>, e: (string, RawSpec), order: seq<string>)
    requires InFirstPlaces(done, order)
    ensures InFirstPlaces(done + [e], order)
  {
    forall i | 0 <= i < |order| ensures FirstPlace(done + [e], order[i]) == FirstPlace(done, order[i]) {
      FirstPlaceStays(done, e, order[i]);
    }
  }

  lemma PlaceAtEnd(done: seq<(string, RawSpec)>, e: (string, RawSpec), order: seq<string>)
    requires InFirstPlaces(done, order) && forall f <- done :: f.0 != e.0
    ensures InFirstPlaces(done + [e], order + [e.0])
  {
    PlacesStay(done, e, order);
    forall i | 0 <= i < |order| ensures FirstPlace(done + [e], order[i]) < |done| {
      FirstPlaceStays(done, e, order[i]);
    }
    assert forall k :: 0 <= k < |done| ==> done[k] in done;
    FirstPlaceStays(done, e, e.0);
  }

  lemma HoldsMore(done: seq<(string, RawSpec)>, name: string, spec: Spec, specs: Specs)
    requires Holds(done, specs) && (name in specs ==> specs[name] == spec)
    ensures Holds(done + [(name, Mapping(spec))], specs[name := spec])
  {
    var all, specs' := done + [(name, Mapping(spec))], specs[name := spec];
    forall n | n in specs' ensures (n, Mapping(specs'[n])) in all {
      if n == name {
        assert all[|done|] == (name, Mapping(spec));
      } else {
        assert (n, Mapping(specs[n])) in done;
      }
    }
  }

  ghost predicate Complains(sections: seq<Section>, complaint: Complaint) {
    match complaint
    case BadSection(i) => i < |sections| && sections[i].Malformed?
    case BadEntry(name) => (name, NoMapping) in Flatten(sections)
    case Conflict(name) =>
      exists a: Spec, b: Spec ::
        a != b && (name, Mapping(a)) in Flatten(sections) && (name, Mapping(b)) in Flatten(sections)
  }

  lemma {:induction false} FlattenHas(sections: seq<Section>, i: nat, e: (string, RawSpec))
    requires i < |sections| && sections[i].Entries? && e in sections[i].entries
    ensures e in Flatten(sections)
  {
    var n := |sections| - 1;
    if i < n {
      FlattenHas(sections[..n], i, e);
    }
  }

  lemma {:induction false} FlattenKeeps(sections: seq<Section>, i: nat, e: (string, RawSpec))
    requires i <= |sections| && e in Flatten(sections[..i])
    ensures e in Flatten(sections)
  {
    var n := |sections| - 1;
    if i == |sections| {
      assert sections[..i] == sections;
    } else {
      assert sections[..n][..i] == sections[..i];
      FlattenKeeps(sections[..n], i, e);
    }
  }

  /** What is wrong with an entry, given what is collected. */
  predicate Refuses(name: string, raw: RawSpec, specs: Specs, complaint: Complaint) {
    match complaint
    case BadSection(_) => false
    case BadEntry(n) => n == name && raw.NoMapping?
    case Conflict(n) => n == name && name in specs && raw.Mapping? && raw.spec != specs[name]
  }

  lemma ComplaintHolds(sections: seq<Section>, i: nat, j: nat, specs: Specs, order: seq<string>, complaint: Complaint)
    requires i < |sections| && sections[i].Entries? && j < |sections[i].entries|
    requires Collected(Flatten(sections[..i]) + sections[i].entries[..j], specs, order)
    requires Refuses(sections[i].entries[j].0, sections[i].entries[j].1, specs, complaint)
    ensures Complains(sections, complaint) && !Agree(Flatten(sections))
  {
    var (name, raw) := sections[i].entries[j];
    FlattenHas(sections, i, (name, raw));
    if raw.Mapping? {
      var known := (name, Mapping(specs[name]));
      if known in sections[i].entries[..j] {
        FlattenHas(sections, i, known);
      } else {
        FlattenKeeps(sections, i, known);
      }
    }
  }

  lemma CollectedAgrees(entries: seq<(string, RawSpec)>, specs: Specs, order: seq<string>)
    requires Collected(entries, specs, order)
    ensures Agree(entries)
  {
  }

  /** Adds one entry to what is collected. */
  method AddEntry(ghost done: seq<(string, RawSpec)>, name: string, raw: RawSpec, specs: Specs, order: seq<string>)
      returns (complaint: Option<Complaint>, specs': Specs, order': seq<string>)
    requires Collected(done, specs, order)
    ensures complaint.None? ==> Collected(done + [(name, raw)], specs', order')
    ensures complaint.Some? ==> Refuses(name, raw, specs, complaint.value)
  {
    if raw.NoMapping? {
      return Some(BadEntry(name)), specs, order;
    }
    if name in specs && specs[name] != raw.spec {
      return Some(Conflict(name)), specs, order;
    }
    HoldsMore(done, name, raw.spec, specs);
    if name in specs {
      assert specs[name := raw.spec] == specs;
      PlacesStay(done, (name, raw), order);
      return None, specs, order;
    }
    PlaceAtEnd(done, (name, raw), order);
    return None, specs[name := raw.spec], order + [name];
  }

  /** Adds the entries of section `i`. */
  method AddSection(sections: seq<Section>, i: nat, specs: Specs, order: seq<string>)
      returns (complaint: Option<Complaint>, specs': Specs, order': seq<string>)
    requires i < |sections| && sections[i].Entries? && Collected(Flatten(sections[..i]), specs, order)
    ensures complaint.None? ==> Collected(Flatten(sections[..i]) + sections[i].entries, specs', order')
    ensures complaint.Some? ==> Complains(sections, complaint.value) && !Agree(Flatten(sections))
  {
    complaint, specs', order' := None, specs, order;
    var entries := sections[i].entries;
    ghost var before := Flatten(sections[..i]);
    assert before + entries[..0] == before;
    var j := 0;
    while j < |entries|
      invariant 0 <= j <= |entries| && complaint.None?
      invariant Collected(before + entries[..j], specs', order')
    {
      assert before + entries[..j + 1] == before + entries[..j] + [entries[j]];
      ghost var known, places := specs', order';
      complaint, specs', order' := AddEntry(before + entries[..j], entries[j].0, entries[j].1, specs', order');
      if complaint.Some? {
        ComplaintHolds(sections, i, j, known, places, complaint.value);
        return;
      }
      j := j + 1;
    }
    assert entries[..j] == entries;
  }

  lemma FlattenStep(sections: seq<Section>, i: nat)
    requires i < |sections|
    ensures Flatten(sections[..i + 1]) ==
      Flatten(sections[..i]) + if sections[i].Entries? then sections[i].entries else []
  {
    assert sections[..i + 1][..i] == sections[..i];
  }

  /** `_collect_resource_specs`: succeeds exactly if every section and every entry is a
      mapping and a name defined twice has the same spec both times. */
  method CollectResourceSpecs(sections: seq<Section>) returns (complaint: Option<Complaint>, specs: Specs, order: seq<string>)
    ensures complaint.None? <==> (forall s <- sections :: !s.Malformed?) && Agree(Flatten(sections))
    ensures complaint.None? ==> Collected(Flatten(sections), specs, order)
    ensures complaint.Some? ==> Complains(sections, complaint.value)
  {
    complaint, specs, order := None, map[], [];
    var i := 0;
    while i < |sections|
      invariant 0 <= i <= |sections| && complaint.None?
      invariant forall k :: 0 <= k < i ==> !sections[k].Malformed?
      invariant Collected(Flatten(sections[..i]), specs, order)
    {
      FlattenStep(sections, i);
      match sections[i] {
        case Absent =>
          assert Flatten(sections[..i]) + [] == Flatten(sections[..i]);
        case Malformed =>
          assert sections[i] in sections;
          return Some(BadSection(i)), specs, order;
        case Entries(entries) =>
          complaint, specs, order := AddSection(sections, i, specs, order);
          if complaint.Some? {
            return;
          }
      }
      i := i + 1;
    }
    assert sections[..i] == sections;
    CollectedAgrees(Flatten(sections), specs, order);
    forall s | s in sections ensures !s.Malformed? {
      var k :| 0 <= k < |sections| && sections[k] == s;
    }
  }
}
