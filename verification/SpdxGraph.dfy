/** The SPDX relationship graph of a release: emitted once from the declared dependencies,
    and recomputed by the validator from what each package declares (SPDX 2.3, clause 11).
    The patterns of requirement texts and hashes are abstracted to functions. */
module SpdxGraph {
  import opened Common

  datatype Dependency = Dependency(name: string, group: string, requirement: string, installed: Option<string>,
                                   archiveHash: Option<string>)

  /** The versions a requirement pins exactly, well-formed hashes, and package ids. */
  datatype Texts = Texts(exact: string -> Option<string>, wellFormedHash: string -> bool,
                         packageId: (string, Option<string>) -> string)

  datatype Relation = Describes | DependsOn | BuildDependencyOf | DevDependencyOf | TestDependencyOf | OptionalDependencyOf
  datatype Edge = Edge(source: string, relation: Relation, target: string)

  datatype Purpose = APPLICATION | CONTAINER | LIBRARY
  datatype Package = Package(id: string, purpose: Purpose, version: Option<string>, checksums: set<string>,
                             groups: set<string>, requirements: set<string>)

  datatype Document = Document(packages: seq<Package>, relationships: set<Edge>)

  const DOCUMENT := "SPDXRef-DOCUMENT"
  const PROJECT := "SPDXRef-Package-nano-aural-runtime"
  const API := "SPDXRef-Package-nano-aural-runtime-api-container"

  predicate StartsWith(s: string, prefix: string) {
    |prefix| <= |s| && s[..|prefix|] == prefix
  }

  /** Whether `word` is one of the parts of `s` between hyphens; `part` is the current one. */
  predicate HasPart(s: string, part: string, word: string) {
    if s == [] then part == word
    else if s[0] == '-' then part == word || HasPart(s[1..], [], word)
    else HasPart(s[1..], part + [s[0]], word)
  }

  predicate OfContainer(group: string) {
    StartsWith(group, "container:")
  }

  /** `_spdx_group_relationship`; None stands for its ValueError. */
  function GroupEdge(dependency: string, group: string): Option<Edge> {
    if group == "build" then Some(Edge(dependency, BuildDependencyOf, PROJECT))
    else if group == "runtime" then Some(Edge(PROJECT, DependsOn, dependency))
    else if OfContainer(group) then Some(Edge(API, DependsOn, dependency))
    else if group == "optional:dev" then Some(Edge(dependency, DevDependencyOf, PROJECT))
    else if StartsWith(group, "optional:") then
      if HasPart(group[|"optional:"|..], [], "test") then Some(Edge(dependency, TestDependencyOf, PROJECT))
      else Some(Edge(dependency, OptionalDependencyOf, PROJECT))
    else None
  }

  /** The text starts with the word, and the word ends there or at a hyphen. */
  predicate StartsPart(s: string, word: string) {
    StartsWith(s, word) && (|s| == |word| || s[|word|] == '-')
  }

  /** It is a part of the text that stands after some hyphen. */
  predicate LaterPart(s: string, word: string) {
    exists i :: 0 < i <= |s| && s[i - 1] == '-' && StartsPart(s[i..], word)
  }

  /** The word is one of the parts of the text between hyphens. */
  predicate IsPart(s: string, word: string) {
    StartsPart(s, word) || LaterPart(s, word)
  }

  lemma LaterFrom(s: string, word: string)
    requires s != []
    ensures LaterPart(s, word) <==> (s[0] == '-' && StartsPart(s[1..], word)) || LaterPart(s[1..], word)
  {
    var rest := s[1..];
    if i :| 0 < i <= |s| && s[i - 1] == '-' && StartsPart(s[i..], word) {
      assert i == 1 || (rest[i - 2] == '-' && rest[i - 1..] == s[i..]);
    }
    if i :| 0 < i <= |rest| && rest[i - 1] == '-' && StartsPart(rest[i..], word) {
      assert s[i] == '-' && s[i + 1..] == rest[i..];
    }
  }

  lemma {:induction false} HasPartFrom(s: string, part: string, word: string)
    requires '-' !in word && '-' !in part
    ensures HasPart(s, part, word) <==> StartsPart(part + s, word) || LaterPart(s, word)
    decreases |s|
  {
    if s == [] {
      assert part + s == part;
    } else {
      LaterFrom(s, word);
      if s[0] == '-' {
        HyphenEnds(part, s, word);
        HasPartFrom(s[1..], [], word);
        assert [] + s[1..] == s[1..];
      } else {
        HasPartFrom(s[1..], part + [s[0]], word);
        assert part + [s[0]] + s[1..] == part + s;
      }
    }
  }

  lemma HyphenEnds(part: string, s: string, word: string)
    requires s != [] && s[0] == '-' && '-' !in word && '-' !in part
    ensures StartsPart(part + s, word) <==> part == word
  {
    var text := part + s;
    assert text[|part|] == '-' && text[..|part|] == part;
    forall k | 0 <= k < |word| && StartsWith(text, word) ensures text[k] == word[k] {
      assert text[..|word|][k] == word[k];
    }
    assert |word| < |part| ==> text[|word|] == part[|word|];
  }

  /** Which relation a group stands for, and in which direction, class by class. */
  predicate Stands(group: string, id: string, e: Edge) {
    || (group == "build" && e == Edge(id, BuildDependencyOf, PROJECT))
    || (group == "runtime" && e == Edge(PROJECT, DependsOn, id))
    || (OfContainer(group) && e == Edge(API, DependsOn, id))
    || (group == "optional:dev" && e == Edge(id, DevDependencyOf, PROJECT))
    || (StartsWith(group, "optional:") && group != "optional:dev"
        && e == Edge(id, if IsPart(group[9..], "test") then TestDependencyOf else OptionalDependencyOf, PROJECT))
  }

  lemma StartsAlike(s: string, prefix: string)
    requires StartsWith(s, prefix) && prefix != []
    ensures s != [] && s[0] == prefix[0]
  {
    assert s[..|prefix|][0] == prefix[0];
  }

  lemma GroupStands(group: string, id: string, e: Edge)
    ensures GroupEdge(id, group) == Some(e) <==> Stands(group, id, e)
  {
    if StartsWith(group, "optional:") {
      assert |"optional:"| == 9 && "optional:"[0] == 'o';
      StartsAlike(group, "optional:");
      HasPartFrom(group[9..], [], "test");
      assert [] + group[9..] == group[9..];
    }
    if OfContainer(group) {
      assert "container:"[0] == 'c';
      StartsAlike(group, "container:");
    }
    assert "build"[0] == 'b' && "runtime"[0] == 'r';
  }

  type Identity = (string, Option<string>)

  /** `_spdx_dependency_version` with the name: a container dependency must be pinned to an
      exact version and carry a hash. */
  function IdentityOf(t: Texts, d: Dependency): Option<Identity> {
    if OfContainer(d.group) then
      if t.exact(d.requirement).None? || d.archiveHash.None? || !t.wellFormedHash(d.archiveHash.value) then None
      else Some((d.name, t.exact(d.requirement)))
    else Some((d.name, if d.installed == Some("") then None else d.installed))
  }

  function IdOf(t: Texts, i: Identity): string {
    t.packageId(i.0, i.1)
  }

  // ------------------------------------------------------------------ what is emitted

  predicate Usable(t: Texts, d: Dependency) {
    IdentityOf(t, d).Some? && GroupEdge("", d.group).Some?
  }

  function Rows(t: Texts, ds: set<Dependency>, i: Identity): set<Dependency> {
    set d | d in ds && IdentityOf(t, d) == Some(i)
  }

  function Identities(t: Texts, ds: set<Dependency>): set<Identity> {
    set d | d in ds && IdentityOf(t, d).Some? :: IdentityOf(t, d).value
  }

  /** The package of one identity, with all it was declared by. */
  function PackageOf(t: Texts, ds: set<Dependency>, i: Identity): Package {
    var rows := Rows(t, ds, i);
    Package(IdOf(t, i), LIBRARY, i.1,
            set d | d in rows && d.archiveHash.Some? && d.archiveHash != Some("") :: d.archiveHash.value,
            set d | d in rows :: d.group,
            set d | d in rows :: d.requirement)
  }

  const Roots: set<Edge> := {Edge(DOCUMENT, Describes, PROJECT), Edge(DOCUMENT, Describes, API)}

  /** Every declared dependency yields one edge, whatever its group. */
  function Emitted(t: Texts, ds: set<Dependency>): set<Edge> {
    Roots + set d | d in ds && Usable(t, d) :: GroupEdge(IdOf(t, IdentityOf(t, d).value), d.group).value
  }

  lemma EdgeOfGroup(id: string, other: string, group: string)
    ensures GroupEdge(id, group).Some? <==> GroupEdge(other, group).Some?
  {
  }

  /** The emitted graph holds the two roots and, for each declared dependency, the one edge
      its group stands for, and nothing else. */
  lemma EmittedStands(t: Texts, ds: set<Dependency>, e: Edge)
    ensures e in Emitted(t, ds) <==>
              e in Roots || exists d :: d in ds && IdentityOf(t, d).Some? && Stands(d.group, IdOf(t, IdentityOf(t, d).value), e)
  {
    if e in Emitted(t, ds) && e !in Roots {
      var d :| d in ds && Usable(t, d) && GroupEdge(IdOf(t, IdentityOf(t, d).value), d.group).value == e;
      var id := IdOf(t, IdentityOf(t, d).value);
      EdgeOfGroup("", id, d.group);
      GroupStands(d.group, id, e);
    }
    if d :| d in ds && IdentityOf(t, d).Some? && Stands(d.group, IdOf(t, IdentityOf(t, d).value), e) {
      var id := IdOf(t, IdentityOf(t, d).value);
      GroupStands(d.group, id, e);
      EdgeOfGroup("", id, d.group);
      assert Usable(t, d) && GroupEdge(id, d.group).value == e;
    }
  }

  predicate DistinctIds(packages: seq<Package>) {
    forall j, k :: 0 <= j < k < |packages| ==> packages[j].id != packages[k].id
  }

  // --------------------------------------------------------------------- the validator

  predicate Sealed(t: Texts, p: Package) {
    (exists g :: g in p.groups && OfContainer(g)) ==>
      p.checksums != {} && p.version.Some? && exists r :: r in p.requirements && t.exact(r) == p.version
  }

  function EdgesOf(p: Package): set<Edge> {
    set g | g in p.groups && GroupEdge(p.id, g).Some? :: GroupEdge(p.id, g).value
  }

  predicate Mapped(p: Package) {
    forall g :: g in p.groups ==> GroupEdge(p.id, g).Some?
  }

  /** What the validator recomputes from the packages alone. */
  function Expected(packages: seq<Package>): set<Edge> {
    if packages == [] then Roots
    else Expected(packages[..|packages| - 1])
         + if packages[|packages| - 1].purpose.LIBRARY? then EdgesOf(packages[|packages| - 1]) else {}
  }

  predicate Known(packages: seq<Package>, id: string) {
    id == DOCUMENT || exists k :: 0 <= k < |packages| && packages[k].id == id
  }

  /** The relationship part of `validate_spdx_sbom`. */
  predicate Valid(t: Texts, doc: Document) {
    && DistinctIds(doc.packages)
    && (forall e :: e in doc.relationships ==> Known(doc.packages, e.source) && Known(doc.packages, e.target))
    && (forall k :: 0 <= k < |doc.packages| && doc.packages[k].purpose.LIBRARY? ==> Sealed(t, doc.packages[k]) && Mapped(doc.packages[k]))
    && doc.relationships == Expected(doc.packages)
  }

  /** Its loop over the packages. */
  method ExpectedEdges(t: Texts, packages: seq<Package>) returns (edges: Option<set<Edge>>)
    ensures edges.Some? <==>
              forall k :: 0 <= k < |packages| && packages[k].purpose.LIBRARY? ==> Sealed(t, packages[k]) && Mapped(packages[k])
    ensures edges.Some? ==> edges.value == Expected(packages)
  {
    var found := Roots;
    var k := 0;
    while k < |packages|
      invariant 0 <= k <= |packages| && found == Expected(packages[..k])
      invariant forall j :: 0 <= j < k && packages[j].purpose.LIBRARY? ==> Sealed(t, packages[j]) && Mapped(packages[j])
    {
      var p := packages[k];
      assert packages[..k + 1][..k] == packages[..k];
      if p.purpose.LIBRARY? {
        if !Sealed(t, p) || !Mapped(p) {
          return None;
        }
        found := found + EdgesOf(p);
      }
      k := k + 1;
    }
    assert packages[..k] == packages;
    edges := Some(found);
  }

  method Validate(t: Texts, doc: Document) returns (ok: bool)
    ensures ok <==> Valid(t, doc)
  {
    var expected := ExpectedEdges(t, doc.packages);
    ok := DistinctIds(doc.packages)
          && (forall e :: e in doc.relationships ==> Known(doc.packages, e.source) && Known(doc.packages, e.target))
          && expected.Some? && doc.relationships == expected.value;
  }

  lemma {:induction false} ExpectedMember(packages: seq<Package>, e: Edge)
    ensures e in Expected(packages) <==>
              e in Roots || exists k :: 0 <= k < |packages| && packages[k].purpose.LIBRARY? && e in EdgesOf(packages[k])
  {
    if packages != [] {
      var n := |packages| - 1;
      ExpectedMember(packages[..n], e);
      if k :| 0 <= k < |packages| && packages[k].purpose.LIBRARY? && e in EdgesOf(packages[k]) {
        assert k == n || packages[..n][k] == packages[k];
      }
      if k :| 0 <= k < n && packages[..n][k].purpose.LIBRARY? && e in EdgesOf(packages[..n][k]) {
        assert packages[k] == packages[..n][k];
      }
    }
  }

  // ----------------------------------------------------------------------- the builder

  const Application: Package := Package(PROJECT, APPLICATION, None, {}, {}, {})
  const ApiContainer: Package := Package(API, CONTAINER, None, {}, {}, {})

  function PackagesFor(t: Texts, ds: set<Dependency>, order: seq<Identity>): seq<Package> {
    [Application, ApiContainer] + seq(|order|, k requires 0 <= k < |order| => PackageOf(t, ds, order[k]))
  }

  /** `order` lists every identity once. */
  predicate Lists(t: Texts, ds: set<Dependency>, order: seq<Identity>) {
    (forall i :: i in order ==> i in Identities(t, ds)) && (forall i :: i in Identities(t, ds) ==> i in order)
  }

  predicate AllUsable(t: Texts, ds: set<Dependency>) {
    forall d :: d in ds ==> Usable(t, d)
  }

  /** The edges a package stands for are those of its rows. */
  lemma PackageEdges(t: Texts, ds: set<Dependency>, i: Identity, e: Edge)
    requires AllUsable(t, ds)
    ensures e in EdgesOf(PackageOf(t, ds, i)) <==>
              exists d :: d in ds && IdentityOf(t, d) == Some(i) && GroupEdge(IdOf(t, i), d.group) == Some(e)
  {
    var p := PackageOf(t, ds, i);
    if e in EdgesOf(p) {
      var g :| g in p.groups && GroupEdge(p.id, g) == Some(e);
      var d :| d in Rows(t, ds, i) && d.group == g;
      assert d in ds && IdentityOf(t, d) == Some(i) && GroupEdge(IdOf(t, i), d.group) == Some(e);
    }
    if d :| d in ds && IdentityOf(t, d) == Some(i) && GroupEdge(IdOf(t, i), d.group) == Some(e) {
      assert d in Rows(t, ds, i) && d.group in p.groups;
    }
  }

  lemma InOrder(t: Texts, ds: set<Dependency>, order: seq<Identity>, d: Dependency) returns (k: nat)
    requires Lists(t, ds, order) && d in ds && IdentityOf(t, d).Some?
    ensures k < |order| && IdentityOf(t, d) == Some(order[k])
  {
    var i := IdentityOf(t, d).value;
    assert i in Identities(t, ds) && i in order;
    k :| 0 <= k < |order| && order[k] == i;
  }

  lemma EmittedIsListed(t: Texts, ds: set<Dependency>, order: seq<Identity>, e: Edge)
    requires AllUsable(t, ds) && Lists(t, ds, order) && e in Emitted(t, ds) && e !in Roots
    ensures var packages := PackagesFor(t, ds, order);
            exists k :: 0 <= k < |packages| && packages[k].purpose.LIBRARY? && e in EdgesOf(packages[k])
  {
    var packages := PackagesFor(t, ds, order);
    var d :| d in ds && Usable(t, d) && GroupEdge(IdOf(t, IdentityOf(t, d).value), d.group).value == e;
    var i := IdentityOf(t, d).value;
    EdgeOfGroup("", IdOf(t, i), d.group);
    var k := InOrder(t, ds, order, d);
    PackageEdges(t, ds, i, e);
    assert packages[k + 2] == PackageOf(t, ds, i) && packages[k + 2].purpose.LIBRARY?;
  }

  lemma ListedIsEmitted(t: Texts, ds: set<Dependency>, i: Identity, e: Edge)
    requires AllUsable(t, ds) && e in EdgesOf(PackageOf(t, ds, i))
    ensures e in Emitted(t, ds)
  {
    PackageEdges(t, ds, i, e);
    var d :| d in ds && IdentityOf(t, d) == Some(i) && GroupEdge(IdOf(t, i), d.group) == Some(e);
    assert Usable(t, d);
  }

  lemma EmittedToExpected(t: Texts, ds: set<Dependency>, order: seq<Identity>, e: Edge)
    requires AllUsable(t, ds) && Lists(t, ds, order) && e in Emitted(t, ds)
    ensures e in Expected(PackagesFor(t, ds, order))
  {
    ExpectedMember(PackagesFor(t, ds, order), e);
    if e !in Roots {
      EmittedIsListed(t, ds, order, e);
    }
  }

  lemma ExpectedToEmitted(t: Texts, ds: set<Dependency>, order: seq<Identity>, e: Edge)
    requires AllUsable(t, ds) && Lists(t, ds, order) && e in Expected(PackagesFor(t, ds, order))
    ensures e in Emitted(t, ds)
  {
    var packages := PackagesFor(t, ds, order);
    ExpectedMember(packages, e);
    if e !in Roots {
      var k :| 0 <= k < |packages| && packages[k].purpose.LIBRARY? && e in EdgesOf(packages[k]);
      ListedIsEmitted(t, ds, order[k - 2], e);
    }
  }

  /** The graph emitted from the dependencies is the graph recomputed from the packages,
      for every set of dependencies, even if package ids collide. */
  lemma EmittedIsExpected(t: Texts, ds: set<Dependency>, order: seq<Identity>)
    requires AllUsable(t, ds) && Lists(t, ds, order)
    ensures Expected(PackagesFor(t, ds, order)) == Emitted(t, ds)
  {
    forall e | e in Emitted(t, ds) ensures e in Expected(PackagesFor(t, ds, order)) {
      EmittedToExpected(t, ds, order, e);
    }
    forall e | e in Expected(PackagesFor(t, ds, order)) ensures e in Emitted(t, ds) {
      ExpectedToEmitted(t, ds, order, e);
    }
  }

  /** Every package built from usable dependencies passes the sealed-version check, and each
      of its groups has a mapping. */
  lemma BuiltPackagesAreSealed(t: Texts, ds: set<Dependency>, i: Identity)
    requires AllUsable(t, ds) && !t.wellFormedHash("")
    ensures Sealed(t, PackageOf(t, ds, i)) && Mapped(PackageOf(t, ds, i))
  {
    var p := PackageOf(t, ds, i);
    forall g | g in p.groups ensures GroupEdge(p.id, g).Some? {
      var d :| d in Rows(t, ds, i) && d.group == g;
      assert Usable(t, d);
      EdgeOfGroup("", p.id, g);
    }
    if g :| g in p.groups && OfContainer(g) {
      var d :| d in Rows(t, ds, i) && d.group == g;
      assert Usable(t, d);
      assert d.archiveHash.value in p.checksums;
      assert d.requirement in p.requirements && t.exact(d.requirement) == p.version;
    }
  }

  lemma BuiltReferencesAreKnown(t: Texts, ds: set<Dependency>, order: seq<Identity>, e: Edge)
    requires AllUsable(t, ds) && Lists(t, ds, order) && e in Emitted(t, ds)
    ensures Known(PackagesFor(t, ds, order), e.source) && Known(PackagesFor(t, ds, order), e.target)
  {
    var packages := PackagesFor(t, ds, order);
    assert packages[0].id == PROJECT && packages[1].id == API;
    if e !in Roots {
      var d :| d in ds && Usable(t, d) && GroupEdge(IdOf(t, IdentityOf(t, d).value), d.group).value == e;
      var i := IdentityOf(t, d).value;
      EdgeOfGroup("", IdOf(t, i), d.group);
      var k := InOrder(t, ds, order, d);
      assert packages[k + 2].id == IdOf(t, i);
    }
  }

  /** The built document validates exactly when the package ids are distinct (they carry a
      truncated hash, so that is a condition). */
  lemma BuiltIsValidIff(t: Texts, ds: set<Dependency>, order: seq<Identity>)
    requires AllUsable(t, ds) && Lists(t, ds, order) && !t.wellFormedHash("")
    ensures var packages := PackagesFor(t, ds, order);
            Valid(t, Document(packages, Emitted(t, ds))) <==> DistinctIds(packages)
  {
    var packages := PackagesFor(t, ds, order);
    EmittedIsExpected(t, ds, order);
    forall e | e in Emitted(t, ds) ensures Known(packages, e.source) && Known(packages, e.target) {
      BuiltReferencesAreKnown(t, ds, order, e);
    }
    forall k | 0 <= k < |packages| && packages[k].purpose.LIBRARY? ensures Sealed(t, packages[k]) && Mapped(packages[k]) {
      assert packages[k] == PackageOf(t, ds, order[k - 2]);
      BuiltPackagesAreSealed(t, ds, order[k - 2]);
    }
  }

  /** `build_spdx_sbom`: group the dependencies by identity, make one package of each group,
      emit the edges, and validate; None stands for any of its ValueErrors. */
  method Build(t: Texts, dependencies: seq<Dependency>) returns (doc: Option<Document>, order: seq<Identity>)
    requires !t.wellFormedHash("")
    ensures var ds := set d | d in dependencies;
            && (AllUsable(t, ds) ==> Lists(t, ds, order))
            && (doc.Some? <==> AllUsable(t, ds) && DistinctIds(PackagesFor(t, ds, order)))
            && (doc.Some? ==> doc.value == Document(PackagesFor(t, ds, order), Emitted(t, ds)))
  {
    ghost var all := set d | d in dependencies;
    var ds: set<Dependency>, edges := {}, Roots;
    var listed: seq<Identity> := [];
    var k := 0;
    while k < |dependencies|
      invariant 0 <= k <= |dependencies| && ds == set d | d in dependencies[..k]
      invariant Lists(t, ds, listed) && AllUsable(t, ds) && edges == Emitted(t, ds)
    {
      var d := dependencies[k];
      assert dependencies[..k + 1] == dependencies[..k] + [d];
      if !Usable(t, d) {
        assert !AllUsable(t, all) by {
          assert d in all && !Usable(t, d);
        }
        return None, [];
      }
      var i := IdentityOf(t, d).value;
      EdgeOfGroup("", IdOf(t, i), d.group);
      edges := edges + {GroupEdge(IdOf(t, i), d.group).value};
      OneMore(t, ds, listed, d);
      listed := if i in listed then listed else listed + [i];
      ds := ds + {d};
      k := k + 1;
    }
    assert dependencies[..k] == dependencies;
    order := listed;
    var built := Document(PackagesFor(t, ds, listed), edges);
    BuiltIsValidIff(t, ds, listed);
    var ok := Validate(t, built);
    doc := if ok then Some(built) else None;
  }

  lemma OneMore(t: Texts, ds: set<Dependency>, listed: seq<Identity>, d: Dependency)
    requires Lists(t, ds, listed) && AllUsable(t, ds) && Usable(t, d)
    ensures var i := IdentityOf(t, d).value;
            && Lists(t, ds + {d}, if i in listed then listed else listed + [i])
            && AllUsable(t, ds + {d})
            && GroupEdge(IdOf(t, i), d.group).Some?
            && Emitted(t, ds + {d}) == Emitted(t, ds) + {GroupEdge(IdOf(t, i), d.group).value}
  {
    var i := IdentityOf(t, d).value;
    EdgeOfGroup("", IdOf(t, i), d.group);
    assert Identities(t, ds + {d}) == Identities(t, ds) + {i};
  }
}
