/** Publishing a set of release files: stage under temporary names, link without
    overwriting, drop the temporaries, and on an exception undo what was done.  Others use
    the same directory, and may act on it before any step of the publisher's. */
module FileSetPublication {
  import opened Common

  type Name = string
  type Inode = nat

  /** `mine` marks the files this call created. */
  datatype File = File(mine: bool, content: Bytes)
  datatype Dir = Dir(entries: map<Name, Inode>, files: map<Inode, File>)

  datatype Temp = Temp(name: Name, inode: Inode)
  datatype Artifact = Artifact(name: Name, content: Bytes)

  /** A removal by the publisher: of whose file, and what had happened to it before. */
  datatype Removal = Removal(name: Name, temporary: bool, foreign: bool, nameTaken: bool, inodeReused: bool)

  /** The directory and the file held open, with a record of what has happened: the inodes
      we were given, those of them a file of others took later, the names that show a file
      of others, our own removals, and what others made: the entries they have not removed
      themselves, and the bytes they wrote. */
  datatype World = World(
    dir: Dir,
    open: Option<Inode>,
    ours: set<Inode>,
    reused: set<Inode>,
    takenOver: set<Name>,
    removals: seq<Removal>,
    others: map<Name, Inode>,
    contents: map<Inode, Bytes>)

  predicate IsOpen(open: Option<Inode>, i: Inode) {
    open.Some? && open.value == i
  }

  // ---------------------------------------------------------------- what can happen

  /** A file lives while some name links it or it is held open. */
  function Collected(entries: map<Name, Inode>, files: map<Inode, File>, open: Option<Inode>): Dir {
    Dir(entries, map i | i in files && (i in entries.Values || IsOpen(open, i)) :: files[i])
  }

  /** `mkstemp`: a new file under a new name, held open. */
  predicate CanCreate(w: World, t: Temp) {
    w.open.None? && t.name !in w.dir.entries && t.inode !in w.dir.files
  }

  function CreateTemp(w: World, t: Temp): World
    requires CanCreate(w, t)
  {
    w.(dir := Dir(w.dir.entries[t.name := t.inode], w.dir.files[t.inode := File(true, [])]), open := Some(t.inode),
       ours := w.ours + {t.inode}, reused := w.reused - {t.inode}, takenOver := w.takenOver - {t.name})
  }

  /** The file held open is written, or was not, and closed. */
  function CloseTemp(w: World, content: Option<Bytes>): World {
    var files := if content.Some? && w.open.Some? && w.open.value in w.dir.files
                 then w.dir.files[w.open.value := w.dir.files[w.open.value].(content := content.value)] else w.dir.files;
    w.(dir := Collected(w.dir.entries, files, None), open := None)
  }

  /** `os.link`, which never replaces an entry. */
  predicate CanLink(w: World, temp: Name, target: Name) {
    temp in w.dir.entries && target !in w.dir.entries
  }

  function LinkTarget(w: World, temp: Name, target: Name): World
    requires CanLink(w, temp, target)
  {
    w.(dir := w.dir.(entries := w.dir.entries[target := w.dir.entries[temp]]),
       takenOver := if temp in w.takenOver then w.takenOver + {target} else w.takenOver - {target})
  }

  function Unlinked(w: World, name: Name, temporary: bool): World
    requires name in w.dir.entries && w.dir.entries[name] in w.dir.files
  {
    var i := w.dir.entries[name];
    w.(dir := Collected(w.dir.entries - {name}, w.dir.files, w.open),
       takenOver := w.takenOver - {name}, others := w.others - {name},
       removals := w.removals + [Removal(name, temporary, !w.dir.files[i].mine, name in w.takenOver, i in w.reused)])
  }

  /** A target is unlinked only while it shows the inode it was linked to. */
  predicate Identical(w: World, name: Name, inode: Inode) {
    name in w.dir.entries && w.dir.entries[name] == inode
  }

  /** What others may do: a rename is a link and a removal, after a removal of the name it
      replaces. */
  datatype Foreign =
    | Remove(name: Name)
    | CreateFile(name: Name, inode: Inode, content: Bytes)
    | LinkName(name: Name, existing: Name)
    | Rewrite(name: Name, content: Bytes)

  function Interfere(w: World, op: Foreign): World {
    var (entries, files) := (w.dir.entries, w.dir.files);
    match op
    case Remove(name) =>
      w.(dir := Collected(entries - {name}, files, w.open), takenOver := w.takenOver - {name}, others := w.others - {name})
    case CreateFile(name, inode, content) =>
      if name in entries || inode in files then w
      else w.(dir := Dir(entries[name := inode], files[inode := File(false, content)]), takenOver := w.takenOver + {name},
              others := w.others[name := inode], contents := w.contents[inode := content],
              reused := if inode in w.ours then w.reused + {inode} else w.reused)
    case LinkName(name, existing) =>
      if name in entries || existing !in entries then w
      else w.(dir := w.dir.(entries := entries[name := entries[existing]]), others := w.others[name := entries[existing]],
              takenOver := if existing in w.takenOver then w.takenOver + {name} else w.takenOver - {name})
    case Rewrite(name, content) =>
      if name !in entries || entries[name] !in files then w
      else w.(dir := w.dir.(files := files[entries[name] := files[entries[name]].(content := content)]),
              contents := w.contents[entries[name] := content])
  }

  function InterfereAll(w: World, ops: seq<Foreign>): World
    decreases |ops|
  {
    if ops == [] then w else Interfere(InterfereAll(w, ops[..|ops| - 1]), ops[|ops| - 1])
  }

  // ------------------------------------------------------------ what the record means

  /** A removal took a file of others exactly when others had put it under that name; at a
      target, exactly when it had taken the inode of ours that stood there before. */
  predicate Exact(r: Removal) {
    (r.foreign <==> r.nameTaken) && (!r.temporary ==> (r.foreign <==> r.inodeReused))
  }

  ghost predicate Tracked(w: World) {
    && (forall n :: n in w.dir.entries ==> w.dir.entries[n] in w.dir.files)
    && (forall i :: i in w.dir.files ==> i in w.dir.entries.Values || IsOpen(w.open, i))
    && (w.open.Some? ==> w.open.value in w.dir.files && w.dir.files[w.open.value].mine)
  }

  ghost predicate Attributed(w: World) {
    && (forall i :: i in w.dir.files ==> (w.dir.files[i].mine <==> i in w.ours && i !in w.reused))
    && (forall n :: n in w.dir.entries && w.dir.entries[n] in w.dir.files ==>
          (w.dir.files[w.dir.entries[n]].mine <==> n !in w.takenOver))
  }

  /** What others made is as they left it: each entry they did not remove, and we did not
      record removing, shows what they linked there, and their files hold their bytes. */
  ghost predicate Spared(w: World) {
    && (forall n :: n in w.others ==> Identical(w, n, w.others[n]))
    && (forall i :: i in w.dir.files && !w.dir.files[i].mine ==> i in w.contents && w.dir.files[i].content == w.contents[i])
  }

  ghost predicate Sound(w: World) {
    Tracked(w) && Attributed(w) && Spared(w) && (forall k :: 0 <= k < |w.removals| ==> Exact(w.removals[k]))
  }

  /** The directory as found, all of it others' files. */
  ghost predicate Given(d: Dir) {
    d.files.Keys == d.entries.Values && (forall i :: i in d.files ==> !d.files[i].mine)
  }

  function Opening(d: Dir): World {
    World(d, None, {}, {}, d.entries.Keys, [], d.entries, map i | i in d.files :: d.files[i].content)
  }

  lemma OpeningSound(d: Dir)
    requires Given(d)
    ensures Sound(Opening(d))
  {
    forall n | n in d.entries ensures d.entries[n] in d.files {
      assert d.entries[n] in d.entries.Values;
    }
  }

  lemma ValuesWith(entries: map<Name, Inode>, name: Name, inode: Inode)
    requires name !in entries
    ensures entries[name := inode].Values == entries.Values + {inode}
  {
    forall v | v in entries.Values ensures v in entries[name := inode].Values {
      var n :| n in entries && entries[n] == v;
      assert n in entries[name := inode] && entries[name := inode][n] == v;
    }
    assert name in entries[name := inode] && entries[name := inode][name] == inode;
  }

  lemma RemovalTracked(w: World, name: Name)
    requires Tracked(w)
    ensures Tracked(w.(dir := Collected(w.dir.entries - {name}, w.dir.files, w.open)))
  {
    var entries := w.dir.entries - {name};
    forall n | n in entries ensures entries[n] in entries.Values && entries[n] in w.dir.files {
      assert w.dir.entries[n] == entries[n];
    }
  }

  lemma CreateSound(w: World, t: Temp)
    requires Sound(w) && CanCreate(w, t)
    ensures Sound(CreateTemp(w, t))
  {
    ValuesWith(w.dir.entries, t.name, t.inode);
    var w' := CreateTemp(w, t);
    assert forall n :: n in w.dir.entries ==> w'.dir.entries[n] == w.dir.entries[n];
  }

  lemma CloseSound(w: World, content: Option<Bytes>)
    requires Sound(w)
    ensures Sound(CloseTemp(w, content))
  {
    forall n | n in w.dir.entries ensures w.dir.entries[n] in w.dir.entries.Values {
    }
  }

  lemma LinkSound(w: World, temp: Name, target: Name)
    requires Sound(w) && CanLink(w, temp, target)
    ensures Sound(LinkTarget(w, temp, target))
  {
    ValuesWith(w.dir.entries, target, w.dir.entries[temp]);
  }

  lemma UnlinkTempSound(w: World, name: Name)
    requires Sound(w) && name in w.dir.entries
    ensures Sound(Unlinked(w, name, true))
  {
    RemovalTracked(w, name);
  }

  lemma UnlinkTargetSound(w: World, name: Name, inode: Inode)
    requires Sound(w) && Identical(w, name, inode) && inode in w.ours
    ensures Sound(Unlinked(w, name, false))
  {
    RemovalTracked(w, name);
  }

  lemma RemoveSound(w: World, name: Name)
    requires Sound(w)
    ensures Sound(Interfere(w, Remove(name)))
  {
    RemovalTracked(w, name);
  }

  lemma CreateFileSound(w: World, name: Name, inode: Inode, content: Bytes)
    requires Sound(w)
    ensures Sound(Interfere(w, CreateFile(name, inode, content)))
  {
    if name !in w.dir.entries {
      ValuesWith(w.dir.entries, name, inode);
    }
  }

  lemma LinkNameSound(w: World, name: Name, existing: Name)
    requires Sound(w)
    ensures Sound(Interfere(w, LinkName(name, existing)))
  {
    if name !in w.dir.entries && existing in w.dir.entries {
      ValuesWith(w.dir.entries, name, w.dir.entries[existing]);
    }
  }

  lemma RewriteSound(w: World, name: Name, content: Bytes)
    requires Sound(w)
    ensures Sound(Interfere(w, Rewrite(name, content)))
  {
  }

  lemma InterfereSound(w: World, op: Foreign)
    requires Sound(w)
    ensures Sound(Interfere(w, op))
  {
    match op
    case Remove(name) => RemoveSound(w, name);
    case CreateFile(name, inode, content) => CreateFileSound(w, name, inode, content);
    case LinkName(name, existing) => LinkNameSound(w, name, existing);
    case Rewrite(name, content) => RewriteSound(w, name, content);
  }

  /** Whatever others do between two steps, the record stays right, and what only we
      change stays as it is. */
  lemma {:induction false} InterferenceSound(w: World, ops: seq<Foreign>)
    requires Sound(w)
    ensures var w' := InterfereAll(w, ops);
            Sound(w') && w'.open == w.open && w'.ours == w.ours && w'.removals == w.removals
    decreases |ops|
  {
    if ops != [] {
      InterferenceSound(w, ops[..|ops| - 1]);
      InterfereSound(InterfereAll(w, ops[..|ops| - 1]), ops[|ops| - 1]);
    }
  }

  // ---------------------------------------------- when the identity check can be fooled

  /** Others leave the names in `kept` in place. */
  predicate LeaveInPlace(ops: seq<Foreign>, kept: set<Name>) {
    forall k :: 0 <= k < |ops| ==> !(ops[k].Remove? && ops[k].name in kept)
  }

  /** A file of others stands at the target under the inode of ours, so that the check
      passes and the rollback removes it. */
  predicate Fooled(w: World, target: Name, inode: Inode) {
    Identical(w, target, inode) && inode in w.dir.files && !w.dir.files[inode].mine
  }

  ghost predicate Pinned(w: World, kept: set<Name>, inode: Inode) {
    IsOpen(w.open, inode) || exists n :: n in kept && Identical(w, n, inode)
  }

  lemma InterferenceKeepsPin(w: World, op: Foreign, kept: set<Name>, inode: Inode)
    requires Sound(w) && Pinned(w, kept, inode) && inode !in w.reused && LeaveInPlace([op], kept)
    ensures Pinned(Interfere(w, op), kept, inode) && inode !in Interfere(w, op).reused
  {
    var w' := Interfere(w, op);
    assert !([op][0].Remove? && [op][0].name in kept);
    if !IsOpen(w.open, inode) {
      var n :| n in kept && Identical(w, n, inode);
      assert n in kept && Identical(w', n, inode);
    }
  }

  lemma {:induction false} PinHolds(w: World, ops: seq<Foreign>, kept: set<Name>, inode: Inode)
    requires Sound(w) && Pinned(w, kept, inode) && inode !in w.reused && LeaveInPlace(ops, kept)
    ensures var w' := InterfereAll(w, ops); Pinned(w', kept, inode) && inode !in w'.reused
    decreases |ops|
  {
    if ops != [] {
      var n := |ops| - 1;
      PinHolds(w, ops[..n], kept, inode);
      InterferenceSound(w, ops[..n]);
      assert [ops[n]][0] == ops[n];
      InterferenceKeepsPin(InterfereAll(w, ops[..n]), ops[n], kept, inode);
    }
  }

  lemma OneMore(w: World, ops: seq<Foreign>, op: Foreign)
    ensures InterfereAll(w, ops + [op]) == Interfere(InterfereAll(w, ops), op)
  {
    assert (ops + [op])[..|ops|] == ops;
  }

  /** The removals of all of `names`. */
  lemma {:induction false} RemovingAll(w: World, names: set<Name>) returns (ops: seq<Foreign>)
    requires Sound(w)
    ensures forall k :: 0 <= k < |ops| ==> ops[k].Remove? && ops[k].name in names
    ensures var w' := InterfereAll(w, ops);
            Sound(w') && w'.dir.entries == w.dir.entries - names && w'.ours == w.ours && w'.open == w.open
    decreases |names|
  {
    if names == {} {
      ops := [];
      assert w.dir.entries - names == w.dir.entries;
    } else {
      var n :| n in names;
      var rest := RemovingAll(w, names - {n});
      ops := rest + [Remove(n)];
      OneMore(w, rest, Remove(n));
      InterferenceSound(w, ops);
      assert w.dir.entries - (names - {n}) - {n} == w.dir.entries - names;
    }
  }

  lemma NoLink(w: World, inode: Inode)
    requires Tracked(w) && !IsOpen(w.open, inode)
    requires forall n :: n in w.dir.entries ==> w.dir.entries[n] != inode
    ensures inode !in w.dir.files
  {
  }

  /** Nothing pins the inode: others free it and put a file of theirs under the target. */
  lemma UnpinnedCanBeFooled(w: World, kept: set<Name>, target: Name, inode: Inode) returns (ops: seq<Foreign>)
    requires Sound(w) && inode in w.ours && target !in kept && !Pinned(w, kept, inode)
    ensures LeaveInPlace(ops, kept) && Fooled(InterfereAll(w, ops), target, inode)
  {
    var names := (set n | n in w.dir.entries && w.dir.entries[n] == inode) + {target};
    forall n | n in names ensures n !in kept {
      assert n in w.dir.entries && w.dir.entries[n] == inode ==> Identical(w, n, inode);
    }
    var removals := RemovingAll(w, names);
    var w1 := InterfereAll(w, removals);
    NoLink(w1, inode);
    ops := removals + [CreateFile(target, inode, [])];
    OneMore(w, removals, CreateFile(target, inode, []));
  }

  /** Exactly when the check can be fooled: others who leave the names in `kept` alone can
      get a file of theirs removed through the target if and only if none of those names
      links our file and it is not held open. */
  lemma FooledIffUnpinned(w: World, kept: set<Name>, target: Name, inode: Inode)
    requires Sound(w) && inode in w.ours && inode !in w.reused && target !in kept
    ensures (exists ops :: LeaveInPlace(ops, kept) && Fooled(InterfereAll(w, ops), target, inode))
            <==> !Pinned(w, kept, inode)
  {
    if Pinned(w, kept, inode) {
      forall ops | LeaveInPlace(ops, kept) ensures !Fooled(InterfereAll(w, ops), target, inode) {
        PinHolds(w, ops, kept, inode);
        InterferenceSound(w, ops);
      }
    } else {
      var ops := UnpinnedCanBeFooled(w, kept, target, inode);
    }
  }

  predicate ShowsForeign(w: World, name: Name) {
    name in w.dir.entries && w.dir.entries[name] in w.dir.files && !w.dir.files[w.dir.entries[name]].mine
  }

  lemma {:induction false} UntouchedStays(w: World, ops: seq<Foreign>, kept: set<Name>, name: Name)
    requires Sound(w) && name in kept && name in w.dir.entries && name !in w.takenOver && LeaveInPlace(ops, kept)
    ensures var w' := InterfereAll(w, ops); name in w'.dir.entries && name !in w'.takenOver
    decreases |ops|
  {
    if ops != [] {
      var n := |ops| - 1;
      UntouchedStays(w, ops[..n], kept, name);
      assert !(ops[n].Remove? && ops[n].name in kept);
    }
  }

  /** A temporary of ours is unlinked by name alone: the unlink can take a file of others
      if and only if they do not leave that name in place. */
  lemma TemporaryTakenIff(w: World, kept: set<Name>, name: Name, spare: Inode)
    requires Sound(w) && name in w.dir.entries && !ShowsForeign(w, name)
    requires spare !in w.dir.files
    ensures (exists ops :: LeaveInPlace(ops, kept) && ShowsForeign(InterfereAll(w, ops), name)) <==> name !in kept
  {
    if name in kept {
      forall ops | LeaveInPlace(ops, kept) ensures !ShowsForeign(InterfereAll(w, ops), name) {
        UntouchedStays(w, ops, kept, name);
        InterferenceSound(w, ops);
      }
    } else {
      var removal, creation := Remove(name), CreateFile(name, spare, []);
      OneMore(w, [], removal);
      OneMore(w, [removal], creation);
      assert [] + [removal] == [removal];
      var ops := [removal] + [creation];
      assert LeaveInPlace(ops, kept) && ShowsForeign(InterfereAll(w, ops), name);
    }
  }

  // ------------------------------------------------------- the directory left to itself

  /** Named so that distinctness is used only where it is asked for. */
  predicate Differ(a: Name, b: Name) {
    a != b
  }

  predicate DifferentInodes(a: Temp, b: Temp) {
    a.inode != b.inode
  }

  /** What `mkstemp` hands out: unused names and inodes, all different. */
  ghost predicate Unused(d: Dir, temps: seq<Temp>, artifacts: seq<Artifact>) {
    && |temps| == |artifacts|
    && (forall k :: 0 <= k < |temps| ==> temps[k].name !in d.entries && temps[k].inode !in d.files)
    && (forall j, k :: 0 <= j < |temps| && 0 <= k < |temps| && j != k ==>
          Differ(temps[j].name, temps[k].name) && DifferentInodes(temps[j], temps[k]))
    && (forall j, k :: 0 <= j < |temps| && 0 <= k < |artifacts| ==> Differ(temps[j].name, artifacts[k].name))
  }

  /** How the call ended.  An interrupt is an exception the handlers do not name. */
  datatype Outcome = Published | Refused | RolledBack | RollbackFailed | Interrupted

  /** Which step raises, if any, counted from 0; whether as an interrupt; and which call of
      the rollback raises, if any. */
  datatype Fault = Fault(at: Option<nat>, interrupt: bool, rollbackAt: Option<nat>)

  predicate UniqueNames(artifacts: seq<Artifact>) {
    forall j, k :: 0 <= j < |artifacts| && 0 <= k < |artifacts| && j != k ==> Differ(artifacts[j].name, artifacts[k].name)
  }

  predicate NoneExists(d: Dir, artifacts: seq<Artifact>) {
    forall k :: 0 <= k < |artifacts| ==> artifacts[k].name !in d.entries
  }

  /** Our own entries: `temporary` and `linked` are the names, of temps j <= k < staged and
      of the first b targets. */
  datatype Mine = Mine(entries: map<Name, Inode>, temporary: set<Name>, linked: set<Name>)

  function Names(artifacts: seq<Artifact>): set<Name> {
    set a | a in artifacts :: a.name
  }

  ghost predicate Lists(m: Mine, temps: seq<Temp>, artifacts: seq<Artifact>, j: nat, staged: nat, b: nat)
    requires |temps| == |artifacts| && j <= staged <= |temps| && b <= staged
  {
    && m.entries.Keys == m.temporary + m.linked && m.temporary !! m.linked
    && ListsTemps(m, temps, j, staged) && ListsTargets(m, temps, artifacts, b)
    && m.linked <= Names(artifacts) && m.temporary !! Names(artifacts)
  }

  ghost predicate ListsTemps(m: Mine, temps: seq<Temp>, j: nat, staged: nat)
    requires j <= staged <= |temps| && m.temporary <= m.entries.Keys
  {
    && |m.temporary| == staged - j
    && (forall k :: j <= k < staged ==> temps[k].name in m.temporary && m.entries[temps[k].name] == temps[k].inode)
    && (forall k :: 0 <= k < |temps| && !(j <= k < staged) ==> temps[k].name !in m.temporary)
  }

  ghost predicate ListsTargets(m: Mine, temps: seq<Temp>, artifacts: seq<Artifact>, b: nat)
    requires |temps| == |artifacts| && b <= |temps| && m.linked <= m.entries.Keys
  {
    && |m.linked| == b
    && (forall k :: 0 <= k < b ==> artifacts[k].name in m.linked && m.entries[artifacts[k].name] == temps[k].inode)
    && (forall k :: b <= k < |temps| ==> artifacts[k].name !in m.linked)
  }

  /** No entry of ours shows an inode still to be handed out. */
  ghost predicate Unspent(m: Mine, temps: seq<Temp>, staged: nat) {
    forall k :: staged <= k < |temps| ==> temps[k].inode !in m.entries.Values
  }

  /** Setting of a call: the directory as found, and what will be handed out. */
  ghost predicate Setting(d: Dir, temps: seq<Temp>, artifacts: seq<Artifact>) {
    Given(d) && Unused(d, temps, artifacts) && UniqueNames(artifacts) && NoneExists(d, artifacts)
  }

  /** Nobody else does anything. */
  ghost predicate Quiet(env: nat -> seq<Foreign>) {
    forall k: nat :: env(k) == []
  }

  function WithTemp(m: Mine, t: Temp): Mine {
    Mine(m.entries[t.name := t.inode], m.temporary + {t.name}, m.linked)
  }

  function WithTarget(m: Mine, name: Name, inode: Inode): Mine {
    Mine(m.entries[name := inode], m.temporary, m.linked + {name})
  }

  function WithoutTemp(m: Mine, name: Name): Mine {
    Mine(m.entries - {name}, m.temporary - {name}, m.linked)
  }

  function WithoutTarget(m: Mine, name: Name): Mine {
    Mine(m.entries - {name}, m.temporary, m.linked - {name})
  }

  lemma AddTemp(temps: seq<Temp>, artifacts: seq<Artifact>, m: Mine, staged: nat)
    requires |temps| == |artifacts| && staged < |temps| && Lists(m, temps, artifacts, 0, staged, 0)
    requires temps[staged].name !in Names(artifacts)
    requires forall k :: 0 <= k < |temps| && k != staged ==> temps[k].name != temps[staged].name
    ensures Lists(WithTemp(m, temps[staged]), temps, artifacts, 0, staged + 1, 0)
  {
    assert m.linked == {};
  }

  lemma AddTarget(temps: seq<Temp>, artifacts: seq<Artifact>, m: Mine, b: nat)
    requires |temps| == |artifacts| && b < |temps| && Lists(m, temps, artifacts, 0, |temps|, b)
    requires artifacts[b].name in Names(artifacts)
    requires forall k :: 0 <= k < |temps| && k != b ==> artifacts[k].name != artifacts[b].name
    ensures Lists(WithTarget(m, artifacts[b].name, temps[b].inode), temps, artifacts, 0, |temps|, b + 1)
  {
  }

  lemma DropTempOnly(temps: seq<Temp>, m: Mine, j: nat, staged: nat)
    requires j < staged <= |temps| && m.temporary <= m.entries.Keys && ListsTemps(m, temps, j, staged)
    requires forall k :: j < k < |temps| ==> temps[k].name != temps[j].name
    ensures ListsTemps(WithoutTemp(m, temps[j].name), temps, j + 1, staged)
  {
  }

  lemma DropTargetOnly(temps: seq<Temp>, artifacts: seq<Artifact>, m: Mine, b: nat)
    requires |temps| == |artifacts| && 0 < b <= |temps| && m.linked <= m.entries.Keys && ListsTargets(m, temps, artifacts, b)
    requires forall k :: 0 <= k < b - 1 ==> artifacts[k].name != artifacts[b - 1].name
    ensures ListsTargets(WithoutTarget(m, artifacts[b - 1].name), temps, artifacts, b - 1)
  {
  }

  lemma DropTemp(temps: seq<Temp>, artifacts: seq<Artifact>, m: Mine, j: nat, staged: nat, b: nat)
    requires |temps| == |artifacts| && j < staged <= |temps| && b <= staged && Lists(m, temps, artifacts, j, staged, b)
    requires forall k :: j < k < |temps| ==> temps[k].name != temps[j].name
    ensures Lists(WithoutTemp(m, temps[j].name), temps, artifacts, j + 1, staged, b)
  {
    var m' := WithoutTemp(m, temps[j].name);
    assert m'.entries.Keys == m'.temporary + m'.linked;
    DropTempOnly(temps, m, j, staged);
  }

  lemma DropTarget(temps: seq<Temp>, artifacts: seq<Artifact>, m: Mine, j: nat, staged: nat, b: nat)
    requires |temps| == |artifacts| && j <= staged <= |temps| && 0 < b <= staged && Lists(m, temps, artifacts, j, staged, b)
    requires forall k :: 0 <= k < b - 1 ==> artifacts[k].name != artifacts[b - 1].name
    ensures Lists(WithoutTarget(m, artifacts[b - 1].name), temps, artifacts, j, staged, b - 1)
  {
    var m' := WithoutTarget(m, artifacts[b - 1].name);
    assert m'.entries.Keys == m'.temporary + m'.linked;
    DropTargetOnly(temps, artifacts, m, b);
  }

  /** Between two steps: the directory is as found, plus our entries. */
  ghost predicate Between(d: Dir, now: Dir, temps: seq<Temp>, artifacts: seq<Artifact>, m: Mine, j: nat, staged: nat, b: nat) {
    && |temps| == |artifacts| && j <= staged <= |temps| && b <= staged && Lists(m, temps, artifacts, j, staged, b)
    && Unspent(m, temps, staged) && Shows(d, now, m.entries)
  }

  /** The directory as found plus the entries `mine`, no file of others rewritten. */
  ghost predicate Shows(d: Dir, now: Dir, mine: map<Name, Inode>) {
    && mine.Keys !! d.entries.Keys && now.entries == d.entries + mine
    && (forall i :: i in d.files ==> i in now.files && now.files[i] == d.files[i])
  }

  /** The first `written` temporaries hold their artifacts' bytes. */
  ghost predicate Written(now: Dir, temps: seq<Temp>, artifacts: seq<Artifact>, written: nat) {
    && written <= |temps| && |temps| == |artifacts|
    && (forall k :: 0 <= k < written ==>
          temps[k].inode in now.files && now.files[temps[k].inode].content == artifacts[k].content)
  }

  lemma Starts(d: Dir, temps: seq<Temp>, artifacts: seq<Artifact>)
    requires Setting(d, temps, artifacts)
    ensures Between(d, d, temps, artifacts, Mine(map[], {}, {}), 0, 0, 0)
  {
    assert d.entries + map[] == d.entries;
  }

  lemma NotATarget(d: Dir, temps: seq<Temp>, artifacts: seq<Artifact>, k: nat)
    requires Setting(d, temps, artifacts) && k < |temps|
    ensures temps[k].name !in Names(artifacts)
    ensures forall i :: 0 <= i < |temps| && i != k ==> temps[i].name != temps[k].name && temps[i].inode != temps[k].inode
  {
    forall a | a in artifacts ensures a.name != temps[k].name {
      var i :| 0 <= i < |artifacts| && artifacts[i] == a;
      assert Differ(temps[k].name, artifacts[i].name);
    }
    forall i | 0 <= i < |temps| && i != k ensures temps[i].name != temps[k].name && temps[i].inode != temps[k].inode {
      assert Differ(temps[i].name, temps[k].name) && DifferentInodes(temps[i], temps[k]);
    }
  }

  lemma NotInUse(d: Dir, w: World, mine: map<Name, Inode>, inode: Inode)
    requires Given(d) && Shows(d, w.dir, mine) && Tracked(w) && w.open.None?
    requires inode !in d.files && inode !in mine.Values
    ensures inode !in w.dir.files
  {
    forall n | n in w.dir.entries ensures w.dir.entries[n] != inode {
      if n in mine {
        assert mine[n] in mine.Values;
      } else {
        assert d.entries[n] in d.entries.Values;
      }
    }
  }

  /** The next name and inode are free. */
  lemma FreeInode(d: Dir, w: World, temps: seq<Temp>, artifacts: seq<Artifact>, m: Mine, k: nat)
    requires Setting(d, temps, artifacts) && Between(d, w.dir, temps, artifacts, m, 0, k, 0) && k < |temps| && Tracked(w) && w.open.None?
    ensures CanCreate(w, temps[k])
  {
    assert temps[k].name !in m.temporary && m.linked == {};
    NotInUse(d, w, m.entries, temps[k].inode);
  }

  lemma UnspentWith(m: Mine, m': Mine, temps: seq<Temp>, staged: nat, staged': nat, inode: Inode)
    requires Unspent(m, temps, staged) && staged <= staged'
    requires m'.entries.Values <= m.entries.Values + {inode}
    requires forall k :: staged' <= k < |temps| ==> temps[k].inode != inode
    ensures Unspent(m', temps, staged')
  {
  }

  lemma ShowsWith(d: Dir, now: Dir, mine: map<Name, Inode>, name: Name, inode: Inode, files: map<Inode, File>)
    requires Shows(d, now, mine) && name !in d.entries
    requires forall i :: i in d.files ==> i in files && files[i] == d.files[i]
    ensures Shows(d, Dir(now.entries[name := inode], files), mine[name := inode])
  {
    assert d.entries + mine[name := inode] == (d.entries + mine)[name := inode];
  }

  /** What others have is linked by names we do not touch, so it is never collected. */
  lemma ShowsCollected(d: Dir, now: Dir, mine: map<Name, Inode>, entries: map<Name, Inode>, mine': map<Name, Inode>,
                       open: Option<Inode>)
    requires Given(d) && Shows(d, now, mine) && mine'.Keys !! d.entries.Keys && entries == d.entries + mine'
    ensures Shows(d, Collected(entries, now.files, open), mine')
  {
    forall i | i in d.files ensures i in entries.Values {
      var n :| n in d.entries && d.entries[n] == i;
      assert n in entries && entries[n] == i;
    }
  }

  lemma ShowsWithout(d: Dir, now: Dir, mine: map<Name, Inode>, name: Name, open: Option<Inode>)
    requires Given(d) && Shows(d, now, mine) && name in mine
    ensures Shows(d, Collected(now.entries - {name}, now.files, open), mine - {name})
  {
    assert d.entries + mine - {name} == d.entries + (mine - {name});
    ShowsCollected(d, now, mine, now.entries - {name}, mine - {name}, open);
  }

  lemma ValuesWithin(entries: map<Name, Inode>, name: Name, inode: Inode)
    ensures entries[name := inode].Values <= entries.Values + {inode}
    ensures (entries - {name}).Values <= entries.Values
  {
  }

  lemma CreateStep(d: Dir, w: World, temps: seq<Temp>, artifacts: seq<Artifact>, m: Mine, k: nat)
    requires Setting(d, temps, artifacts) && Between(d, w.dir, temps, artifacts, m, 0, k, 0) && k < |temps| && CanCreate(w, temps[k])
    ensures Between(d, CreateTemp(w, temps[k]).dir, temps, artifacts, WithTemp(m, temps[k]), 0, k + 1, 0)
  {
    NotATarget(d, temps, artifacts, k);
    AddTemp(temps, artifacts, m, k);
    ValuesWithin(m.entries, temps[k].name, temps[k].inode);
    UnspentWith(m, WithTemp(m, temps[k]), temps, k, k + 1, temps[k].inode);
    ShowsWith(d, w.dir, m.entries, temps[k].name, temps[k].inode, w.dir.files[temps[k].inode := File(true, [])]);
  }

  lemma CloseStep(d: Dir, w: World, temps: seq<Temp>, artifacts: seq<Artifact>, m: Mine, k: nat, content: Option<Bytes>)
    requires Setting(d, temps, artifacts) && Between(d, w.dir, temps, artifacts, m, 0, k + 1, 0) && k < |temps| && IsOpen(w.open, temps[k].inode)
    ensures Between(d, CloseTemp(w, content).dir, temps, artifacts, m, 0, k + 1, 0)
  {
    var files := if content.Some? && temps[k].inode in w.dir.files
                 then w.dir.files[temps[k].inode := w.dir.files[temps[k].inode].(content := content.value)] else w.dir.files;
    assert Shows(d, Dir(w.dir.entries, files), m.entries);
    ShowsCollected(d, Dir(w.dir.entries, files), m.entries, w.dir.entries, m.entries, None);
  }

  lemma StagedLinked(d: Dir, now: Dir, temps: seq<Temp>, artifacts: seq<Artifact>, m: Mine, k: nat)
    requires Setting(d, temps, artifacts) && Between(d, now, temps, artifacts, m, 0, k, 0)
    ensures forall i :: 0 <= i < k ==> temps[i].inode in now.entries.Values
  {
    forall i | 0 <= i < k ensures temps[i].inode in now.entries.Values {
      assert temps[i].name in m.temporary;
      assert now.entries[temps[i].name] == temps[i].inode;
    }
  }

  /** The temporary just written holds its bytes, and so do those before it. */
  lemma WriteStep(w: World, temps: seq<Temp>, artifacts: seq<Artifact>, k: nat)
    requires |temps| == |artifacts| && k < |temps| && IsOpen(w.open, temps[k].inode) && Tracked(w)
    requires forall i :: 0 <= i < k + 1 ==> temps[i].inode in w.dir.entries.Values
    requires forall i :: 0 <= i < k ==> temps[i].inode != temps[k].inode
    requires Written(w.dir, temps, artifacts, k)
    ensures Written(CloseTemp(w, Some(artifacts[k].content)).dir, temps, artifacts, k + 1)
  {
  }

  /** A step keeps what was written while a name of ours still shows it. */
  lemma WrittenKept(d: Dir, before: Dir, now: Dir, temps: seq<Temp>, artifacts: seq<Artifact>, m: Mine, j: nat)
    requires Setting(d, temps, artifacts) && Between(d, now, temps, artifacts, m, j, |temps|, |temps|)
    requires Written(before, temps, artifacts, |temps|)
    requires forall i :: i in before.files && i in now.entries.Values ==> i in now.files && now.files[i] == before.files[i]
    ensures Written(now, temps, artifacts, |temps|)
  {
    forall k | 0 <= k < |temps| ensures temps[k].inode in now.entries.Values {
      assert artifacts[k].name in m.linked;
      assert now.entries[artifacts[k].name] == temps[k].inode;
    }
  }

  lemma TargetFacts(d: Dir, temps: seq<Temp>, artifacts: seq<Artifact>, b: nat)
    requires Setting(d, temps, artifacts) && b < |temps|
    ensures artifacts[b].name in Names(artifacts) && artifacts[b].name !in d.entries
    ensures forall i :: 0 <= i < |temps| && i != b ==> artifacts[i].name != artifacts[b].name
  {
    assert artifacts[b] in artifacts;
    forall i | 0 <= i < |temps| && i != b ensures artifacts[i].name != artifacts[b].name {
      assert Differ(artifacts[i].name, artifacts[b].name);
    }
  }

  lemma LinkStep(d: Dir, w: World, temps: seq<Temp>, artifacts: seq<Artifact>, m: Mine, b: nat)
    requires Setting(d, temps, artifacts) && Between(d, w.dir, temps, artifacts, m, 0, |temps|, b) && b < |temps|
    ensures CanLink(w, temps[b].name, artifacts[b].name)
    ensures Between(d, LinkTarget(w, temps[b].name, artifacts[b].name).dir, temps, artifacts,
                    WithTarget(m, artifacts[b].name, temps[b].inode), 0, |temps|, b + 1)
    ensures Identical(LinkTarget(w, temps[b].name, artifacts[b].name), artifacts[b].name, temps[b].inode)
  {
    TargetFacts(d, temps, artifacts, b);
    assert artifacts[b].name !in m.linked && artifacts[b].name !in m.temporary;
    assert temps[b].name in m.temporary && w.dir.entries[temps[b].name] == temps[b].inode;
    AddTarget(temps, artifacts, m, b);
    ShowsWith(d, w.dir, m.entries, artifacts[b].name, temps[b].inode, w.dir.files);
  }

  lemma DropTempStep(d: Dir, w: World, temps: seq<Temp>, artifacts: seq<Artifact>, m: Mine, j: nat, staged: nat, b: nat)
    requires Setting(d, temps, artifacts) && Between(d, w.dir, temps, artifacts, m, j, staged, b) && j < staged && Tracked(w)
    ensures temps[j].name in w.dir.entries
    ensures Between(d, Unlinked(w, temps[j].name, true).dir, temps, artifacts, WithoutTemp(m, temps[j].name), j + 1, staged, b)
  {
    NotATarget(d, temps, artifacts, j);
    DropTemp(temps, artifacts, m, j, staged, b);
    assert temps[j].name in m.temporary;
    ValuesWithin(m.entries, temps[j].name, 0);
    ShowsWithout(d, w.dir, m.entries, temps[j].name, w.open);
  }

  lemma GoneTemp(d: Dir, now: Dir, temps: seq<Temp>, artifacts: seq<Artifact>, m: Mine, j: nat, staged: nat, b: nat, k: nat)
    requires Setting(d, temps, artifacts) && Between(d, now, temps, artifacts, m, j, staged, b) && k < j
    ensures temps[k].name !in now.entries
  {
    NotATarget(d, temps, artifacts, k);
  }

  lemma DropTargetStep(d: Dir, w: World, temps: seq<Temp>, artifacts: seq<Artifact>, m: Mine, j: nat, staged: nat, b: nat)
    requires Setting(d, temps, artifacts) && Between(d, w.dir, temps, artifacts, m, j, staged, b) && b > 0 && Tracked(w)
    ensures Identical(w, artifacts[b - 1].name, temps[b - 1].inode)
    ensures Between(d, Unlinked(w, artifacts[b - 1].name, false).dir, temps, artifacts,
                    WithoutTarget(m, artifacts[b - 1].name), j, staged, b - 1)
  {
    TargetFacts(d, temps, artifacts, b - 1);
    DropTarget(temps, artifacts, m, j, staged, b);
    assert artifacts[b - 1].name in m.linked && artifacts[b - 1].name in m.entries;
    ValuesWithin(m.entries, artifacts[b - 1].name, 0);
    ShowsWithout(d, w.dir, m.entries, artifacts[b - 1].name, w.open);
  }

  lemma NothingLeft(d: Dir, now: Dir, temps: seq<Temp>, artifacts: seq<Artifact>, m: Mine, staged: nat)
    requires Setting(d, temps, artifacts) && Between(d, now, temps, artifacts, m, staged, staged, 0)
    ensures now.entries == d.entries
  {
    assert m.entries.Keys == {};
    assert m.entries == map[];
  }

  /** Every temporary name listed is one handed out. */
  lemma {:induction false} ListedTemporary(temps: seq<Temp>, m: Mine, j: nat, staged: nat, n: Name)
    requires j <= staged <= |temps| && m.temporary <= m.entries.Keys && ListsTemps(m, temps, j, staged) && n in m.temporary
    requires forall i, k :: 0 <= i < k < |temps| ==> Differ(temps[i].name, temps[k].name)
    ensures exists i :: j <= i < staged && temps[i].name == n
    decreases staged - j
  {
    if j < staged && temps[j].name != n {
      forall k | j < k < |temps| ensures temps[k].name != temps[j].name {
        assert Differ(temps[j].name, temps[k].name);
      }
      DropTempOnly(temps, m, j, staged);
      ListedTemporary(temps, WithoutTemp(m, temps[j].name), j + 1, staged, n);
    }
  }

  /** Who links the inode of a target we linked: the target, and its temporary until that
      is dropped. */
  lemma LinksOf(d: Dir, w: World, temps: seq<Temp>, artifacts: seq<Artifact>, m: Mine, j: nat, staged: nat, b: nat, k: nat,
                n: Name)
    requires Setting(d, temps, artifacts) && Between(d, w.dir, temps, artifacts, m, j, staged, b) && k < b
    requires n in w.dir.entries && w.dir.entries[n] == temps[k].inode
    ensures n == artifacts[k].name || (n == temps[k].name && j <= k)
  {
    NotATarget(d, temps, artifacts, k);
    assert temps[k].inode !in d.entries.Values;
    if n in m.temporary {
      ListedTemporary(temps, m, j, staged, n);
    } else if n in m.linked {
      var i :| 0 <= i < |artifacts| && artifacts[i].name == n;
    }
  }

  lemma TemporaryPins(d: Dir, w: World, temps: seq<Temp>, artifacts: seq<Artifact>, m: Mine, j: nat, staged: nat, b: nat,
                      k: nat)
    requires Setting(d, temps, artifacts) && Between(d, w.dir, temps, artifacts, m, j, staged, b) && j <= k < b
    ensures temps[k].name != artifacts[k].name && Identical(w, temps[k].name, temps[k].inode)
  {
    NotATarget(d, temps, artifacts, k);
    assert temps[k].name in m.temporary && artifacts[k] in artifacts;
  }

  /** The order of the rollback decides.  Others who touch nothing but a target we linked
      can get a file of theirs removed through it if and only if its temporary has been
      dropped; and the rollback drops every temporary before it looks at a target. */
  lemma FooledIffTemporaryDropped(d: Dir, w: World, temps: seq<Temp>, artifacts: seq<Artifact>, m: Mine,
                                  j: nat, staged: nat, b: nat, k: nat)
    requires Setting(d, temps, artifacts) && Between(d, w.dir, temps, artifacts, m, j, staged, b) && Sound(w) && w.open.None? && k < b
    requires temps[k].inode in w.ours && temps[k].inode !in w.reused
    ensures var others := w.dir.entries.Keys - {artifacts[k].name};
            (exists ops :: LeaveInPlace(ops, others) && Fooled(InterfereAll(w, ops), artifacts[k].name, temps[k].inode))
            <==> k < j
  {
    var others := w.dir.entries.Keys - {artifacts[k].name};
    FooledIffUnpinned(w, others, artifacts[k].name, temps[k].inode);
    if j <= k {
      TemporaryPins(d, w, temps, artifacts, m, j, staged, b, k);
      assert temps[k].name in others;
    } else {
      forall n | n in others ensures !Identical(w, n, temps[k].inode) {
        if Identical(w, n, temps[k].inode) {
          LinksOf(d, w, temps, artifacts, m, j, staged, b, k, n);
        }
      }
    }
  }

  // --------------------------------------------------------------------- the methods

  /** Between two steps, whatever others do: the record is right and the inodes of the
      first `staged` temporaries were given to us. */
  ghost predicate Ready(w: World, temps: seq<Temp>, staged: nat) {
    staged <= |temps| && Sound(w) && (forall k :: 0 <= k < staged ==> temps[k].inode in w.ours)
  }

  predicate Is(step: Option<nat>, n: nat) {
    step.Some? && step.value == n
  }

  /** The step of one phase that raises, counted from the phase's first. */
  function Within(at: Option<nat>, start: nat, length: nat): (step: Option<nat>)
    ensures step.Some? <==> at.Some? && start <= at.value < start + length
    ensures step.Some? ==> step.value < length
  {
    if at.Some? && start <= at.value < start + length then Some(at.value - start) else None
  }

  /** In a calm call nobody interferes, and the names and inodes handed out are unused. */
  ghost predicate Undisturbed(env: nat -> seq<Foreign>, d: Dir, temps: seq<Temp>, artifacts: seq<Artifact>, calm: bool) {
    calm ==> Quiet(env) && Setting(d, temps, artifacts)
  }

  /** Between two steps, for short. */
  ghost predicate Held(env: nat -> seq<Foreign>, d: Dir, w: World, temps: seq<Temp>, artifacts: seq<Artifact>, m: Mine,
                       j: nat, staged: nat, b: nat, calm: bool)
  {
    && |temps| == |artifacts| && b <= staged && Ready(w, temps, staged)
    && (calm ==> Between(d, w.dir, temps, artifacts, m, j, staged, b))
  }

  lemma HeldSurvives(env: nat -> seq<Foreign>, d: Dir, w: World, temps: seq<Temp>, artifacts: seq<Artifact>, m: Mine,
                     j: nat, staged: nat, b: nat, calm: bool, s: nat)
    requires Undisturbed(env, d, temps, artifacts, calm)
    requires Held(env, d, w, temps, artifacts, m, j, staged, b, calm)
    ensures Held(env, d, InterfereAll(w, env(s)), temps, artifacts, m, j, staged, b, calm)
    ensures calm ==> InterfereAll(w, env(s)) == w
  {
    InterferenceSound(w, env(s));
  }

  lemma Linking(env: nat -> seq<Foreign>, d: Dir, w: World, temps: seq<Temp>, artifacts: seq<Artifact>, m: Mine, k: nat,
                calm: bool)
    requires Undisturbed(env, d, temps, artifacts, calm)
    requires Held(env, d, w, temps, artifacts, m, 0, |temps|, k, calm) && k < |temps|
    ensures calm ==> CanLink(w, temps[k].name, artifacts[k].name)
    ensures CanLink(w, temps[k].name, artifacts[k].name) ==>
              var w' := LinkTarget(w, temps[k].name, artifacts[k].name);
              && Held(env, d, w', temps, artifacts, WithTarget(m, artifacts[k].name, temps[k].inode), 0, |temps|, k + 1, calm)
              && (calm ==> Identical(w', artifacts[k].name, temps[k].inode))
  {
    if calm {
      LinkStep(d, w, temps, artifacts, m, k);
    }
    if CanLink(w, temps[k].name, artifacts[k].name) {
      LinkSound(w, temps[k].name, artifacts[k].name);
    }
  }

  lemma Dropping(env: nat -> seq<Foreign>, d: Dir, w: World, temps: seq<Temp>, artifacts: seq<Artifact>, m: Mine,
                 j: nat, staged: nat, b: nat, calm: bool)
    requires Undisturbed(env, d, temps, artifacts, calm)
    requires Held(env, d, w, temps, artifacts, m, j, staged, b, calm) && j < staged
    ensures calm ==> temps[j].name in w.dir.entries
    ensures temps[j].name in w.dir.entries ==>
              Held(env, d, Unlinked(w, temps[j].name, true), temps, artifacts, WithoutTemp(m, temps[j].name),
                   j + 1, staged, b, calm)
  {
    if calm {
      DropTempStep(d, w, temps, artifacts, m, j, staged, b);
    }
    if temps[j].name in w.dir.entries {
      UnlinkTempSound(w, temps[j].name);
    }
  }

  lemma DroppingKeepsWritten(env: nat -> seq<Foreign>, d: Dir, w: World, temps: seq<Temp>, artifacts: seq<Artifact>,
                             m: Mine, j: nat)
    requires Undisturbed(env, d, temps, artifacts, true)
    requires Held(env, d, w, temps, artifacts, m, j, |temps|, |temps|, true) && j < |temps|
    requires Written(w.dir, temps, artifacts, |temps|)
    ensures temps[j].name in w.dir.entries && Written(Unlinked(w, temps[j].name, true).dir, temps, artifacts, |temps|)
  {
    DropTempStep(d, w, temps, artifacts, m, j, |temps|, |temps|);
    WrittenKept(d, w.dir, Unlinked(w, temps[j].name, true).dir, temps, artifacts, WithoutTemp(m, temps[j].name), j + 1);
  }

  /** Phase three after j temporaries. */
  ghost predicate Dropped(env: nat -> seq<Foreign>, d: Dir, w: World, temps: seq<Temp>, artifacts: seq<Artifact>,
                          m: Mine, j: nat, calm: bool)
  {
    && Held(env, d, w, temps, artifacts, m, j, |temps|, |temps|, calm)
    && (calm ==> Written(w.dir, temps, artifacts, |temps|))
  }

  /** One turn of the rollback's first loop. */
  lemma Clearing(env: nat -> seq<Foreign>, d: Dir, w: World, temps: seq<Temp>, artifacts: seq<Artifact>, m: Mine,
                 dropped: nat, k: nat, staged: nat, b: nat, calm: bool)
    requires Undisturbed(env, d, temps, artifacts, calm)
    requires k < staged && Held(env, d, w, temps, artifacts, m, Larger(k, dropped), staged, b, calm)
    ensures var found := temps[k].name in w.dir.entries;
            Held(env, d, if found then Unlinked(w, temps[k].name, true) else w, temps, artifacts,
                 if found then WithoutTemp(m, temps[k].name) else m, Larger(k + 1, dropped), staged, b, calm)
  {
    if calm && k < dropped {
      GoneTemp(d, w.dir, temps, artifacts, m, dropped, staged, b, k);
    } else if calm {
      Dropping(env, d, w, temps, artifacts, m, k, staged, b, calm);
    } else if temps[k].name in w.dir.entries {
      UnlinkTempSound(w, temps[k].name);
    }
  }

  function Larger(a: nat, b: nat): nat {
    if a > b then a else b
  }

  lemma Removing(env: nat -> seq<Foreign>, d: Dir, w: World, temps: seq<Temp>, artifacts: seq<Artifact>, m: Mine,
                 staged: nat, b: nat, calm: bool)
    requires Undisturbed(env, d, temps, artifacts, calm)
    requires b > 0 && Held(env, d, w, temps, artifacts, m, staged, staged, b, calm)
    ensures calm ==> Identical(w, artifacts[b - 1].name, temps[b - 1].inode)
    ensures if Identical(w, artifacts[b - 1].name, temps[b - 1].inode) then
              Held(env, d, Unlinked(w, artifacts[b - 1].name, false), temps, artifacts, WithoutTarget(m, artifacts[b - 1].name),
                   staged, staged, b - 1, calm)
            else Held(env, d, w, temps, artifacts, m, staged, staged, b - 1, calm)
  {
    if calm {
      DropTargetStep(d, w, temps, artifacts, m, staged, staged, b);
    }
    if Identical(w, artifacts[b - 1].name, temps[b - 1].inode) {
      UnlinkTargetSound(w, artifacts[b - 1].name, temps[b - 1].inode);
    }
  }

  /** Phase one before temporary k. */
  ghost predicate Staging(env: nat -> seq<Foreign>, d: Dir, w: World, temps: seq<Temp>, artifacts: seq<Artifact>,
                          m: Mine, k: nat, calm: bool)
  {
    && |temps| == |artifacts| && k <= |temps| && Ready(w, temps, k) && w.open.None?
    && (calm ==> Between(d, w.dir, temps, artifacts, m, 0, k, 0) && Written(w.dir, temps, artifacts, k))
  }

  /** Between its creation and its writing. */
  ghost predicate Opened(env: nat -> seq<Foreign>, d: Dir, w: World, temps: seq<Temp>, artifacts: seq<Artifact>,
                         m: Mine, k: nat, calm: bool)
  {
    && |temps| == |artifacts| && k < |temps| && Ready(w, temps, k + 1) && IsOpen(w.open, temps[k].inode)
    && (calm ==> Between(d, w.dir, temps, artifacts, m, 0, k + 1, 0) && Written(w.dir, temps, artifacts, k))
  }

  lemma StagingSurvives(env: nat -> seq<Foreign>, d: Dir, w: World, temps: seq<Temp>, artifacts: seq<Artifact>, m: Mine, k: nat,
                        calm: bool, s: nat)
    requires Undisturbed(env, d, temps, artifacts, calm)
    ensures Staging(env, d, w, temps, artifacts, m, k, calm) ==>
              Staging(env, d, InterfereAll(w, env(s)), temps, artifacts, m, k, calm)
    ensures Opened(env, d, w, temps, artifacts, m, k, calm) ==>
              Opened(env, d, InterfereAll(w, env(s)), temps, artifacts, m, k, calm)
  {
    if Sound(w) {
      InterferenceSound(w, env(s));
    }
  }

  lemma CreatingReady(w: World, temps: seq<Temp>, k: nat)
    requires Ready(w, temps, k) && k < |temps|
    ensures CanCreate(w, temps[k]) ==> Ready(CreateTemp(w, temps[k]), temps, k + 1)
  {
    if CanCreate(w, temps[k]) {
      CreateSound(w, temps[k]);
    }
  }

  lemma CreateKeepsWritten(w: World, temps: seq<Temp>, artifacts: seq<Artifact>, k: nat)
    requires k < |temps| && CanCreate(w, temps[k]) && Written(w.dir, temps, artifacts, k)
    ensures Written(CreateTemp(w, temps[k]).dir, temps, artifacts, k)
  {
  }

  lemma Creating(env: nat -> seq<Foreign>, d: Dir, w: World, temps: seq<Temp>, artifacts: seq<Artifact>, m: Mine, k: nat,
                 calm: bool)
    requires Undisturbed(env, d, temps, artifacts, calm)
    requires Staging(env, d, w, temps, artifacts, m, k, calm) && k < |temps|
    ensures calm ==> CanCreate(w, temps[k])
    ensures CanCreate(w, temps[k]) ==>
              Opened(env, d, CreateTemp(w, temps[k]), temps, artifacts, WithTemp(m, temps[k]), k, calm)
  {
    if calm {
      FreeInode(d, w, temps, artifacts, m, k);
      CreateStep(d, w, temps, artifacts, m, k);
      CreateKeepsWritten(w, temps, artifacts, k);
    }
    CreatingReady(w, temps, k);
  }

  lemma Closing(env: nat -> seq<Foreign>, d: Dir, w: World, temps: seq<Temp>, artifacts: seq<Artifact>, m: Mine, k: nat,
                calm: bool, content: Option<Bytes>)
    requires Undisturbed(env, d, temps, artifacts, calm)
    requires Opened(env, d, w, temps, artifacts, m, k, calm)
    ensures var w' := CloseTemp(w, content);
            && Ready(w', temps, k + 1) && w'.open.None?
            && (calm ==> Between(d, w'.dir, temps, artifacts, m, 0, k + 1, 0))
            && (content == Some(artifacts[k].content) ==> Staging(env, d, w', temps, artifacts, m, k + 1, calm))
  {
    CloseSound(w, content);
    if calm {
      CloseStep(d, w, temps, artifacts, m, k, content);
      NotATarget(d, temps, artifacts, k);
      StagedLinked(d, w.dir, temps, artifacts, m, k + 1);
      WriteStep(w, temps, artifacts, k);
    }
  }

  /** One temporary: step 0 creates it, step 1 writes and closes it. */
  method StageOne(ghost d: Dir, found: World, temps: seq<Temp>, artifacts: seq<Artifact>, k: nat, at: Option<nat>,
                  env: nat -> seq<Foreign>, base: nat, ghost calm: bool, ghost mine: Mine)
    returns (now: World, staged: nat, raised: bool, ghost m: Mine)
    requires Undisturbed(env, d, temps, artifacts, calm)
    requires Staging(env, d, found, temps, artifacts, mine, k, calm) && k < |temps|
    ensures k <= staged <= k + 1 && Ready(now, temps, staged) && now.open.None?
    ensures calm ==> (raised <==> at.Some? && at.value < 2) && staged == (if raised && at.value == 0 then k else k + 1)
    ensures calm ==> Between(d, now.dir, temps, artifacts, m, 0, staged, 0)
    ensures !raised ==> staged == k + 1 && Staging(env, d, now, temps, artifacts, m, k + 1, calm)
  {
    now, staged, m := InterfereAll(found, env(base)), k, mine;
    StagingSurvives(env, d, found, temps, artifacts, m, k, calm, base);
    Creating(env, d, now, temps, artifacts, m, k, calm);
    if Is(at, 0) || !CanCreate(now, temps[k]) {
      raised := true;
      return;
    }
    now, staged, m := CreateTemp(now, temps[k]), k + 1, WithTemp(m, temps[k]);
    StagingSurvives(env, d, now, temps, artifacts, m, k, calm, base + 1);
    now := InterfereAll(now, env(base + 1));
    raised := Is(at, 1);
    var content := if raised then None else Some(artifacts[k].content);
    Closing(env, d, now, temps, artifacts, m, k, calm, content);
    now := CloseTemp(now, content);
  }

  /** Phase one: steps 2k and 2k + 1 are those of temporary k. */
  method StageAll(ghost d: Dir, found: World, temps: seq<Temp>, artifacts: seq<Artifact>, at: Option<nat>,
                  env: nat -> seq<Foreign>, base: nat, ghost calm: bool)
    returns (now: World, staged: nat, raised: bool, ghost m: Mine)
    requires |temps| == |artifacts| && Ready(found, temps, 0) && found.open.None?
    requires calm ==> Quiet(env) && Setting(d, temps, artifacts) && found.dir == d
    ensures staged <= |temps| && Ready(now, temps, staged) && now.open.None? && (!raised ==> staged == |temps|)
    ensures calm ==> (raised <==> at.Some? && at.value < 2 * |temps|) && (raised ==> (staged == 0 <==> at.value == 0))
    ensures calm ==> Between(d, now.dir, temps, artifacts, m, 0, staged, 0)
    ensures calm && !raised ==> Written(now.dir, temps, artifacts, staged)
  {
    if calm {
      Starts(d, temps, artifacts);
    }
    now, staged, m, raised := found, 0, Mine(map[], {}, {}), false;
    while staged < |temps|
      invariant staged <= |temps| && Staging(env, d, now, temps, artifacts, m, staged, calm) && !raised
      invariant calm && at.Some? && at.value < 2 * |temps| ==> 2 * staged <= at.value
    {
      now, staged, raised, m := StageOne(d, now, temps, artifacts, staged, Within(at, 2 * staged, 2),
                                         env, base + 2 * staged, calm, m);
      if raised {
        return;
      }
    }
  }

  /** One target: step 0 links it, never over an existing name; step 1 checks what it
      shows. */
  method LinkOne(ghost d: Dir, found: World, temps: seq<Temp>, artifacts: seq<Artifact>, k: nat, at: Option<nat>,
                 env: nat -> seq<Foreign>, base: nat, ghost calm: bool, ghost mine: Mine)
    returns (now: World, b: nat, raised: bool, ghost m: Mine)
    requires Undisturbed(env, d, temps, artifacts, calm)
    requires Held(env, d, found, temps, artifacts, mine, 0, |temps|, k, calm) && k < |temps|
    ensures k <= b <= k + 1 && (!raised ==> b == k + 1)
    ensures Held(env, d, now, temps, artifacts, m, 0, |temps|, b, calm)
    ensures calm ==> (raised <==> at.Some? && at.value < 2) && now.dir.files == found.dir.files
  {
    now, b, m := InterfereAll(found, env(base)), k, mine;
    HeldSurvives(env, d, found, temps, artifacts, m, 0, |temps|, k, calm, base);
    Linking(env, d, now, temps, artifacts, m, k, calm);
    if Is(at, 0) || !CanLink(now, temps[k].name, artifacts[k].name) {
      raised := true;
      return;
    }
    now := LinkTarget(now, temps[k].name, artifacts[k].name);
    b, m := k + 1, WithTarget(m, artifacts[k].name, temps[k].inode);
    HeldSurvives(env, d, now, temps, artifacts, m, 0, |temps|, b, calm, base + 1);
    now := InterfereAll(now, env(base + 1));
    raised := Is(at, 1) || !Identical(now, artifacts[k].name, temps[k].inode);
  }

  /** Phase two. */
  method LinkAll(ghost d: Dir, found: World, temps: seq<Temp>, artifacts: seq<Artifact>, at: Option<nat>,
                 env: nat -> seq<Foreign>, base: nat, ghost calm: bool, ghost mine: Mine)
    returns (now: World, b: nat, raised: bool, ghost m: Mine)
    requires Undisturbed(env, d, temps, artifacts, calm)
    requires Held(env, d, found, temps, artifacts, mine, 0, |temps|, 0, calm)
    ensures b <= |temps| && (!raised ==> b == |temps|)
    ensures Held(env, d, now, temps, artifacts, m, 0, |temps|, b, calm)
    ensures calm ==> (raised <==> at.Some? && at.value < 2 * |temps|) && now.dir.files == found.dir.files
  {
    now, b, m, raised := found, 0, mine, false;
    while b < |temps|
      invariant b <= |temps| && Held(env, d, now, temps, artifacts, m, 0, |temps|, b, calm) && !raised
      invariant calm ==> now.dir.files == found.dir.files
      invariant calm && at.Some? && at.value < 2 * |temps| ==> 2 * b <= at.value
    {
      now, b, raised, m := LinkOne(d, now, temps, artifacts, b, Within(at, 2 * b, 2), env, base + 2 * b, calm, m);
      if raised {
        return;
      }
    }
  }

  /** One temporary is dropped; not to find it is an error. */
  method DropOne(ghost d: Dir, found: World, temps: seq<Temp>, artifacts: seq<Artifact>, k: nat, fails: bool,
                 env: nat -> seq<Foreign>, step: nat, ghost calm: bool, ghost mine: Mine)
    returns (now: World, raised: bool, ghost m: Mine)
    requires Undisturbed(env, d, temps, artifacts, calm)
    requires k < |temps| && Dropped(env, d, found, temps, artifacts, mine, k, calm)
    ensures Dropped(env, d, now, temps, artifacts, m, if raised then k else k + 1, calm)
    ensures calm ==> (raised <==> fails)
  {
    now, m := InterfereAll(found, env(step)), mine;
    HeldSurvives(env, d, found, temps, artifacts, m, k, |temps|, |temps|, calm, step);
    Dropping(env, d, now, temps, artifacts, m, k, |temps|, |temps|, calm);
    if calm {
      DroppingKeepsWritten(env, d, now, temps, artifacts, m, k);
    }
    raised := fails || temps[k].name !in now.dir.entries;
    if !raised {
      now, m := Unlinked(now, temps[k].name, true), WithoutTemp(m, temps[k].name);
    }
  }

  /** Phase three: drop the temporaries. */
  method DropAll(ghost d: Dir, found: World, temps: seq<Temp>, artifacts: seq<Artifact>, at: Option<nat>,
                 env: nat -> seq<Foreign>, base: nat, ghost calm: bool, ghost mine: Mine)
    returns (now: World, ghost j: nat, raised: bool, ghost m: Mine)
    requires Undisturbed(env, d, temps, artifacts, calm)
    requires Dropped(env, d, found, temps, artifacts, mine, 0, calm)
    ensures j <= |temps| && Dropped(env, d, now, temps, artifacts, m, j, calm)
    ensures calm ==> (raised <==> at.Some? && at.value < |temps|) && (!raised ==> j == |temps|)
  {
    now, j, m, raised := found, 0, mine, false;
    var k := 0;
    while k < |temps|
      invariant k <= |temps| && k == j && !raised && Dropped(env, d, now, temps, artifacts, m, j, calm)
      invariant calm && at.Some? && at.value < |temps| ==> k <= at.value
    {
      now, raised, m := DropOne(d, now, temps, artifacts, k, Is(at, k), env, base + k, calm, m);
      if raised {
        return;
      }
      k, j := k + 1, j + 1;
    }
  }

  /** `_rollback_publication`, first loop: the temporaries by name, those already gone
      included. */
  method RollbackTemps(ghost d: Dir, found: World, temps: seq<Temp>, ghost artifacts: seq<Artifact>, staged: nat,
                       failsAt: Option<nat>, env: nat -> seq<Foreign>, base: nat, ghost calm: bool, ghost mine: Mine,
                       ghost dropped: nat, ghost b: nat)
    returns (now: World, ok: bool, ghost m: Mine)
    requires Undisturbed(env, d, temps, artifacts, calm)
    requires dropped <= staged && Held(env, d, found, temps, artifacts, mine, dropped, staged, b, calm)
    ensures failsAt.None? ==> ok
    ensures if ok then Held(env, d, now, temps, artifacts, m, staged, staged, b, calm) else Sound(now)
  {
    now, m := found, mine;
    var k := 0;
    while k < staged
      invariant k <= staged && Held(env, d, now, temps, artifacts, m, Larger(k, dropped), staged, b, calm)
    {
      HeldSurvives(env, d, now, temps, artifacts, m, Larger(k, dropped), staged, b, calm, base + k);
      now := InterfereAll(now, env(base + k));
      if Is(failsAt, k) {
        return now, false, m;
      }
      Clearing(env, d, now, temps, artifacts, m, dropped, k, staged, b, calm);
      if temps[k].name in now.dir.entries {
        now, m := Unlinked(now, temps[k].name, true), WithoutTemp(m, temps[k].name);
      }
      k := k + 1;
    }
    ok := true;
  }

  /** Second loop: the targets, newest first, those still showing the inode linked there. */
  method RollbackTargets(ghost d: Dir, found: World, temps: seq<Temp>, artifacts: seq<Artifact>, staged: nat, b: nat,
                         failsAt: Option<nat>, env: nat -> seq<Foreign>, base: nat, ghost calm: bool, ghost mine: Mine)
    returns (now: World, ok: bool)
    requires Undisturbed(env, d, temps, artifacts, calm)
    requires Held(env, d, found, temps, artifacts, mine, staged, staged, b, calm)
    ensures Sound(now) && (failsAt.None? ==> ok)
    ensures calm && ok ==> now.dir.entries == d.entries
  {
    now := found;
    ghost var m := mine;
    var done := 0;
    while done < b
      invariant done <= b && Held(env, d, now, temps, artifacts, m, staged, staged, b - done, calm)
    {
      var c := b - done;
      HeldSurvives(env, d, now, temps, artifacts, m, staged, staged, c, calm, base + done);
      now := InterfereAll(now, env(base + done));
      if Is(failsAt, staged + done) {
        return now, false;
      }
      Removing(env, d, now, temps, artifacts, m, staged, c, calm);
      if Identical(now, artifacts[c - 1].name, temps[c - 1].inode) {
        now, m := Unlinked(now, artifacts[c - 1].name, false), WithoutTarget(m, artifacts[c - 1].name);
      }
      done := done + 1;
    }
    if calm {
      NothingLeft(d, now.dir, temps, artifacts, m, staged);
    }
    ok := true;
  }

  method Undo(ghost d: Dir, found: World, temps: seq<Temp>, artifacts: seq<Artifact>, f: Fault, staged: nat, b: nat,
              env: nat -> seq<Foreign>, base: nat, ghost calm: bool, ghost m: Mine, ghost j: nat)
    returns (now: World, outcome: Outcome)
    requires Undisturbed(env, d, temps, artifacts, calm)
    requires j <= staged && Held(env, d, found, temps, artifacts, m, j, staged, b, calm)
    ensures Sound(now)
    ensures (outcome == Interrupted <==> f.interrupt) && (outcome == RollbackFailed ==> f.rollbackAt.Some?)
    ensures outcome != Published && outcome != Refused
    ensures outcome == Interrupted ==> now == found
    ensures calm && outcome == RolledBack ==> now.dir.entries == d.entries
  {
    if f.interrupt {
      return found, Interrupted;
    }
    var ok;
    ghost var left;
    now, ok, left := RollbackTemps(d, found, temps, artifacts, staged, f.rollbackAt, env, base, calm, m, j, b);
    if ok {
      now, ok := RollbackTargets(d, now, temps, artifacts, staged, b, f.rollbackAt, env, base + staged, calm, left);
    }
    outcome := if ok then RolledBack else RollbackFailed;
  }

  /** Every target holds exactly its bytes, and no other name was added or changed. */
  ghost predicate Complete(d: Dir, now: Dir, artifacts: seq<Artifact>) {
    && (forall k :: 0 <= k < |artifacts| ==>
          && artifacts[k].name in now.entries && now.entries[artifacts[k].name] in now.files
          && now.files[now.entries[artifacts[k].name]].content == artifacts[k].content)
    && now.entries.Keys == d.entries.Keys + Names(artifacts)
    && (forall n :: n in d.entries ==> now.entries[n] == d.entries[n])
  }

  lemma LinkedAll(temps: seq<Temp>, artifacts: seq<Artifact>, m: Mine)
    requires |temps| == |artifacts| && Lists(m, temps, artifacts, |temps|, |temps|, |temps|)
    ensures m.entries.Keys == Names(artifacts)
  {
    assert m.temporary == {};
    forall n | n in Names(artifacts) ensures n in m.linked {
      var k :| 0 <= k < |artifacts| && artifacts[k].name == n;
    }
  }

  lemma Completes(d: Dir, now: Dir, temps: seq<Temp>, artifacts: seq<Artifact>, m: Mine)
    requires Setting(d, temps, artifacts) && Between(d, now, temps, artifacts, m, |temps|, |temps|, |temps|) && Written(now, temps, artifacts, |temps|)
    ensures Complete(d, now, artifacts)
  {
    LinkedAll(temps, artifacts, m);
    forall k | 0 <= k < |artifacts|
      ensures artifacts[k].name in now.entries && now.entries[artifacts[k].name] == temps[k].inode
    {
    }
  }

  /** Some entry of ours is in the directory exactly when one is listed. */
  lemma SomethingLeft(d: Dir, now: Dir, temps: seq<Temp>, artifacts: seq<Artifact>, m: Mine, j: nat, staged: nat, b: nat)
    requires Setting(d, temps, artifacts) && Between(d, now, temps, artifacts, m, j, staged, b)
    ensures now.entries == d.entries <==> j == staged && b == 0
  {
    if j == staged && b == 0 {
      assert m.entries.Keys == {};
      assert m.entries == map[];
    } else {
      var n :| n in m.temporary || n in m.linked;
      assert n in now.entries && n !in d.entries;
    }
  }

  lemma HeldLeaves(env: nat -> seq<Foreign>, d: Dir, w: World, temps: seq<Temp>, artifacts: seq<Artifact>, m: Mine,
                   j: nat, staged: nat, b: nat, calm: bool)
    requires Undisturbed(env, d, temps, artifacts, calm)
    requires Held(env, d, w, temps, artifacts, m, j, staged, b, calm)
    ensures calm ==> (w.dir.entries == d.entries <==> j == staged && b == 0)
  {
    if calm {
      SomethingLeft(d, w.dir, temps, artifacts, m, j, staged, b);
    }
  }

  /** The last step of all, the directory's fsync. */
  function LastStep(artifacts: seq<Artifact>): nat {
    5 * |artifacts|
  }

  /** The look at every target before anything is created. */
  method Preflight(d: Dir, artifacts: seq<Artifact>, env: nat -> seq<Foreign>) returns (now: World, free: bool)
    requires Given(d)
    ensures Sound(now) && now.open.None? && now.ours == {} && now.removals == []
    ensures Quiet(env) ==> now == Opening(d) && (free <==> NoneExists(d, artifacts))
  {
    OpeningSound(d);
    now := Opening(d);
    var k := 0;
    while k < |artifacts|
      invariant k <= |artifacts| && Sound(now) && now.open.None? && now.ours == {} && now.removals == []
      invariant Quiet(env) ==> now == Opening(d) && forall i :: 0 <= i < k ==> artifacts[i].name !in d.entries
    {
      InterferenceSound(now, env(k));
      now := InterfereAll(now, env(k));
      if artifacts[k].name in now.dir.entries {
        return now, false;
      }
      k := k + 1;
    }
    free := true;
  }

  lemma LinkedHold(env: nat -> seq<Foreign>, d: Dir, found: World, now: World, temps: seq<Temp>, artifacts: seq<Artifact>,
                   m: Mine, calm: bool)
    requires Undisturbed(env, d, temps, artifacts, calm)
    requires Held(env, d, now, temps, artifacts, m, 0, |temps|, |temps|, calm)
    requires calm ==> Written(found.dir, temps, artifacts, |temps|) && now.dir.files == found.dir.files
    ensures Dropped(env, d, now, temps, artifacts, m, 0, calm)
  {
  }

  lemma DroppedHold(env: nat -> seq<Foreign>, d: Dir, now: World, temps: seq<Temp>, artifacts: seq<Artifact>, m: Mine,
                    j: nat, calm: bool)
    requires Undisturbed(env, d, temps, artifacts, calm)
    requires Dropped(env, d, now, temps, artifacts, m, j, calm)
    ensures Held(env, d, now, temps, artifacts, m, j, |temps|, |temps|, calm)
    ensures calm && j == |temps| ==> Complete(d, now.dir, artifacts)
  {
    if calm && j == |temps| {
      Completes(d, now.dir, temps, artifacts, m);
    }
  }

  /** The guarded part of `_publish_collection` from the links on; `at` counts from its
      first step. */
  method Finish(ghost d: Dir, found: World, temps: seq<Temp>, artifacts: seq<Artifact>, at: Option<nat>,
                env: nat -> seq<Foreign>, base: nat, ghost calm: bool, ghost mine: Mine)
    returns (now: World, b: nat, raised: bool, ghost m: Mine, ghost j: nat)
    requires Undisturbed(env, d, temps, artifacts, calm)
    requires Held(env, d, found, temps, artifacts, mine, 0, |temps|, 0, calm)
    requires calm ==> Written(found.dir, temps, artifacts, |temps|)
    ensures j <= |temps| && Held(env, d, now, temps, artifacts, m, j, |temps|, b, calm) && (j > 0 ==> b == |temps|)
    ensures calm ==> (raised <==> at.Some? && at.value <= 3 * |temps|)
    ensures calm && !raised ==> Complete(d, now.dir, artifacts)
  {
    var n := |temps|;
    j := 0;
    now, b, raised, m := LinkAll(d, found, temps, artifacts, Within(at, 0, 2 * n), env, base, calm, mine);
    if !raised {
      LinkedHold(env, d, found, now, temps, artifacts, m, calm);
      now, j, raised, m := DropAll(d, now, temps, artifacts, Within(at, 2 * n, n), env, base + 2 * n, calm, m);
      raised := raised || Is(at, 3 * n);
      DroppedHold(env, d, now, temps, artifacts, m, j, calm);
    }
  }

  /** The guarded part of `_publish_collection`. */
  method Attempt(ghost d: Dir, found: World, temps: seq<Temp>, artifacts: seq<Artifact>, at: Option<nat>,
                 env: nat -> seq<Foreign>, ghost calm: bool)
    returns (now: World, staged: nat, b: nat, raised: bool, ghost m: Mine, ghost j: nat)
    requires |temps| == |artifacts| && Ready(found, temps, 0) && found.open.None?
    requires calm ==> Quiet(env) && Setting(d, temps, artifacts) && found.dir == d
    ensures j <= staged && Held(env, d, now, temps, artifacts, m, j, staged, b, calm)
    ensures calm ==> (raised <==> at.Some? && at.value <= LastStep(artifacts))
    ensures calm && raised ==> (now.dir.entries == d.entries <==> at.value == 0)
    ensures calm && !raised ==> Complete(d, now.dir, artifacts)
  {
    var n := |temps|;
    b, j := 0, 0;
    now, staged, raised, m := StageAll(d, found, temps, artifacts, Within(at, 0, 2 * n), env, n, calm);
    if !raised {
      now, b, raised, m, j := Finish(d, now, temps, artifacts, Within(at, 2 * n, 3 * n + 1), env, 3 * n, calm, m);
    }
    HeldLeaves(env, d, now, temps, artifacts, m, j, staged, b, calm);
  }

  /** `_publish_collection`, with whatever others do (`env`) before each of its steps.

      Left to itself it is all or nothing: it publishes everything exactly when nothing
      raises; an exception at any step, if the rollback's calls succeed, leaves the
      directory as it was; and a name that repeats or exists is refused up front.  An
      interrupt is not rolled back: it leaves the directory changed unless it struck
      before the first step.

      In any surroundings it replaces and rewrites nothing of others', and each file it
      removed was of others exactly when they had put it under that name; at a target,
      exactly when it had taken the freed inode of ours. */
  method PublishCollection(d: Dir, artifacts: seq<Artifact>, temps: seq<Temp>, f: Fault, env: nat -> seq<Foreign>)
    returns (now: World, outcome: Outcome)
    requires Given(d) && |temps| == |artifacts|
    ensures forall k :: 0 <= k < |now.removals| ==> Exact(now.removals[k])
    ensures Spared(now)
    ensures !UniqueNames(artifacts) ==> outcome == Refused
    ensures outcome == Refused ==> now.ours == {} && now.removals == []
    ensures outcome == Interrupted ==> f.interrupt
    ensures outcome == RollbackFailed ==> f.rollbackAt.Some?
    ensures Quiet(env) ==> (outcome == Refused <==> !UniqueNames(artifacts) || !NoneExists(d, artifacts))
    ensures Quiet(env) && outcome == Refused ==> now.dir == d
    ensures Quiet(env) && Unused(d, temps, artifacts) ==>
              (outcome == Published <==>
                 UniqueNames(artifacts) && NoneExists(d, artifacts) && !(f.at.Some? && f.at.value <= LastStep(artifacts)))
    ensures Quiet(env) && Unused(d, temps, artifacts) ==>
              && (outcome == Published ==> Complete(d, now.dir, artifacts))
              && (outcome == RolledBack ==> now.dir.entries == d.entries)
              && (outcome == Interrupted ==> f.at.Some? && (now.dir.entries == d.entries <==> f.at.value == 0))
  {
    if !UniqueNames(artifacts) {
      OpeningSound(d);
      return Opening(d), Refused;
    }
    var free;
    now, free := Preflight(d, artifacts, env);
    if !free {
      outcome := Refused;
      return;
    }
    ghost var calm := Quiet(env) && Unused(d, temps, artifacts);
    var staged, b, raised;
    ghost var m, j;
    now, staged, b, raised, m, j := Attempt(d, now, temps, artifacts, f.at, env, calm);
    if raised {
      now, outcome := Undo(d, now, temps, artifacts, f, staged, b, env, 6 * |temps| + 1, calm, m, j);
    } else {
      outcome := Published;
    }
  }
}
