/**
 * The store of conflict copies: numbered slots, each a tree of files, in which a copy never replaces
 * another. A copy of a path lands in the first slot above every copy that path already has where neither
 * it nor its body companion would meet anything else.
 */
module SavedCopies {
  import opened Records

  type Path = seq<string>
  type Bytes = string

  /** A file or directory of one slot, by its path below the slot's root. */
  datatype Entry = Entry(slot: nat, path: Path)

  function WithoutSuffix(name: string, suffix: string): Option<string> {
    if |suffix| <= |name| && name[|name| - |suffix|..] == suffix then Some(name[..|name| - |suffix|]) else None
  }

  function RenameLast(path: Path, name: string): Path {
    if path == [] then [] else path[..|path| - 1] + [name]
  }

  /** The body-only companion of a document's copy; any other path is its own. */
  function Companion(path: Path): Path {
    if path == [] then path
    else match WithoutSuffix(path[|path| - 1], ".md")
         case Some(stem) => RenameLast(path, stem + ".body.md")
         case None => path
  }

  /** The copy a path shaped like a companion would belong to. */
  function Owner(path: Path): Option<Path> {
    if path == [] then None
    else match WithoutSuffix(path[|path| - 1], ".body.md")
         case Some(stem) => Some(RenameLast(path, stem + ".md"))
         case None => None
  }

  datatype Disk = Disk(files: map<Entry, Bytes>, dirs: set<Entry>)

  predicate Exists(d: Disk, e: Entry) {
    e in d.files || e in d.dirs
  }

  predicate SlotTaken(d: Disk, slot: nat, path: Path) {
    || Exists(d, Entry(slot, path)) || Exists(d, Entry(slot, Companion(path)))
    || (Owner(path).Some? && Exists(d, Entry(slot, Owner(path).value)))
  }

  /** A file stands where this directory, or one it lies in, would have to be. */
  predicate ThroughFile(d: Disk, slot: nat, dir: Path) {
    exists n :: 0 <= n <= |dir| && Entry(slot, dir[..n]) in d.files
  }

  function Directories(slot: nat, dir: Path): set<Entry> {
    set n | 0 <= n <= |dir| :: Entry(slot, dir[..n])
  }

  /** Every entry lies in a directory of its slot, and nothing is both a file and a directory. */
  predicate Wellformed(d: Disk) {
    && d.files.Keys !! d.dirs
    && (forall e, n :: e in d.files && 0 <= n < |e.path| ==> Entry(e.slot, e.path[..n]) in d.dirs)
    && (forall e, n :: e in d.dirs && 0 <= n <= |e.path| ==> Entry(e.slot, e.path[..n]) in d.dirs)
    && (forall e :: e in d.files ==> e.path != [] && e.slot >= 1)
  }

  /** Nothing there before is gone or changed. */
  predicate Preserves(d: Disk, next: Disk) {
    && (forall e :: e in d.files ==> e in next.files && next.files[e] == d.files[e])
    && d.dirs <= next.dirs
  }

  /** The slots that hold this path, as a file. */
  predicate Holds(d: Disk, slot: nat, path: Path) {
    Entry(slot, path) in d.files
  }

  // ---- finding an end to the slots ----

  ghost predicate Below(entries: set<Entry>, bound: nat) {
    forall e :: e in entries ==> e.slot < bound
  }

  ghost function Beyond(entries: set<Entry>): (bound: nat)
    ensures Below(entries, bound)
  {
    BeyondExists(entries);
    var bound: nat :| Below(entries, bound);
    bound
  }

  lemma {:induction false} BeyondExists(entries: set<Entry>)
    ensures exists bound: nat :: Below(entries, bound)
  {
    if entries == {} {
      assert Below(entries, 0);
    } else {
      var e :| e in entries;
      BeyondExists(entries - {e});
      var bound: nat :| Below(entries - {e}, bound);
      assert Below(entries, if bound <= e.slot then e.slot + 1 else bound);
    }
  }

  lemma FreeSlot(d: Disk, slot: nat, path: Path)
    requires forall e :: Exists(d, e) ==> e.slot < slot
    ensures !SlotTaken(d, slot, path) && forall dir :: !ThroughFile(d, slot, dir)
  {
  }

  lemma DirectoryOfCopy(slot: nat, path: Path)
    requires path != []
    ensures Entry(slot, path) !in Directories(slot, path[..|path| - 1])
    ensures forall n :: 0 <= n < |path| ==> Entry(slot, path[..n]) in Directories(slot, path[..|path| - 1])
  {
    forall n | 0 <= n < |path| ensures Entry(slot, path[..n]) in Directories(slot, path[..|path| - 1]) {
      assert path[..|path| - 1][..n] == path[..n];
    }
  }

  class CopyStore {
    var files: map<Entry, Bytes>
    var dirs: set<Entry>

    /** The copies this store was asked to keep, in the order it first kept them. */
    ghost var log: seq<Entry>

    ghost function View(): Disk
      reads this
    {
      Disk(files, dirs)
    }

    /** One path's copies are pairwise different, and in save order by slot. */
    ghost predicate Valid()
      reads this
    {
      && Wellformed(View())
      && (forall i :: 0 <= i < |log| ==> log[i] in files)
      && (forall i, j :: 0 <= i < j < |log| && log[i].path == log[j].path ==>
            log[i].slot < log[j].slot && files[log[i]] != files[log[j]])
    }

    constructor ()
      ensures Valid() && View() == Disk(map[], {}) && log == []
    {
      files, dirs, log := map[], {}, [];
    }

    /** The slots on disk, ascending. */
    method ExistingSlots() returns (slots: seq<nat>)
      ensures forall i, j :: 0 <= i < j < |slots| ==> slots[i] < slots[j]
      ensures forall s: nat :: s in slots <==> Entry(s, []) in dirs
    {
      slots := [];
      var bound := 0;
      var left := set e | e in dirs && e.path == [];
      while left != {}
        invariant forall e :: e in left <==> e in dirs && e.path == [] && bound <= e.slot
        invariant forall i :: 0 <= i < |slots| ==> slots[i] < bound
        invariant forall i, j :: 0 <= i < j < |slots| ==> slots[i] < slots[j]
        invariant forall s: nat :: s in slots <==> s < bound && Entry(s, []) in dirs
        decreases Beyond(dirs) - bound
      {
        assert exists e :: e in left;
        forall e | e in left && e.slot == bound ensures e == Entry(bound, []) {
          assert e == Entry(e.slot, e.path);
        }
        if Entry(bound, []) in left {
          slots := slots + [bound];
          left := left - {Entry(bound, [])};
        }
        bound := bound + 1;
      }
      assert forall s: nat :: Entry(s, []) in dirs ==> Entry(s, []) !in left;
    }

    /** Make a directory and those it lies in, unless a file is in the way. */
    method MakeDirectory(slot: nat, dir: Path) returns (made: bool)
      requires Valid()
      modifies this`dirs
      ensures Valid() && made == !ThroughFile(old(View()), slot, dir)
      ensures dirs == if made then old(dirs) + Directories(slot, dir) else old(dirs)
    {
      var n := 0;
      made := true;
      while n <= |dir|
        invariant 0 <= n <= |dir| + 1
        invariant forall m :: 0 <= m < n ==> Entry(slot, dir[..m]) !in files
      {
        if Entry(slot, dir[..n]) in files {
          assert ThroughFile(View(), slot, dir);
          return false;
        }
        n := n + 1;
      }
      ghost var was := dirs;
      dirs := dirs + Directories(slot, dir);
      forall e, m | e in dirs && 0 <= m <= |e.path| ensures Entry(e.slot, e.path[..m]) in dirs {
        if e !in was {
          var k :| 0 <= k <= |dir| && e == Entry(slot, dir[..k]);
          assert dir[..k][..m] == dir[..m];
        }
      }
    }

    /** Save a copy of a path's bytes; bytes already saved for the path are that copy. */
    method SaveConflictCopy(path: Path, bytes: Bytes) returns (slot: nat)
      requires Valid() && path != []
      modifies this
      ensures Valid() && Preserves(old(View()), View())
      ensures Holds(View(), slot, path) && files[Entry(slot, path)] == bytes
      ensures (exists s: nat :: Holds(old(View()), s, path) && old(files)[Entry(s, path)] == bytes) ==>
        View() == old(View()) && log == old(log)
      ensures !(exists s: nat :: Holds(old(View()), s, path) && old(files)[Entry(s, path)] == bytes) ==>
        && files == old(files)[Entry(slot, path) := bytes]
        && log == old(log) + [Entry(slot, path)]
        && !SlotTaken(old(View()), slot, path)
        && (forall s: nat :: Holds(old(View()), s, path) ==> s < slot)
        && forall e :: e in dirs && |e.path| >= |path| ==> e in old(dirs)
    {
      var found, highest := Scan(path, bytes);
      if found.Some? {
        return found.value;
      }
      slot := Place(highest, path, bytes);
    }

    /** The slot that holds these bytes for the path already, or the highest slot that holds any others. */
    method Scan(path: Path, bytes: Bytes) returns (found: Option<nat>, highest: nat)
      requires Valid() && path != []
      ensures found.Some? ==> Holds(View(), found.value, path) && files[Entry(found.value, path)] == bytes
      ensures found == None ==> forall s: nat :: Holds(View(), s, path) ==>
        s <= highest && files[Entry(s, path)] != bytes
    {
      found, highest := None, 0;
      var slots := ExistingSlots();
      forall s: nat | Holds(View(), s, path) ensures s in slots {
        assert Entry(s, path).path[..0] == [];
      }
      for k := 0 to |slots|
        invariant forall i :: 0 <= i < k && Holds(View(), slots[i], path) ==>
          files[Entry(slots[i], path)] != bytes && slots[i] <= highest
        invariant highest == 0 || exists i :: 0 <= i < k && slots[i] == highest
      {
        var e := Entry(slots[k], path);
        if e !in files {
          continue;
        }
        if files[e] == bytes {
          return Some(slots[k]), highest;
        }
        highest := slots[k];
      }
    }

    /** The first slot above `highest` with room for the path. */
    method Place(highest: nat, path: Path, bytes: Bytes) returns (slot: nat)
      requires Valid() && path != []
      requires forall s: nat :: Holds(View(), s, path) ==> s <= highest && files[Entry(s, path)] != bytes
      modifies this
      ensures Valid() && Preserves(old(View()), View())
      ensures highest < slot && !SlotTaken(old(View()), slot, path)
      ensures files == old(files)[Entry(slot, path) := bytes] && log == old(log) + [Entry(slot, path)]
      ensures forall e :: e in dirs && |e.path| >= |path| ==> e in old(dirs)
    {
      slot := highest + 1;
      while true
        invariant highest < slot && View() == old(View()) && log == old(log) && Valid()
        decreases Beyond(files.Keys + dirs) - slot
      {
        if Beyond(files.Keys + dirs) <= slot {
          forall e | Exists(View(), e) ensures e.slot < slot {
            assert e in files.Keys + dirs;
          }
          FreeSlot(View(), slot, path);
        }
        if !SlotTaken(Disk(files, dirs), slot, path) {
          var made := MakeDirectory(slot, path[..|path| - 1]);
          if made {
            DirectoryOfCopy(slot, path);
            assert !Exists(View(), Entry(slot, path));
            Link(slot, path, bytes);
            return;
          }
        }
        slot := slot + 1;
      }
    }

    /** Create the complete file at a path where there is none. */
    method Link(slot: nat, path: Path, bytes: Bytes)
      requires Valid() && path != [] && slot >= 1 && !Exists(View(), Entry(slot, path))
      requires forall n :: 0 <= n < |path| ==> Entry(slot, path[..n]) in dirs
      requires forall s: nat :: Holds(View(), s, path) ==> s < slot && files[Entry(s, path)] != bytes
      modifies this`files, this`log
      ensures Valid() && files == old(files)[Entry(slot, path) := bytes] && log == old(log) + [Entry(slot, path)]
    {
      files := files[Entry(slot, path) := bytes];
      log := log + [Entry(slot, path)];
    }

    /** Give a copy its body companion, unless its path holds something else already. */
    method SaveBodyCompanion(slot: nat, path: Path, body: Bytes) returns (companion: Option<Path>)
      requires Valid() && Holds(View(), slot, path) && Companion(path) != path
      modifies this`files
      ensures Valid() && Preserves(old(View()), View())
      ensures companion.Some? ==>
        companion.value == Companion(path) && Holds(View(), slot, Companion(path))
          && files[Entry(slot, Companion(path))] == body
      ensures companion == None ==> files == old(files)
      ensures !Exists(old(View()), Entry(slot, Companion(path))) ==>
        companion.Some? && files == old(files)[Entry(slot, Companion(path)) := body]
      ensures Exists(old(View()), Entry(slot, Companion(path))) ==> files == old(files)
    {
      var e := Entry(slot, Companion(path));
      if e !in files && e !in dirs {
        assert |Companion(path)| == |path| && forall n :: 0 <= n < |path| ==> Companion(path)[..n] == path[..n];
        files := files[e := body];
        return Some(Companion(path));
      }
      return if e in files && files[e] == body then Some(Companion(path)) else None;
    }

    /** A copy and, for a document whose bytes yield a body, its companion. */
    method SaveCopyWithBody(path: Path, bytes: Bytes, isDoc: bool, body: Option<Bytes>) returns (slot: nat)
      requires Valid() && path != [] && (isDoc ==> Companion(path) != path)
      modifies this
      ensures Valid() && Preserves(old(View()), View())
      ensures Holds(View(), slot, path) && files[Entry(slot, path)] == bytes
      ensures
        && isDoc && body.Some?
        && !(exists s: nat :: Holds(old(View()), s, path) && old(files)[Entry(s, path)] == bytes) ==>
          Holds(View(), slot, Companion(path)) && files[Entry(slot, Companion(path))] == body.value
    {
      slot := SaveConflictCopy(path, bytes);
      if isDoc && body.Some? {
        var companion := SaveBodyCompanion(slot, path, body.value);
      }
    }
  }

  /** Saving the same bytes again finds them and leaves the disk as the first save left it. */
  method SaveTwice(store: CopyStore, path: Path, bytes: Bytes) returns (first: nat, second: nat, between: Disk)
    requires store.Valid() && path != []
    modifies store
    ensures store.Valid() && Preserves(old(store.View()), store.View())
    ensures Holds(between, first, path) && between.files[Entry(first, path)] == bytes
    ensures store.View() == between && Holds(between, second, path) && between.files[Entry(second, path)] == bytes
  {
    first := store.SaveConflictCopy(path, bytes);
    between := Disk(store.files, store.dirs);
    second := store.SaveConflictCopy(path, bytes);
  }

  // ---- savers racing on one disk ----

  datatype SaverPc =
    | Listing
    | Scanning(slots: seq<nat>, highest: nat)
    | Probing(slot: nat, test: nat)
    | Making(slot: nat)
    | Linking(slot: nat)
    | Saved(slot: nat)

  datatype Saver = Saver(path: Path, bytes: Bytes, pc: SaverPc)

  datatype Race = Race(disk: Disk, savers: map<nat, Saver>)

  /** One file-system call of one saver, or a companion written exclusively beside some copy. */
  datatype RaceStep =
    | Arrive(id: nat, path: Path, bytes: Bytes)
    | List(id: nat, slots: seq<nat>)
    | ScanOne(id: nat)
    | Probe(id: nat)
    | Make(id: nat)
    | TryLink(id: nat)
    | WriteCompanion(slot: nat, path: Path, body: Bytes)

  predicate SlotsOf(d: Disk, slots: seq<nat>) {
    && (forall s :: s in slots ==> Entry(s, []) in d.dirs)
    && (forall e :: e in d.dirs && e.path == [] ==> e.slot in slots)
    && (forall i, j :: 0 <= i < j < |slots| ==> slots[i] < slots[j])
  }

  /** What the three tests of a slot ask for, in turn: the path, its companion, and the copy it would belong to. */
  function Tested(slot: nat, path: Path, test: nat): Option<Entry> {
    if test == 0 then Some(Entry(slot, path))
    else if test == 1 then Some(Entry(slot, Companion(path)))
    else if Owner(path).Some? then Some(Entry(slot, Owner(path).value)) else None
  }

  lemma TestsTogether(d: Disk, slot: nat, path: Path)
    ensures SlotTaken(d, slot, path) <==>
      exists test :: 0 <= test < 3 && Tested(slot, path, test).Some? && Exists(d, Tested(slot, path, test).value)
  {
    assert Tested(slot, path, 0) == Some(Entry(slot, path))
      && Tested(slot, path, 1) == Some(Entry(slot, Companion(path)));
    assert Owner(path).Some? ==> Tested(slot, path, 2) == Some(Entry(slot, Owner(path).value));
  }

  predicate RaceEnabled(r: Race, step: RaceStep) {
    match step
    case Arrive(id, path, bytes) => id !in r.savers && path != []
    case WriteCompanion(slot, path, body) => Entry(slot, path) in r.disk.files
      && !Exists(r.disk, Entry(slot, Companion(path)))
    case List(id, slots) => id in r.savers && r.savers[id].pc.Listing? && SlotsOf(r.disk, slots)
    case ScanOne(id) => id in r.savers && r.savers[id].pc.Scanning?
    case Probe(id) => id in r.savers && r.savers[id].pc.Probing?
    case Make(id) => id in r.savers && r.savers[id].pc.Making?
    case TryLink(id) => id in r.savers && r.savers[id].pc.Linking?
  }

  function SaverAfter(d: Disk, saver: Saver, step: RaceStep): Saver {
    var entry := (slot: nat) => Entry(slot, saver.path);
    match saver.pc
    case Listing => if step.List? then saver.(pc := Scanning(step.slots, 0)) else saver
    case Scanning(slots, highest) =>
      if slots == [] then saver.(pc := Probing(highest + 1, 0))
      else if entry(slots[0]) !in d.files then saver.(pc := Scanning(slots[1..], highest))
      else if d.files[entry(slots[0])] == saver.bytes then saver.(pc := Saved(slots[0]))
      else saver.(pc := Scanning(slots[1..], slots[0]))
    case Probing(slot, test) =>
      var tested := Tested(slot, saver.path, test);
      if tested.Some? && Exists(d, tested.value) then saver.(pc := Probing(slot + 1, 0))
      else saver.(pc := if test < 2 then Probing(slot, test + 1) else Making(slot))
    case Making(slot) =>
      if saver.path == [] || ThroughFile(d, slot, saver.path[..|saver.path| - 1])
      then saver.(pc := Probing(slot + 1, 0)) else saver.(pc := Linking(slot))
    case Linking(slot) => saver.(pc := if Exists(d, entry(slot)) then Probing(slot + 1, 0) else Saved(slot))
    case Saved(_) => saver
  }

  function DiskAfter(d: Disk, saver: Saver): Disk {
    match saver.pc
    case Making(slot) =>
      if saver.path == [] || ThroughFile(d, slot, saver.path[..|saver.path| - 1]) then d
      else d.(dirs := d.dirs + Directories(slot, saver.path[..|saver.path| - 1]))
    case Linking(slot) =>
      if Exists(d, Entry(slot, saver.path)) then d else d.(files := d.files[Entry(slot, saver.path) := saver.bytes])
    case _ => d
  }

  function RaceNext(r: Race, step: RaceStep): Race
    requires RaceEnabled(r, step)
  {
    match step
    case Arrive(id, path, bytes) => r.(savers := r.savers[id := Saver(path, bytes, Listing)])
    case WriteCompanion(slot, path, body) =>
      r.(disk := r.disk.(files := r.disk.files[Entry(slot, Companion(path)) := body]))
    case _ => Race(DiskAfter(r.disk, r.savers[step.id]),
        r.savers[step.id := SaverAfter(r.disk, r.savers[step.id], step)])
  }

  predicate EnabledRace(r: Race, steps: seq<RaceStep>)
    decreases |steps|
  {
    steps == [] || (RaceEnabled(r, steps[0]) && EnabledRace(RaceNext(r, steps[0]), steps[1..]))
  }

  function RunRace(r: Race, steps: seq<RaceStep>): Race
    requires EnabledRace(r, steps)
    decreases |steps|
  {
    if steps == [] then r else RunRace(RaceNext(r, steps[0]), steps[1..])
  }

  /** A saver that is done holds its own bytes. */
  predicate AllKept(r: Race) {
    forall id :: id in r.savers && r.savers[id].pc.Saved? ==>
      var e := Entry(r.savers[id].pc.slot, r.savers[id].path);
      e in r.disk.files && r.disk.files[e] == r.savers[id].bytes
  }

  lemma RaceStepKeeps(r: Race, step: RaceStep)
    requires AllKept(r) && RaceEnabled(r, step)
    ensures AllKept(RaceNext(r, step)) && Preserves(r.disk, RaceNext(r, step).disk)
    ensures forall id :: id in r.savers ==>
      id in RaceNext(r, step).savers && RaceNext(r, step).savers[id].path == r.savers[id].path
        && RaceNext(r, step).savers[id].bytes == r.savers[id].bytes
  {
  }

  /** Racing savers never change a file that is there, and each ends with its own bytes in place. */
  lemma {:induction false} EveryRaceKeeps(r: Race, steps: seq<RaceStep>)
    requires AllKept(r) && EnabledRace(r, steps)
    ensures AllKept(RunRace(r, steps)) && Preserves(r.disk, RunRace(r, steps).disk)
    decreases |steps|
  {
    if steps != [] {
      RaceStepKeeps(r, steps[0]);
      EveryRaceKeeps(RaceNext(r, steps[0]), steps[1..]);
    }
  }

  /** Savers of different bytes for one path end in different slots, whatever the order of their calls. */
  lemma RacersKeepTheirOwn(disk: Disk, steps: seq<RaceStep>, i: nat, j: nat)
    requires EnabledRace(Race(disk, map[]), steps)
    requires
      var savers := RunRace(Race(disk, map[]), steps).savers;
      && i in savers && j in savers && savers[i].pc.Saved? && savers[j].pc.Saved?
      && savers[i].path == savers[j].path && savers[i].bytes != savers[j].bytes
    ensures
      var savers := RunRace(Race(disk, map[]), steps).savers;
      savers[i].pc.slot != savers[j].pc.slot
  {
    EveryRaceKeeps(Race(disk, map[]), steps);
    hide RunRace;
  }
}
