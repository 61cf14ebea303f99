/**
 * The converging rebase: local commits are replayed onto the upstream tree one by one, and at each stop every
 * conflicted path keeps the upstream version while the local one is saved as a conflict copy.
 *
 * A tree maps paths to whole files, and replaying a commit merges each path three ways.
 */
module Rebase {
  import opened Records
  import opened SavedCopies

  type Tree = map<Path, Bytes>

  const MAX_REBASE_STOPS: nat := 1000

  function At(t: Tree, p: Path): Option<Bytes> {
    if p in t then Some(t[p]) else None
  }

  function With(t: Tree, p: Path, content: Option<Bytes>): Tree {
    match content
    case Some(bytes) => t[p := bytes]
    case None => t - {p}
  }

  // ---- replaying one commit ----

  /** A path conflicts when both sides changed it, differently. */
  predicate Conflicts(ours: Tree, base: Tree, theirs: Tree, p: Path) {
    At(theirs, p) != At(base, p) && At(ours, p) != At(base, p) && At(ours, p) != At(theirs, p)
  }

  function ConflictSet(ours: Tree, base: Tree, theirs: Tree): set<Path> {
    set p | p in ours.Keys + base.Keys + theirs.Keys && Conflicts(ours, base, theirs, p)
  }

  /** The merge of the paths that do not conflict: the changed side, or either when both agree. */
  function Merged(ours: Tree, base: Tree, theirs: Tree): Tree {
    map p | p in ours.Keys + theirs.Keys && !Conflicts(ours, base, theirs, p) &&
            (if At(theirs, p) == At(base, p) then p in ours else p in theirs)
        :: if At(theirs, p) == At(base, p) then ours[p] else theirs[p]
  }

  lemma MergedAt(ours: Tree, base: Tree, theirs: Tree, p: Path)
    ensures Conflicts(ours, base, theirs, p) <==> p in ConflictSet(ours, base, theirs)
    ensures !Conflicts(ours, base, theirs, p) ==>
      At(Merged(ours, base, theirs), p) == (if At(theirs, p) == At(base, p) then At(ours, p) else At(theirs, p))
    ensures Conflicts(ours, base, theirs, p) ==> At(Merged(ours, base, theirs), p) == None
  {
  }

  // ---- what every turn keeps ----

  /** Every path is the upstream's or the last local commit's. */
  ghost predicate Follows(upstream: Tree, commits: seq<Tree>, head: Tree, at: nat)
    requires at < |commits|
  {
    forall p :: At(head, p) == At(upstream, p) || At(head, p) == At(commits[at], p)
  }

  ghost predicate Touched(commits: seq<Tree>, at: nat, p: Path)
    requires at < |commits|
  {
    exists k :: 0 < k <= at && At(commits[k], p) != At(commits[k - 1], p)
  }

  /** This content is byte for byte in the reported copy; a deletion has no copy. */
  predicate Exported(files: map<Entry, Bytes>, p: Path, slot: Option<nat>, content: Option<Bytes>) {
    match content
    case None => slot == None
    case Some(bytes) => slot.Some? && Entry(slot.value, p) in files && files[Entry(slot.value, p)] == bytes
  }

  predicate Reported(files: map<Entry, Bytes>, byPath: map<Path, Option<nat>>, p: Path, content: Option<Bytes>) {
    p in byPath && Exported(files, p, byPath[p], content)
  }

  /** Each path the local commits touched holds its latest local content, or that content is saved. */
  ghost predicate Accounted(commits: seq<Tree>, head: Tree, at: nat, byPath: map<Path, Option<nat>>,
                            files: map<Entry, Bytes>, besides: set<Path>)
    requires at < |commits|
  {
    forall p :: Touched(commits, at, p) && p !in besides ==>
      At(head, p) == At(commits[at], p) || Reported(files, byPath, p, At(commits[at], p))
  }

  ghost predicate Kept(upstream: Tree, commits: seq<Tree>, head: Tree, at: nat, byPath: map<Path, Option<nat>>,
                       files: map<Entry, Bytes>)
    requires at < |commits|
  {
    Follows(upstream, commits, head, at) && Accounted(commits, head, at, byPath, files, {})
  }

  /** At a stop, the conflicted paths are being accounted for afresh. */
  ghost predicate KeptAtStop(upstream: Tree, commits: seq<Tree>, head: Tree, at: nat, byPath: map<Path, Option<nat>>,
                             files: map<Entry, Bytes>)
    requires at + 1 < |commits|
  {
    && Follows(upstream, commits, head, at)
    && Accounted(commits, head, at, byPath, files, ConflictSet(head, commits[at], commits[at + 1]))
  }

  /** The next commit, with every conflict kept at the upstream version and its local version reported. */
  ghost predicate ResolvedIndex(upstream: Tree, commits: seq<Tree>, head: Tree, at: nat, index: Tree,
                                byPath: map<Path, Option<nat>>, files: map<Entry, Bytes>)
    requires at + 1 < |commits|
  {
    var conflicts := ConflictSet(head, commits[at], commits[at + 1]);
    && (forall p :: p in conflicts ==>
         At(index, p) == At(upstream, p) && Reported(files, byPath, p, At(commits[at + 1], p)))
    && (forall p :: p !in conflicts ==> At(index, p) == At(Merged(head, commits[at], commits[at + 1]), p))
  }

  /** The version a stop restores is the one the replayed head already holds. */
  lemma StopKeepsHead(upstream: Tree, commits: seq<Tree>, head: Tree, at: nat, p: Path)
    requires at + 1 < |commits| && Follows(upstream, commits, head, at)
    requires Conflicts(head, commits[at], commits[at + 1], p)
    ensures At(upstream, p) == At(head, p)
  {
  }

  lemma TouchedNext(commits: seq<Tree>, at: nat, p: Path)
    requires at + 1 < |commits|
    ensures Touched(commits, at + 1, p) <==> Touched(commits, at, p) || At(commits[at + 1], p) != At(commits[at], p)
  {
  }

  /** A replayed commit, resolved where it conflicted, keeps every path accounted for. */
  lemma CommitKeeps(upstream: Tree, commits: seq<Tree>, head: Tree, at: nat, index: Tree,
                    byPath: map<Path, Option<nat>>, files: map<Entry, Bytes>)
    requires at + 1 < |commits| && KeptAtStop(upstream, commits, head, at, byPath, files)
    requires ResolvedIndex(upstream, commits, head, at, index, byPath, files)
    ensures Kept(upstream, commits, index, at + 1, byPath, files)
  {
    hide Reported, Touched, Merged;
    forall p ensures At(index, p) == At(upstream, p) || At(index, p) == At(commits[at + 1], p) {
      MergedAt(head, commits[at], commits[at + 1], p);
    }
    forall p | Touched(commits, at + 1, p)
      ensures At(index, p) == At(commits[at + 1], p) || Reported(files, byPath, p, At(commits[at + 1], p))
    {
      MergedAt(head, commits[at], commits[at + 1], p);
      TouchedNext(commits, at, p);
    }
  }

  lemma KeptIsKeptAtStop(upstream: Tree, commits: seq<Tree>, head: Tree, at: nat, byPath: map<Path, Option<nat>>,
                         files: map<Entry, Bytes>)
    requires at + 1 < |commits| && Kept(upstream, commits, head, at, byPath, files)
    ensures KeptAtStop(upstream, commits, head, at, byPath, files)
  {
    hide Touched, Reported, ConflictSet;
  }

  lemma CleanIsResolved(upstream: Tree, commits: seq<Tree>, head: Tree, at: nat, byPath: map<Path, Option<nat>>,
                        files: map<Entry, Bytes>)
    requires at + 1 < |commits| && ConflictSet(head, commits[at], commits[at + 1]) == {}
    ensures ResolvedIndex(upstream, commits, head, at, Merged(head, commits[at], commits[at + 1]), byPath, files)
  {
  }

  // ---- the board's rebase state ----

  class Board {
    const upstream: Tree
    const original: Tree
    const commits: seq<Tree>        // the tree the branches share, then each local commit's tree
    var head: Tree
    var index: Tree
    var at: nat                     // how many local commits have been replayed or dropped
    var rebasing: bool
    var unmerged: set<Path>

    ghost predicate Valid()
      reads this
    {
      at < |commits| && (rebasing ==> at + 1 < |commits|)
    }

    /** Stopped at a commit, with its conflicts as they are or all resolved to nothing. */
    ghost predicate Stopped(byPath: map<Path, Option<nat>>, files: map<Entry, Bytes>)
      reads this
    {
      && Valid() && rebasing && KeptAtStop(upstream, commits, head, at, byPath, files)
      && (unmerged != {} ==>
           unmerged == ConflictSet(head, commits[at], commits[at + 1])
             && index == Merged(head, commits[at], commits[at + 1]))
      && (unmerged == {} ==> index == head && ResolvedIndex(upstream, commits, head, at, index, byPath, files))
    }

    ghost predicate Done(byPath: map<Path, Option<nat>>, files: map<Entry, Bytes>)
      reads this
    {
      Valid() && !rebasing && at == |commits| - 1 && Kept(upstream, commits, head, at, byPath, files)
    }

    constructor (shared: Tree, locals: seq<Tree>, upstream: Tree)
      ensures Valid() && this.upstream == upstream && commits == [shared] + locals && !rebasing && at == 0
      ensures head == original == ([shared] + locals)[|locals|]
    {
      this.upstream := upstream;
      this.commits := [shared] + locals;
      this.original := ([shared] + locals)[|locals|];
      this.head := ([shared] + locals)[|locals|];
      this.index, this.at, this.rebasing, this.unmerged := map[], 0, false, {};
    }

    /** Replay commits until one conflicts or none is left; a commit that changes nothing is dropped. */
    method Advance(ghost byPath: map<Path, Option<nat>>, ghost files: map<Entry, Bytes>)
      requires Valid() && Kept(upstream, commits, head, at, byPath, files)
      modifies this`head, this`index, this`at, this`rebasing, this`unmerged
      ensures old(at) <= at
      ensures if rebasing then Stopped(byPath, files) && unmerged != {} else Done(byPath, files)
    {
      hide Merged, ConflictSet, Kept, KeptAtStop, ResolvedIndex;
      while at + 1 < |commits|
        invariant old(at) <= at < |commits| && Kept(upstream, commits, head, at, byPath, files)
      {
        KeptIsKeptAtStop(upstream, commits, head, at, byPath, files);
        index := Merged(head, commits[at], commits[at + 1]);
        unmerged := ConflictSet(head, commits[at], commits[at + 1]);
        if unmerged != {} {
          rebasing := true;
          return;
        }
        CleanIsResolved(upstream, commits, head, at, byPath, files);
        CommitKeeps(upstream, commits, head, at, index, byPath, files);
        head := index;
        at := at + 1;
      }
      rebasing := false;
    }

    method Start(ghost byPath: map<Path, Option<nat>>, ghost files: map<Entry, Bytes>)
      requires Valid()
      modifies this`head, this`index, this`at, this`rebasing, this`unmerged
      ensures if rebasing then Stopped(byPath, files) && unmerged != {} else Done(byPath, files)
    {
      head := upstream;
      at := 0;
      rebasing := false;
      Advance(byPath, files);
    }

    /** Commit the resolved index and go on; an index that changes nothing is refused and stays stopped. */
    method Continue(ghost byPath: map<Path, Option<nat>>, ghost files: map<Entry, Bytes>)
      requires Valid() && rebasing && unmerged == {} && KeptAtStop(upstream, commits, head, at, byPath, files)
      requires ResolvedIndex(upstream, commits, head, at, index, byPath, files)
      modifies this`head, this`index, this`at, this`rebasing, this`unmerged
      ensures if rebasing then Stopped(byPath, files) else Done(byPath, files)
      ensures at == old(at) ==> rebasing && unmerged == {}
      ensures at > old(at) ==> (rebasing ==> unmerged != {})
      ensures old(at) <= at
    {
      hide Merged, ConflictSet, Kept, KeptAtStop, ResolvedIndex;
      if index == head {
        return;
      }
      CommitKeeps(upstream, commits, head, at, index, byPath, files);
      head := index;
      at := at + 1;
      rebasing := false;
      Advance(byPath, files);
    }

    /** Drop the stopped commit, which has become empty. */
    method Skip(ghost byPath: map<Path, Option<nat>>, ghost files: map<Entry, Bytes>)
      requires Stopped(byPath, files) && unmerged == {}
      modifies this`head, this`index, this`at, this`rebasing, this`unmerged
      ensures if rebasing then Stopped(byPath, files) && unmerged != {} else Done(byPath, files)
      ensures old(at) < at
    {
      hide Merged, ConflictSet, Kept, KeptAtStop, ResolvedIndex;
      CommitKeeps(upstream, commits, head, at, index, byPath, files);
      at := at + 1;
      rebasing := false;
      Advance(byPath, files);
    }

    /** Restore the board as it was before the rebase. */
    method Abort()
      requires Valid()
      modifies this`head, this`rebasing, this`unmerged, this`at
      ensures Valid() && head == original && !rebasing
    {
      head, rebasing, unmerged, at := original, false, {}, 0;
    }

    method ConflictedPaths() returns (paths: seq<Path>)
      ensures forall p :: p in paths <==> p in unmerged
      ensures forall i, j :: 0 <= i < j < |paths| ==> paths[i] != paths[j]
    {
      paths := [];
      var left := unmerged;
      while left != {}
        invariant left <= unmerged
        invariant forall p :: p in unmerged <==> p in paths || p in left
        invariant forall i :: 0 <= i < |paths| ==> paths[i] !in left
        invariant forall i, j :: 0 <= i < j < |paths| ==> paths[i] != paths[j]
        decreases |left|
      {
        var p :| p in left;
        paths := paths + [p];
        left := left - {p};
      }
    }

    /** Restore the upstream version of a path, or remove it where upstream has none, and mark it resolved. */
    method KeepUpstream(p: Path)
      modifies this`index, this`unmerged
      ensures index == With(old(index), p, At(upstream, p)) && unmerged == old(unmerged) - {p}
    {
      index := With(index, p, At(upstream, p));
      unmerged := unmerged - {p};
    }
  }

  datatype Outcome = Clean | Resolved(byPath: map<Path, Option<nat>>) | Failed(backstop: bool)

  /** What a stop does for one conflicted path: its local version is saved, then upstream's is kept. */
  datatype Command = Save(path: Path) | Keep(path: Path)

  /** How far a rebase still has to go, at most: two turns for each commit, one for one resolved to nothing. */
  ghost function TurnsLeft(board: Board): nat
    requires board.Valid()
    reads board
  {
    if !board.rebasing then 0
    else 2 * (|board.commits| - 1 - board.at) - if board.unmerged == {} then 1 else 0
  }

  /** The paths resolved so far at one stop. */
  ghost predicate Resolving(board: Board, done: set<Path>, byPath: map<Path, Option<nat>>, files: map<Entry, Bytes>)
    requires board.at + 1 < |board.commits|
    reads board
  {
    var head, base, theirs := board.head, board.commits[board.at], board.commits[board.at + 1];
    && board.unmerged == ConflictSet(head, base, theirs) - done
    && (forall p :: p in done ==>
         At(board.index, p) == At(board.upstream, p) && Reported(files, byPath, p, At(theirs, p)))
    && (forall p :: p !in done ==> At(board.index, p) == At(Merged(head, base, theirs), p))
  }

  /** A saved copy and its report take nothing from the other paths' reports. */
  lemma ReportsStay(commits: seq<Tree>, head: Tree, at: nat, byPath: map<Path, Option<nat>>,
                    files: map<Entry, Bytes>, besides: set<Path>, p: Path, slot: Option<nat>,
                    next: map<Entry, Bytes>)
    requires at < |commits| && Accounted(commits, head, at, byPath, files, besides) && p in besides
    requires forall e :: e in files ==> e in next && next[e] == files[e]
    ensures Accounted(commits, head, at, byPath[p := slot], next, besides)
  {
    hide Touched;
  }

  lemma ResolvingOne(board: Board, done: set<Path>, byPath: map<Path, Option<nat>>, files: map<Entry, Bytes>,
                     p: Path, slot: Option<nat>, next: map<Entry, Bytes>, index: Tree)
    requires board.Valid() && board.rebasing && Resolving(board, done, byPath, files)
    requires forall e :: e in files ==> e in next && next[e] == files[e]
    requires p in board.unmerged && Exported(next, p, slot, At(board.commits[board.at + 1], p))
    requires index == With(board.index, p, At(board.upstream, p))
    ensures
      var head, base, theirs := board.head, board.commits[board.at], board.commits[board.at + 1];
      && (forall q :: q in done + {p} ==>
           At(index, q) == At(board.upstream, q) && Reported(next, byPath[p := slot], q, At(theirs, q)))
      && (forall q :: q !in done + {p} ==> At(index, q) == At(Merged(head, base, theirs), q))
  {
    hide Merged, Conflicts, ConflictSet;
    assert forall q :: q != p ==> At(index, q) == At(board.index, q);
    assert At(index, p) == At(board.upstream, p);
  }

  lemma PreservesChain(first: Disk, second: Disk, third: Disk)
    requires Preserves(first, second) && Preserves(second, third)
    ensures Preserves(first, third)
  {
  }

  /**
   * The loop over the stops. `fails` says which save or git command of which stop fails; the loop gives up
   * when one does, or after too many stops. What was saved by then stays. It takes at most two turns for each
   * local commit.
   */
  method FetchRebaseResolving(
      board: Board, store: CopyStore, isDoc: Path -> bool, bodyOf: Bytes -> Option<Bytes>,
      fails: (nat, Command) -> bool)
          returns (outcome: Outcome, turns: nat)
    requires board.Valid() && store.Valid()
    requires forall p :: isDoc(p) ==> Companion(p) != p
    requires forall k :: 0 <= k < |board.commits| ==> [] !in board.commits[k]
    modifies board, store
    ensures store.Valid() && Preserves(old(store.View()), store.View()) && board.Valid() && !board.rebasing
    ensures outcome.Failed? ==> board.head == board.original
    ensures outcome.Failed? && !outcome.backstop ==> exists stop, command :: fails(stop, command)
    ensures turns <= 2 * (|board.commits| - 1)
    ensures outcome.Failed? && outcome.backstop ==> turns == MAX_REBASE_STOPS + 1 && |board.commits| - 1 > 500
    ensures !outcome.Failed? ==>
      var byPath := if outcome.Resolved? then outcome.byPath else map[];
      board.at == |board.commits| - 1 && Kept(board.upstream, board.commits, board.head, board.at, byPath, store.files)
  {
    hide Kept, KeptAtStop, ResolvedIndex, Merged, Conflicts, ConflictSet, Wellformed;
    var byPath: map<Path, Option<nat>> := map[];
    board.Start(byPath, store.files);
    if !board.rebasing {
      return Clean, 0;
    }
    var stops := 0;
    while board.rebasing
      invariant store.Valid() && Preserves(old(store.View()), store.View()) && board.Valid()
      invariant if board.rebasing then board.Stopped(byPath, store.files) else board.Done(byPath, store.files)
      invariant stops <= MAX_REBASE_STOPS && stops + TurnsLeft(board) <= 2 * (|board.commits| - 1)
      decreases TurnsLeft(board)
    {
      stops := stops + 1;
      if stops > MAX_REBASE_STOPS {
        board.Abort();
        return Failed(true), stops;
      }
      var conflicted := board.ConflictedPaths();
      if |conflicted| == 0 {
        board.Skip(byPath, store.files);
        continue;
      }
      assert conflicted[0] in conflicted;
      var failed: bool;
      failed, byPath := ResolveStop(board, store, isDoc, bodyOf, fails, stops, conflicted, byPath);
      if failed {
        board.Abort();
        return Failed(false), stops;
      }
      board.Continue(byPath, store.files);
    }
    outcome, turns := Resolved(byPath), stops;
  }

  /** Save a conflicted path's local version; a local deletion has none. */
  method SaveLocal(store: CopyStore, p: Path, local: Option<Bytes>, isDoc: bool, bodyOf: Bytes -> Option<Bytes>)
      returns (slot: Option<nat>)
    requires store.Valid() && (local.Some? ==> p != []) && (isDoc ==> Companion(p) != p)
    modifies store
    ensures store.Valid() && Preserves(old(store.View()), store.View()) && Exported(store.files, p, slot, local)
  {
    slot := None;
    if local.Some? {
      var saved := store.SaveCopyWithBody(p, local.value, isDoc, bodyOf(local.value));
      slot := Some(saved);
    }
  }

  /** One stop: each conflicted path's local version saved, then its upstream version restored. */
  method ResolveStop(
      board: Board, store: CopyStore, isDoc: Path -> bool, bodyOf: Bytes -> Option<Bytes>,
      fails: (nat, Command) -> bool, stops: nat, conflicted: seq<Path>, reports: map<Path, Option<nat>>)
          returns (failed: bool, byPath: map<Path, Option<nat>>)
    requires store.Valid() && board.Stopped(reports, store.files) && board.unmerged != {}
    requires forall p :: isDoc(p) ==> Companion(p) != p
    requires forall k :: 0 <= k < |board.commits| ==> [] !in board.commits[k]
    requires forall p :: p in conflicted <==> p in board.unmerged
    requires forall i, j :: 0 <= i < j < |conflicted| ==> conflicted[i] != conflicted[j]
    modifies board`index, board`unmerged, store
    ensures store.Valid() && Preserves(old(store.View()), store.View()) && board.Valid() && board.rebasing
    ensures failed ==> exists stop, command :: fails(stop, command)
    ensures !failed ==> board.unmerged == {}
    ensures !failed ==> KeptAtStop(board.upstream, board.commits, board.head, board.at, byPath, store.files)
    ensures !failed ==>
      ResolvedIndex(board.upstream, board.commits, board.head, board.at, board.index, byPath, store.files)
  {
    hide Merged, Conflicts, ConflictSet, Wellformed, Follows, Accounted, Exported, Reported, With, SlotTaken;
    ghost var disk := store.View();
    byPath := reports;
    ghost var head, base, theirs := board.head, board.commits[board.at], board.commits[board.at + 1];
    ghost var done: set<Path> := {};
    for i := 0 to |conflicted|
      invariant store.Valid() && Preserves(old(store.View()), store.View())
      invariant done == set k | 0 <= k < i :: conflicted[k]
      invariant Resolving(board, done, byPath, store.files)
      invariant Accounted(board.commits, head, board.at, byPath, store.files, ConflictSet(head, base, theirs))
    {
      var p := conflicted[i];
      if fails(stops, Save(p)) {
        return true, byPath;
      }
      var local := At(board.commits[board.at + 1], p);
      ghost var was, before := store.files, store.View();
      var slot := SaveLocal(store, p, local, isDoc(p), bodyOf);
      PreservesChain(disk, before, store.View());
      if fails(stops, Keep(p)) {
        return true, byPath;
      }
      assert p !in done;
      ResolvingOne(board, done, byPath, was, p, slot, store.files, With(board.index, p, At(board.upstream, p)));
      ReportsStay(board.commits, head, board.at, byPath, was, ConflictSet(head, base, theirs), p, slot, store.files);
      board.KeepUpstream(p);
      byPath := byPath[p := slot];
      done := done + {p};
    }
    failed := false;
    assert done == ConflictSet(head, base, theirs) by {
      assert forall k :: 0 <= k < |conflicted| ==> conflicted[k] in conflicted;
    }
    ResolvedAll(board, done, byPath, store.files);
  }

  lemma ResolvedAll(board: Board, done: set<Path>, byPath: map<Path, Option<nat>>, files: map<Entry, Bytes>)
    requires board.Valid() && board.rebasing && Resolving(board, done, byPath, files)
    requires done == ConflictSet(board.head, board.commits[board.at], board.commits[board.at + 1])
    ensures board.unmerged == {}
    ensures ResolvedIndex(board.upstream, board.commits, board.head, board.at, board.index, byPath, files)
  {
    hide Merged, Reported, ConflictSet;
  }

  /**
   * After a rebase that went through, each path the local commits touched holds its final local content, or
   * the reported copy does, byte for byte; a deletion leaves nothing to save.
   */
  lemma NothingLocalIsLost(board: Board, byPath: map<Path, Option<nat>>, files: map<Entry, Bytes>, p: Path)
    requires board.Valid() && board.at == |board.commits| - 1
    requires Kept(board.upstream, board.commits, board.head, board.at, byPath, files)
    requires Touched(board.commits, board.at, p)
    ensures
      var last := board.commits[board.at];
      || At(board.head, p) == At(last, p)
      || (At(board.head, p) == At(board.upstream, p) && p in byPath
          && (p in last ==>
               byPath[p].Some? && Entry(byPath[p].value, p) in files && files[Entry(byPath[p].value, p)] == last[p]))
  {
    hide Touched;
  }
}
