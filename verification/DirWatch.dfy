/**
 The watcher lists of a cached workspace's directories. A path is watched by the daemon in the workspace's
 pod while at least one user has the directory open.
 */
module DirWatch {
  import opened Arrays
  import opened Events

  type Uid = string
  type Dirs = map<Path, seq<Uid>>

  /** New watcher lists and the paths for which a `watch.remove` is emitted, in order. */
  datatype Closed = Closed(dirs: Dirs, removes: seq<Path>)

  /******* Opening and closing directories *******/

  function Watchers(dirs: Dirs, path: Path): seq<Uid> {
    if path in dirs then dirs[path] else []
  }

  function AddWatcher(dirs: Dirs, path: Path, uid: Uid): Dirs {
    dirs[path := Dedup(Watchers(dirs, path) + [uid])]
  }

  function StoreOrDrop(dirs: Dirs, path: Path, left: seq<Uid>): Closed {
    if left == [] then Closed(dirs - {path}, [path]) else Closed(dirs[path := left], [])
  }

  /** `updateCache` with `add` false: guarded. */
  function RemoveWatcher(dirs: Dirs, path: Path, uid: Uid): Closed {
    if uid in Watchers(dirs, path) then StoreOrDrop(dirs, path, Splice(dirs[path], IndexOf(dirs[path], uid)))
    else Closed(dirs, [])
  }

  /** One round of `closeDirs`: not guarded. The source fails on a path without watchers; callers list none. */
  function RemoveUnchecked(dirs: Dirs, path: Path, uid: Uid): Closed {
    if path in dirs then StoreOrDrop(dirs, path, Splice(dirs[path], IndexOf(dirs[path], uid))) else Closed(dirs, [])
  }

  function Then(a: Closed, b: Closed): Closed {
    Closed(b.dirs, a.removes + b.removes)
  }

  /** Closing the paths one by one through the cache. */
  function CloseOneByOne(dirs: Dirs, paths: seq<Path>, uid: Uid): Closed {
    if paths == [] then Closed(dirs, [])
    else
      var first := RemoveWatcher(dirs, paths[0], uid);
      Then(first, CloseOneByOne(first.dirs, paths[1..], uid))
  }

  /** The batch on one copy of the workspace. */
  function CloseBatch(dirs: Dirs, paths: seq<Path>, uid: Uid): Closed {
    if paths == [] then Closed(dirs, [])
    else
      var first := RemoveUnchecked(dirs, paths[0], uid);
      Then(first, CloseBatch(first.dirs, paths[1..], uid))
  }

  /******* What closing means, without splicing *******/

  /** Every closed path keeps its other watchers in order, and a closed path with no other watcher goes. */
  function WithoutUser(dirs: Dirs, paths: seq<Path>, uid: Uid): Dirs {
    map p | p in dirs && (p in paths ==> Without(dirs[p], uid) != []) ::
      if p in paths then Without(dirs[p], uid) else dirs[p]
  }

  function OnlyWatchedBy(dirs: Dirs, paths: seq<Path>, uid: Uid): seq<Path> {
    if paths == [] then []
    else (if Watchers(dirs, paths[0]) == [uid] then [paths[0]] else []) + OnlyWatchedBy(dirs, paths[1..], uid)
  }

  predicate WellFormed(dirs: Dirs) {
    forall p | p in dirs :: dirs[p] != [] && NoDup(dirs[p])
  }

  /** Distinct paths, each watched by the user. */
  predicate WatchedPaths(dirs: Dirs, paths: seq<Path>, uid: Uid) {
    NoDup(paths) && forall p | p in paths :: p in dirs && uid in dirs[p]
  }

  /** One close, checked or not, on a path the user watches. */
  lemma RemoveIsWithout(dirs: Dirs, path: Path, uid: Uid)
    requires WellFormed(dirs) && path in dirs && uid in dirs[path]
    ensures RemoveWatcher(dirs, path, uid) == RemoveUnchecked(dirs, path, uid)
    ensures var c := RemoveWatcher(dirs, path, uid);
            && WellFormed(c.dirs)
            && c.removes == (if dirs[path] == [uid] then [path] else [])
            && (forall p | p != path :: (p in c.dirs <==> p in dirs) && (p in dirs ==> c.dirs[p] == dirs[p]))
            && (path in c.dirs <==> Without(dirs[path], uid) != [])
            && (path in c.dirs ==> c.dirs[path] == Without(dirs[path], uid))
  {
    SpliceIsWithout(dirs[path], uid);
    WithoutNoDup(dirs[path], uid);
    if Without(dirs[path], uid) == [] {
      NoOthers(dirs[path], uid);
    }
  }

  lemma {:induction false} OnlyWatchedFrame(dirs: Dirs, other: Dirs, paths: seq<Path>, uid: Uid)
    requires forall p | p in paths :: Watchers(dirs, p) == Watchers(other, p)
    ensures OnlyWatchedBy(dirs, paths, uid) == OnlyWatchedBy(other, paths, uid)
  {
    if paths != [] {
      OnlyWatchedFrame(dirs, other, paths[1..], uid);
    }
  }

  /**
   Closing watched paths: the batch and the one-by-one form agree, messages included, and other users keep their
   watches in order.
   */
  lemma {:induction false} BatchIsOneByOne(dirs: Dirs, paths: seq<Path>, uid: Uid)
    requires WellFormed(dirs) && WatchedPaths(dirs, paths, uid)
    ensures CloseBatch(dirs, paths, uid) == CloseOneByOne(dirs, paths, uid)
    ensures CloseBatch(dirs, paths, uid) == Closed(WithoutUser(dirs, paths, uid), OnlyWatchedBy(dirs, paths, uid))
    decreases |paths|
  {
    if paths == [] {
      assert WithoutUser(dirs, paths, uid) == dirs;
    } else {
      var p0, rest := paths[0], paths[1..];
      var next := RemoveWatcher(dirs, p0, uid).dirs;
      AfterFirst(dirs, paths, uid);
      BatchIsOneByOne(next, rest, uid);
    }
  }

  lemma AfterFirst(dirs: Dirs, paths: seq<Path>, uid: Uid)
    requires WellFormed(dirs) && WatchedPaths(dirs, paths, uid) && paths != []
    ensures var first := RemoveWatcher(dirs, paths[0], uid);
            && first == RemoveUnchecked(dirs, paths[0], uid)
            && WellFormed(first.dirs) && WatchedPaths(first.dirs, paths[1..], uid)
            && WithoutUser(first.dirs, paths[1..], uid) == WithoutUser(dirs, paths, uid)
            && first.removes + OnlyWatchedBy(first.dirs, paths[1..], uid) == OnlyWatchedBy(dirs, paths, uid)
  {
    var p0, rest := paths[0], paths[1..];
    RemoveIsWithout(dirs, p0, uid);
    var next := RemoveWatcher(dirs, p0, uid).dirs;
    Tail(paths);
    OnlyWatchedFrame(dirs, next, rest, uid);
    WithoutUserAfterFirst(dirs, next, paths, uid);
  }

  lemma Tail(paths: seq<Path>)
    requires NoDup(paths) && paths != []
    ensures NoDup(paths[1..]) && paths[0] !in paths[1..]
    ensures forall p :: p in paths <==> p == paths[0] || p in paths[1..]
  {
    assert paths == [paths[0]] + paths[1..];
  }

  lemma WithoutUserAfterFirst(dirs: Dirs, next: Dirs, paths: seq<Path>, uid: Uid)
    requires NoDup(paths) && paths != [] && paths[0] in dirs
    requires forall p | p != paths[0] :: (p in next <==> p in dirs) && (p in dirs ==> next[p] == dirs[p])
    requires paths[0] in next <==> Without(dirs[paths[0]], uid) != []
    requires paths[0] in next ==> next[paths[0]] == Without(dirs[paths[0]], uid)
    ensures WithoutUser(next, paths[1..], uid) == WithoutUser(dirs, paths, uid)
  {
    Tail(paths);
  }

  /** A path that is not among those closed stays as it was. */
  lemma {:induction false} BatchKeepsPath(dirs: Dirs, paths: seq<Path>, uid: Uid, p: Path)
    requires p !in paths
    ensures Watchers(CloseBatch(dirs, paths, uid).dirs, p) == Watchers(dirs, p)
    ensures p in CloseBatch(dirs, paths, uid).dirs <==> p in dirs
    decreases |paths|
  {
    if paths != [] {
      BatchKeepsPath(RemoveUnchecked(dirs, paths[0], uid).dirs, paths[1..], uid, p);
    }
  }

  lemma {:induction false} BatchAt(dirs: Dirs, paths: seq<Path>, uid: Uid, p: Path)
    requires NoDup(paths) && p in paths && p in dirs
    ensures Watchers(CloseBatch(dirs, paths, uid).dirs, p) == Splice(dirs[p], IndexOf(dirs[p], uid))
    decreases |paths|
  {
    Tail(paths);
    var first := RemoveUnchecked(dirs, paths[0], uid);
    if p == paths[0] {
      BatchKeepsPath(first.dirs, paths[1..], uid, p);
    } else {
      assert p in first.dirs && first.dirs[p] == dirs[p];
      BatchAt(first.dirs, paths[1..], uid, p);
    }
  }

  lemma {:induction false} OneByOneKeepsUnwatched(dirs: Dirs, paths: seq<Path>, uid: Uid, p: Path)
    requires uid !in Watchers(dirs, p)
    ensures Watchers(CloseOneByOne(dirs, paths, uid).dirs, p) == Watchers(dirs, p)
    decreases |paths|
  {
    if paths != [] {
      OneByOneKeepsUnwatched(RemoveWatcher(dirs, paths[0], uid).dirs, paths[1..], uid, p);
    }
  }

  /** The unguarded batch is safe exactly on paths the user watches; on any other path it drops somebody else. */
  lemma BatchIsOneByOneIff(dirs: Dirs, paths: seq<Path>, uid: Uid)
    requires WellFormed(dirs) && NoDup(paths) && forall p | p in paths :: p in dirs
    ensures CloseBatch(dirs, paths, uid) == CloseOneByOne(dirs, paths, uid) <==> WatchedPaths(dirs, paths, uid)
  {
    if WatchedPaths(dirs, paths, uid) {
      BatchIsOneByOne(dirs, paths, uid);
    } else {
      var p :| p in paths && uid !in dirs[p];
      BatchAt(dirs, paths, uid, p);
      OneByOneKeepsUnwatched(dirs, paths, uid, p);
      assert |Splice(dirs[p], -1)| == |dirs[p]| - 1;
    }
  }

  /** Opening adds the user once, at the end if new, and touches no other path. */
  lemma AddKeepsWellFormed(dirs: Dirs, path: Path, uid: Uid)
    requires WellFormed(dirs)
    ensures WellFormed(AddWatcher(dirs, path, uid))
    ensures Watchers(AddWatcher(dirs, path, uid), path) ==
            if uid in Watchers(dirs, path) then dirs[path] else Watchers(dirs, path) + [uid]
  {
    DedupAppend(Watchers(dirs, path), uid);
  }

  /** Closing what was just opened restores the lists. */
  lemma CloseUndoesOpen(dirs: Dirs, path: Path, uid: Uid)
    requires WellFormed(dirs) && uid !in Watchers(dirs, path)
    ensures RemoveWatcher(AddWatcher(dirs, path, uid), path, uid).dirs == dirs
  {
    var ws := Watchers(dirs, path);
    DedupAppend(ws, uid);
    SpliceLast(ws, uid);
    RestoresList(dirs, path, ws + [uid]);
  }

  lemma RestoresList(dirs: Dirs, path: Path, list: seq<Uid>)
    requires WellFormed(dirs)
    ensures StoreOrDrop(dirs[path := list], path, Watchers(dirs, path)).dirs == dirs
  {
    if path in dirs {
      assert dirs[path := list][path := dirs[path]] == dirs;
    } else {
      assert dirs[path := list] - {path} == dirs;
    }
  }

  /******* Closing one more path *******/

  lemma ThenThen(a: Closed, b: Closed, c: Closed)
    ensures Then(a, Then(b, c)) == Then(Then(a, b), c)
  {
    assert a.removes + (b.removes + c.removes) == (a.removes + b.removes) + c.removes;
  }

  lemma {:induction false} OneMoreOneByOne(dirs: Dirs, paths: seq<Path>, uid: Uid, p: Path)
    ensures var c := CloseOneByOne(dirs, paths, uid);
            CloseOneByOne(dirs, paths + [p], uid) == Then(c, RemoveWatcher(c.dirs, p, uid))
    decreases |paths|
  {
    if paths == [] {
      assert paths + [p] == [p] && [p][1..] == [];
    } else {
      var first := RemoveWatcher(dirs, paths[0], uid);
      var rest := CloseOneByOne(first.dirs, paths[1..], uid);
      assert (paths + [p])[0] == paths[0] && (paths + [p])[1..] == paths[1..] + [p];
      OneMoreOneByOne(first.dirs, paths[1..], uid, p);
      ThenThen(first, rest, RemoveWatcher(rest.dirs, p, uid));
    }
  }

  lemma {:induction false} OneMoreInBatch(dirs: Dirs, paths: seq<Path>, uid: Uid, p: Path)
    ensures var c := CloseBatch(dirs, paths, uid);
            CloseBatch(dirs, paths + [p], uid) == Then(c, RemoveUnchecked(c.dirs, p, uid))
    decreases |paths|
  {
    if paths == [] {
      assert paths + [p] == [p] && [p][1..] == [];
    } else {
      var first := RemoveUnchecked(dirs, paths[0], uid);
      var rest := CloseBatch(first.dirs, paths[1..], uid);
      assert (paths + [p])[0] == paths[0] && (paths + [p])[1..] == paths[1..] + [p];
      OneMoreInBatch(first.dirs, paths[1..], uid, p);
      ThenThen(first, rest, RemoveUnchecked(rest.dirs, p, uid));
    }
  }

  /** The next path of a duplicate-free list is still there. */
  lemma NextIsThere(dirs: Dirs, paths: seq<Path>, uid: Uid, i: nat)
    requires NoDup(paths) && i < |paths| && paths[i] in dirs
    ensures paths[i] in CloseBatch(dirs, paths[..i], uid).dirs
  {
    BatchKeepsPath(dirs, paths[..i], uid, paths[i]);
  }

  /******* The service as it runs: lists changed in place *******/

  /** The cached workspace entry together with the channel to the daemon. */
  class FSService {
    var dirs: Dirs
    var removes: seq<Path>

    constructor ()
      ensures dirs == map[] && removes == []
    {
      dirs, removes := map[], [];
    }

    ghost function Now(): Closed
      reads this
    {
      Closed(dirs, removes)
    }

    method UpdateCache(uid: Uid, path: Path, add: bool)
      modifies this
      ensures add ==> dirs == AddWatcher(old(dirs), path, uid) && removes == old(removes)
      ensures !add ==> Now() == Then(old(Now()), RemoveWatcher(old(dirs), path, uid))
    {
      var watchers := Watchers(dirs, path);
      if add {
        watchers := Dedup(watchers + [uid]);
        dirs := dirs[path := watchers];
      } else if uid in watchers {
        watchers := Splice(watchers, IndexOf(watchers, uid));
        if |watchers| == 0 {
          dirs := dirs - {path};
          removes := removes + [path];
        } else {
          dirs := dirs[path := watchers];
        }
      }
    }

    method SpliceOut(uid: Uid, path: Path)
      requires path in dirs
      modifies this
      ensures Now() == Then(old(Now()), RemoveUnchecked(old(dirs), path, uid))
    {
      var watchers := dirs[path];
      watchers := Splice(watchers, IndexOf(watchers, uid));
      if |watchers| == 0 {
        dirs := dirs - {path};
        removes := removes + [path];
      } else {
        dirs := dirs[path := watchers];
      }
    }

    method CloseDirs(uid: Uid, paths: seq<Path>)
      requires NoDup(paths) && forall p | p in paths :: p in dirs
      modifies this
      ensures Now() == Then(old(Now()), CloseBatch(old(dirs), paths, uid))
    {
      ghost var was := Now();
      for i := 0 to |paths|
        invariant Now() == Then(was, CloseBatch(was.dirs, paths[..i], uid))
      {
        NextIsThere(was.dirs, paths, uid, i);
        SpliceOut(uid, paths[i]);
        BatchGoesOn(was, paths, uid, i);
      }
      assert paths[..|paths|] == paths;
    }

    /** Closing a directory at a time, each through the cache. */
    method CloseEach(uid: Uid, paths: seq<Path>)
      modifies this
      ensures Now() == Then(old(Now()), CloseOneByOne(old(dirs), paths, uid))
    {
      ghost var was := Now();
      for i := 0 to |paths|
        invariant Now() == Then(was, CloseOneByOne(was.dirs, paths[..i], uid))
      {
        UpdateCache(uid, paths[i], false);
        OneByOneGoesOn(was, paths, uid, i);
      }
      assert paths[..|paths|] == paths;
    }
  }

  lemma BatchGoesOn(was: Closed, paths: seq<Path>, uid: Uid, i: nat)
    requires i < |paths|
    ensures var c := CloseBatch(was.dirs, paths[..i], uid);
            Then(Then(was, c), RemoveUnchecked(c.dirs, paths[i], uid)) ==
            Then(was, CloseBatch(was.dirs, paths[..i + 1], uid))
  {
    var c := CloseBatch(was.dirs, paths[..i], uid);
    assert paths[..i + 1] == paths[..i] + [paths[i]];
    OneMoreInBatch(was.dirs, paths[..i], uid, paths[i]);
    ThenThen(was, c, RemoveUnchecked(c.dirs, paths[i], uid));
  }

  lemma OneByOneGoesOn(was: Closed, paths: seq<Path>, uid: Uid, i: nat)
    requires i < |paths|
    ensures var c := CloseOneByOne(was.dirs, paths[..i], uid);
            Then(Then(was, c), RemoveWatcher(c.dirs, paths[i], uid)) ==
            Then(was, CloseOneByOne(was.dirs, paths[..i + 1], uid))
  {
    var c := CloseOneByOne(was.dirs, paths[..i], uid);
    assert paths[..i + 1] == paths[..i] + [paths[i]];
    OneMoreOneByOne(was.dirs, paths[..i], uid, paths[i]);
    ThenThen(was, c, RemoveWatcher(c.dirs, paths[i], uid));
  }
}
