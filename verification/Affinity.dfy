/**
 One workspace seen by all env instances: the cached entry with its `fs` owner and watcher lists, the daemon in
 the workspace's pod with its affine instance and its watches, and the watch messages on their way to the daemon.
 */
module Affinity {
  import opened Arrays
  import opened DirWatch
  import opened Events
  import opened Options
  import Fanout

  type InstanceId = string

  datatype Watch = Add(path: Path) | Remove(path: Path)

  datatype Entry = Entry(fs: InstanceId, dirs: Dirs)

  datatype Pod = Pod(affine: Option<InstanceId>, watches: set<Path>)

  /**
   `opening` holds the directory opens between their `watch.add` and their cache update; `armed` the live
   instances that keep path state for the workspace; `used` every instance id handed out so far.
   */
  datatype State = State(entry: Option<Entry>, pod: Option<Pod>, queue: seq<Watch>, opening: multiset<Path>,
                         live: set<InstanceId>, armed: set<InstanceId>, used: set<InstanceId>)

  const INIT := State(None, None, [], multiset{}, {}, {}, {})

  datatype Event =
    | Start(id: InstanceId)
    | Crash(id: InstanceId)
    | PodUp
    | PodLost
    | EnvReady(id: InstanceId, uid: Uid, paths: seq<Path>, reply: Reply)
    | EnvClose(uid: Uid, paths: seq<Path>)
    | BeginOpen(path: Path)
    | FinishOpen(uid: Uid, path: Path)
    | AbortOpen(path: Path)
    | CloseDir(uid: Uid, path: Path)
    | DaemonReads
    | DropEntry

  /******* Steps *******/

  function Do(watches: set<Path>, m: Watch): set<Path> {
    match m
    case Add(path) => watches + {path}
    case Remove(path) => watches - {path}
  }

  /** The watches once the daemon has read the whole queue. */
  function Drain(watches: set<Path>, queue: seq<Watch>): set<Path>
    decreases |queue|
  {
    if queue == [] then watches else Drain(Do(watches, queue[0]), queue[1..])
  }

  function Removes(paths: seq<Path>): seq<Watch> {
    seq(|paths|, i requires 0 <= i < |paths| => Remove(paths[i]))
  }

  /** A message with no daemon listening is lost. */
  function Send(s: State, ms: seq<Watch>): State {
    if s.pod.Some? then s.(queue := s.queue + ms) else s
  }

  /** `paths` lists, once each and in any order, the paths the user watches. */
  predicate Lists(dirs: Dirs, paths: seq<Path>, uid: Uid) {
    WatchedPaths(dirs, paths, uid) && forall p | p in dirs && uid in dirs[p] :: p in paths
  }

  function StoreClosed(s: State, c: Closed): State
    requires s.entry.Some?
  {
    Send(s.(entry := Some(s.entry.value.(dirs := c.dirs))), Removes(c.removes))
  }

  /** Closing the user's directories in one batch, as a new session of the user starts. */
  function Invalidate(s: State, uid: Uid, paths: seq<Path>): State
    requires s.entry.Some? ==> Lists(s.entry.value.dirs, paths, uid)
  {
    if s.entry.None? then s else StoreClosed(s, CloseBatch(s.entry.value.dirs, paths, uid))
  }

  predicate Dirty(s: State) {
    s.entry.None? || s.entry.value.dirs == map[]
  }

  /** The instance asks the daemon to send it the workspace's watch events. */
  function TakeOver(s: State, id: InstanceId, reply: Reply): State
    requires s.pod.Some? && Dirty(s)
  {
    match reply
    case Done =>
      s.(entry := Some(Entry(id, map[])), pod := Some(s.pod.value.(affine := Some(id))), armed := s.armed + {id})
    case Refused => s
    case Lost => s.(pod := Some(s.pod.value.(affine := Some(id))))
  }

  predicate Applies(s: State, e: Event) {
    match e
    case EnvReady(id, uid, paths, _) =>
      id in s.live && s.pod.Some? && (s.entry.Some? ==> Lists(s.entry.value.dirs, paths, uid))
    case EnvClose(uid, paths) => s.entry.Some? && Lists(s.entry.value.dirs, paths, uid)
    case _ => true
  }

  function Ready(s: State, id: InstanceId, uid: Uid, paths: seq<Path>, reply: Reply): State
    requires s.pod.Some? && (s.entry.Some? ==> Lists(s.entry.value.dirs, paths, uid))
  {
    var s1 := Invalidate(s, uid, paths);
    if Dirty(s1) then TakeOver(s1, id, reply) else s1
  }

  function Step(s: State, e: Event): State {
    if !Applies(s, e) then s else
    match e
    case Start(id) => if id in s.used then s else s.(live := s.live + {id}, used := s.used + {id})
    case Crash(id) => s.(live := s.live - {id}, armed := s.armed - {id})
    case PodUp => if s.pod.Some? then s else s.(pod := Some(Pod(None, {})), queue := [])
    case PodLost => s.(pod := None, queue := [])
    case EnvReady(id, uid, paths, reply) => Ready(s, id, uid, paths, reply)
    case EnvClose(uid, paths) => StoreClosed(s, CloseOneByOne(s.entry.value.dirs, paths, uid))
    case BeginOpen(path) =>
      // without a pod the preceding stat request fails and nothing is opened
      if s.pod.None? then s else Send(s.(opening := s.opening + multiset{path}), [Add(path)])
    case FinishOpen(uid, path) =>
      if path !in s.opening then s
      else
        var s1 := s.(opening := s.opening - multiset{path});
        if s.entry.None? then s1
        else s1.(entry := Some(s.entry.value.(dirs := AddWatcher(s.entry.value.dirs, path, uid))))
    case AbortOpen(path) => s.(opening := s.opening - multiset{path})
    case CloseDir(uid, path) =>
      if s.entry.None? then s else StoreClosed(s, RemoveWatcher(s.entry.value.dirs, path, uid))
    case DaemonReads =>
      if s.pod.None? || s.queue == [] then s
      else s.(pod := Some(s.pod.value.(watches := Do(s.pod.value.watches, s.queue[0]))), queue := s.queue[1..])
    case DropEntry => s.(entry := None)
  }

  /******* What holds throughout *******/

  /** Paths the daemon watches once it has read what is on its way. */
  function Outstanding(s: State): set<Path> {
    if s.pod.None? then {} else Drain(s.pod.value.watches, s.queue)
  }

  predicate Sane(s: State) {
    s.armed <= s.live <= s.used
  }

  /** Every cached watcher list is non-empty and duplicate-free. */
  predicate Listed(s: State) {
    s.entry.Some? ==> WellFormed(s.entry.value.dirs)
  }

  /** The cached owner is the daemon's affine instance and, if alive, keeps path state. */
  predicate Affine(s: State) {
    s.entry.Some? ==>
      && s.pod.Some? && s.pod.value.affine == Some(s.entry.value.fs)
      && s.entry.value.fs in s.used && (s.entry.value.fs in s.live ==> s.entry.value.fs in s.armed)
  }

  /** The path has a cached watcher or is being opened. */
  predicate InUse(s: State, p: Path) {
    (s.entry.Some? && p in s.entry.value.dirs) || p in s.opening
  }

  /** A path in use has an outstanding watch. */
  predicate Covered(s: State, p: Path) {
    InUse(s, p) ==> p in Outstanding(s)
  }

  /** The paths whose last watcher the event removes. */
  function Emptied(s: State, e: Event): seq<Path> {
    if s.entry.None? || !Applies(s, e) then [] else
    match e
    case EnvReady(_, uid, paths, _) => OnlyWatchedBy(s.entry.value.dirs, paths, uid)
    case EnvClose(uid, paths) => OnlyWatchedBy(s.entry.value.dirs, paths, uid)
    case CloseDir(uid, path) => if Watchers(s.entry.value.dirs, path) == [uid] then [path] else []
    case _ => []
  }

  /**
   The affinity answer is lost while another instance is the cached owner of a workspace about to have no open
   directory, or the pod goes before the entry.
   */
  predicate Splits(s: State, e: Event) {
    match e
    case EnvReady(id, uid, paths, Lost) =>
      Applies(s, e) && s.entry.Some? && Dirty(Invalidate(s, uid, paths)) && s.entry.value.fs != id
    case PodLost => s.entry.Some?
    case _ => false
  }

  /** The last watcher leaves the path while it is being opened, or the pod goes while the path is in use. */
  predicate Uncovers(s: State, e: Event, p: Path) {
    (p in Emptied(s, e) && p in s.opening) || (e.PodLost? && InUse(s, p))
  }

  lemma {:induction false} DrainAppend(watches: set<Path>, q: seq<Watch>, r: seq<Watch>)
    ensures Drain(watches, q + r) == Drain(Drain(watches, q), r)
    decreases |q|
  {
    if q == [] {
      assert q + r == r;
    } else {
      assert (q + r)[1..] == q[1..] + r;
      DrainAppend(Do(watches, q[0]), q[1..], r);
    }
  }

  lemma {:induction false} DrainRemoves(watches: set<Path>, paths: seq<Path>)
    ensures forall p :: p in Drain(watches, Removes(paths)) <==> p in watches && p !in paths
    decreases |paths|
  {
    if paths != [] {
      DrainRemoves(watches - {paths[0]}, paths[1..]);
      assert Removes(paths)[1..] == Removes(paths[1..]);
      assert paths == [paths[0]] + paths[1..];
    }
  }

  lemma OutstandingAfterRemoves(s: State, paths: seq<Path>)
    ensures forall p :: p in Outstanding(Send(s, Removes(paths))) <==> p in Outstanding(s) && p !in paths
  {
    if s.pod.Some? {
      DrainAppend(s.pod.value.watches, s.queue, Removes(paths));
      DrainRemoves(Outstanding(s), paths);
    }
  }

  lemma {:induction false} OnlyWatchedIn(dirs: Dirs, paths: seq<Path>, uid: Uid)
    ensures forall p :: p in OnlyWatchedBy(dirs, paths, uid) <==> p in paths && Watchers(dirs, p) == [uid]
    decreases |paths|
  {
    if paths != [] {
      OnlyWatchedIn(dirs, paths[1..], uid);
      assert paths == [paths[0]] + paths[1..];
    }
  }

  lemma WithoutUserShape(dirs: Dirs, paths: seq<Path>, uid: Uid)
    requires WellFormed(dirs)
    ensures WellFormed(WithoutUser(dirs, paths, uid))
    ensures forall p | p in OnlyWatchedBy(dirs, paths, uid) :: p !in WithoutUser(dirs, paths, uid)
  {
    forall p | p in dirs
      ensures NoDup(Without(dirs[p], uid)) && (dirs[p] == [uid] ==> Without(dirs[p], uid) == [])
    {
      WithoutNoDup(dirs[p], uid);
      if Without(dirs[p], uid) != [] {
        assert Without(dirs[p], uid)[0] != uid;
      }
    }
    OnlyWatchedIn(dirs, paths, uid);
  }

  /** What closing a user's watched paths leaves. */
  lemma ClosedShape(dirs: Dirs, paths: seq<Path>, uid: Uid)
    requires WellFormed(dirs) && WatchedPaths(dirs, paths, uid)
    ensures var c := CloseBatch(dirs, paths, uid);
            && c == CloseOneByOne(dirs, paths, uid) && c.removes == OnlyWatchedBy(dirs, paths, uid)
            && WellFormed(c.dirs) && c.dirs.Keys <= dirs.Keys && forall p | p in c.removes :: p !in c.dirs
  {
    BatchIsOneByOne(dirs, paths, uid);
    WithoutUserShape(dirs, paths, uid);
  }

  lemma RemoveShape(dirs: Dirs, path: Path, uid: Uid)
    requires WellFormed(dirs)
    ensures var c := RemoveWatcher(dirs, path, uid);
            && WellFormed(c.dirs) && c.dirs.Keys <= dirs.Keys && (forall p | p in c.removes :: p !in c.dirs)
            && c.removes == if Watchers(dirs, path) == [uid] then [path] else []
  {
    if uid in Watchers(dirs, path) {
      RemoveIsWithout(dirs, path, uid);
      assert dirs[path] == [uid] ==> Without([uid], uid) == [];
    }
  }

  /** What an event that closes directories stores and sends. */
  function Closing(s: State, e: Event): Closed
    requires s.entry.Some? && Applies(s, e) && (e.EnvReady? || e.EnvClose? || e.CloseDir?)
  {
    var dirs := s.entry.value.dirs;
    if e.EnvReady? then CloseBatch(dirs, e.paths, e.uid)
    else if e.EnvClose? then CloseOneByOne(dirs, e.paths, e.uid)
    else RemoveWatcher(dirs, e.path, e.uid)
  }

  lemma ClosingShape(s: State, e: Event)
    requires s.entry.Some? && Listed(s) && Applies(s, e) && (e.EnvReady? || e.EnvClose? || e.CloseDir?)
    ensures var c, dirs := Closing(s, e), s.entry.value.dirs;
            && WellFormed(c.dirs) && c.dirs.Keys <= dirs.Keys && (forall p | p in c.removes :: p !in c.dirs)
            && c.removes == Emptied(s, e)
  {
    if e.CloseDir? {
      RemoveShape(s.entry.value.dirs, e.path, e.uid);
    } else {
      ClosedShape(s.entry.value.dirs, e.paths, e.uid);
    }
  }

  /******* Watcher lists, in every run *******/

  lemma StepKeepsListed(s: State, e: Event)
    requires Listed(s)
    ensures Listed(Step(s, e))
  {
    if s.entry.Some? && Applies(s, e) {
      if e.EnvReady? || e.EnvClose? || e.CloseDir? {
        ClosingShape(s, e);
      } else if e.FinishOpen? {
        AddKeepsWellFormed(s.entry.value.dirs, e.path, e.uid);
      }
    }
  }

  function Run(s: State, es: seq<Event>): State
    decreases |es|
  {
    if es == [] then s else Run(Step(s, es[0]), es[1..])
  }

  /** In every run, whatever races or gets lost, every cached watcher list is non-empty and duplicate-free. */
  lemma {:induction false} ListsOverRuns(s: State, es: seq<Event>)
    requires Listed(s)
    ensures Listed(Run(s, es))
    decreases |es|
  {
    if es != [] {
      StepKeepsListed(s, es[0]);
      ListsOverRuns(Step(s, es[0]), es[1..]);
    }
  }

  /** So the batch and the single closes agree on the paths a user watches, after every run. */
  lemma ClosesAgreeOverRuns(es: seq<Event>, paths: seq<Path>, uid: Uid)
    requires Run(INIT, es).entry.Some? && WatchedPaths(Run(INIT, es).entry.value.dirs, paths, uid)
    ensures var dirs := Run(INIT, es).entry.value.dirs;
            CloseBatch(dirs, paths, uid) == CloseOneByOne(dirs, paths, uid)
  {
    ListsOverRuns(INIT, es);
    BatchIsOneByOne(Run(INIT, es).entry.value.dirs, paths, uid);
  }

  /** And a user is pushed the surviving events of the paths they watch, once each and in order. */
  lemma WatchersGetEventsOverRuns(es: seq<Event>, batch: seq<Events.Event>, hashes: seq<Fanout.Hashes>, uid: Uid)
    requires Run(INIT, es).entry.Some? && |hashes| == |batch|
    ensures var dirs := Run(INIT, es).entry.value.dirs;
            Fanout.Pushed(batch, hashes, dirs, uid) == Fanout.Wanted(batch, hashes, dirs, uid)
  {
    ListsOverRuns(INIT, es);
    Fanout.UserGetsWatchedEvents(batch, hashes, Run(INIT, es).entry.value.dirs, uid);
  }

  /******* Affinity *******/

  lemma TakeOverStep(s: State, id: InstanceId, reply: Reply)
    requires Sane(s) && Affine(s) && s.pod.Some? && Dirty(s) && id in s.live
    ensures Sane(TakeOver(s, id, reply))
    ensures Affine(TakeOver(s, id, reply)) <==> !(reply == Lost && s.entry.Some? && s.entry.value.fs != id)
  {
  }

  /** One step keeps cached owner, affine instance and path state together exactly when it does not split them. */
  lemma StepKeepsAffine(s: State, e: Event)
    requires Sane(s) && Affine(s)
    ensures Sane(Step(s, e)) && (Affine(Step(s, e)) <==> !Splits(s, e))
  {
    if e.EnvReady? && Applies(s, e) {
      var s1 := Invalidate(s, e.uid, e.paths);
      assert s1.entry.Some? <==> s.entry.Some?;
      if Dirty(s1) {
        TakeOverStep(s1, e.id, e.reply);
      }
    }
  }

  predicate AffineAlong(s: State, es: seq<Event>)
    decreases |es|
  {
    Affine(s) && (es != [] ==> AffineAlong(Step(s, es[0]), es[1..]))
  }

  predicate NeverSplits(s: State, es: seq<Event>)
    decreases |es|
  {
    es != [] ==> !Splits(s, es[0]) && NeverSplits(Step(s, es[0]), es[1..])
  }

  lemma {:induction false} AffineAlongIff(s: State, es: seq<Event>)
    requires Sane(s) && Affine(s)
    ensures AffineAlong(s, es) <==> NeverSplits(s, es)
    ensures NeverSplits(s, es) ==> Affine(Run(s, es))
    decreases |es|
  {
    if es != [] {
      StepKeepsAffine(s, es[0]);
      if Affine(Step(s, es[0])) {
        AffineAlongIff(Step(s, es[0]), es[1..]);
      }
    }
  }

  /**
   In every run, cached owner, affine instance and an instance with path state coincide at every moment exactly when no
   affinity answer is lost while another instance owns a workspace without open directories, and no pod goes before its
   entry.
   */
  lemma AffinityOverRuns(es: seq<Event>)
    ensures AffineAlong(INIT, es) <==> NeverSplits(INIT, es)
  {
    AffineAlongIff(INIT, es);
  }

  /******* Coverage, path by path *******/

  /** Storing what a close leaves uncovers a path exactly when the path lost its last watcher and is being opened. */
  lemma ClosingKeepsCovered(s: State, c: Closed, p: Path)
    requires s.entry.Some? && Covered(s, p)
    requires c.dirs.Keys <= s.entry.value.dirs.Keys
    requires forall q | q in c.removes :: q !in c.dirs && q in s.entry.value.dirs
    ensures Covered(StoreClosed(s, c), p) <==> !(p in c.removes && p in s.opening)
  {
    OutstandingAfterRemoves(s.(entry := Some(s.entry.value.(dirs := c.dirs))), c.removes);
  }

  lemma EmptiedWasWatched(s: State, e: Event, p: Path)
    requires p in Emptied(s, e)
    ensures s.entry.Some? && p in s.entry.value.dirs
  {
    if !e.CloseDir? {
      OnlyWatchedIn(s.entry.value.dirs, e.paths, e.uid);
    }
  }

  lemma CloseCovers(s: State, e: Event, p: Path)
    requires s.entry.Some? && Listed(s) && Covered(s, p) && Applies(s, e) && (e.EnvReady? || e.EnvClose? || e.CloseDir?)
    ensures Covered(StoreClosed(s, Closing(s, e)), p) <==> !(p in Emptied(s, e) && p in s.opening)
  {
    ClosingShape(s, e);
    forall q | q in Emptied(s, e) ensures q in s.entry.value.dirs { EmptiedWasWatched(s, e, q); }
    ClosingKeepsCovered(s, Closing(s, e), p);
  }

  lemma TakeOverCovers(s: State, id: InstanceId, reply: Reply, p: Path)
    requires s.pod.Some? && Dirty(s)
    ensures Covered(TakeOver(s, id, reply), p) <==> Covered(s, p)
  {
    assert Outstanding(TakeOver(s, id, reply)) == Outstanding(s);
  }

  lemma AddIsOutstanding(s: State, path: Path)
    requires s.pod.Some?
    ensures Outstanding(Send(s, [Add(path)])) == Outstanding(s) + {path}
  {
    DrainAppend(s.pod.value.watches, s.queue, [Add(path)]);
    assert [Add(path)][1..] == [];
    assert Drain(Outstanding(s), [Add(path)]) == Drain(Outstanding(s) + {path}, []);
  }

  lemma OpenCovers(s: State, e: Event, p: Path)
    requires Covered(s, p) && (e.BeginOpen? || e.FinishOpen? || e.AbortOpen?)
    ensures Covered(Step(s, e), p)
  {
    if e.BeginOpen? && s.pod.Some? {
      AddIsOutstanding(s, e.path);
      WatchStarts(s, e.path);
    }
  }

  /** One step keeps the path's coverage exactly when it does not take its watch away. */
  lemma StepKeepsCovered(s: State, e: Event, p: Path)
    requires Listed(s) && Covered(s, p)
    ensures Covered(Step(s, e), p) <==> !Uncovers(s, e, p)
  {
    if Applies(s, e) {
      if e.EnvReady? {
        var s1 := Invalidate(s, e.uid, e.paths);
        if s.entry.Some? {
          CloseCovers(s, e, p);
        }
        if Dirty(s1) {
          TakeOverCovers(s1, e.id, e.reply, p);
        }
      } else if (e.EnvClose? || e.CloseDir?) && s.entry.Some? {
        CloseCovers(s, e, p);
      } else if e.BeginOpen? || e.FinishOpen? || e.AbortOpen? {
        OpenCovers(s, e, p);
      }
    }
  }

  predicate CoveredAlong(s: State, es: seq<Event>, p: Path)
    decreases |es|
  {
    Covered(s, p) && (es != [] ==> CoveredAlong(Step(s, es[0]), es[1..], p))
  }

  predicate NeverUncovers(s: State, es: seq<Event>, p: Path)
    decreases |es|
  {
    es != [] ==> !Uncovers(s, es[0], p) && NeverUncovers(Step(s, es[0]), es[1..], p)
  }

  lemma {:induction false} CoveredAlongIff(s: State, es: seq<Event>, p: Path)
    requires Listed(s) && Covered(s, p)
    ensures CoveredAlong(s, es, p) <==> NeverUncovers(s, es, p)
    ensures NeverUncovers(s, es, p) ==> Covered(Run(s, es), p)
    decreases |es|
  {
    if es != [] {
      StepKeepsListed(s, es[0]);
      StepKeepsCovered(s, es[0], p);
      if Covered(Step(s, es[0]), p) {
        CoveredAlongIff(Step(s, es[0]), es[1..], p);
      }
    }
  }

  /**
   In every run and for every path, the path has an outstanding watch whenever it has a cached watcher or is being
   opened, exactly when its last watcher never leaves while it is being opened and no pod goes while it is in use.
   */
  lemma CoverageOverRuns(es: seq<Event>, p: Path)
    ensures CoveredAlong(INIT, es, p) <==> NeverUncovers(INIT, es, p)
  {
    CoveredAlongIff(INIT, es, p);
  }

  /******* Events reach the owner *******/

  /** The instance that handles a watch event of `path`, if any: the event is dropped without path state. */
  function HandledBy(s: State, path: Path): Option<InstanceId> {
    if s.pod.Some? && path in s.pod.value.watches && s.pod.value.affine.Some? && s.pod.value.affine.value in s.armed
    then s.pod.value.affine
    else None
  }

  /**
   After a run that never splits affinity nor uncovers this path, with no watch message under way, events of the watched
   path are handled by the cached owner unless it crashed.
   */
  lemma NoWatchEventDropped(es: seq<Event>, path: Path)
    requires NeverSplits(INIT, es) && NeverUncovers(INIT, es, path)
    requires var s := Run(INIT, es);
             s.queue == [] && s.entry.Some? && path in s.entry.value.dirs && s.entry.value.fs in s.live
    ensures HandledBy(Run(INIT, es), path) == Some(Run(INIT, es).entry.value.fs)
  {
    AffineAlongIff(INIT, es);
    CoveredAlongIff(INIT, es, path);
  }

  /** Closing the last watcher of a path while it is being opened leaves it cached with no watch outstanding. */
  lemma RacingCloseLosesWatch(s: State, u: Uid, v: Uid, path: Path)
    requires Listed(s) && s.entry.Some? && Watchers(s.entry.value.dirs, path) == [u] && path in s.opening
    ensures var s' := Step(Step(s, CloseDir(u, path)), FinishOpen(v, path));
            path in s'.entry.value.dirs && path !in Outstanding(s')
  {
    var c := RemoveWatcher(s.entry.value.dirs, path, u);
    RemoveShape(s.entry.value.dirs, path, u);
    OutstandingAfterRemoves(s.(entry := Some(s.entry.value.(dirs := c.dirs))), c.removes);
    var s1 := Step(s, CloseDir(u, path));
    assert path !in Outstanding(s1);
    assert Outstanding(Step(s1, FinishOpen(v, path))) == Outstanding(s1);
  }

  /******* Runs that break affinity or coverage *******/

  lemma {:induction false} Extend(s: State, es: seq<Event>, e: Event)
    ensures Run(s, es + [e]) == Step(Run(s, es), e)
    decreases |es|
  {
    if es == [] {
      assert es + [e] == [e] && [e][1..] == [];
    } else {
      assert (es + [e])[0] == es[0] && (es + [e])[1..] == es[1..] + [e];
      Extend(Step(s, es[0]), es[1..], e);
    }
  }

  /** A run after which instance `a` has the workspace and no directory is open. */
  lemma TakenOver(a: InstanceId, u: Uid) returns (es: seq<Event>)
    ensures Run(INIT, es) == State(Some(Entry(a, map[])), Some(Pod(Some(a), {})), [], multiset{}, {a}, {a}, {a})
  {
    es := [Start(a)];
    Extend(INIT, [], Start(a));
    assert [] + es == es;
    Extend(INIT, es, PodUp);
    es := es + [PodUp];
    Extend(INIT, es, EnvReady(a, u, [], Done));
    es := es + [EnvReady(a, u, [], Done)];
  }

  lemma DaemonTakesAdd(s: State, path: Path)
    requires s.pod.Some? && s.queue == [Add(path)]
    ensures Step(s, DaemonReads) == s.(pod := Some(s.pod.value.(watches := s.pod.value.watches + {path})), queue := [])
  {
  }

  /** A run after which user `u` watches the path and the daemon too: its events reach instance `a`. */
  lemma WatchEventHandled(a: InstanceId, u: Uid, path: Path) returns (es: seq<Event>)
    ensures var s := Run(INIT, es);
            && s.entry == Some(Entry(a, map[path := [u]])) && s.queue == [] && s.opening == multiset{}
            && s.live == {a} && s.pod.Some? && s.used == {a}
            && HandledBy(s, path) == Some(a)
  {
    es := TakenOver(a, u);
    WatchStarts(Run(INIT, es), path);
    Extend(INIT, es, BeginOpen(path));
    es := es + [BeginOpen(path)];
    FirstWatcher(Run(INIT, es), u, path);
    Extend(INIT, es, FinishOpen(u, path));
    es := es + [FinishOpen(u, path)];
    DaemonTakesAdd(Run(INIT, es), path);
    Extend(INIT, es, DaemonReads);
    es := es + [DaemonReads];
  }

  /** Once the entry is dropped, another instance takes the workspace over although a directory was open. */
  lemma DroppedWorkspaceMoves(a: InstanceId, b: InstanceId, u: Uid, path: Path) returns (es: seq<Event>)
    requires a != b
    ensures var s := Run(INIT, es);
            s.entry == Some(Entry(b, map[])) && s.pod.Some? && s.pod.value.affine == Some(b) && b in s.armed
  {
    es := WatchEventHandled(a, u, path);
    Extend(INIT, es, Start(b));
    es := es + [Start(b)];
    Extend(INIT, es, DropEntry);
    es := es + [DropEntry];
    var s := Run(INIT, es);
    assert s.entry.None? && b in s.live && s.pod.Some?;
    Extend(INIT, es, EnvReady(b, u, [], Done));
    es := es + [EnvReady(b, u, [], Done)];
  }

  /******* What a crash and a new session leave behind *******/

  /** An instance that has gone. */
  predicate Down(s: State, id: InstanceId) {
    id in s.used && id !in s.live && id !in s.armed
  }

  lemma ReadyKeepsDown(s: State, id: InstanceId, uid: Uid, paths: seq<Path>, reply: Reply, gone: InstanceId)
    requires s.pod.Some? && (s.entry.Some? ==> Lists(s.entry.value.dirs, paths, uid))
    requires Down(s, gone) && id != gone
    ensures Down(Ready(s, id, uid, paths, reply), gone)
  {
  }

  lemma StepKeepsDown(s: State, e: Event, id: InstanceId)
    requires Down(s, id)
    ensures Down(Step(s, e), id)
  {
    if e.EnvReady? && Applies(s, e) {
      ReadyKeepsDown(s, e.id, e.uid, e.paths, e.reply, id);
    }
  }

  lemma {:induction false} DownStaysDown(s: State, es: seq<Event>, id: InstanceId)
    requires Down(s, id)
    ensures Down(Run(s, es), id)
    decreases |es|
  {
    if es != [] {
      StepKeepsDown(s, es[0], id);
      DownStaysDown(Step(s, es[0]), es[1..], id);
    }
  }

  /** Once an instance has crashed, it hears of no event in any run that follows. */
  lemma CrashedHearsNothing(s: State, id: InstanceId, es: seq<Event>, path: Path)
    requires Sane(s) && id in s.live
    ensures var s' := Run(Step(s, Crash(id)), es); id !in s'.live && HandledBy(s', path) != Some(id)
  {
    DownStaysDown(Step(s, Crash(id)), es, id);
  }

  /** A message to the daemon is lost without a pod: in every run nothing waits for a daemon that is not there. */
  predicate Addressed(s: State) {
    s.pod.None? ==> s.queue == []
  }

  lemma ReadyKeepsAddressed(s: State, id: InstanceId, uid: Uid, paths: seq<Path>, reply: Reply)
    requires s.pod.Some? && (s.entry.Some? ==> Lists(s.entry.value.dirs, paths, uid))
    ensures Addressed(Ready(s, id, uid, paths, reply))
  {
  }

  lemma StepKeepsAddressed(s: State, e: Event)
    requires Addressed(s)
    ensures Addressed(Step(s, e))
  {
    if e.EnvReady? && Applies(s, e) {
      ReadyKeepsAddressed(s, e.id, e.uid, e.paths, e.reply);
    }
  }

  lemma {:induction false} NothingWaitsWithoutPod(s: State, es: seq<Event>)
    requires Addressed(s)
    ensures Addressed(Run(s, es))
    decreases |es|
  {
    if es != [] {
      StepKeepsAddressed(s, es[0]);
      NothingWaitsWithoutPod(Step(s, es[0]), es[1..]);
    }
  }

  lemma AllClosed(dirs: Dirs, paths: seq<Path>, uid: Uid, v: Uid, path: Path)
    requires WellFormed(dirs) && Lists(dirs, paths, uid)
    ensures CloseBatch(dirs, paths, uid) == CloseOneByOne(dirs, paths, uid)
    ensures v in Watchers(CloseBatch(dirs, paths, uid).dirs, path) <==> v != uid && v in Watchers(dirs, path)
  {
    BatchIsOneByOne(dirs, paths, uid);
    if path in dirs {
      WithoutNoDup(dirs[path], uid);
    }
  }

  /** A new session or the end of one closes every directory of its user, and no other user's. */
  lemma SessionClosesAll(s: State, e: Event, v: Uid, path: Path)
    requires Applies(s, e) && (e.EnvReady? || e.EnvClose?) && Listed(s) && s.entry.Some?
    ensures var s' := Step(s, e);
            s'.entry.Some? &&
            (v in Watchers(s'.entry.value.dirs, path) <==> v != e.uid && v in Watchers(s.entry.value.dirs, path))
  {
    AllClosed(s.entry.value.dirs, e.paths, e.uid, v, path);
  }

  /** An open ends, with or without success, exactly once: it is then no longer under way. */
  lemma OpenEndsOnce(s: State, u: Uid, path: Path)
    requires path in s.opening
    ensures Step(s, FinishOpen(u, path)).opening == s.opening - multiset{path}
    ensures Step(s, AbortOpen(path)) == s.(opening := s.opening - multiset{path})
    ensures s.entry.Some? ==> Step(s, FinishOpen(u, path)).entry.Some? &&
                              u in Watchers(Step(s, FinishOpen(u, path)).entry.value.dirs, path)
  {
    if s.entry.Some? {
      DedupIsSet(Watchers(s.entry.value.dirs, path) + [u]);
      assert u in Watchers(s.entry.value.dirs, path) + [u];
    }
  }

  /** The answer to `b` is lost: the daemon reports to `b`, which keeps no path state, and the cache names `a`. */
  lemma LostAnswerBreaksAffinity(a: InstanceId, b: InstanceId, u: Uid) returns (es: seq<Event>)
    requires a != b
    ensures var s := Run(INIT, es);
            && s.entry.Some? && s.entry.value.fs == a && a in s.live
            && s.pod.Some? && s.pod.value.affine == Some(b) && b !in s.armed
  {
    es := TakenOver(a, u);
    Extend(INIT, es, Start(b));
    es := es + [Start(b)];
    var s := Run(INIT, es);
    assert Invalidate(s, u, []) == s by { assert Removes([]) == [] && s.queue + [] == s.queue; }
    Extend(INIT, es, EnvReady(b, u, [], Lost));
    es := es + [EnvReady(b, u, [], Lost)];
  }

  /** The path is watched by `u` and opened a second time. */
  function Reopening(a: InstanceId, u: Uid, path: Path): State {
    State(Some(Entry(a, map[path := [u]])), Some(Pod(Some(a), {})), [Add(path), Add(path)], multiset{path},
          {a}, {a}, {a})
  }

  lemma WatchStarts(s: State, path: Path)
    requires s.pod.Some?
    ensures Step(s, BeginOpen(path)) == s.(opening := s.opening + multiset{path}, queue := s.queue + [Add(path)])
  {
  }

  lemma AddFirst(path: Path, u: Uid)
    ensures AddWatcher(map[], path, u) == map[path := [u]]
  {
    AddKeepsWellFormed(map[], path, u);
    assert Watchers(AddWatcher(map[], path, u), path) == [] + [u];
  }

  lemma FirstWatcher(s: State, u: Uid, path: Path)
    requires s.entry.Some? && s.entry.value.dirs == map[] && s.opening == multiset{path}
    ensures Step(s, FinishOpen(u, path)) ==
            s.(opening := multiset{}, entry := Some(s.entry.value.(dirs := map[path := [u]])))
  {
    AddFirst(path, u);
  }

  lemma ReopeningHappens(a: InstanceId, u: Uid, path: Path) returns (es: seq<Event>)
    ensures Run(INIT, es) == Reopening(a, u, path)
  {
    es := TakenOver(a, u);
    WatchStarts(Run(INIT, es), path);
    Extend(INIT, es, BeginOpen(path));
    es := es + [BeginOpen(path)];
    FirstWatcher(Run(INIT, es), u, path);
    Extend(INIT, es, FinishOpen(u, path));
    es := es + [FinishOpen(u, path)];
    WatchStarts(Run(INIT, es), path);
    Extend(INIT, es, BeginOpen(path));
    es := es + [BeginOpen(path)];
  }

  /** A last watcher leaves while the path is being opened: the path ends up watched in the cache and by nobody else. */
  lemma RacingCloseHappens(a: InstanceId, u: Uid, v: Uid, path: Path) returns (es: seq<Event>)
    ensures var s := Run(INIT, es); s.entry.Some? && path in s.entry.value.dirs && path !in Outstanding(s)
  {
    es := ReopeningHappens(a, u, path);
    RacingCloseLosesWatch(Run(INIT, es), u, v, path);
    Extend(INIT, es, CloseDir(u, path));
    es := es + [CloseDir(u, path)];
    Extend(INIT, es, FinishOpen(v, path));
    es := es + [FinishOpen(v, path)];
  }

  /******* The handlers as they run: cache entry, daemon and path state changed in place *******/

  /** Status of a handler: opened, pod unreachable, or failed after the user's directories were closed. */
  datatype Status = Opened | Unreachable | Error

  class WorkspaceService {
    var entry: Option<Entry>
    var pod: Option<Pod>
    var queue: seq<Watch>
    var armed: set<InstanceId>
    const opening: multiset<Path>
    const live: set<InstanceId>
    const used: set<InstanceId>

    constructor (s: State)
      ensures Now() == s
    {
      entry, pod, queue, armed := s.entry, s.pod, s.queue, s.armed;
      opening, live, used := s.opening, s.live, s.used;
    }

    function Now(): State
      reads this
    {
      State(entry, pod, queue, opening, live, armed, used)
    }

    method Store(dirs: Dirs, removes: seq<Path>)
      requires entry.Some?
      modifies this`entry, this`queue
      ensures Now() == StoreClosed(old(Now()), Closed(dirs, removes))
    {
      entry := Some(entry.value.(dirs := dirs));
      if pod.Some? {
        queue := queue + Removes(removes);
      }
    }

    method HandleEnvReady(id: InstanceId, uid: Uid, paths: seq<Path>, reply: Reply) returns (status: Status)
      requires id in live && (entry.Some? ==> Lists(entry.value.dirs, paths, uid))
      modifies this
      ensures Now() == if old(pod).None? then old(Now()) else Ready(old(Now()), id, uid, paths, reply)
      ensures status == Unreachable <==> old(pod).None?
      ensures status == Opened ==> entry.Some? && (entry.value.dirs == map[] ==> entry.value.fs == id)
    {
      if pod.None? {
        return Unreachable;
      }
      if entry.Some? {
        var fs := new FSService();
        fs.dirs := entry.value.dirs;
        fs.CloseDirs(uid, paths);
        assert Closed(fs.dirs, fs.removes) == CloseBatch(old(entry).value.dirs, paths, uid);
        Store(fs.dirs, fs.removes);
      }
      assert Now() == Invalidate(old(Now()), uid, paths);
      var workspace := if entry.Some? then entry.value else Entry(id, map[]);
      if workspace.dirs == map[] {
        workspace := workspace.(fs := id);
        if reply != Refused {
          pod := Some(pod.value.(affine := Some(id)));
        }
        if reply != Done {
          return Error;
        }
        armed := armed + {id};
        entry := Some(workspace);
      }
      return Opened;
    }

    method HandleEnvClose(uid: Uid, paths: seq<Path>)
      modifies this`entry, this`queue
      ensures Now() == if old(entry).None? then old(Now())
                       else StoreClosed(old(Now()), CloseOneByOne(old(entry).value.dirs, paths, uid))
    {
      if entry.None? {
        return;
      }
      var fs := new FSService();
      fs.dirs := entry.value.dirs;
      fs.CloseEach(uid, paths);
      assert Closed(fs.dirs, fs.removes) == CloseOneByOne(old(entry).value.dirs, paths, uid);
      Store(fs.dirs, fs.removes);
    }
  }
}
