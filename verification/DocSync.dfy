/**
 Ownership of collaborative documents across the instances of the env service.

 Every env instance keeps its own open documents. The shared cache names, per workspace and inode, the
 instance that owns the document; opens and closes that reach another instance are forwarded to the owner. Opening a
 document that is not open yet loads the file, and anything may happen between the ownership check and the end of
 the load.
 */
module DocSync {
  import opened Options

  type InstanceId = string
  type Uid = string
  type Ws = string
  type Ino = int

  /** The open documents of one instance: workspace, inode, and the users that have the document open. */
  type DocState = map<Ws, map<Ino, set<Uid>>>

  /**
   `drops` counts how often the map of a workspace was dropped: a load that started before a drop ends with a document
   in a map nobody looks at any more.
   */
  datatype Local = Local(docs: DocState, drops: map<Ws, nat>)

  /** The `docs` field of every cached workspace: the owning instance of each open inode. */
  type DocCache = map<Ws, map<Ino, InstanceId>>

  /** A message forwarded to the instance `to`. */
  datatype Msg =
    | OpenFile(to: InstanceId, uid: Uid, ws: Ws, ino: Ino)
    | CloseFile(to: InstanceId, uid: Uid, ws: Ws, ino: Ino)

  datatype Answer = Silent | Opened | Failed(code: string)

  /** What one handler leaves behind; `load` is set when a load has started, to the number of drops it saw. */
  datatype Outcome = Outcome(local: Local, cache: DocCache, sent: seq<Msg>, load: Option<nat>, reply: Answer)

  /** How an open ends: file loaded and owner stored, file not loaded, or owner not stored. */
  datatype Ending = Loaded | NotLoaded | NotStored

  /******* One handler on one instance *******/

  predicate OwnedElsewhere(me: InstanceId, cache: DocCache, ws: Ws, ino: Ino) {
    ws in cache && ino in cache[ws] && cache[ws][ino] != me
  }

  function Active(l: Local, ws: Ws): map<Ino, set<Uid>> {
    if ws in l.docs then l.docs[ws] else map[]
  }

  function Drops(l: Local, ws: Ws): nat {
    if ws in l.drops then l.drops[ws] else 0
  }

  function Forget(l: Local, ws: Ws): Local {
    Local(l.docs - {ws}, l.drops[ws := Drops(l, ws) + 1])
  }

  /** Records the owner, unless the workspace's entry is gone. */
  function Claim(me: InstanceId, cache: DocCache, ws: Ws, ino: Ino): DocCache {
    if ws in cache then cache[ws := cache[ws][ino := me]] else cache
  }

  /** The user joins a document that is open here, or a load starts. */
  function OpenHere(me: InstanceId, l: Local, cache: DocCache, uid: Uid, ws: Ws, ino: Ino, stores: bool): Outcome {
    var active := Active(l, ws);
    if ino !in active then
      Outcome(l.(docs := l.docs[ws := active]), cache, [], Some(Drops(l, ws)), Silent)
    else
      Outcome(l.(docs := l.docs[ws := active[ino := active[ino] + {uid}]]),
              if stores then Claim(me, cache, ws, ino) else cache, [], None,
              if stores then Opened else Failed("FS_ERR_FETCH_FILE"))
  }

  function OpenAt(me: InstanceId, l: Local, cache: DocCache, uid: Uid, ws: Ws, ino: Ino, stores: bool): Outcome {
    if ws !in cache then
      Outcome(l, cache, [], None, Failed("FATAL_ERR_NO_WORKSPACE"))
    else if OwnedElsewhere(me, cache, ws, ino) then
      Outcome(l, cache, [OpenFile(cache[ws][ino], uid, ws, ino)], None, Silent)
    else
      OpenHere(me, l, cache, uid, ws, ino, stores)
  }

  /** The loaded document, new and with this user alone, is put into the map the open started with. */
  function Placed(l: Local, uid: Uid, ws: Ws, ino: Ino, load: nat): Local {
    if load == Drops(l, ws) then l.(docs := l.docs[ws := Active(l, ws)[ino := {uid}]]) else l
  }

  /** The end of a load. A failed one drops the workspace's whole map when that map has one entry. */
  function LoadEnds(me: InstanceId, l: Local, cache: DocCache, uid: Uid, ws: Ws, ino: Ino, load: nat, ending: Ending)
    : Outcome
  {
    match ending
    case NotLoaded =>
      Outcome(if |Active(l, ws)| == 1 then Forget(l, ws) else l, cache, [], None, Failed("FS_ERR_READ_FILE"))
    case Loaded => Outcome(Placed(l, uid, ws, ino, load), Claim(me, cache, ws, ino), [], None, Opened)
    case NotStored => Outcome(Placed(l, uid, ws, ino, load), cache, [], None, Failed("FS_ERR_FETCH_FILE"))
  }

  /** The user has the document open on this instance. */
  predicate HasOpen(l: Local, uid: Uid, ws: Ws, ino: Ino) {
    ws in l.docs && ino in l.docs[ws] && uid in l.docs[ws][ino]
  }

  /**
   What the end of a load answers: it is reported open exactly when it was loaded and its owner stored; a failure to
   load or to store is reported as such and leaves the cache alone, and one to load adds no user.
   */
  lemma LoadAnswers(me: InstanceId, l: Local, cache: DocCache, uid: Uid, ws: Ws, ino: Ino, load: nat, ending: Ending)
    ensures var o := LoadEnds(me, l, cache, uid, ws, ino, load, ending);
            && (o.reply == Opened <==> ending.Loaded?)
            && (o.reply == Opened ==>
                  && (load == Drops(l, ws) ==> HasOpen(o.local, uid, ws, ino))
                  && (ws in cache ==> ws in o.cache && ino in o.cache[ws] && o.cache[ws][ino] == me))
            && (o.reply == Failed("FS_ERR_READ_FILE") <==> ending.NotLoaded?)
            && (o.reply == Failed("FS_ERR_FETCH_FILE") <==> ending.NotStored?)
            && (o.reply.Failed? ==> o.cache == cache)
            && (ending.NotLoaded? ==> HasOpen(o.local, uid, ws, ino) ==> HasOpen(l, uid, ws, ino))
            && o.sent == [] && o.load.None?
  {
    assert "FS_ERR_READ_FILE"[7] != "FS_ERR_FETCH_FILE"[7];
  }

  /**
   What the start of an open answers: an error exactly without a workspace or an owner that can be stored; nothing yet
   when it is forwarded or a load starts; and that it is open exactly when the user joined the document here, with this
   instance stored as its owner.
   */
  lemma OpenAnswers(me: InstanceId, l: Local, cache: DocCache, uid: Uid, ws: Ws, ino: Ino, stores: bool)
    ensures var o := OpenAt(me, l, cache, uid, ws, ino, stores);
            var here := ws in cache && !OwnedElsewhere(me, cache, ws, ino);
            var joins := here && ws in l.docs && ino in l.docs[ws];
            && (o.reply == Failed("FATAL_ERR_NO_WORKSPACE") <==> ws !in cache)
            && (o.reply == Opened <==> joins && stores)
            && (o.reply == Failed("FS_ERR_FETCH_FILE") <==> joins && !stores)
            && (o.sent == (if OwnedElsewhere(me, cache, ws, ino) then [OpenFile(cache[ws][ino], uid, ws, ino)] else []))
            && (o.load.Some? <==> here && !joins)
            && (joins ==> HasOpen(o.local, uid, ws, ino))
            && o.cache == (if joins && stores then cache[ws := cache[ws][ino := me]] else cache)
  {
    assert "FATAL_ERR_NO_WORKSPACE"[1] != "FS_ERR_FETCH_FILE"[1];
  }

  /** The user leaves a document that is open here. */
  function LeaveHere(l: Local, cache: DocCache, uid: Uid, ws: Ws, ino: Ino): Outcome
    requires ws in cache && ws in l.docs && ino in l.docs[ws]
  {
    var users := l.docs[ws][ino] - {uid};
    if users != {} then
      Outcome(l.(docs := l.docs[ws := l.docs[ws][ino := users]]), cache, [], None, Silent)
    else
      var rest := l.docs[ws] - {ino};
      Outcome(if rest == map[] then Forget(l, ws) else l.(docs := l.docs[ws := rest]),
              cache[ws := cache[ws] - {ino}], [], None, Silent)
  }

  function CloseAt(me: InstanceId, l: Local, cache: DocCache, uid: Uid, ws: Ws, ino: Ino): Outcome {
    if ws !in cache then
      Outcome(l, cache, [], None, Silent)
    else if OwnedElsewhere(me, cache, ws, ino) then
      Outcome(l, cache, [CloseFile(cache[ws][ino], uid, ws, ino)], None, Silent)
    else if ws !in l.docs || ino !in l.docs[ws] || uid !in l.docs[ws][ino] then
      Outcome(l, cache, [], None, Silent)
    else
      LeaveHere(l, cache, uid, ws, ino)
  }

  /** A close is never answered; it is forwarded exactly to an owner elsewhere, and otherwise takes its user out. */
  lemma CloseAnswers(me: InstanceId, l: Local, cache: DocCache, uid: Uid, ws: Ws, ino: Ino)
    ensures var o := CloseAt(me, l, cache, uid, ws, ino);
            && o.reply == Silent && o.load.None?
            && o.sent == (if OwnedElsewhere(me, cache, ws, ino) then [CloseFile(cache[ws][ino], uid, ws, ino)] else [])
            && (o.sent != [] || ws !in cache ==> o.local == l && o.cache == cache)
            && (o.sent == [] && ws in cache ==> !HasOpen(o.local, uid, ws, ino))
  {
  }

  /******* The service as it runs: maps changed in place *******/

  /** The cached workspaces shared by all instances, and the channel between instances. */
  class Shared {
    var docs: DocCache
    var sent: seq<Msg>

    constructor ()
      ensures docs == map[] && sent == []
    {
      docs, sent := map[], [];
    }
  }

  class SyncService {
    const me: InstanceId
    var docs: DocState
    ghost var drops: map<Ws, nat>

    constructor (me: InstanceId)
      ensures this.me == me && docs == map[] && drops == map[]
    {
      this.me, docs, drops := me, map[], map[];
    }

    ghost function Now(): Local
      reads this
    {
      Local(docs, drops)
    }

    method UpdateCache(shared: Shared, ws: Ws, ino: Ino, add: bool)
      modifies shared`docs
      ensures shared.docs ==
              if ws !in old(shared.docs) then old(shared.docs)
              else if add then old(shared.docs)[ws := old(shared.docs)[ws][ino := me]]
              else old(shared.docs)[ws := old(shared.docs)[ws] - {ino}]
    {
      if ws !in shared.docs {
        return;
      }
      var entry := shared.docs[ws];
      if add {
        entry := entry[ino := me];
      } else {
        entry := entry - {ino};
      }
      shared.docs := shared.docs[ws := entry];
    }

    method DropMap(ws: Ws)
      modifies this
      ensures Now() == Forget(old(Now()), ws)
    {
      docs := docs - {ws};
      drops := drops[ws := (if ws in drops then drops[ws] else 0) + 1];
    }

    /** Up to the load, which is left under way. `stores` says whether the owner can be stored. */
    method Open(shared: Shared, uid: Uid, ws: Ws, ino: Ino, stores: bool) returns (reply: Answer, loads: bool)
      modifies this, shared
      ensures var o := OpenAt(me, old(Now()), old(shared.docs), uid, ws, ino, stores);
              && Now() == o.local && shared.docs == o.cache && shared.sent == old(shared.sent) + o.sent
              && reply == o.reply && (loads <==> o.load.Some?)
      ensures reply == Failed("FATAL_ERR_NO_WORKSPACE") <==> ws !in old(shared.docs)
      ensures reply == Opened ==> ws in docs && ino in docs[ws] && uid in docs[ws][ino]
      ensures reply == Opened ==> ws in shared.docs && ino in shared.docs[ws] && shared.docs[ws][ino] == me
      ensures reply != Opened ==> shared.docs == old(shared.docs)
    {
      OpenAnswers(me, Now(), shared.docs, uid, ws, ino, stores);
      loads := false;
      if ws !in shared.docs {
        return Failed("FATAL_ERR_NO_WORKSPACE"), false;
      }
      if ino in shared.docs[ws] && shared.docs[ws][ino] != me {
        shared.sent := shared.sent + [OpenFile(shared.docs[ws][ino], uid, ws, ino)];
        return Silent, false;
      }
      var active: map<Ino, set<Uid>> := map[];
      if ws in docs {
        active := docs[ws];
      } else {
        docs := docs[ws := active];
      }
      assert docs == old(docs)[ws := Active(old(Now()), ws)];
      if ino !in active {
        return Silent, true;
      }
      docs := docs[ws := active[ino := active[ino] + {uid}]];
      if !stores {
        return Failed("FS_ERR_FETCH_FILE"), false;
      }
      UpdateCache(shared, ws, ino, true);
      return Opened, false;
    }

    /** After the load; `load` is the number of drops when it started. */
    method FinishOpen(shared: Shared, uid: Uid, ws: Ws, ino: Ino, ghost load: nat, current: bool, ending: Ending)
      returns (reply: Answer)
      requires current <==> load == Drops(Now(), ws)
      modifies this, shared
      ensures var o := LoadEnds(me, old(Now()), old(shared.docs), uid, ws, ino, load, ending);
              Now() == o.local && shared.docs == o.cache && shared.sent == old(shared.sent) + o.sent && reply == o.reply
      ensures reply == Opened <==> ending.Loaded?
      ensures reply == Opened ==>
                && (current ==> ws in docs && ino in docs[ws] && uid in docs[ws][ino])
                && (ws in shared.docs ==> ino in shared.docs[ws] && shared.docs[ws][ino] == me)
      ensures ending.NotLoaded? <==> reply == Failed("FS_ERR_READ_FILE")
      ensures ending.NotStored? <==> reply == Failed("FS_ERR_FETCH_FILE")
      ensures reply != Opened ==> shared.docs == old(shared.docs)
    {
      LoadAnswers(me, Now(), shared.docs, uid, ws, ino, load, ending);
      if ending.NotLoaded? {
        if ws in docs && |docs[ws]| == 1 {
          DropMap(ws);
        }
        return Failed("FS_ERR_READ_FILE");
      }
      if current {
        var active: map<Ino, set<Uid>> := if ws in docs then docs[ws] else map[];
        docs := docs[ws := active[ino := {uid}]];
      }
      if ending.NotStored? {
        return Failed("FS_ERR_FETCH_FILE");
      }
      UpdateCache(shared, ws, ino, true);
      return Opened;
    }

    method Close(shared: Shared, uid: Uid, ws: Ws, ino: Ino)
      modifies this, shared
      ensures var o := CloseAt(me, old(Now()), old(shared.docs), uid, ws, ino);
              Now() == o.local && shared.docs == o.cache && shared.sent == old(shared.sent) + o.sent
    {
      if ws !in shared.docs {
        return;
      }
      if ino in shared.docs[ws] && shared.docs[ws][ino] != me {
        shared.sent := shared.sent + [CloseFile(shared.docs[ws][ino], uid, ws, ino)];
        return;
      }
      if ws !in docs || ino !in docs[ws] || uid !in docs[ws][ino] {
        return;
      }
      var active := docs[ws];
      var users := active[ino] - {uid};
      if users != {} {
        docs := docs[ws := active[ino := users]];
        return;
      }
      active := active - {ino};
      docs := docs[ws := active];
      UpdateCache(shared, ws, ino, false);
      if active != map[] {
        return;
      }
      assert docs - {ws} == old(docs) - {ws};
      DropMap(ws);
    }
  }

  /******* All instances, the cache, the messages in flight and the loads under way *******/

  datatype Opening = Opening(id: InstanceId, uid: Uid, ws: Ws, ino: Ino, load: nat)

  /** `used` holds every instance id handed out so far; ids are random and never handed out twice. */
  datatype System = System(live: map<InstanceId, Local>, used: set<InstanceId>, cache: DocCache, flight: multiset<Msg>,
                           loading: multiset<Opening>)

  const INIT := System(map[], {}, map[], multiset{}, multiset{})

  datatype Event =
    | Start(id: InstanceId)
    | Crash(id: InstanceId)
    | BeginOpen(id: InstanceId, uid: Uid, ws: Ws, ino: Ino, stores: bool)
    | FinishOpen(opening: Opening, ending: Ending)
    | Close(id: InstanceId, uid: Uid, ws: Ws, ino: Ino)
    | Deliver(msg: Msg, stores: bool)
    | EnterWorkspace(ws: Ws)
    | DropWorkspace(ws: Ws)
    | ReportLoss(ws: Ws, ino: Ino)

  function Apply(s: System, id: InstanceId, o: Outcome): System {
    s.(live := s.live[id := o.local], cache := o.cache, flight := s.flight + multiset(o.sent))
  }

  function DoOpen(s: System, id: InstanceId, uid: Uid, ws: Ws, ino: Ino, stores: bool): System {
    if id !in s.live then s
    else
      var o := OpenAt(id, s.live[id], s.cache, uid, ws, ino, stores);
      Apply(s, id, o).(loading := s.loading + if o.load.Some? then multiset{Opening(id, uid, ws, ino, o.load.value)}
                                              else multiset{})
  }

  function DoFinish(s: System, o: Opening, ending: Ending): System {
    if o.id !in s.live then s
    else Apply(s, o.id, LoadEnds(o.id, s.live[o.id], s.cache, o.uid, o.ws, o.ino, o.load, ending))
  }

  function DoClose(s: System, id: InstanceId, uid: Uid, ws: Ws, ino: Ino): System {
    if id in s.live then Apply(s, id, CloseAt(id, s.live[id], s.cache, uid, ws, ino)) else s
  }

  function Received(s: System, msg: Msg): System {
    s.(flight := s.flight - multiset{msg})
  }

  function Ended(s: System, o: Opening): System {
    s.(loading := s.loading - multiset{o})
  }

  function Step(s: System, e: Event): System {
    match e
    case Start(id) =>
      if id in s.used then s else s.(live := s.live[id := Local(map[], map[])], used := s.used + {id})
    case Crash(id) => s.(live := s.live - {id})
    case BeginOpen(id, uid, ws, ino, stores) => DoOpen(s, id, uid, ws, ino, stores)
    case FinishOpen(o, ending) => if o in s.loading then DoFinish(Ended(s, o), o, ending) else s
    case Close(id, uid, ws, ino) => DoClose(s, id, uid, ws, ino)
    case Deliver(msg, stores) =>
      if msg !in s.flight then s
      else
        // a message to an instance that is gone is lost
        match msg {
          case OpenFile(to, uid, ws, ino) => DoOpen(Received(s, msg), to, uid, ws, ino, stores)
          case CloseFile(to, uid, ws, ino) => DoClose(Received(s, msg), to, uid, ws, ino)
        }
    case EnterWorkspace(ws) => if ws in s.cache then s else s.(cache := s.cache[ws := map[]])
    case DropWorkspace(ws) => s.(cache := s.cache - {ws})
    case ReportLoss(ws, ino) => if ws in s.cache then s.(cache := s.cache[ws := s.cache[ws] - {ino}]) else s
  }

  function Run(s: System, es: seq<Event>): System
    decreases |es|
  {
    if es == [] then s else Run(Step(s, es[0]), es[1..])
  }

  /******* The owner in the cache is the holder *******/

  predicate Holds(s: System, id: InstanceId, ws: Ws, ino: Ino) {
    id in s.live && ws in s.live[id].docs && ino in s.live[id].docs[ws]
  }

  predicate Names(s: System, id: InstanceId, ws: Ws, ino: Ino) {
    ws in s.cache && ino in s.cache[ws] && s.cache[ws][ino] == id
  }

  /** Whoever holds the document is the instance the cache names, and the document has a user. */
  predicate OwnedBy(s: System, id: InstanceId, ws: Ws, ino: Ino) {
    Holds(s, id, ws, ino) ==> Names(s, id, ws, ino) && s.live[id].docs[ws][ino] != {}
  }

  ghost predicate Owned(s: System) {
    forall id, ws, ino :: OwnedBy(s, id, ws, ino)
  }

  /** The map the open started with is still the instance's map of the workspace. */
  predicate InTime(s: System, o: Opening) {
    o.id in s.live && o.load == Drops(s.live[o.id], o.ws)
  }

  ghost predicate HeldElsewhere(s: System, id: InstanceId, ws: Ws, ino: Ino) {
    exists j | j in s.live :: j != id && Holds(s, j, ws, ino)
  }

  /** The end of this load keeps ownership. */
  ghost predicate EndsWell(s: System, o: Opening, ending: Ending) {
    match ending
    case NotLoaded => true
    case Loaded => (o.ws in s.cache ==> !HeldElsewhere(s, o.id, o.ws, o.ino)) && (InTime(s, o) ==> o.ws in s.cache)
    case NotStored => InTime(s, o) ==> Names(s, o.id, o.ws, o.ino)
  }

  /**
   A load ends with the entry still there and nobody else holding the document; an owner that cannot be stored is stored
   already; a workspace entry goes only when nobody holds one of its documents; a loss is reported only for a document
   nobody holds.
   */
  ghost predicate Allowed(s: System, e: Event) {
    match e
    case FinishOpen(o, ending) => o in s.loading && o.id in s.live ==> EndsWell(s, o, ending)
    case DropWorkspace(ws) => forall id, ino :: !Holds(s, id, ws, ino)
    case ReportLoss(ws, ino) => forall id :: !Holds(s, id, ws, ino)
    case _ => true
  }

  /** Joining, starting a load, forwarding or refusing: nothing new is held. */
  lemma OpenKeepsOwned(s: System, id: InstanceId, uid: Uid, ws: Ws, ino: Ino, stores: bool,
                       j: InstanceId, w: Ws, n: Ino)
    requires Owned(s)
    ensures OwnedBy(DoOpen(s, id, uid, ws, ino, stores), j, w, n)
  {
    assert OwnedBy(s, j, w, n);
    assert OwnedBy(s, id, ws, ino);
    assert OwnedBy(s, j, ws, ino);
  }

  lemma CloseKeepsOwned(s: System, id: InstanceId, uid: Uid, ws: Ws, ino: Ino, j: InstanceId, w: Ws, n: Ino)
    requires Owned(s)
    ensures OwnedBy(DoClose(s, id, uid, ws, ino), j, w, n)
  {
    assert OwnedBy(s, j, w, n);
    assert OwnedBy(s, id, ws, ino);
  }

  /** What the end of a load does to who holds and who is named. */
  lemma FinishFrame(s: System, o: Opening, ending: Ending, j: InstanceId, w: Ws, n: Ino)
    requires o.id in s.live
    ensures var s' := DoFinish(s, o, ending);
            && (!(j == o.id && w == o.ws) ==>
                  (Holds(s', j, w, n) <==> Holds(s, j, w, n)) &&
                  (Holds(s, j, w, n) ==> s'.live[j].docs[w][n] == s.live[j].docs[w][n]))
            && (!(w == o.ws && n == o.ino) ==> (Names(s', j, w, n) <==> Names(s, j, w, n)))
            && (n != o.ino && Holds(s', j, w, n) ==>
                  Holds(s, j, w, n) && s'.live[j].docs[w][n] == s.live[j].docs[w][n])
  {
  }

  lemma FinishHere(s: System, o: Opening, ending: Ending)
    requires o.id in s.live
    ensures var s' := DoFinish(s, o, ending);
            && (!ending.NotLoaded? && InTime(s, o) ==>
                  Holds(s', o.id, o.ws, o.ino) && s'.live[o.id].docs[o.ws][o.ino] == {o.uid})
            && (ending.NotLoaded? || !InTime(s, o) ==> Holds(s', o.id, o.ws, o.ino) ==>
                  Holds(s, o.id, o.ws, o.ino) &&
                  s'.live[o.id].docs[o.ws][o.ino] == s.live[o.id].docs[o.ws][o.ino])
            && (!ending.Loaded? ==> s'.cache == s.cache)
            && (ending.Loaded? && o.ws in s.cache ==> Names(s', o.id, o.ws, o.ino))
            && (o.ws !in s.cache ==> o.ws !in s'.cache)
  {
  }

  lemma GoodEndKeepsOwned(s: System, o: Opening, ending: Ending, j: InstanceId, w: Ws, n: Ino)
    requires Owned(s) && o.id in s.live && EndsWell(s, o, ending)
    ensures OwnedBy(DoFinish(s, o, ending), j, w, n)
  {
    FinishFrame(s, o, ending, j, w, n);
    FinishHere(s, o, ending);
    assert OwnedBy(s, j, w, n) && OwnedBy(s, o.id, o.ws, o.ino);
    if j != o.id && w == o.ws && n == o.ino && Holds(s, j, w, n) {
      assert HeldElsewhere(s, o.id, w, n);
    }
  }

  lemma BadEndBreaksOwned(s: System, o: Opening, ending: Ending)
    requires Owned(s) && o.id in s.live && !EndsWell(s, o, ending)
    ensures !Owned(DoFinish(s, o, ending))
  {
    var s' := DoFinish(s, o, ending);
    FinishHere(s, o, ending);
    if ending.Loaded? && o.ws in s.cache {
      var j :| j in s.live && j != o.id && Holds(s, j, o.ws, o.ino);
      FinishFrame(s, o, ending, j, o.ws, o.ino);
      assert !OwnedBy(s', j, o.ws, o.ino);
    } else {
      assert !OwnedBy(s', o.id, o.ws, o.ino);
    }
  }

  /** The end of a load, in any owned state and however late, keeps ownership exactly when it ends well. */
  lemma LateLoadKeepsOwned(s: System, o: Opening, ending: Ending)
    requires Owned(s) && o.id in s.live
    ensures Owned(DoFinish(s, o, ending)) <==> EndsWell(s, o, ending)
  {
    if EndsWell(s, o, ending) {
      forall j, w, n ensures OwnedBy(DoFinish(s, o, ending), j, w, n) { GoodEndKeepsOwned(s, o, ending, j, w, n); }
    } else {
      BadEndBreaksOwned(s, o, ending);
    }
  }

  lemma SameDocsOwned(s: System, s': System)
    requires Owned(s) && s'.live == s.live && s'.cache == s.cache
    ensures Owned(s')
  {
    forall j, w, n ensures OwnedBy(s', j, w, n) { assert OwnedBy(s, j, w, n); }
  }

  lemma DropStep(s: System, ws: Ws)
    requires Owned(s)
    ensures Owned(Step(s, DropWorkspace(ws))) <==> Allowed(s, DropWorkspace(ws))
  {
    var s' := Step(s, DropWorkspace(ws));
    if Allowed(s, DropWorkspace(ws)) {
      forall j, w, n ensures OwnedBy(s', j, w, n) { assert OwnedBy(s, j, w, n) && !Holds(s, j, ws, n); }
    } else {
      var j, n :| Holds(s, j, ws, n);
      assert !OwnedBy(s', j, ws, n);
    }
  }

  lemma LossStep(s: System, ws: Ws, ino: Ino)
    requires Owned(s)
    ensures Owned(Step(s, ReportLoss(ws, ino))) <==> Allowed(s, ReportLoss(ws, ino))
  {
    var s' := Step(s, ReportLoss(ws, ino));
    if Allowed(s, ReportLoss(ws, ino)) {
      forall j, w, n ensures OwnedBy(s', j, w, n) { assert OwnedBy(s, j, w, n) && !Holds(s, j, ws, ino); }
    } else {
      var j :| Holds(s, j, ws, ino);
      assert OwnedBy(s, j, ws, ino);
      assert !OwnedBy(s', j, ws, ino);
    }
  }

  /** One step keeps ownership exactly when it is allowed. */
  lemma StepKeepsOwned(s: System, e: Event)
    requires Owned(s)
    ensures Owned(Step(s, e)) <==> Allowed(s, e)
  {
    match e {
      case BeginOpen(id, uid, ws, ino, stores) =>
        forall j, w, n ensures OwnedBy(Step(s, e), j, w, n) { OpenKeepsOwned(s, id, uid, ws, ino, stores, j, w, n); }
      case FinishOpen(o, ending) =>
        if o in s.loading {
          SameDocsOwned(s, Ended(s, o));
          if o.id in s.live {
            LateLoadKeepsOwned(Ended(s, o), o, ending);
            SameEnd(s, Ended(s, o), o, ending);
          }
        }
      case Close(id, uid, ws, ino) =>
        forall j, w, n ensures OwnedBy(Step(s, e), j, w, n) { CloseKeepsOwned(s, id, uid, ws, ino, j, w, n); }
      case Deliver(msg, stores) =>
        if msg in s.flight {
          SameDocsOwned(s, Received(s, msg));
          DeliverKeepsOwned(Received(s, msg), msg, stores);
        }
      case DropWorkspace(ws) => DropStep(s, ws);
      case ReportLoss(ws, ino) => LossStep(s, ws, ino);
      case _ =>
        forall j, w, n ensures OwnedBy(Step(s, e), j, w, n) { assert OwnedBy(s, j, w, n); }
    }
  }

  lemma SameEnd(s: System, s': System, o: Opening, ending: Ending)
    requires s'.live == s.live && s'.cache == s.cache
    ensures EndsWell(s', o, ending) <==> EndsWell(s, o, ending)
  {
    assert forall j :: Holds(s', j, o.ws, o.ino) <==> Holds(s, j, o.ws, o.ino);
  }

  lemma DeliverKeepsOwned(s: System, msg: Msg, stores: bool)
    requires Owned(s)
    ensures msg.OpenFile? ==> Owned(DoOpen(s, msg.to, msg.uid, msg.ws, msg.ino, stores))
    ensures msg.CloseFile? ==> Owned(DoClose(s, msg.to, msg.uid, msg.ws, msg.ino))
  {
    if msg.OpenFile? {
      forall j, w, n ensures OwnedBy(DoOpen(s, msg.to, msg.uid, msg.ws, msg.ino, stores), j, w, n) {
        OpenKeepsOwned(s, msg.to, msg.uid, msg.ws, msg.ino, stores, j, w, n);
      }
    } else {
      forall j, w, n ensures OwnedBy(DoClose(s, msg.to, msg.uid, msg.ws, msg.ino), j, w, n) {
        CloseKeepsOwned(s, msg.to, msg.uid, msg.ws, msg.ino, j, w, n);
      }
    }
  }

  ghost predicate OwnedAlong(s: System, es: seq<Event>)
    decreases |es|
  {
    Owned(s) && (es != [] ==> OwnedAlong(Step(s, es[0]), es[1..]))
  }

  ghost predicate AllowedAlong(s: System, es: seq<Event>)
    decreases |es|
  {
    es != [] ==> Allowed(s, es[0]) && AllowedAlong(Step(s, es[0]), es[1..])
  }

  lemma {:induction false} OwnedAlongIff(s: System, es: seq<Event>)
    requires Owned(s)
    ensures OwnedAlong(s, es) <==> AllowedAlong(s, es)
    ensures AllowedAlong(s, es) ==> Owned(Run(s, es))
    decreases |es|
  {
    if es != [] {
      StepKeepsOwned(s, es[0]);
      if Owned(Step(s, es[0])) {
        OwnedAlongIff(Step(s, es[0]), es[1..]);
      }
    }
  }

  /**
   In every run from the empty system, with loads that end any time later, ownership holds throughout exactly when every
   step is allowed.
   */
  lemma OwnershipOverRuns(es: seq<Event>)
    ensures OwnedAlong(INIT, es) <==> AllowedAlong(INIT, es)
  {
    OwnedAlongIff(INIT, es);
  }

  /** After an allowed run at most one instance holds a document, and sticky routing by the cache reaches it. */
  lemma OneHolderReachedByRoute(es: seq<Event>, i: InstanceId, j: InstanceId, ws: Ws, ino: Ino)
    requires AllowedAlong(INIT, es)
    requires Holds(Run(INIT, es), i, ws, ino) && Holds(Run(INIT, es), j, ws, ino)
    ensures i == j && Names(Run(INIT, es), i, ws, ino)
  {
    OwnedAlongIff(INIT, es);
    assert OwnedBy(Run(INIT, es), i, ws, ino) && OwnedBy(Run(INIT, es), j, ws, ino);
  }

  /******* The named owner, if alive, holds the document *******/

  predicate FoundAt(s: System, ws: Ws, ino: Ino) {
    ws in s.cache && ino in s.cache[ws] ==>
      var owner := s.cache[ws][ino];
      owner in s.used && (owner in s.live ==> Holds(s, owner, ws, ino))
  }

  ghost predicate Found(s: System) {
    s.live.Keys <= s.used && forall ws, ino :: FoundAt(s, ws, ino)
  }

  /**
   A failed load that finds exactly one document open, which is named for this instance; or a load that ends after its
   map was dropped while the document is not open again.
   */
  predicate Forgets(s: System, o: Opening, ending: Ending) {
    match ending
    case NotLoaded =>
      && o.id in s.live && |Active(s.live[o.id], o.ws)| == 1
      && exists n | n in Active(s.live[o.id], o.ws) :: Names(s, o.id, o.ws, n)
    case Loaded => o.id in s.live && !InTime(s, o) && o.ws in s.cache && !Holds(s, o.id, o.ws, o.ino)
    case NotStored => false
  }

  predicate ForgetsAt(s: System, e: Event) {
    e.FinishOpen? && e.opening in s.loading && Forgets(s, e.opening, e.ending)
  }

  lemma ForgettingLoses(s: System, o: Opening, ending: Ending)
    requires Found(s) && Forgets(s, o, ending)
    ensures !Found(DoFinish(s, o, ending))
  {
    var s' := DoFinish(s, o, ending);
    if ending.NotLoaded? {
      var other :| other in Active(s.live[o.id], o.ws) && Names(s, o.id, o.ws, other);
      assert !FoundAt(s', o.ws, other);
    } else {
      FinishHere(s, o, ending);
      assert !FoundAt(s', o.ws, o.ino);
    }
  }

  lemma FinishFinds(s: System, o: Opening, ending: Ending, w: Ws, n: Ino)
    requires Found(s) && o.id in s.live && !Forgets(s, o, ending)
    ensures FoundAt(DoFinish(s, o, ending), w, n)
  {
    assert FoundAt(s, w, n);
    FinishHere(s, o, ending);
  }

  lemma FinishKeepsFound(s: System, o: Opening, ending: Ending)
    requires Found(s)
    ensures Found(DoFinish(s, o, ending)) <==> !Forgets(s, o, ending)
  {
    if Forgets(s, o, ending) {
      ForgettingLoses(s, o, ending);
    } else if o.id in s.live {
      forall w, n ensures FoundAt(DoFinish(s, o, ending), w, n) { FinishFinds(s, o, ending, w, n); }
    }
  }

  lemma OpenFinds(s: System, id: InstanceId, uid: Uid, ws: Ws, ino: Ino, stores: bool, w: Ws, n: Ino)
    requires Found(s)
    ensures FoundAt(DoOpen(s, id, uid, ws, ino, stores), w, n)
  {
    assert FoundAt(s, w, n);
  }

  lemma CloseAtFrame(me: InstanceId, l: Local, cache: DocCache, uid: Uid, ws: Ws, ino: Ino, w: Ws, n: Ino)
    requires !(w == ws && n == ino)
    ensures var o := CloseAt(me, l, cache, uid, ws, ino);
            && (w in o.cache && n in o.cache[w] <==> w in cache && n in cache[w])
            && (w in cache && n in cache[w] ==> o.cache[w][n] == cache[w][n])
            && (w in o.local.docs && n in o.local.docs[w] <==> w in l.docs && n in l.docs[w])
            && (w in l.docs && n in l.docs[w] ==> o.local.docs[w][n] == l.docs[w][n])
  {
    if w == ws && w in l.docs && n in l.docs[w] {
      assert n in l.docs[ws] - {ino};
    }
  }

  lemma CloseFinds(s: System, id: InstanceId, uid: Uid, ws: Ws, ino: Ino, w: Ws, n: Ino)
    requires Found(s)
    ensures FoundAt(DoClose(s, id, uid, ws, ino), w, n)
  {
    assert FoundAt(s, w, n);
    if id in s.live {
      if w == ws && n == ino {
        CloseFindsHere(s, id, uid, ws, ino);
      } else {
        CloseAtFrame(id, s.live[id], s.cache, uid, ws, ino, w, n);
      }
    }
  }

  lemma CloseFindsHere(s: System, id: InstanceId, uid: Uid, ws: Ws, ino: Ino)
    requires Found(s) && id in s.live
    ensures FoundAt(DoClose(s, id, uid, ws, ino), ws, ino)
  {
    assert FoundAt(s, ws, ino);
  }

  lemma SameDocsFound(s: System, s': System)
    requires Found(s) && s'.live == s.live && s'.cache == s.cache && s'.used == s.used
    ensures Found(s')
  {
    forall w, n ensures FoundAt(s', w, n) { assert FoundAt(s, w, n); }
  }

  lemma OpenKeepsFound(s: System, id: InstanceId, uid: Uid, ws: Ws, ino: Ino, stores: bool)
    requires Found(s)
    ensures Found(DoOpen(s, id, uid, ws, ino, stores))
  {
    forall w, n ensures FoundAt(DoOpen(s, id, uid, ws, ino, stores), w, n) {
      OpenFinds(s, id, uid, ws, ino, stores, w, n);
    }
  }

  lemma CloseKeepsFound(s: System, id: InstanceId, uid: Uid, ws: Ws, ino: Ino)
    requires Found(s)
    ensures Found(DoClose(s, id, uid, ws, ino))
  {
    forall w, n ensures FoundAt(DoClose(s, id, uid, ws, ino), w, n) { CloseFinds(s, id, uid, ws, ino, w, n); }
  }

  lemma SameForgets(s: System, s': System, o: Opening, ending: Ending)
    requires s'.live == s.live && s'.cache == s.cache
    ensures Forgets(s', o, ending) <==> Forgets(s, o, ending)
  {
    assert forall n :: Names(s', o.id, o.ws, n) <==> Names(s, o.id, o.ws, n);
  }

  lemma EndKeepsFound(s: System, o: Opening, ending: Ending)
    requires Found(s) && o in s.loading
    ensures Found(DoFinish(Ended(s, o), o, ending)) <==> !Forgets(s, o, ending)
  {
    SameDocsFound(s, Ended(s, o));
    SameForgets(s, Ended(s, o), o, ending);
    FinishKeepsFound(Ended(s, o), o, ending);
  }

  lemma PlainStepFinds(s: System, e: Event, w: Ws, n: Ino)
    requires Found(s)
    requires e.Start? || e.Crash? || e.EnterWorkspace? || e.DropWorkspace? || e.ReportLoss?
    ensures FoundAt(Step(s, e), w, n)
  {
    assert FoundAt(s, w, n);
  }

  /** One step leaves every live named owner holding its document exactly when it ends no load like that. */
  lemma StepKeepsFound(s: System, e: Event)
    requires Found(s)
    ensures Found(Step(s, e)) <==> !ForgetsAt(s, e)
  {
    match e {
      case BeginOpen(id, uid, ws, ino, stores) => OpenKeepsFound(s, id, uid, ws, ino, stores);
      case FinishOpen(o, ending) => if o in s.loading { EndKeepsFound(s, o, ending); }
      case Close(id, uid, ws, ino) => CloseKeepsFound(s, id, uid, ws, ino);
      case Deliver(msg, stores) =>
        if msg in s.flight {
          SameDocsFound(s, Received(s, msg));
          if msg.OpenFile? {
            OpenKeepsFound(Received(s, msg), msg.to, msg.uid, msg.ws, msg.ino, stores);
          } else {
            CloseKeepsFound(Received(s, msg), msg.to, msg.uid, msg.ws, msg.ino);
          }
        }
      case _ =>
        forall w, n ensures FoundAt(Step(s, e), w, n) { PlainStepFinds(s, e, w, n); }
    }
  }

  ghost predicate FoundAlong(s: System, es: seq<Event>)
    decreases |es|
  {
    Found(s) && (es != [] ==> FoundAlong(Step(s, es[0]), es[1..]))
  }

  predicate NeverForgets(s: System, es: seq<Event>)
    decreases |es|
  {
    es != [] ==> !ForgetsAt(s, es[0]) && NeverForgets(Step(s, es[0]), es[1..])
  }

  lemma {:induction false} FoundAlongIff(s: System, es: seq<Event>)
    requires Found(s)
    ensures FoundAlong(s, es) <==> NeverForgets(s, es)
    decreases |es|
  {
    if es != [] {
      StepKeepsFound(s, es[0]);
      if Found(Step(s, es[0])) {
        FoundAlongIff(Step(s, es[0]), es[1..]);
      }
    }
  }

  /**
   In every run, with any number of holders, drops and loss reports: a message routed by the cache to a live instance
   finds the document there, at every moment, exactly when no load fails beside a single open document named for its
   instance or ends after its map was dropped.
   */
  lemma RouteFindsDocument(es: seq<Event>)
    ensures FoundAlong(INIT, es) <==> NeverForgets(INIT, es)
  {
    FoundAlongIff(INIT, es);
  }

  /******* Who has a document open, whichever instance the request reaches *******/

  /** A forwarding instance changes nothing but the messages in flight. */
  lemma SentOn(s: System, via: InstanceId, msg: Msg)
    requires via in s.live
    ensures var s1 := Apply(s, via, Outcome(s.live[via], s.cache, [msg], None, Silent));
            msg in s1.flight && Received(s1, msg) == s
  {
    assert s.live[via := s.live[via]] == s.live;
  }

  lemma OpenForwarded(s: System, via: InstanceId, uid: Uid, ws: Ws, ino: Ino, stores: bool)
    requires via in s.live && OwnedElsewhere(via, s.cache, ws, ino)
    ensures DoOpen(s, via, uid, ws, ino, stores) ==
            Apply(s, via, Outcome(s.live[via], s.cache, [OpenFile(s.cache[ws][ino], uid, ws, ino)], None, Silent))
  {
    assert s.loading + multiset{} == s.loading;
  }

  /** An open that reaches another instance ends, once forwarded, exactly as one made at the owner. */
  lemma ForwardedOpenIsOwners(s: System, via: InstanceId, uid: Uid, ws: Ws, ino: Ino, tried: bool, stores: bool)
    requires via in s.live && OwnedElsewhere(via, s.cache, ws, ino)
    ensures var owner := s.cache[ws][ino];
            Step(Step(s, BeginOpen(via, uid, ws, ino, tried)), Deliver(OpenFile(owner, uid, ws, ino), stores)) ==
            Step(s, BeginOpen(owner, uid, ws, ino, stores))
  {
    var msg := OpenFile(s.cache[ws][ino], uid, ws, ino);
    OpenForwarded(s, via, uid, ws, ino, tried);
    SentOn(s, via, msg);
    var s1 := Step(s, BeginOpen(via, uid, ws, ino, tried));
    assert Step(s1, Deliver(msg, stores)) == DoOpen(Received(s1, msg), msg.to, uid, ws, ino, stores);
  }

  lemma ForwardedCloseIsOwners(s: System, via: InstanceId, uid: Uid, ws: Ws, ino: Ino, stores: bool)
    requires via in s.live && OwnedElsewhere(via, s.cache, ws, ino)
    ensures var owner := s.cache[ws][ino];
            Step(Step(s, Close(via, uid, ws, ino)), Deliver(CloseFile(owner, uid, ws, ino), stores)) ==
            Step(s, Close(owner, uid, ws, ino))
  {
    var msg := CloseFile(s.cache[ws][ino], uid, ws, ino);
    SentOn(s, via, msg);
    var s1 := Step(s, Close(via, uid, ws, ino));
    assert Step(s1, Deliver(msg, stores)) == DoClose(Received(s1, msg), msg.to, uid, ws, ino);
  }

  /** The users of a document, as its named owner knows them. */
  function Users(s: System, ws: Ws, ino: Ino): set<Uid> {
    if ws in s.cache && ino in s.cache[ws] && Holds(s, s.cache[ws][ino], ws, ino)
    then s.live[s.cache[ws][ino]].docs[ws][ino] else {}
  }

  /** Joining an open document adds the user to it and to no other. */
  lemma JoinAddsUser(s: System, id: InstanceId, uid: Uid, ws: Ws, ino: Ino, stores: bool, w: Ws, n: Ino)
    requires Owned(s) && Holds(s, id, ws, ino)
    ensures Users(Step(s, BeginOpen(id, uid, ws, ino, stores)), w, n) ==
            if w == ws && n == ino then Users(s, ws, ino) + {uid} else Users(s, w, n)
  {
    assert OwnedBy(s, id, ws, ino);
  }

  /** A load that ends in time leaves its user as the only one of the document, and no other document changes. */
  lemma LoadSetsUser(s: System, o: Opening, w: Ws, n: Ino)
    requires o in s.loading && InTime(s, o) && o.ws in s.cache
    ensures Users(Step(s, FinishOpen(o, Loaded)), w, n) == if w == o.ws && n == o.ino then {o.uid} else Users(s, w, n)
  {
    FinishHere(Ended(s, o), o, Loaded);
  }

  /** A close that reaches the owner takes its user from that document; the last one out leaves it unowned. */
  lemma CloseRemovesUser(s: System, id: InstanceId, uid: Uid, ws: Ws, ino: Ino)
    requires Owned(s) && id in s.live && ws in s.cache && !OwnedElsewhere(id, s.cache, ws, ino)
    ensures var s' := Step(s, Close(id, uid, ws, ino));
            && Users(s', ws, ino) == Users(s, ws, ino) - {uid}
            && (Users(s, ws, ino) == {uid} ==> ino !in s'.cache[ws])
  {
    assert OwnedBy(s, id, ws, ino);
    if Holds(s, id, ws, ino) {
      assert s.live[id].docs[ws][ino] == Users(s, ws, ino);
    } else {
      assert Users(s, ws, ino) == {};
    }
  }

  lemma CloseSparesOthers(s: System, id: InstanceId, uid: Uid, ws: Ws, ino: Ino, w: Ws, n: Ino)
    requires !(w == ws && n == ino)
    ensures Users(Step(s, Close(id, uid, ws, ino)), w, n) == Users(s, w, n)
  {
    if id in s.live {
      CloseAtFrame(id, s.live[id], s.cache, uid, ws, ino, w, n);
    }
  }

  /******* Users are those told so, in every orderly run *******/

  /** What a client learns: a document was opened for the user, or their close was carried out. */
  datatype Word = Joined(uid: Uid, ws: Ws, ino: Ino) | Left(uid: Uid, ws: Ws, ino: Ino)

  predicate Answers(s: System, id: InstanceId, ws: Ws, ino: Ino) {
    id in s.live && ws in s.cache && !OwnedElsewhere(id, s.cache, ws, ino)
  }

  function OpenTold(s: System, id: InstanceId, uid: Uid, ws: Ws, ino: Ino, stores: bool): Option<Word> {
    if id in s.live && OpenAt(id, s.live[id], s.cache, uid, ws, ino, stores).reply.Opened?
    then Some(Joined(uid, ws, ino)) else None
  }

  function EndTold(s: System, o: Opening, ending: Ending): Option<Word> {
    if o.id in s.live && LoadEnds(o.id, s.live[o.id], s.cache, o.uid, o.ws, o.ino, o.load, ending).reply.Opened?
    then Some(Joined(o.uid, o.ws, o.ino)) else None
  }

  function CloseTold(s: System, id: InstanceId, uid: Uid, ws: Ws, ino: Ino): Option<Word> {
    if Answers(s, id, ws, ino) then Some(Left(uid, ws, ino)) else None
  }

  function Told(s: System, e: Event): Option<Word> {
    match e
    case BeginOpen(id, uid, ws, ino, stores) => OpenTold(s, id, uid, ws, ino, stores)
    case FinishOpen(o, ending) => if o in s.loading then EndTold(s, o, ending) else None
    case Close(id, uid, ws, ino) => CloseTold(s, id, uid, ws, ino)
    case Deliver(msg, stores) =>
      if msg !in s.flight then None
      else if msg.OpenFile? then OpenTold(s, msg.to, msg.uid, msg.ws, msg.ino, stores)
      else CloseTold(s, msg.to, msg.uid, msg.ws, msg.ino)
    case _ => None
  }

  function Heard(users: set<Uid>, word: Option<Word>, ws: Ws, ino: Ino): set<Uid> {
    if word.None? || word.value.ws != ws || word.value.ino != ino then users
    else if word.value.Joined? then users + {word.value.uid} else users - {word.value.uid}
  }

  /**
   Owners can be stored; loads end in time, beside no other holder, with the document not open meanwhile, and fail
   beside no single document; entries are dropped, losses reported and instances lost only where nothing is held.
   */
  ghost predicate Orderly(s: System, e: Event) {
    match e
    case BeginOpen(_, _, _, _, stores) => stores
    case Deliver(_, stores) => stores
    case FinishOpen(o, ending) =>
      o in s.loading && o.id in s.live ==>
        match ending {
          case Loaded => InTime(s, o) && o.ws in s.cache && forall j :: !Holds(s, j, o.ws, o.ino)
          case NotLoaded => |Active(s.live[o.id], o.ws)| != 1
          case NotStored => false
        }
    case Crash(id) => forall ws, ino :: !Holds(s, id, ws, ino)
    case _ => Allowed(s, e)
  }

  lemma OrderlyIsAllowed(s: System, e: Event)
    requires Orderly(s, e)
    ensures Allowed(s, e) && !ForgetsAt(s, e)
  {
  }

  lemma OpenUsers(s: System, id: InstanceId, uid: Uid, ws: Ws, ino: Ino, w: Ws, n: Ino)
    requires Owned(s)
    ensures Users(DoOpen(s, id, uid, ws, ino, true), w, n) ==
            Heard(Users(s, w, n), OpenTold(s, id, uid, ws, ino, true), w, n)
  {
    if Holds(s, id, ws, ino) {
      assert OwnedBy(s, id, ws, ino);
      JoinAddsUser(s, id, uid, ws, ino, true, w, n);
    } else {
      NoJoinKeepsUsers(s, id, uid, ws, ino, w, n);
    }
  }

  /** A load that starts changes no document. */
  lemma StartKeepsDocs(l: Local, ws: Ws, w: Ws, n: Ino)
    ensures var docs := l.docs[ws := Active(l, ws)];
            && (w in docs && n in docs[w] <==> w in l.docs && n in l.docs[w])
            && (w in l.docs && n in l.docs[w] ==> docs[w][n] == l.docs[w][n])
  {
  }

  lemma StartKeepsUsers(s: System, id: InstanceId, uid: Uid, ws: Ws, ino: Ino, w: Ws, n: Ino)
    requires Answers(s, id, ws, ino) && !Holds(s, id, ws, ino)
    ensures Users(DoOpen(s, id, uid, ws, ino, true), w, n) == Users(s, w, n)
  {
    StartKeepsDocs(s.live[id], ws, w, n);
    var s' := DoOpen(s, id, uid, ws, ino, true);
    assert s'.cache == s.cache;
    assert s'.live == s.live[id := s.live[id].(docs := s.live[id].docs[ws := Active(s.live[id], ws)])];
  }

  lemma NoAnswerKeepsDocs(s: System, id: InstanceId, uid: Uid, ws: Ws, ino: Ino)
    requires !Answers(s, id, ws, ino)
    ensures var s' := DoOpen(s, id, uid, ws, ino, true); s'.live == s.live && s'.cache == s.cache
    ensures var s' := DoClose(s, id, uid, ws, ino); s'.live == s.live && s'.cache == s.cache
    ensures OpenTold(s, id, uid, ws, ino, true).None?
  {
    if id in s.live {
      assert s.live[id := s.live[id]] == s.live;
    }
  }

  lemma NoJoinKeepsUsers(s: System, id: InstanceId, uid: Uid, ws: Ws, ino: Ino, w: Ws, n: Ino)
    requires !Holds(s, id, ws, ino)
    ensures Users(DoOpen(s, id, uid, ws, ino, true), w, n) == Users(s, w, n)
    ensures OpenTold(s, id, uid, ws, ino, true).None?
  {
    if Answers(s, id, ws, ino) {
      StartKeepsUsers(s, id, uid, ws, ino, w, n);
    } else {
      NoAnswerKeepsDocs(s, id, uid, ws, ino);
      SameDocsUsers(s, DoOpen(s, id, uid, ws, ino, true), w, n);
    }
  }

  lemma CloseUsers(s: System, id: InstanceId, uid: Uid, ws: Ws, ino: Ino, w: Ws, n: Ino)
    requires Owned(s)
    ensures Users(DoClose(s, id, uid, ws, ino), w, n) == Heard(Users(s, w, n), CloseTold(s, id, uid, ws, ino), w, n)
  {
    assert Step(s, Close(id, uid, ws, ino)) == DoClose(s, id, uid, ws, ino);
    if !Answers(s, id, ws, ino) {
      NoAnswerKeepsDocs(s, id, uid, ws, ino);
      SameDocsUsers(s, DoClose(s, id, uid, ws, ino), w, n);
    } else if w == ws && n == ino {
      CloseRemovesUser(s, id, uid, ws, ino);
    } else {
      CloseSparesOthers(s, id, uid, ws, ino, w, n);
    }
  }

  lemma SameDocsUsers(s: System, s': System, w: Ws, n: Ino)
    requires s'.live == s.live && s'.cache == s.cache
    ensures Users(s', w, n) == Users(s, w, n)
  {
  }

  lemma EndUsers(s: System, o: Opening, ending: Ending, w: Ws, n: Ino)
    requires o in s.loading && Orderly(s, FinishOpen(o, ending))
    ensures Users(Step(s, FinishOpen(o, ending)), w, n) ==
            Heard(Users(s, w, n), Told(s, FinishOpen(o, ending)), w, n)
  {
    if o.id in s.live && ending.Loaded? {
      LoadSetsUser(s, o, w, n);
      assert Users(s, o.ws, o.ino) == {};
    } else if o.id in s.live {
      assert s.live[o.id := s.live[o.id]] == s.live;
      SameDocsUsers(s, Step(s, FinishOpen(o, ending)), w, n);
    }
  }

  lemma PlainUsers(s: System, e: Event, w: Ws, n: Ino)
    requires Owned(s) && Found(s) && Orderly(s, e)
    requires e.Start? || e.Crash? || e.EnterWorkspace? || e.DropWorkspace? || e.ReportLoss?
    ensures Users(Step(s, e), w, n) == Users(s, w, n)
  {
    assert FoundAt(s, w, n);
    if w in s.cache && n in s.cache[w] {
      assert OwnedBy(s, s.cache[w][n], w, n);
    }
  }

  lemma StepKeepsUsers(s: System, e: Event, w: Ws, n: Ino)
    requires Owned(s) && Found(s) && Orderly(s, e)
    ensures Users(Step(s, e), w, n) == Heard(Users(s, w, n), Told(s, e), w, n)
  {
    match e {
      case BeginOpen(id, uid, ws, ino, stores) => OpenUsers(s, id, uid, ws, ino, w, n);
      case Close(id, uid, ws, ino) => CloseUsers(s, id, uid, ws, ino, w, n);
      case FinishOpen(o, ending) => if o in s.loading { EndUsers(s, o, ending, w, n); }
      case Deliver(msg, stores) =>
        if msg in s.flight {
          SameDocsOwned(s, Received(s, msg));
          SameDocsUsers(s, Received(s, msg), w, n);
          if msg.OpenFile? {
            OpenUsers(Received(s, msg), msg.to, msg.uid, msg.ws, msg.ino, w, n);
          } else {
            CloseUsers(Received(s, msg), msg.to, msg.uid, msg.ws, msg.ino, w, n);
          }
        }
      case _ => PlainUsers(s, e, w, n);
    }
  }

  ghost predicate OrderlyAlong(s: System, es: seq<Event>)
    decreases |es|
  {
    es != [] ==> Orderly(s, es[0]) && OrderlyAlong(Step(s, es[0]), es[1..])
  }

  /** The users of a document as the answers along a run make them. */
  function HeardAlong(s: System, es: seq<Event>, users: set<Uid>, ws: Ws, ino: Ino): set<Uid>
    decreases |es|
  {
    if es == [] then users
    else HeardAlong(Step(s, es[0]), es[1..], Heard(users, Told(s, es[0]), ws, ino), ws, ino)
  }

  lemma {:induction false} UsersAlong(s: System, es: seq<Event>, ws: Ws, ino: Ino)
    requires Owned(s) && Found(s) && OrderlyAlong(s, es)
    ensures Users(Run(s, es), ws, ino) == HeardAlong(s, es, Users(s, ws, ino), ws, ino)
    decreases |es|
  {
    if es != [] {
      OrderlyIsAllowed(s, es[0]);
      StepKeepsOwned(s, es[0]);
      StepKeepsFound(s, es[0]);
      StepKeepsUsers(s, es[0], ws, ino);
      UsersAlong(Step(s, es[0]), es[1..], ws, ino);
    }
  }

  /**
   In every orderly run, with messages forwarded and loads under way, the users the owner of a document knows are
   exactly those who were told it is open and whose later closes were not carried out.
   */
  lemma UsersOverRuns(es: seq<Event>, ws: Ws, ino: Ino)
    requires OrderlyAlong(INIT, es)
    ensures Users(Run(INIT, es), ws, ino) == HeardAlong(INIT, es, {}, ws, ino)
  {
    UsersAlong(INIT, es, ws, ino);
  }

  /******* Runs that break ownership, forget a document or a user *******/

  lemma {:induction false} Extend(s: System, es: seq<Event>, e: Event)
    ensures Run(s, es + [e]) == Step(Run(s, es), e)
    decreases |es|
  {
    if es == [] {
      assert es + [e] == [e] && [e][1..] == [];
    } else {
      assert (es + [e])[0] == es[0] && (es + [e])[1..] == es[1..] + [e];
      Extend(Step(s, es[0]), es[1..], e);
    }
  }

  const BLANK := Local(map[], map[])

  /** Two instances and a cached workspace. */
  lemma Ready(a: InstanceId, b: InstanceId, ws: Ws) returns (es: seq<Event>)
    requires a != b
    ensures Run(INIT, es) == System(map[a := BLANK, b := BLANK], {a, b}, map[ws := map[]], multiset{}, multiset{})
  {
    es := [Start(a)];
    Extend(INIT, [], Start(a));
    assert [] + es == es;
    Extend(INIT, es, Start(b));
    es := es + [Start(b)];
    assert Run(INIT, es).live == map[a := BLANK, b := BLANK];
    Extend(INIT, es, EnterWorkspace(ws));
    es := es + [EnterWorkspace(ws)];
  }

  function SoleDocument(s: System, id: InstanceId, uid: Uid, ws: Ws, ino: Ino): System
    requires id in s.live
  {
    s.(live := s.live[id := s.live[id].(docs := map[ws := map[ino := {uid}]])], cache := Claim(id, s.cache, ws, ino))
  }

  /** A load starts on an instance that holds nothing. */
  lemma FirstLoadStarts(s: System, id: InstanceId, uid: Uid, ws: Ws, ino: Ino)
    requires id in s.live && Active(s.live[id], ws) == map[] && s.live[id].docs.Keys <= {ws}
    requires ws in s.cache && !OwnedElsewhere(id, s.cache, ws, ino)
    ensures Step(s, BeginOpen(id, uid, ws, ino, true)) ==
            s.(live := s.live[id := s.live[id].(docs := map[ws := map[]])],
               loading := s.loading + multiset{Opening(id, uid, ws, ino, Drops(s.live[id], ws))})
  {
    assert s.live[id].docs[ws := map[]] == map[ws := map[]];
  }

  lemma PlacedAlone(l: Local, uid: Uid, ws: Ws, ino: Ino)
    requires Active(l, ws).Keys <= {ino} && l.docs.Keys <= {ws}
    ensures Placed(l, uid, ws, ino, Drops(l, ws)) == l.(docs := map[ws := map[ino := {uid}]])
  {
    assert Active(l, ws)[ino := {uid}] == map[ino := {uid}];
    assert l.docs[ws := map[ino := {uid}]] == map[ws := map[ino := {uid}]];
  }

  /** And ends. */
  lemma FirstLoadEnds(s: System, o: Opening)
    requires o in s.loading && InTime(s, o)
    requires Active(s.live[o.id], o.ws).Keys <= {o.ino} && s.live[o.id].docs.Keys <= {o.ws}
    ensures Step(s, FinishOpen(o, Loaded)) == SoleDocument(Ended(s, o), o.id, o.uid, o.ws, o.ino)
  {
    PlacedAlone(s.live[o.id], o.uid, o.ws, o.ino);
  }

  /** Instance `id`, holding nothing, loads a document nobody else is named for. */
  lemma Opens(es: seq<Event>, id: InstanceId, uid: Uid, ws: Ws, ino: Ino) returns (more: seq<Event>)
    requires var s := Run(INIT, es);
             id in s.live && s.live[id].docs == map[] && ws in s.cache && !OwnedElsewhere(id, s.cache, ws, ino)
    ensures Run(INIT, more) == SoleDocument(Run(INIT, es), id, uid, ws, ino)
  {
    var s := Run(INIT, es);
    var o := Opening(id, uid, ws, ino, Drops(s.live[id], ws));
    FirstLoadStarts(s, id, uid, ws, ino);
    Extend(INIT, es, BeginOpen(id, uid, ws, ino, true));
    more := es + [BeginOpen(id, uid, ws, ino, true)];
    FirstLoadEnds(Run(INIT, more), o);
    Extend(INIT, more, FinishOpen(o, Loaded));
    more := more + [FinishOpen(o, Loaded)];
    var started := s.live[id := s.live[id].(docs := map[ws := map[]])];
    LaterWins(s.live, id, started[id], s.live[id].(docs := map[ws := map[ino := {uid}]]));
    assert s.loading + multiset{o} - multiset{o} == s.loading;
  }

  lemma LaterWins(live: map<InstanceId, Local>, id: InstanceId, a: Local, b: Local)
    ensures live[id := a][id := b] == live[id := b]
  {
  }

  /** The cache forgets the owner, by a loss report or by a drop and a new entry. */
  lemma Unnames(es: seq<Event>, ws: Ws, ino: Ino, reported: bool) returns (more: seq<Event>)
    requires ws in Run(INIT, es).cache
    ensures var s, s' := Run(INIT, es), Run(INIT, more);
            s'.live == s.live && ws in s'.cache && ino !in s'.cache[ws]
  {
    if reported {
      Extend(INIT, es, ReportLoss(ws, ino));
      more := es + [ReportLoss(ws, ino)];
    } else {
      Extend(INIT, es, DropWorkspace(ws));
      more := es + [DropWorkspace(ws)];
      Extend(INIT, more, EnterWorkspace(ws));
      more := more + [EnterWorkspace(ws)];
    }
  }

  /** The entry is dropped, or a loss reported, while `a` holds the document: `b` comes to hold it too. */
  lemma DropLetsAnotherHold(a: InstanceId, b: InstanceId, ws: Ws, ino: Ino, reported: bool) returns (es: seq<Event>)
    requires a != b
    ensures Holds(Run(INIT, es), a, ws, ino) && Holds(Run(INIT, es), b, ws, ino)
  {
    es := Ready(a, b, ws);
    es := Opens(es, a, "u", ws, ino);
    var s := Run(INIT, es);
    assert Holds(s, a, ws, ino) && b in s.live && s.live[b] == BLANK;
    es := Unnames(es, ws, ino, reported);
    es := Opens(es, b, "v", ws, ino);
  }

  /** After its owner crashed and the loss was reported, the document can be opened elsewhere and has one holder. */
  lemma LossReportRecovers(a: InstanceId, b: InstanceId, ws: Ws, ino: Ino) returns (es: seq<Event>)
    requires a != b
    ensures var s := Run(INIT, es);
            Holds(s, b, ws, ino) && Names(s, b, ws, ino) && a !in s.live && Users(s, ws, ino) == {"v"}
  {
    es := Ready(a, b, ws);
    es := Opens(es, a, "u", ws, ino);
    var s := Run(INIT, es);
    assert b in s.live && s.live[b] == BLANK;
    Extend(INIT, es, Crash(a));
    es := es + [Crash(a)];
    es := Unnames(es, ws, ino, true);
    es := Opens(es, b, "v", ws, ino);
  }

  /** Two loads of one document started on two instances: both come to hold it. */
  lemma LateLoadMakesTwoHolders(a: InstanceId, b: InstanceId, ws: Ws, ino: Ino) returns (es: seq<Event>)
    requires a != b
    ensures Holds(Run(INIT, es), a, ws, ino) && Holds(Run(INIT, es), b, ws, ino)
  {
    es := Ready(a, b, ws);
    var o := Opening(a, "u", ws, ino, 0);
    FirstLoadStarts(Run(INIT, es), a, "u", ws, ino);
    Extend(INIT, es, BeginOpen(a, "u", ws, ino, true));
    es := es + [BeginOpen(a, "u", ws, ino, true)];
    es := Opens(es, b, "v", ws, ino);
    FirstLoadEnds(Run(INIT, es), o);
    Extend(INIT, es, FinishOpen(o, Loaded));
    es := es + [FinishOpen(o, Loaded)];
  }

  lemma SecondLoadStarts(s: System, id: InstanceId, uid: Uid, ws: Ws, ino: Ino)
    requires id in s.live && ws in s.live[id].docs && ino !in s.live[id].docs[ws]
    requires ws in s.cache && !OwnedElsewhere(id, s.cache, ws, ino)
    ensures var s' := Step(s, BeginOpen(id, uid, ws, ino, true));
            && Opening(id, uid, ws, ino, Drops(s.live[id], ws)) in s'.loading
            && s'.live == s.live && s'.cache == s.cache
  {
    assert s.live[id].docs[ws := s.live[id].docs[ws]] == s.live[id].docs;
  }

  /** A load that fails beside one open document: the owner named for that one no longer holds it. */
  lemma FailedLoadForgets(a: InstanceId, b: InstanceId, ws: Ws, ino: Ino, other: Ino) returns (es: seq<Event>)
    requires a != b && ino != other
    ensures var s := Run(INIT, es); a in s.live && Names(s, a, ws, ino) && !Holds(s, a, ws, ino)
  {
    es := Ready(a, b, ws);
    es := Opens(es, a, "u", ws, ino);
    var s := Run(INIT, es);
    var o := Opening(a, "u", ws, other, Drops(s.live[a], ws));
    SecondLoadStarts(s, a, "u", ws, other);
    Extend(INIT, es, BeginOpen(a, "u", ws, other, true));
    es := es + [BeginOpen(a, "u", ws, other, true)];
    Extend(INIT, es, FinishOpen(o, NotLoaded));
    es := es + [FinishOpen(o, NotLoaded)];
  }

  lemma LastCloseForgets(s: System, id: InstanceId, uid: Uid, ws: Ws, ino: Ino)
    requires id in s.live && s.live[id].docs == map[ws := map[ino := {uid}]]
    requires ws in s.cache && !OwnedElsewhere(id, s.cache, ws, ino)
    ensures var s' := Step(s, Close(id, uid, ws, ino));
            && s'.live == s.live[id := Forget(s.live[id], ws)] && ws in s'.cache && s'.loading == s.loading
            && s'.live[id].docs == map[]
  {
    assert {uid} - {uid} == {};
    assert map[ino := {uid}] - {ino} == map[];
  }

  /** Instance `a` holding nothing or one document, with these loads under way. */
  function Beside(a: InstanceId, b: InstanceId, ws: Ws, docs: map<Ino, set<Uid>>, owners: map<Ino, InstanceId>,
                  loading: multiset<Opening>): System
  {
    System(map[a := Local(map[ws := docs], map[]), b := BLANK], {a, b}, map[ws := owners], multiset{}, loading)
  }

  lemma BesideStarts(a: InstanceId, b: InstanceId, ws: Ws, loading: multiset<Opening>, ino: Ino)
    requires a != b
    ensures Step(Beside(a, b, ws, map[], map[], loading), BeginOpen(a, "u", ws, ino, true)) ==
            Beside(a, b, ws, map[], map[], loading + multiset{Opening(a, "u", ws, ino, 0)})
  {
    var s := Beside(a, b, ws, map[], map[], loading);
    FirstLoadStarts(s, a, "u", ws, ino);
    assert s.live[a := s.live[a].(docs := map[ws := map[]])] == s.live;
  }

  lemma BesideEnds(a: InstanceId, b: InstanceId, ws: Ws, loading: multiset<Opening>, ino: Ino)
    requires a != b && Opening(a, "u", ws, ino, 0) in loading
    ensures var o := Opening(a, "u", ws, ino, 0);
            Step(Beside(a, b, ws, map[], map[], loading), FinishOpen(o, Loaded)) ==
            Beside(a, b, ws, map[ino := {"u"}], map[ino := a], loading - multiset{o})
  {
    var s, o := Beside(a, b, ws, map[], map[], loading), Opening(a, "u", ws, ino, 0);
    FirstLoadEnds(s, o);
    assert s.live[a := Local(map[ws := map[ino := {"u"}]], map[])] ==
           map[a := Local(map[ws := map[ino := {"u"}]], map[]), b := BLANK];
    assert Claim(a, s.cache, ws, ino) == map[ws := map[ino := a]];
  }

  lemma OneLoad(a: InstanceId, b: InstanceId, ws: Ws, ino: Ino) returns (es: seq<Event>)
    requires a != b
    ensures Run(INIT, es) == Beside(a, b, ws, map[], map[], multiset{Opening(a, "u", ws, ino, 0)})
  {
    es := Ready(a, b, ws);
    var s := Run(INIT, es);
    FirstLoadStarts(s, a, "u", ws, ino);
    assert s.live[a := Local(map[ws := map[]], map[])] == map[a := Local(map[ws := map[]], map[]), b := BLANK];
    Extend(INIT, es, BeginOpen(a, "u", ws, ino, true));
    es := es + [BeginOpen(a, "u", ws, ino, true)];
  }

  lemma TwoLoads(a: InstanceId, b: InstanceId, ws: Ws, ino: Ino, other: Ino) returns (es: seq<Event>)
    requires a != b
    ensures Run(INIT, es) ==
            Beside(a, b, ws, map[], map[], multiset{Opening(a, "u", ws, ino, 0), Opening(a, "u", ws, other, 0)})
  {
    es := OneLoad(a, b, ws, ino);
    BesideStarts(a, b, ws, multiset{Opening(a, "u", ws, ino, 0)}, other);
    Extend(INIT, es, BeginOpen(a, "u", ws, other, true));
    es := es + [BeginOpen(a, "u", ws, other, true)];
  }

  /** A load is under way while another document of the workspace is open. */
  lemma LoadBesideDocument(a: InstanceId, b: InstanceId, ws: Ws, ino: Ino, other: Ino) returns (es: seq<Event>)
    requires a != b && ino != other
    ensures Run(INIT, es) ==
            Beside(a, b, ws, map[other := {"u"}], map[other := a], multiset{Opening(a, "u", ws, ino, 0)})
  {
    es := TwoLoads(a, b, ws, ino, other);
    var o, p := Opening(a, "u", ws, ino, 0), Opening(a, "u", ws, other, 0);
    BesideEnds(a, b, ws, multiset{o, p}, other);
    Extend(INIT, es, FinishOpen(p, Loaded));
    es := es + [FinishOpen(p, Loaded)];
    assert multiset{o, p} - multiset{p} == multiset{o};
  }

  /**
   A load that ends after the last other document of the workspace was closed: the owner is named and holds nothing.
   */
  lemma LoadIntoDroppedMapForgets(a: InstanceId, b: InstanceId, ws: Ws, ino: Ino, other: Ino) returns (es: seq<Event>)
    requires a != b && ino != other
    ensures var s := Run(INIT, es); a in s.live && Names(s, a, ws, ino) && !Holds(s, a, ws, ino)
  {
    es := LoadBesideDocument(a, b, ws, ino, other);
    var o := Opening(a, "u", ws, ino, 0);
    LastCloseForgets(Run(INIT, es), a, "u", ws, other);
    Extend(INIT, es, Close(a, "u", ws, other));
    es := es + [Close(a, "u", ws, other)];
    FinishHere(Ended(Run(INIT, es), o), o, Loaded);
    Extend(INIT, es, FinishOpen(o, Loaded));
    es := es + [FinishOpen(o, Loaded)];
  }

  /** Two users open a document on one instance at the same time: the second load replaces the first user. */
  lemma OverlappingOpensForgetUser(a: InstanceId, b: InstanceId, ws: Ws, ino: Ino) returns (es: seq<Event>)
    requires a != b
    ensures Users(Run(INIT, es), ws, ino) == {"v"}
    ensures FinishOpen(Opening(a, "u", ws, ino, 0), Loaded) in es
    ensures FinishOpen(Opening(a, "v", ws, ino, 0), Loaded) in es
  {
    es := Ready(a, b, ws);
    var o, p := Opening(a, "u", ws, ino, 0), Opening(a, "v", ws, ino, 0);
    assert o.uid[0] != p.uid[0];
    FirstLoadStarts(Run(INIT, es), a, "u", ws, ino);
    Extend(INIT, es, BeginOpen(a, "u", ws, ino, true));
    es := es + [BeginOpen(a, "u", ws, ino, true)];
    FirstLoadStarts(Run(INIT, es), a, "v", ws, ino);
    Extend(INIT, es, BeginOpen(a, "v", ws, ino, true));
    es := es + [BeginOpen(a, "v", ws, ino, true)];
    FirstLoadEnds(Run(INIT, es), o);
    Extend(INIT, es, FinishOpen(o, Loaded));
    es := es + [FinishOpen(o, Loaded)];
    LoadSetsUser(Run(INIT, es), p, ws, ino);
    Extend(INIT, es, FinishOpen(p, Loaded));
    es := es + [FinishOpen(p, Loaded)];
  }
}
