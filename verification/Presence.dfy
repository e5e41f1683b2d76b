/**
 Sessions in the presence cache and their expiring markers.

 A marker is a cache key with a time to live. When it runs out, a notice reaches the gateway: an active session
 becomes inactive, an inactive one is removed. Env handlers attach and detach sessions to workspaces.
 */
module Presence {
  import opened Options

  type Uid = string
  type Sid = string
  type Ws = string

  datatype Mode = Active | Inactive

  /** `lastSeen` is the time of the last connect or ping, kept for the statements below. */
  datatype Session = Session(mode: Mode, ws: Option<Ws>, lastSeen: int)

  type Sessions = map<Sid, Session>

  datatype Key = Key(uid: Uid, sid: Sid)

  datatype Marker = Marker(value: Mode, deadline: int)

  /** A session removed by an expiry notice. */
  datatype Removal = Removal(key: Key, lastSeen: int, at: int)

  /** `fired` holds the expiry notices not yet handled. */
  datatype State = State(presence: map<Uid, Sessions>, markers: map<Key, Marker>, fired: multiset<Key>, now: int,
                         removed: seq<Removal>)

  datatype Config = Config(ping: nat, activity: nat)

  datatype Event =
    | Tick(elapsed: nat)
    | Connect(key: Key)
    | Ping(key: Key)
    | Disconnect(key: Key)
    | MarkerExpires(key: Key)
    | Redeliver(key: Key)
    | HandleExpiry(key: Key)
    | EnvReady(key: Key, ws: Ws, affine: bool)
    | EnvClose(uid: Uid, ws: Ws, order: seq<Sid>)

  /******* Steps *******/

  predicate Present(s: State, k: Key) {
    k.uid in s.presence && k.sid in s.presence[k.uid]
  }

  function SessionsOf(s: State, uid: Uid): Sessions {
    if uid in s.presence then s.presence[uid] else map[]
  }

  function Put(s: State, k: Key, session: Session): State {
    s.(presence := s.presence[k.uid := SessionsOf(s, k.uid)[k.sid := session]])
  }

  function Timeout(c: Config, mode: Mode): nat {
    if mode.Active? then c.ping else c.activity
  }

  function SetMode(c: Config, s: State, k: Key, mode: Mode): State
    requires Present(s, k)
  {
    Put(s, k, s.presence[k.uid][k.sid].(mode := mode)).
      (markers := s.markers[k := Marker(mode, s.now + Timeout(c, mode))])
  }

  /** A connection keeps the workspace of a session that was there. */
  function DoConnect(c: Config, s: State, k: Key): State {
    var ws := if Present(s, k) then s.presence[k.uid][k.sid].ws else None;
    SetMode(c, Put(s, k, Session(Active, ws, s.now)), k, Active)
  }

  function DoPing(c: Config, s: State, k: Key): State {
    if Present(s, k) then SetMode(c, Put(s, k, s.presence[k.uid][k.sid].(lastSeen := s.now)), k, Active) else s
  }

  function DoDisconnect(c: Config, s: State, k: Key): State {
    if Present(s, k) then SetMode(c, s, k, Inactive) else s
  }

  /** The session goes, and with the last one the user's whole entry. */
  function Expel(s: State, k: Key): State
    requires Present(s, k)
  {
    var rest := s.presence[k.uid] - {k.sid};
    s.(presence := if rest == map[] then s.presence - {k.uid} else s.presence[k.uid := rest],
       removed := s.removed + [Removal(k, s.presence[k.uid][k.sid].lastSeen, s.now)])
  }

  function HandleStale(c: Config, s: State, k: Key): State {
    if !Present(s, k) then s
    else if s.presence[k.uid][k.sid].mode.Active? then SetMode(c, s, k, Inactive)
    else Expel(s, k)
  }

  function Detached(sessions: Sessions, ws: Ws): Sessions {
    map sid | sid in sessions :: if sessions[sid].ws == Some(ws) then sessions[sid].(ws := None) else sessions[sid]
  }

  /**
   The user's sessions are detached first. The attachment then fails if the workspace could not be taken over or the
   session is gone.
   */
  function Attach(s: State, k: Key, ws: Ws, affine: bool): State {
    if k.uid !in s.presence then s
    else
      var s1 := s.(presence := s.presence[k.uid := Detached(s.presence[k.uid], ws)]);
      if affine && Present(s1, k) then Put(s1, k, s1.presence[k.uid][k.sid].(ws := Some(ws))) else s1
  }

  /** The first session, in the order the entries are listed, that is attached to the workspace. */
  function Find(sessions: Sessions, order: seq<Sid>, ws: Ws): Option<Sid> {
    if order == [] then None
    else if order[0] in sessions && sessions[order[0]].ws == Some(ws) then Some(order[0])
    else Find(sessions, order[1..], ws)
  }

  function Leave(s: State, uid: Uid, ws: Ws, order: seq<Sid>): State {
    match Find(SessionsOf(s, uid), order, ws)
    case None => s
    case Some(sid) =>
      if Present(s, Key(uid, sid)) then Put(s, Key(uid, sid), s.presence[uid][sid].(ws := None)) else s
  }

  function Step(c: Config, s: State, e: Event): State {
    match e
    case Tick(elapsed) => s.(now := s.now + elapsed)
    case Connect(k) => DoConnect(c, s, k)
    case Ping(k) => DoPing(c, s, k)
    case Disconnect(k) => DoDisconnect(c, s, k)
    case MarkerExpires(k) =>
      if k in s.markers && s.markers[k].deadline <= s.now
      then s.(markers := s.markers - {k}, fired := s.fired + multiset{k}) else s
    case Redeliver(k) => if k in s.fired then s.(fired := s.fired + multiset{k}) else s
    case HandleExpiry(k) => if k in s.fired then HandleStale(c, s.(fired := s.fired - multiset{k}), k) else s
    case EnvReady(k, ws, affine) => Attach(s, k, ws, affine)
    case EnvClose(uid, ws, order) => Leave(s, uid, ws, order)
  }

  function Run(c: Config, s: State, es: seq<Event>): State
    decreases |es|
  {
    if es == [] then s else Run(c, Step(c, s, es[0]), es[1..])
  }

  const INIT := State(map[], map[], multiset{}, 0, [])

  /******* One session before and after a step *******/

  function Lookup(s: State, k: Key): Option<Session> {
    if Present(s, k) then Some(s.presence[k.uid][k.sid]) else None
  }

  function Remoded(o: Option<Session>, mode: Mode): Option<Session> {
    if o.Some? then Some(o.value.(mode := mode)) else None
  }

  function Reattached(o: Option<Session>, ws: Option<Ws>): Option<Session> {
    if o.Some? then Some(o.value.(ws := ws)) else None
  }

  /** What a step makes of session `j`. */
  function After(s: State, e: Event, j: Key): Option<Session> {
    var o := Lookup(s, j);
    match e
    case Connect(k) => if j == k then Some(Session(Active, if o.Some? then o.value.ws else None, s.now)) else o
    case Ping(k) => if j == k && o.Some? then Some(o.value.(mode := Active, lastSeen := s.now)) else o
    case Disconnect(k) => if j == k then Remoded(o, Inactive) else o
    case HandleExpiry(k) =>
      if j != k || k !in s.fired || o.None? then o
      else if o.value.mode.Active? then Remoded(o, Inactive) else None
    case EnvReady(k, ws, affine) =>
      if j == k && affine then Reattached(o, Some(ws))
      else if j.uid == k.uid && o.Some? && o.value.ws == Some(ws) then Reattached(o, None)
      else o
    case EnvClose(uid, ws, order) =>
      if j.uid == uid && Find(SessionsOf(s, uid), order, ws) == Some(j.sid) then Reattached(o, None) else o
    case _ => o
  }

  lemma PutLookup(s: State, k: Key, session: Session, j: Key)
    ensures Lookup(Put(s, k, session), j) == if j == k then Some(session) else Lookup(s, j)
  {
  }

  lemma ExpelLookup(s: State, k: Key, j: Key)
    requires Present(s, k)
    ensures Lookup(Expel(s, k), j) == if j == k then None else Lookup(s, j)
  {
    if j != k && j.uid == k.uid && Present(s, j) {
      assert j.sid in s.presence[k.uid] - {k.sid};
    }
  }

  lemma AttachLookup(s: State, k: Key, ws: Ws, affine: bool, j: Key)
    ensures Lookup(Attach(s, k, ws, affine), j) == After(s, EnvReady(k, ws, affine), j)
  {
    if k.uid in s.presence {
      var s1 := s.(presence := s.presence[k.uid := Detached(s.presence[k.uid], ws)]);
      if affine && Present(s1, k) {
        PutLookup(s1, k, s1.presence[k.uid][k.sid].(ws := Some(ws)), j);
      }
    }
  }

  lemma TouchLookup(c: Config, s: State, e: Event, j: Key)
    requires e.Connect? || e.Ping? || e.Disconnect?
    ensures Lookup(Step(c, s, e), j) == After(s, e, j)
  {
    var k := e.key;
    match e {
      case Connect(_) =>
        var joined := Session(Active, if Present(s, k) then s.presence[k.uid][k.sid].ws else None, s.now);
        PutLookup(s, k, joined, j);
        PutLookup(s, k, joined, k);
        PutLookup(Put(s, k, joined), k, joined, j);
      case Ping(_) =>
        if Present(s, k) {
          var seen := s.presence[k.uid][k.sid].(lastSeen := s.now);
          PutLookup(s, k, seen, j);
          PutLookup(s, k, seen, k);
          PutLookup(Put(s, k, seen), k, seen.(mode := Active), j);
        }
      case Disconnect(_) =>
        if Present(s, k) {
          PutLookup(s, k, s.presence[k.uid][k.sid].(mode := Inactive), j);
        }
    }
  }

  lemma ExpiryLookup(c: Config, s: State, k: Key, j: Key)
    ensures Lookup(Step(c, s, HandleExpiry(k)), j) == After(s, HandleExpiry(k), j)
  {
    if k in s.fired && Present(s, k) {
      var s1 := s.(fired := s.fired - multiset{k});
      assert Lookup(s1, j) == Lookup(s, j);
      if s.presence[k.uid][k.sid].mode.Active? {
        PutLookup(s1, k, s.presence[k.uid][k.sid].(mode := Inactive), j);
      } else {
        ExpelLookup(s1, k, j);
      }
    }
  }

  lemma LeaveLookup(s: State, uid: Uid, ws: Ws, order: seq<Sid>, j: Key)
    ensures Lookup(Leave(s, uid, ws, order), j) == After(s, EnvClose(uid, ws, order), j)
  {
    var found := Find(SessionsOf(s, uid), order, ws);
    if found.Some? && Present(s, Key(uid, found.value)) {
      PutLookup(s, Key(uid, found.value), s.presence[uid][found.value].(ws := None), j);
    }
  }

  lemma StepLookup(c: Config, s: State, e: Event, j: Key)
    ensures Lookup(Step(c, s, e), j) == After(s, e, j)
  {
    match e {
      case HandleExpiry(k) => ExpiryLookup(c, s, k, j);
      case EnvReady(k, ws, affine) => AttachLookup(s, k, ws, affine, j);
      case EnvClose(uid, ws, order) => LeaveLookup(s, uid, ws, order, j);
      case Connect(_) => TouchLookup(c, s, e, j);
      case Ping(_) => TouchLookup(c, s, e, j);
      case Disconnect(_) => TouchLookup(c, s, e, j);
      case _ =>
    }
  }

  /******* Markers repeat the sessions *******/

  /**
   A pending marker repeats its session's mode. An active session's marker runs out one ping timeout after it was last
   seen, an inactive one's no sooner than one activity timeout after that and no later than one from now.
   */
  predicate Repeats(c: Config, s: State, k: Key) {
    Lookup(s, k).Some? ==>
      var session := Lookup(s, k).value;
      && session.lastSeen <= s.now
      && (k in s.markers ==>
            var m := s.markers[k];
            && m.value == session.mode
            && (m.value.Active? ==> m.deadline == session.lastSeen + c.ping)
            && (m.value.Inactive? ==> session.lastSeen + c.activity <= m.deadline <= s.now + c.activity))
  }

  ghost predicate AllRepeat(c: Config, s: State) {
    forall k :: Repeats(c, s, k)
  }

  lemma TouchRepeats(c: Config, s: State, e: Event, j: Key)
    requires Repeats(c, s, j) && (e.Connect? || e.Ping? || e.Disconnect?)
    ensures Repeats(c, Step(c, s, e), j)
  {
    TouchLookup(c, s, e, j);
  }

  lemma ExpiryRepeats(c: Config, s: State, k: Key, j: Key)
    requires Repeats(c, s, j)
    ensures Repeats(c, Step(c, s, HandleExpiry(k)), j)
  {
    StepLookup(c, s, HandleExpiry(k), j);
  }

  lemma RepeatsStep(c: Config, s: State, e: Event, j: Key)
    requires Repeats(c, s, j)
    ensures Repeats(c, Step(c, s, e), j)
  {
    if e.Connect? || e.Ping? || e.Disconnect? {
      TouchRepeats(c, s, e, j);
    } else if e.HandleExpiry? {
      ExpiryRepeats(c, s, e.key, j);
    } else {
      StepLookup(c, s, e, j);
    }
  }

  /** Over every run, whatever happens to the notices, pending markers repeat mode and time of their sessions. */
  lemma {:induction false} MarkersRepeatOverRuns(c: Config, s: State, es: seq<Event>)
    requires AllRepeat(c, s)
    ensures AllRepeat(c, Run(c, s, es))
    decreases |es|
  {
    if es != [] {
      forall j ensures Repeats(c, Step(c, s, es[0]), j) {
        assert Repeats(c, s, j);
        RepeatsStep(c, s, es[0], j);
      }
      MarkersRepeatOverRuns(c, Step(c, s, es[0]), es[1..]);
    }
  }

  /******* A session is there exactly while a marker or notice of it is *******/

  predicate Corresponds(s: State, k: Key) {
    Present(s, k) <==> k in s.markers || k in s.fired
  }

  ghost predicate AllCorrespond(s: State) {
    forall k :: Corresponds(s, k)
  }

  /** A notice removes an inactive session that has a marker or another notice left. */
  predicate LeavesTrace(s: State, e: Event) {
    && e.HandleExpiry? && e.key in s.fired && Rank(s, e.key) == 1
    && (e.key in s.markers || s.fired[e.key] > 1)
  }

  lemma CorrespondsStep(c: Config, s: State, e: Event, j: Key)
    requires Corresponds(s, j)
    ensures Corresponds(Step(c, s, e), j) <==> !(LeavesTrace(s, e) && j == e.key)
  {
    if e.HandleExpiry? {
      ExpiryCorresponds(c, s, e.key, j);
    } else if e.Connect? || e.Ping? || e.Disconnect? {
      TouchCorresponds(c, s, e, j);
    } else {
      StepLookup(c, s, e, j);
    }
  }

  lemma TouchCorresponds(c: Config, s: State, e: Event, j: Key)
    requires Corresponds(s, j) && (e.Connect? || e.Ping? || e.Disconnect?)
    ensures Corresponds(Step(c, s, e), j)
  {
    TouchLookup(c, s, e, j);
  }

  lemma ExpiryCorresponds(c: Config, s: State, k: Key, j: Key)
    requires Corresponds(s, j)
    ensures Corresponds(Step(c, s, HandleExpiry(k)), j) <==> !(LeavesTrace(s, HandleExpiry(k)) && j == k)
  {
    ExpiryLookup(c, s, k, j);
  }

  lemma StepKeepsCorrespondence(c: Config, s: State, e: Event)
    requires AllCorrespond(s)
    ensures AllCorrespond(Step(c, s, e)) <==> !LeavesTrace(s, e)
  {
    if LeavesTrace(s, e) {
      assert Corresponds(s, e.key);
      CorrespondsStep(c, s, e, e.key);
    } else {
      forall j ensures Corresponds(Step(c, s, e), j) {
        assert Corresponds(s, j);
        CorrespondsStep(c, s, e, j);
      }
    }
  }

  ghost predicate CorrespondAlong(c: Config, s: State, es: seq<Event>)
    decreases |es|
  {
    AllCorrespond(s) && (es != [] ==> CorrespondAlong(c, Step(c, s, es[0]), es[1..]))
  }

  predicate TracelessAlong(c: Config, s: State, es: seq<Event>)
    decreases |es|
  {
    es != [] ==> !LeavesTrace(s, es[0]) && TracelessAlong(c, Step(c, s, es[0]), es[1..])
  }

  lemma {:induction false} CorrespondAlongIff(c: Config, s: State, es: seq<Event>)
    requires AllCorrespond(s)
    ensures CorrespondAlong(c, s, es) <==> TracelessAlong(c, s, es)
    decreases |es|
  {
    if es != [] {
      StepKeepsCorrespondence(c, s, es[0]);
      if AllCorrespond(Step(c, s, es[0])) {
        CorrespondAlongIff(c, Step(c, s, es[0]), es[1..]);
      }
    }
  }

  /**
   In every run, a session is present exactly while its marker is pending or a notice of it under way, at every moment,
   exactly when no removal leaves a marker or notice behind.
   */
  lemma PresenceOverRuns(c: Config, es: seq<Event>)
    ensures CorrespondAlong(c, INIT, es) <==> TracelessAlong(c, INIT, es)
  {
    CorrespondAlongIff(c, INIT, es);
  }

  /******* Nobody is removed too early *******/

  predicate Timely(c: Config, s: State) {
    forall r | r in s.removed :: r.at >= r.lastSeen + c.activity
  }

  /** The session was seen within the activity timeout, and notices enough to remove it are under way. */
  predicate Premature(c: Config, s: State, k: Key) {
    Lookup(s, k).Some? && s.now < Lookup(s, k).value.lastSeen + c.activity && s.fired[k] >= Rank(s, k)
  }

  /** Nobody was removed too early, nor would be if every notice under way were handled now. */
  ghost predicate Safe(c: Config, s: State) {
    Timely(c, s) && forall k :: !Premature(c, s, k)
  }

  predicate Recent(c: Config, s: State, k: Key) {
    Lookup(s, k).Some? && s.now < Lookup(s, k).value.lastSeen + c.activity
  }

  /**
   No disconnect with a notice under way and no further notice for an active session with one under way, within the
   activity timeout; no connect or ping with two notices under way.
   */
  predicate Calm(c: Config, s: State, e: Event) {
    match e
    case Connect(k) => c.activity > 0 ==> s.fired[k] < 2
    case Ping(k) => c.activity > 0 && Present(s, k) ==> s.fired[k] < 2
    case Disconnect(k) => Recent(c, s, k) ==> k !in s.fired
    case MarkerExpires(k) =>
      k in s.markers && s.markers[k].deadline <= s.now && Recent(c, s, k) ==> k !in s.fired
    case Redeliver(k) => k in s.fired && Recent(c, s, k) ==> s.fired[k] + 1 < Rank(s, k)
    case _ => true
  }

  /** What a step does to one session's danger. */
  lemma TouchPremature(c: Config, s: State, e: Event, j: Key)
    requires Repeats(c, s, j) && !Premature(c, s, j) && (e.Connect? || e.Ping? || e.Disconnect?)
    ensures Premature(c, Step(c, s, e), j) <==> j == e.key && !Calm(c, s, e)
  {
    TouchLookup(c, s, e, j);
  }

  lemma ExpiryPremature(c: Config, s: State, k: Key, j: Key)
    requires !Premature(c, s, j)
    ensures !Premature(c, Step(c, s, HandleExpiry(k)), j)
  {
    ExpiryLookup(c, s, k, j);
  }

  lemma PrematureStep(c: Config, s: State, e: Event, j: Key)
    requires Repeats(c, s, j) && !Premature(c, s, j)
    ensures Premature(c, Step(c, s, e), j) <==> !Calm(c, s, e) && j == e.key
  {
    if e.Connect? || e.Ping? || e.Disconnect? {
      TouchPremature(c, s, e, j);
    } else if e.HandleExpiry? {
      ExpiryPremature(c, s, e.key, j);
    } else {
      StepLookup(c, s, e, j);
    }
  }

  lemma TimelyStep(c: Config, s: State, e: Event)
    requires Safe(c, s)
    ensures Timely(c, Step(c, s, e))
  {
    if e.HandleExpiry? {
      assert !Premature(c, s, e.key);
    }
  }

  lemma StepKeepsSafe(c: Config, s: State, e: Event)
    requires AllRepeat(c, s) && Safe(c, s)
    ensures Safe(c, Step(c, s, e)) <==> Calm(c, s, e)
  {
    TimelyStep(c, s, e);
    if Calm(c, s, e) {
      forall j ensures !Premature(c, Step(c, s, e), j) {
        assert Repeats(c, s, j) && !Premature(c, s, j);
        PrematureStep(c, s, e, j);
      }
    } else {
      assert Repeats(c, s, e.key) && !Premature(c, s, e.key);
      PrematureStep(c, s, e, e.key);
    }
  }

  ghost predicate SafeAlong(c: Config, s: State, es: seq<Event>)
    decreases |es|
  {
    Safe(c, s) && (es != [] ==> SafeAlong(c, Step(c, s, es[0]), es[1..]))
  }

  predicate CalmAlong(c: Config, s: State, es: seq<Event>)
    decreases |es|
  {
    es != [] ==> Calm(c, s, es[0]) && CalmAlong(c, Step(c, s, es[0]), es[1..])
  }

  lemma {:induction false} SafeAlongIff(c: Config, s: State, es: seq<Event>)
    requires AllRepeat(c, s) && Safe(c, s)
    ensures SafeAlong(c, s, es) <==> CalmAlong(c, s, es)
    ensures CalmAlong(c, s, es) ==> Timely(c, Run(c, s, es))
    decreases |es|
  {
    if es != [] {
      StepKeepsSafe(c, s, es[0]);
      forall j ensures Repeats(c, Step(c, s, es[0]), j) {
        assert Repeats(c, s, j);
        RepeatsStep(c, s, es[0], j);
      }
      if Safe(c, Step(c, s, es[0])) {
        SafeAlongIff(c, Step(c, s, es[0]), es[1..]);
      }
    }
  }

  /**
   In every run nobody is removed early, or could be by handling what is under way, at every moment, exactly when
   every step is calm.
   */
  lemma SafetyOverRuns(c: Config, es: seq<Event>)
    ensures SafeAlong(c, INIT, es) <==> CalmAlong(c, INIT, es)
  {
    SafeAlongIff(c, INIT, es);
  }

  /** In every calm run, a session removed by expiry had no connect or ping for the whole activity timeout. */
  lemma RemovedOnlyWhenSilent(c: Config, es: seq<Event>, r: Removal)
    requires CalmAlong(c, INIT, es) && r in Run(c, INIT, es).removed
    ensures r.at - r.lastSeen >= c.activity
  {
    SafeAlongIff(c, INIT, es);
  }

  /** The session's notices handled at once, `n` of them. */
  function Handled(c: Config, s: State, k: Key, n: nat): State
    decreases n
  {
    if n == 0 then s else Handled(c, Step(c, s, HandleExpiry(k)), k, n - 1)
  }

  lemma {:induction false} HandledStaysSafe(c: Config, s: State, k: Key, n: nat)
    requires AllRepeat(c, s) && Safe(c, s)
    ensures Timely(c, Handled(c, s, k, n))
    decreases n
  {
    if n > 0 {
      var e := HandleExpiry(k);
      StepKeepsSafe(c, s, e);
      forall j ensures Repeats(c, Step(c, s, e), j) {
        assert Repeats(c, s, j);
        RepeatsStep(c, s, e, j);
      }
      HandledStaysSafe(c, Step(c, s, e), k, n - 1);
    }
  }

  lemma LastHandlingRemoves(c: Config, s: State, k: Key)
    requires Recent(c, s, k) && Rank(s, k) == 1 && k in s.fired
    ensures !Timely(c, Step(c, s, HandleExpiry(k)))
  {
    var gone := Removal(k, Lookup(s, k).value.lastSeen, s.now);
    assert Step(c, s, HandleExpiry(k)).removed == s.removed + [gone];
    assert gone in Step(c, s, HandleExpiry(k)).removed;
  }

  lemma PrematureRemoves(c: Config, s: State, k: Key)
    requires Premature(c, s, k)
    ensures !Timely(c, Handled(c, s, k, Rank(s, k)))
  {
    var s1 := Step(c, s, HandleExpiry(k));
    if Rank(s, k) == 1 {
      assert Handled(c, s, k, 1) == Handled(c, s1, k, 0);
      LastHandlingRemoves(c, s, k);
    } else {
      StepLookup(c, s, HandleExpiry(k), k);
      LastHandlingRemoves(c, s1, k);
      assert Handled(c, s, k, 2) == Handled(c, s1, k, 1) == Handled(c, Step(c, s1, HandleExpiry(k)), k, 0);
    }
  }

  /**
   Safety is the absence of early removals itself: none so far, and none whatever notices of a session are handled
   next.
   */
  lemma SafeExactly(c: Config, s: State)
    requires AllRepeat(c, s) && Timely(c, s)
    ensures Safe(c, s) <==> forall k, n: nat :: Timely(c, Handled(c, s, k, n))
  {
    if Safe(c, s) {
      forall k, n: nat ensures Timely(c, Handled(c, s, k, n)) { HandledStaysSafe(c, s, k, n); }
    } else {
      var k :| Premature(c, s, k);
      PrematureRemoves(c, s, k);
    }
  }

  /******* Runs that remove a session early *******/

  lemma {:induction false} Extend(c: Config, s: State, es: seq<Event>, e: Event)
    ensures Run(c, s, es + [e]) == Step(c, Run(c, s, es), e)
    decreases |es|
  {
    if es == [] {
      assert es + [e] == [e] && [e][1..] == [];
    } else {
      assert (es + [e])[0] == es[0] && (es + [e])[1..] == es[1..] + [e];
      Extend(c, Step(c, s, es[0]), es[1..], e);
    }
  }

  /** The presence cache with a single session. */
  function Only(k: Key, mode: Mode): map<Uid, Sessions> {
    map[k.uid := map[k.sid := Session(mode, None, 0)]]
  }

  lemma OnlyRemoded(k: Key, from: Mode, mode: Mode)
    ensures var sessions := Only(k, from)[k.uid];
            Only(k, from)[k.uid := sessions[k.sid := sessions[k.sid].(mode := mode)]] == Only(k, mode)
  {
    var before, after := Session(from, None, 0), Session(mode, None, 0);
    assert map[k.sid := before][k.sid := after] == map[k.sid := after];
  }

  lemma FirstConnect(c: Config, k: Key)
    ensures Step(c, INIT, Connect(k)) == State(Only(k, Active), map[k := Marker(Active, c.ping)], multiset{}, 0, [])
  {
    var joined := Put(INIT, k, Session(Active, None, 0));
    assert joined.presence == Only(k, Active);
    OnlyRemoded(k, Active, Active);
  }

  /** A run after which the notice of an active session, last seen at 0, is under way. */
  lemma Noticed(c: Config, k: Key) returns (es: seq<Event>)
    ensures Run(c, INIT, es) == State(Only(k, Active), map[], multiset{k}, c.ping, [])
  {
    var e1, e2, e3 := Connect(k), Tick(c.ping), MarkerExpires(k);
    Extend(c, INIT, [], e1);
    assert [] + [e1] == [e1];
    FirstConnect(c, k);
    Extend(c, INIT, [e1], e2);
    Extend(c, INIT, [e1] + [e2], e3);
    es := [e1] + [e2] + [e3];
  }

  lemma OnlyExpelled(c: Config, s: State, k: Key)
    requires s.presence == Only(k, Inactive) && k in s.fired
    ensures Step(c, s, HandleExpiry(k)).removed == s.removed + [Removal(k, 0, s.now)]
  {
  }

  /**
   A disconnect while a notice is under way: handling the notice removes the session a ping timeout after it was
   seen.
   */
  lemma DisconnectRaceRemovesEarly(c: Config, k: Key) returns (es: seq<Event>)
    ensures Run(c, INIT, es).removed == [Removal(k, 0, c.ping)]
  {
    es := Noticed(c, k);
    OnlyRemoded(k, Active, Inactive);
    Extend(c, INIT, es, Disconnect(k));
    es := es + [Disconnect(k)];
    OnlyExpelled(c, Run(c, INIT, es), k);
    Extend(c, INIT, es, HandleExpiry(k));
    es := es + [HandleExpiry(k)];
  }

  /** A notice handled twice does the same to an active session. */
  lemma RedeliveryRemovesActive(c: Config, k: Key) returns (es: seq<Event>)
    ensures Run(c, INIT, es).removed == [Removal(k, 0, c.ping)]
  {
    es := Noticed(c, k);
    OnlyRemoded(k, Active, Inactive);
    Extend(c, INIT, es, Redeliver(k));
    es := es + [Redeliver(k)];
    Extend(c, INIT, es, HandleExpiry(k));
    es := es + [HandleExpiry(k)];
    OnlyExpelled(c, Run(c, INIT, es), k);
    Extend(c, INIT, es, HandleExpiry(k));
    es := es + [HandleExpiry(k)];
  }

  /******* A silent session goes after two expiries *******/

  function Rank(s: State, k: Key): nat {
    match Lookup(s, k)
    case None => 0
    case Some(session) => if session.mode.Active? then 2 else 1
  }

  function Notices(c: Config, s: State, es: seq<Event>, k: Key): nat
    decreases |es|
  {
    if es == [] then 0
    else (if es[0] == HandleExpiry(k) && k in s.fired then 1 else 0) + Notices(c, Step(c, s, es[0]), es[1..], k)
  }

  lemma RankStep(c: Config, s: State, e: Event, k: Key)
    requires e != Connect(k) && e != Ping(k)
    ensures Rank(Step(c, s, e), k) <= Rank(s, k)
    ensures e == HandleExpiry(k) && k in s.fired && Rank(s, k) > 0 ==> Rank(Step(c, s, e), k) < Rank(s, k)
  {
    StepLookup(c, s, e, k);
  }

  predicate NeverSeen(es: seq<Event>, k: Key) {
    forall i | 0 <= i < |es| :: es[i] != Connect(k) && es[i] != Ping(k)
  }

  lemma {:induction false} RankFalls(c: Config, s: State, es: seq<Event>, k: Key)
    requires NeverSeen(es, k)
    ensures var left := Rank(s, k) - Notices(c, s, es, k); Rank(Run(c, s, es), k) <= if left >= 0 then left else 0
    decreases |es|
  {
    if es != [] {
      RankStep(c, s, es[0], k);
      RankFalls(c, Step(c, s, es[0]), es[1..], k);
    }
  }

  /** From any state, a session without connect or ping is gone once two of its expiry notices were handled. */
  lemma SilentSessionGoes(c: Config, s: State, es: seq<Event>, k: Key)
    requires NeverSeen(es, k) && Notices(c, s, es, k) >= 2
    ensures !Present(Run(c, s, es), k)
  {
    RankFalls(c, s, es, k);
  }

  /******* One session per user and workspace *******/

  predicate AttachedTo(s: State, k: Key, ws: Ws) {
    Lookup(s, k).Some? && Lookup(s, k).value.ws == Some(ws)
  }

  ghost predicate Unique(s: State) {
    forall a: Key, b: Key, ws | a.uid == b.uid && AttachedTo(s, a, ws) && AttachedTo(s, b, ws) :: a == b
  }

  lemma StepKeepsUnique(c: Config, s: State, e: Event)
    requires Unique(s)
    ensures Unique(Step(c, s, e))
  {
    var s' := Step(c, s, e);
    forall a: Key, b: Key, ws | a.uid == b.uid && AttachedTo(s', a, ws) && AttachedTo(s', b, ws) ensures a == b {
      StepLookup(c, s, e, a);
      StepLookup(c, s, e, b);
      assert AttachedTo(s, a, ws) || e == EnvReady(a, ws, true);
      assert AttachedTo(s, b, ws) || e == EnvReady(b, ws, true);
    }
  }

  /** In every run a user has at most one session attached to a workspace. */
  lemma {:induction false} UniqueOverRuns(c: Config, s: State, es: seq<Event>)
    requires Unique(s)
    ensures Unique(Run(c, s, es))
    decreases |es|
  {
    if es != [] {
      StepKeepsUnique(c, s, es[0]);
      UniqueOverRuns(c, Step(c, s, es[0]), es[1..]);
    }
  }

  /** No user's record is without a session. */
  predicate NoEmptyRecord(s: State) {
    forall uid | uid in s.presence :: s.presence[uid] != map[]
  }

  lemma PutKeepsRecords(s: State, k: Key, session: Session)
    requires NoEmptyRecord(s)
    ensures NoEmptyRecord(Put(s, k, session))
  {
    assert k.sid in Put(s, k, session).presence[k.uid];
  }

  lemma AttachKeepsRecords(s: State, k: Key, ws: Ws, affine: bool)
    requires NoEmptyRecord(s)
    ensures NoEmptyRecord(Attach(s, k, ws, affine))
  {
    if k.uid in s.presence {
      var sid :| sid in s.presence[k.uid];
      var s1 := s.(presence := s.presence[k.uid := Detached(s.presence[k.uid], ws)]);
      assert sid in s1.presence[k.uid];
      if affine && Present(s1, k) {
        PutKeepsRecords(s1, k, s1.presence[k.uid][k.sid].(ws := Some(ws)));
      }
    }
  }

  lemma LeaveKeepsRecords(s: State, uid: Uid, ws: Ws, order: seq<Sid>)
    requires NoEmptyRecord(s)
    ensures NoEmptyRecord(Leave(s, uid, ws, order))
  {
    var found := Find(SessionsOf(s, uid), order, ws);
    if found.Some? && Present(s, Key(uid, found.value)) {
      PutKeepsRecords(s, Key(uid, found.value), s.presence[uid][found.value].(ws := None));
    }
  }

  lemma HandleKeepsRecords(c: Config, s: State, k: Key)
    requires NoEmptyRecord(s)
    ensures NoEmptyRecord(HandleStale(c, s, k))
  {
    if Present(s, k) && s.presence[k.uid][k.sid].mode.Active? {
      PutKeepsRecords(s, k, s.presence[k.uid][k.sid].(mode := Inactive));
    }
  }

  lemma SocketKeepsRecords(c: Config, s: State, k: Key)
    requires NoEmptyRecord(s)
    ensures NoEmptyRecord(DoConnect(c, s, k)) && NoEmptyRecord(DoPing(c, s, k)) && NoEmptyRecord(DoDisconnect(c, s, k))
  {
    assert k.sid in DoConnect(c, s, k).presence[k.uid];
    if Present(s, k) {
      assert k.sid in DoPing(c, s, k).presence[k.uid];
      assert k.sid in DoDisconnect(c, s, k).presence[k.uid];
    }
  }

  lemma StepKeepsRecords(c: Config, s: State, e: Event)
    requires NoEmptyRecord(s)
    ensures NoEmptyRecord(Step(c, s, e))
  {
    match e {
      case Connect(k) => SocketKeepsRecords(c, s, k);
      case Ping(k) => SocketKeepsRecords(c, s, k);
      case Disconnect(k) => SocketKeepsRecords(c, s, k);
      case HandleExpiry(k) => if k in s.fired { HandleKeepsRecords(c, s.(fired := s.fired - multiset{k}), k); }
      case EnvReady(k, ws, affine) => AttachKeepsRecords(s, k, ws, affine);
      case EnvClose(uid, ws, order) => LeaveKeepsRecords(s, uid, ws, order);
      case _ =>
    }
  }

  /** In every run a user's record goes with their last session. */
  lemma {:induction false} RecordsOverRuns(c: Config, s: State, es: seq<Event>)
    requires NoEmptyRecord(s)
    ensures NoEmptyRecord(Run(c, s, es))
    decreases |es|
  {
    if es != [] {
      StepKeepsRecords(c, s, es[0]);
      RecordsOverRuns(c, Step(c, s, es[0]), es[1..]);
    }
  }

  lemma {:induction false} FindSpec(sessions: Sessions, order: seq<Sid>, ws: Ws)
    ensures Find(sessions, order, ws).Some? ==>
              var sid := Find(sessions, order, ws).value; sid in sessions && sessions[sid].ws == Some(ws)
    ensures Find(sessions, order, ws).None? ==>
              forall sid | sid in order && sid in sessions :: sessions[sid].ws != Some(ws)
  {
    if order != [] {
      FindSpec(sessions, order[1..], ws);
    }
  }

  /**
   After any run, every lookup of the session attached to a workspace gives the same answer whatever the listing
   order.
   */
  lemma LookupIgnoresOrder(c: Config, es: seq<Event>, uid: Uid, ws: Ws, order: seq<Sid>, other: seq<Sid>)
    requires var all := SessionsOf(Run(c, INIT, es), uid);
             forall sid | sid in all :: sid in order && sid in other
    ensures var all := SessionsOf(Run(c, INIT, es), uid); Find(all, order, ws) == Find(all, other, ws)
  {
    UniqueOverRuns(c, INIT, es);
    var all := SessionsOf(Run(c, INIT, es), uid);
    FindSpec(all, order, ws);
    FindSpec(all, other, ws);
    var a, b := Find(all, order, ws), Find(all, other, ws);
    if a.Some? && b.Some? {
      assert AttachedTo(Run(c, INIT, es), Key(uid, a.value), ws) && AttachedTo(Run(c, INIT, es), Key(uid, b.value), ws);
    }
  }

  /******* The handlers as they run: presence records and markers changed in place *******/

  /** The lookup loop shared by the services: `entries.find`. */
  method FindSession(sessions: Sessions, order: seq<Sid>, ws: Ws) returns (found: Option<Sid>)
    requires forall sid | sid in order :: sid in sessions
    ensures found == Find(sessions, order, ws)
    ensures found.Some? ==> found.value in sessions && sessions[found.value].ws == Some(ws)
    ensures found.None? ==> forall sid | sid in order :: sessions[sid].ws != Some(ws)
  {
    var i := 0;
    while i < |order|
      invariant 0 <= i <= |order|
      invariant Find(sessions, order[i..], ws) == Find(sessions, order, ws)
      invariant forall sid | sid in order[..i] :: sessions[sid].ws != Some(ws)
    {
      if sessions[order[i]].ws == Some(ws) {
        return Some(order[i]);
      }
      assert order[i..][1..] == order[i + 1..] && order[..i + 1] == order[..i] + [order[i]];
      i := i + 1;
    }
    assert order[..i] == order;
    return None;
  }

  class PresenceService {
    const config: Config
    var presence: map<Uid, Sessions>
    var markers: map<Key, Marker>
    var fired: multiset<Key>
    var now: int
    var removed: seq<Removal>

    constructor (config: Config, s: State)
      ensures this.config == config && Now() == s
    {
      this.config := config;
      presence, markers, fired, now, removed := s.presence, s.markers, s.fired, s.now, s.removed;
    }

    function Now(): State
      reads this
    {
      State(presence, markers, fired, now, removed)
    }

    method SetSessionState(k: Key, mode: Mode)
      requires Present(Now(), k)
      modifies this`presence, this`markers
      ensures Now() == SetMode(config, old(Now()), k, mode)
    {
      var sessions := presence[k.uid];
      sessions := sessions[k.sid := sessions[k.sid].(mode := mode)];
      presence := presence[k.uid := sessions];
      if mode == Inactive {
        markers := markers[k := Marker(Inactive, now + config.activity)];
      } else {
        markers := markers[k := Marker(Active, now + config.ping)];
      }
    }

    method HandleConnection(k: Key)
      modifies this`presence, this`markers
      ensures Now() == Step(config, old(Now()), Connect(k))
    {
      var sessions: Sessions := map[];
      if k.uid in presence {
        sessions := presence[k.uid];
      }
      var ws := None;
      if k.sid in sessions {
        ws := sessions[k.sid].ws;
      }
      sessions := sessions[k.sid := Session(Active, ws, now)];
      presence := presence[k.uid := sessions];
      SetSessionState(k, Active);
    }

    method HandlePing(k: Key) returns (known: bool)
      modifies this`presence, this`markers
      ensures Now() == Step(config, old(Now()), Ping(k)) && known == Present(old(Now()), k)
    {
      if k.uid !in presence || k.sid !in presence[k.uid] {
        return false;
      }
      var sessions := presence[k.uid];
      presence := presence[k.uid := sessions[k.sid := sessions[k.sid].(lastSeen := now)]];
      SetSessionState(k, Active);
      return true;
    }

    method HandleDisconnect(k: Key)
      modifies this`presence, this`markers
      ensures Now() == Step(config, old(Now()), Disconnect(k))
    {
      if k.uid !in presence || k.sid !in presence[k.uid] {
        return;
      }
      SetSessionState(k, Inactive);
    }

    method HandleSessionExpiry(k: Key)
      requires Present(Now(), k)
      modifies this`presence, this`removed
      ensures Now() == Expel(old(Now()), k)
    {
      var sessions := presence[k.uid];
      removed := removed + [Removal(k, sessions[k.sid].lastSeen, now)];
      sessions := sessions - {k.sid};
      if sessions == map[] {
        presence := presence - {k.uid};
      } else {
        presence := presence[k.uid := sessions];
      }
    }

    method HandleStaleSession(k: Key)
      modifies this`presence, this`markers, this`removed
      ensures Now() == HandleStale(config, old(Now()), k)
    {
      if k.uid !in presence {
        return;
      }
      if k.sid !in presence[k.uid] {
        return;
      }
      if presence[k.uid][k.sid].mode == Active {
        SetSessionState(k, Inactive);
      } else {
        HandleSessionExpiry(k);
      }
    }

    /** Detaches the user's sessions from the workspace, one entry after the other. */
    method InvalidatePreviousSessions(uid: Uid, ws: Ws, order: seq<Sid>)
      requires uid in presence ==> forall sid :: sid in order <==> sid in presence[uid]
      modifies this`presence
      ensures presence == if uid in old(presence) then old(presence)[uid := Detached(old(presence)[uid], ws)]
                          else old(presence)
    {
      if uid !in presence {
        return;
      }
      var sessions := presence[uid];
      var before := sessions;
      for i := 0 to |order|
        invariant sessions.Keys == before.Keys
        invariant forall sid | sid in before :: sessions[sid] ==
                    if sid in order[..i] && before[sid].ws == Some(ws) then before[sid].(ws := None) else before[sid]
      {
        var sid := order[i];
        if sessions[sid].ws == Some(ws) {
          sessions := sessions[sid := sessions[sid].(ws := None)];
        }
        assert order[..i + 1] == order[..i] + [sid];
      }
      assert order[..|order|] == order;
      assert sessions == Detached(before, ws);
      presence := presence[uid := sessions];
    }

    /** Attaching a session; false when the workspace could not be taken over or the session is gone. */
    method HandleEnvReady(k: Key, ws: Ws, order: seq<Sid>, affine: bool) returns (ok: bool)
      requires k.uid in presence ==> forall sid :: sid in order <==> sid in presence[k.uid]
      modifies this`presence
      ensures Now() == Step(config, old(Now()), EnvReady(k, ws, affine))
      ensures ok <==> affine && (k.uid in old(presence) ==> Present(old(Now()), k))
    {
      InvalidatePreviousSessions(k.uid, ws, order);
      if !affine {
        return false;
      }
      if k.uid !in presence {
        return true;
      }
      if k.sid !in presence[k.uid] {
        return false;
      }
      var sessions := presence[k.uid];
      presence := presence[k.uid := sessions[k.sid := sessions[k.sid].(ws := Some(ws))]];
      return true;
    }
  }
}
