/**
 The gateway's membership cache against the membership table of the workspace service.

 A member update deletes rows, sends invitations and then announces the change; the gateway forgets the removed
 members when the announcement arrives. A lookup that misses the cache asks the table and stores the answer later.
 */
module Membership {
  import opened Arrays
  import opened Options

  type Uid = string
  type Ws = string

  datatype Role = Member | Admin | Owner

  function Level(role: Role): nat {
    match role
    case Member => 0
    case Admin => 1
    case Owner => 2
  }

  datatype Row = Row(uid: Uid, ws: Ws)

  type Cache = map<Uid, map<Ws, bool>>

  /** Announcement of a member update or of a deleted workspace. */
  datatype Notice = Notice(ws: Ws, added: set<Uid>, removed: set<Uid>)

  /** A lookup answered by the table and not yet stored; it will write back `snapshot` with `ws` added. */
  datatype Fetch = Fetch(uid: Uid, ws: Ws, snapshot: map<Ws, bool>)

  datatype State = State(workspaces: set<Ws>, rows: map<Row, Role>, invites: set<Row>, cache: Cache,
                         flight: multiset<Notice>, fetching: multiset<Fetch>)

  datatype Event =
    | Create(uid: Uid, ws: Ws)
    | Update(author: Uid, ws: Ws, members: set<Uid>)
    | Accept(uid: Uid, ws: Ws)
    | Delete(author: Uid, ws: Ws)
    | LeaveAll(uid: Uid)
    | BeginCheck(uid: Uid, ws: Ws)
    | EndCheck(fetch: Fetch)
    | Handle(notice: Notice)

  const INIT := State({}, map[], {}, map[], multiset{}, multiset{})

  /******* Steps *******/

  function Members(s: State, ws: Ws): set<Uid> {
    set r | r in s.rows && r.ws == ws :: r.uid
  }

  predicate MayManage(s: State, uid: Uid, ws: Ws) {
    ws in s.workspaces && Row(uid, ws) in s.rows && Level(s.rows[Row(uid, ws)]) >= Level(Admin)
  }

  function WithoutRows(rows: map<Row, Role>, ws: Ws, uids: set<Uid>): map<Row, Role> {
    map r | r in rows && !(r.ws == ws && r.uid in uids) :: rows[r]
  }

  function Added(s: State, ws: Ws, members: set<Uid>): set<Uid> { members - Members(s, ws) }

  function Removed(s: State, ws: Ws, members: set<Uid>): set<Uid> { Members(s, ws) - members }

  /** Rows go first; an author who removed their own row fails the invitation check, before anything is announced. */
  function DoUpdate(s: State, author: Uid, ws: Ws, members: set<Uid>): State
    requires MayManage(s, author, ws)
  {
    var added, removed := Added(s, ws, members), Removed(s, ws, members);
    var s1 := s.(rows := WithoutRows(s.rows, ws, removed));
    if !MayManage(s1, author, ws) then s1
    else s1.(invites := s.invites + (set u | u in added :: Row(u, ws)),
             flight := s.flight + multiset{Notice(ws, added, removed)})
  }

  function DoDelete(s: State, ws: Ws): State {
    s.(rows := map r | r in s.rows && r.ws != ws :: s.rows[r], workspaces := s.workspaces - {ws},
       flight := s.flight + multiset{Notice(ws, {}, Members(s, ws))})
  }

  /** The workspaces a user has with this role. */
  function WithRole(s: State, uid: Uid, role: Role): set<Ws> {
    set r | r in s.rows && r.uid == uid && s.rows[r] == role :: r.ws
  }

  /** A deleted workspace is announced to its members, a departure to the gateway. */
  function Farewells(s: State, uid: Uid): set<Notice> {
    (set ws | ws in WithRole(s, uid, Owner) :: Notice(ws, {}, Members(s, ws))) +
    (set ws | ws in WithRole(s, uid, Member) :: Notice(ws, {}, {uid}))
  }

  /**
   The workspaces a user owns are deleted first, then all other rows of the user go; only those with role `member`
   are announced.
   */
  function DoLeaveAll(s: State, uid: Uid): State {
    var owned := WithRole(s, uid, Owner);
    s.(rows := map r | r in s.rows && r.uid != uid && r.ws !in owned :: s.rows[r], workspaces := s.workspaces - owned,
       flight := s.flight + multiset(Farewells(s, uid)))
  }

  function CachedFor(cache: Cache, uid: Uid): map<Ws, bool> {
    if uid in cache then cache[uid] else map[]
  }

  /** Only a positive answer is ever stored: for a non-member the request fails. */
  function StartCheck(s: State, uid: Uid, ws: Ws): State {
    if ws in CachedFor(s.cache, uid) || ws !in s.workspaces || Row(uid, ws) !in s.rows then s
    else s.(fetching := s.fetching + multiset{Fetch(uid, ws, CachedFor(s.cache, uid))})
  }

  function StoreFetch(cache: Cache, f: Fetch): Cache {
    cache[f.uid := f.snapshot[f.ws := true]]
  }

  function Invalidated(cache: Cache, uids: set<Uid>, ws: Ws): Cache {
    map u | u in cache :: if u in uids then cache[u] - {ws} else cache[u]
  }

  function Confirmed(cache: Cache, uids: set<Uid>, ws: Ws): Cache {
    map u | u in cache :: if u in uids && ws in cache[u] then cache[u][ws := true] else cache[u]
  }

  function DoHandle(cache: Cache, n: Notice): Cache {
    Confirmed(Invalidated(cache, n.removed, n.ws), n.added, n.ws)
  }

  function Step(s: State, e: Event): State {
    match e
    case Create(uid, ws) =>
      if ws in s.workspaces then s
      else s.(workspaces := s.workspaces + {ws}, rows := s.rows[Row(uid, ws) := Owner])
    case Update(author, ws, members) => if MayManage(s, author, ws) then DoUpdate(s, author, ws, members) else s
    case Accept(uid, ws) =>
      if Row(uid, ws) in s.invites && ws in s.workspaces then s.(rows := s.rows[Row(uid, ws) := Member]) else s
    case Delete(author, ws) => if MayManage(s, author, ws) then DoDelete(s, ws) else s
    case LeaveAll(uid) => DoLeaveAll(s, uid)
    case BeginCheck(uid, ws) => StartCheck(s, uid, ws)
    case EndCheck(f) =>
      if f in s.fetching then s.(fetching := s.fetching - multiset{f}, cache := StoreFetch(s.cache, f)) else s
    case Handle(n) =>
      if n in s.flight then s.(flight := s.flight - multiset{n}, cache := DoHandle(s.cache, n)) else s
  }

  function Run(s: State, es: seq<Event>): State
    decreases |es|
  {
    if es == [] then s else Run(Step(s, es[0]), es[1..])
  }

  /******* Coherence *******/

  predicate Cached(s: State, uid: Uid, ws: Ws) {
    uid in s.cache && ws in s.cache[uid]
  }

  ghost predicate Pending(s: State, uid: Uid, ws: Ws) {
    exists f | f in s.fetching :: f.uid == uid && (ws in f.snapshot || ws == f.ws)
  }

  ghost predicate Leaving(s: State, uid: Uid, ws: Ws) {
    exists n | n in s.flight :: n.ws == ws && uid in n.removed
  }

  ghost predicate Claimed(s: State, uid: Uid, ws: Ws) {
    Cached(s, uid, ws) || Pending(s, uid, ws)
  }

  /**
   If the membership is cached, or about to be, it is in the table or its removal is announced and not yet handled.
   */
  ghost predicate Coherent(s: State, r: Row) {
    Claimed(s, r.uid, r.ws) ==> r in s.rows || Leaving(s, r.uid, r.ws)
  }

  predicate AllTrue(record: map<Ws, bool>) {
    forall ws | ws in record :: record[ws]
  }

  predicate Positive(cache: Cache) {
    forall uid | uid in cache :: AllTrue(cache[uid])
  }

  /** Cached answers are positive, and rows belong to existing workspaces. */
  ghost predicate Sane(s: State) {
    && Positive(s.cache)
    && (forall f | f in s.fetching :: AllTrue(f.snapshot))
    && (forall r | r in s.rows :: r.ws in s.workspaces)
  }

  /** A row that goes without an announcement must not be claimed by the cache. */
  ghost predicate Forgettable(s: State, r: Row) {
    Claimed(s, r.uid, r.ws) ==> Leaving(s, r.uid, r.ws)
  }

  function Handled(s: State, n: Notice): State {
    s.(flight := s.flight - multiset{n})
  }

  /**
   An author who removes themself does not remove this member while the cache claims them; a user who leaves does not
   leave with a claimed row of another role than owner and member; no lookup of this member is waiting to be stored when
   their removal is handled, unless they are back or another removal is under way.
   */
  ghost predicate Allowed(s: State, e: Event, r: Row) {
    match e
    case Update(author, ws, members) =>
      MayManage(s, author, ws) && author !in members && ws == r.ws && r in s.rows && r.uid !in members ==>
        Forgettable(s, r)
    case LeaveAll(uid) => uid == r.uid && r in s.rows && s.rows[r] == Admin ==> Forgettable(s, r)
    case Handle(n) =>
      n in s.flight && n.ws == r.ws && r.uid in n.removed && Pending(s, r.uid, r.ws) ==>
        r in s.rows || Leaving(Handled(s, n), r.uid, r.ws)
    case _ => true
  }

  lemma LeavingGrows(s: State, s': State, uid: Uid, ws: Ws)
    requires s.flight <= s'.flight && Leaving(s, uid, ws)
    ensures Leaving(s', uid, ws)
  {
    var n :| n in s.flight && n.ws == ws && uid in n.removed;
    assert n in s'.flight;
  }

  /** A table step leaves the claims as they are: coherence is decided by the row and the notices. */
  lemma TableStep(s: State, s': State, r: Row)
    requires s'.cache == s.cache && s'.fetching == s.fetching
    ensures Claimed(s', r.uid, r.ws) <==> Claimed(s, r.uid, r.ws)
  {
  }

  lemma RemovalIsAnnounced(s: State, e: Event, r: Row)
    requires e.Update? && MayManage(s, e.author, e.ws) && e.author in e.members
    requires r in s.rows && r.ws == e.ws && r.uid !in e.members
    ensures Leaving(Step(s, e), r.uid, r.ws)
  {
    var n := Notice(e.ws, Added(s, e.ws, e.members), Removed(s, e.ws, e.members));
    assert r.uid in Members(s, e.ws) && r.uid in n.removed;
    assert Row(e.author, e.ws) in s.rows && e.author in Members(s, e.ws);
    assert n in Step(s, e).flight;
  }

  lemma UpdateStep(s: State, e: Event, r: Row)
    requires e.Update? && Coherent(s, r)
    ensures Coherent(Step(s, e), r) <==> Allowed(s, e, r)
  {
    if MayManage(s, e.author, e.ws) {
      var s' := Step(s, e);
      TableStep(s, s', r);
      assert Row(e.author, e.ws) in s.rows && e.author in Members(s, e.ws);
      if Leaving(s, r.uid, r.ws) {
        LeavingGrows(s, s', r.uid, r.ws);
      }
      if r in s.rows && r.ws == e.ws && r.uid !in e.members {
        assert r.uid in Members(s, e.ws);
        assert r !in s'.rows;
        if e.author in e.members {
          RemovalIsAnnounced(s, e, r);
        } else {
          assert s'.flight == s.flight;
        }
      } else {
        assert r in s.rows ==> r in s'.rows;
      }
    }
  }

  lemma DeleteStep(s: State, e: Event, r: Row)
    requires e.Delete? && Coherent(s, r)
    ensures Coherent(Step(s, e), r)
  {
    if MayManage(s, e.author, e.ws) {
      var s' := Step(s, e);
      TableStep(s, s', r);
      if Leaving(s, r.uid, r.ws) {
        LeavingGrows(s, s', r.uid, r.ws);
      }
      if r in s.rows && r.ws == e.ws {
        var n := Notice(e.ws, {}, Members(s, e.ws));
        assert n in s'.flight && r.uid in n.removed;
      }
    }
  }

  /** A row that goes when a user leaves is announced, unless it is the user's row with role `admin`. */
  lemma FarewellCovers(s: State, uid: Uid, r: Row)
    requires r in s.rows && (r.ws in WithRole(s, uid, Owner) || (r.uid == uid && s.rows[r] != Admin))
    ensures Leaving(DoLeaveAll(s, uid), r.uid, r.ws)
  {
    if r.ws in WithRole(s, uid, Owner) || s.rows[r] == Owner {
      assert r.ws in WithRole(s, uid, Owner) && r.uid in Members(s, r.ws);
      assert Notice(r.ws, {}, Members(s, r.ws)) in Farewells(s, uid);
      assert Notice(r.ws, {}, Members(s, r.ws)) in DoLeaveAll(s, uid).flight;
    } else {
      assert r.ws in WithRole(s, uid, Member);
      assert Notice(r.ws, {}, {uid}) in Farewells(s, uid);
      assert Notice(r.ws, {}, {uid}) in DoLeaveAll(s, uid).flight;
    }
  }

  lemma AdminGoesSilently(s: State, uid: Uid, ws: Ws)
    requires Row(uid, ws) in s.rows && s.rows[Row(uid, ws)] == Admin
    ensures Leaving(DoLeaveAll(s, uid), uid, ws) ==> Leaving(s, uid, ws)
  {
    forall n | n in Farewells(s, uid) ensures n.ws != ws {
      var role :| (role == Owner || role == Member) && n.ws in WithRole(s, uid, role);
      var r :| r in s.rows && r.uid == uid && s.rows[r] == role && r.ws == n.ws;
      assert r != Row(uid, ws);
    }
  }

  lemma LeaveAllStep(s: State, e: Event, r: Row)
    requires e.LeaveAll? && Coherent(s, r)
    ensures Coherent(Step(s, e), r) <==> Allowed(s, e, r)
  {
    var s' := Step(s, e);
    TableStep(s, s', r);
    if Leaving(s, r.uid, r.ws) {
      LeavingGrows(s, s', r.uid, r.ws);
    }
    if r in s.rows && r !in s'.rows {
      if r.uid == e.uid && s.rows[r] == Admin {
        assert r == Row(e.uid, r.ws);
        AdminGoesSilently(s, e.uid, r.ws);
      } else {
        FarewellCovers(s, e.uid, r);
      }
    }
  }

  lemma BeginStep(s: State, e: Event, r: Row)
    requires e.BeginCheck? && Coherent(s, r)
    ensures Coherent(Step(s, e), r)
  {
    var s' := Step(s, e);
    assert s'.cache == s.cache && s'.rows == s.rows && s'.flight == s.flight;
    if Pending(s', r.uid, r.ws) {
      var f :| f in s'.fetching && f.uid == r.uid && (r.ws in f.snapshot || r.ws == f.ws);
      assert f in s.fetching || f == Fetch(e.uid, e.ws, CachedFor(s.cache, e.uid));
    }
    assert Claimed(s', r.uid, r.ws) ==> Claimed(s, r.uid, r.ws) || r in s.rows;
  }

  lemma EndStep(s: State, e: Event, r: Row)
    requires e.EndCheck? && Coherent(s, r) && e.fetch in s.fetching
    ensures Coherent(Step(s, e), r)
  {
    var s' := Step(s, e);
    assert s'.rows == s.rows && s'.flight == s.flight;
    if Pending(s', r.uid, r.ws) {
      var f :| f in s'.fetching && f.uid == r.uid && (r.ws in f.snapshot || r.ws == f.ws);
      assert f in s.fetching;
    }
    assert Claimed(s', r.uid, r.ws) ==> Claimed(s, r.uid, r.ws);
  }

  lemma OtherNoticeStays(s: State, n: Notice, r: Row)
    requires Leaving(s, r.uid, r.ws) && !(n.ws == r.ws && r.uid in n.removed)
    ensures Leaving(Handled(s, n), r.uid, r.ws)
  {
    var m :| m in s.flight && m.ws == r.ws && r.uid in m.removed;
    assert m in Handled(s, n).flight;
  }

  lemma HandleStep(s: State, e: Event, r: Row)
    requires e.Handle? && Coherent(s, r) && e.notice in s.flight
    ensures Coherent(Step(s, e), r) <==> Allowed(s, e, r)
  {
    var n, s' := e.notice, Step(s, e);
    var named := n.ws == r.ws && r.uid in n.removed;
    assert Leaving(Handled(s, n), r.uid, r.ws) <==> Leaving(s', r.uid, r.ws);
    assert Pending(s, r.uid, r.ws) <==> Pending(s', r.uid, r.ws);
    assert Cached(s', r.uid, r.ws) <==> Cached(s, r.uid, r.ws) && !named;
    if Leaving(s, r.uid, r.ws) && !named {
      OtherNoticeStays(s, n, r);
    }
    if Leaving(Handled(s, n), r.uid, r.ws) {
      LeavingGrows(Handled(s, n), s, r.uid, r.ws);
    }
  }

  lemma JoinStep(s: State, e: Event, r: Row)
    requires (e.Create? || e.Accept?) && Coherent(s, r)
    ensures Coherent(Step(s, e), r)
  {
    TableStep(s, Step(s, e), r);
    if Leaving(s, r.uid, r.ws) {
      LeavingGrows(s, Step(s, e), r.uid, r.ws);
    }
  }

  lemma HandleStaysPositive(cache: Cache, n: Notice)
    requires Positive(cache)
    ensures Positive(DoHandle(cache, n))
  {
    var mid := Invalidated(cache, n.removed, n.ws);
    forall uid | uid in mid ensures AllTrue(mid[uid]) {
      assert AllTrue(cache[uid]);
    }
    forall uid | uid in DoHandle(cache, n) ensures AllTrue(DoHandle(cache, n)[uid]) {
      assert AllTrue(mid[uid]);
    }
  }

  lemma StoreStaysPositive(cache: Cache, f: Fetch)
    requires Positive(cache) && AllTrue(f.snapshot)
    ensures Positive(StoreFetch(cache, f))
  {
  }

  predicate TouchesCache(e: Event) {
    e.BeginCheck? || e.EndCheck? || e.Handle?
  }

  lemma TableStepKeepsCache(s: State, e: Event)
    requires !TouchesCache(e)
    ensures Step(s, e).cache == s.cache && Step(s, e).fetching == s.fetching
  {
  }

  lemma CacheStepKeepsTable(s: State, e: Event)
    requires TouchesCache(e)
    ensures Step(s, e).rows == s.rows && Step(s, e).workspaces == s.workspaces
  {
    match e {
      case BeginCheck(uid, ws) => assert Step(s, e) == StartCheck(s, uid, ws);
      case EndCheck(f) => assert f !in s.fetching ==> Step(s, e) == s;
      case Handle(n) => assert n !in s.flight ==> Step(s, e) == s;
    }
  }

  lemma BeginKeepsPositive(s: State, uid: Uid, ws: Ws)
    requires Sane(s)
    ensures var s' := StartCheck(s, uid, ws);
            Positive(s'.cache) && forall f | f in s'.fetching :: AllTrue(f.snapshot)
  {
    assert AllTrue(CachedFor(s.cache, uid));
  }

  lemma StepKeepsPositive(s: State, e: Event)
    requires Sane(s)
    ensures Positive(Step(s, e).cache) && forall f | f in Step(s, e).fetching :: AllTrue(f.snapshot)
  {
    if e.Handle? {
      HandleStaysPositive(s.cache, e.notice);
    } else if e.EndCheck? {
      if e.fetch in s.fetching {
        StoreStaysPositive(s.cache, e.fetch);
      }
    } else if e.BeginCheck? {
      BeginKeepsPositive(s, e.uid, e.ws);
    } else {
      TableStepKeepsCache(s, e);
    }
  }

  lemma TableStepKeepsHomes(s: State, e: Event)
    requires !TouchesCache(e) && forall r | r in s.rows :: r.ws in s.workspaces
    ensures forall r | r in Step(s, e).rows :: r.ws in Step(s, e).workspaces
  {
  }

  lemma StepKeepsSane(s: State, e: Event)
    requires Sane(s)
    ensures Sane(Step(s, e))
  {
    StepKeepsPositive(s, e);
    if TouchesCache(e) {
      CacheStepKeepsTable(s, e);
    } else {
      TableStepKeepsHomes(s, e);
    }
  }

  /** One step keeps one membership's coherence exactly when it is allowed for it. */
  lemma StepKeepsCoherent(s: State, e: Event, r: Row)
    requires Coherent(s, r)
    ensures Coherent(Step(s, e), r) <==> Allowed(s, e, r)
  {
    match e {
      case Update(_, _, _) => UpdateStep(s, e, r);
      case Delete(_, _) => DeleteStep(s, e, r);
      case LeaveAll(_) => LeaveAllStep(s, e, r);
      case Handle(n) => if n in s.flight { HandleStep(s, e, r); }
      case Create(_, _) => JoinStep(s, e, r);
      case Accept(_, _) => JoinStep(s, e, r);
      case BeginCheck(_, _) => BeginStep(s, e, r);
      case EndCheck(f) => if f in s.fetching { EndStep(s, e, r); }
    }
  }

  ghost predicate CoherentAlong(s: State, es: seq<Event>, r: Row)
    decreases |es|
  {
    Coherent(s, r) && (es != [] ==> CoherentAlong(Step(s, es[0]), es[1..], r))
  }

  ghost predicate AllowedAlong(s: State, es: seq<Event>, r: Row)
    decreases |es|
  {
    es != [] ==> Allowed(s, es[0], r) && AllowedAlong(Step(s, es[0]), es[1..], r)
  }

  lemma {:induction false} CoherentAlongIff(s: State, es: seq<Event>, r: Row)
    requires Coherent(s, r)
    ensures CoherentAlong(s, es, r) <==> AllowedAlong(s, es, r)
    ensures AllowedAlong(s, es, r) ==> Coherent(Run(s, es), r)
    decreases |es|
  {
    if es != [] {
      StepKeepsCoherent(s, es[0], r);
      if Coherent(Step(s, es[0]), r) {
        CoherentAlongIff(Step(s, es[0]), es[1..], r);
      }
    }
  }

  lemma {:induction false} SaneOverRuns(s: State, es: seq<Event>)
    requires Sane(s)
    ensures Sane(Run(s, es))
    decreases |es|
  {
    if es != [] {
      StepKeepsSane(s, es[0]);
      SaneOverRuns(Step(s, es[0]), es[1..]);
    }
  }

  /**
   In every run, and for every user and workspace by itself: a cached or pending membership stays real or announced as
   removed, at every moment, exactly when every step is allowed for it.
   */
  lemma CoherenceOverRuns(es: seq<Event>, r: Row)
    ensures CoherentAlong(INIT, es, r) <==> AllowedAlong(INIT, es, r)
  {
    CoherentAlongIff(INIT, es, r);
  }

  /** What the cache says now is real or announced as removed. */
  ghost predicate Fresh(s: State, r: Row) {
    Cached(s, r.uid, r.ws) ==> r in s.rows || Leaving(s, r.uid, r.ws)
  }

  /**
   Coherence is the absence of a stale entry itself: none now, and none after the next lookup is stored, whichever it
   is.
   */
  lemma CoherentExactly(s: State, r: Row)
    ensures Coherent(s, r) <==>
            Fresh(s, r) && forall f | f in s.fetching :: Fresh(Step(s, EndCheck(f)), r)
  {
    if Coherent(s, r) {
      forall f | f in s.fetching ensures Fresh(Step(s, EndCheck(f)), r) { EndStep(s, EndCheck(f), r); }
    } else if !Cached(s, r.uid, r.ws) {
      var f :| f in s.fetching && f.uid == r.uid && (r.ws in f.snapshot || r.ws == f.ws);
      var s' := Step(s, EndCheck(f));
      assert Cached(s', r.uid, r.ws) && s'.rows == s.rows && s'.flight == s.flight;
      assert !Fresh(s', r);
    }
  }

  /** No membership with role `admin` is ever written. */
  predicate NoAdmins(s: State) {
    forall r | r in s.rows :: s.rows[r] != Admin
  }

  lemma StepKeepsNoAdmins(s: State, e: Event)
    requires NoAdmins(s)
    ensures NoAdmins(Step(s, e))
  {
    if TouchesCache(e) {
      CacheStepKeepsTable(s, e);
    }
  }

  lemma {:induction false} NoAdminsOverRuns(s: State, es: seq<Event>)
    requires NoAdmins(s)
    ensures NoAdmins(Run(s, es))
    decreases |es|
  {
    if es != [] {
      StepKeepsNoAdmins(s, es[0]);
      NoAdminsOverRuns(Step(s, es[0]), es[1..]);
    }
  }

  /** So deleting a user is allowed after every run. */
  lemma LeavingIsAllowed(es: seq<Event>, uid: Uid, r: Row)
    ensures Allowed(Run(INIT, es), LeaveAll(uid), r)
  {
    NoAdminsOverRuns(INIT, es);
  }

  /**
   The gateway's answer: the cached value, else whether the table has the row; a missing row or workspace is a
   refusal.
   */
  function Answer(s: State, uid: Uid, ws: Ws): bool {
    if ws in CachedFor(s.cache, uid) then s.cache[uid][ws] else ws in s.workspaces && Row(uid, ws) in s.rows
  }

  /**
   After every run allowed for this user and workspace, whatever happened to others, and with no removal of them still
   to be handled, the gateway agrees exactly with the table.
   */
  lemma QuietCacheAgrees(es: seq<Event>, uid: Uid, ws: Ws)
    requires AllowedAlong(INIT, es, Row(uid, ws)) && !Leaving(Run(INIT, es), uid, ws)
    ensures Answer(Run(INIT, es), uid, ws) <==> Row(uid, ws) in Run(INIT, es).rows
  {
    CoherentAlongIff(INIT, es, Row(uid, ws));
    SaneOverRuns(INIT, es);
    var s := Run(INIT, es);
    if ws in CachedFor(s.cache, uid) {
      assert Cached(s, uid, ws) && Claimed(s, uid, ws);
    }
  }

  /******* Runs after which the gateway disagrees with the table *******/

  lemma {:induction false} Extend(s: State, es: seq<Event>, e: Event)
    ensures Run(s, es + [e]) == Step(Run(s, es), e)
    decreases |es|
  {
    if es == [] {
      assert es + [e] == [e] && [e][1..] == [];
    } else {
      assert (es + [e])[0] == es[0] && (es + [e])[1..] == es[1..] + [e];
      Extend(Step(s, es[0]), es[1..], e);
    }
  }

  /** A run after which the creator of a workspace has its answer looked up and not yet stored. */
  lemma Looked(author: Uid, ws: Ws) returns (es: seq<Event>)
    ensures Run(INIT, es) == INIT.(workspaces := {ws}, rows := map[Row(author, ws) := Owner],
                                   fetching := multiset{Fetch(author, ws, map[])})
  {
    var e1, e2 := Create(author, ws), BeginCheck(author, ws);
    Extend(INIT, [], e1);
    assert [] + [e1] == [e1];
    assert Run(INIT, [e1]) == INIT.(workspaces := {ws}, rows := map[Row(author, ws) := Owner]);
    Extend(INIT, [e1], e2);
    es := [e1] + [e2];
  }

  /** The author removes themself: no notice goes out, and the gateway goes on letting them in. */
  lemma SelfRemovalGoesUnnoticed(author: Uid, ws: Ws) returns (es: seq<Event>)
    ensures var s := Run(INIT, es);
            s.flight == multiset{} && s.fetching == multiset{} && Row(author, ws) !in s.rows && Answer(s, author, ws)
  {
    es := Looked(author, ws);
    var e3, e4 := EndCheck(Fetch(author, ws, map[])), Update(author, ws, {});
    Extend(INIT, es, e3);
    es := es + [e3];
    var s3 := Run(INIT, es);
    assert s3.cache == map[author := map[ws := true]] && s3.fetching == multiset{};
    assert Row(author, ws) in s3.rows && author in Members(s3, ws);
    Extend(INIT, es, e4);
    es := es + [e4];
  }

  lemma DeleteAnnounced(author: Uid, ws: Ws, f: Fetch)
    ensures var s := INIT.(workspaces := {ws}, rows := map[Row(author, ws) := Owner], fetching := multiset{f});
            Step(s, Delete(author, ws)) == State({}, map[], {}, map[], multiset{Notice(ws, {}, {author})}, multiset{f})
  {
    var s := INIT.(workspaces := {ws}, rows := map[Row(author, ws) := Owner], fetching := multiset{f});
    assert Row(author, ws) in s.rows;
    assert Members(s, ws) == {author};
  }

  /** A lookup answered before a deletion and stored after its notice was handled brings the membership back. */
  lemma LateStoreOutlivesRemoval(author: Uid, ws: Ws) returns (es: seq<Event>)
    ensures var s := Run(INIT, es);
            s.flight == multiset{} && s.fetching == multiset{} && Row(author, ws) !in s.rows && Answer(s, author, ws)
  {
    es := Looked(author, ws);
    var f, n := Fetch(author, ws, map[]), Notice(ws, {}, {author});
    DeleteAnnounced(author, ws, f);
    Extend(INIT, es, Delete(author, ws));
    es := es + [Delete(author, ws)];
    var s3 := State({}, map[], {}, map[], multiset{n}, multiset{f});
    assert DoHandle(map[], n) == map[];
    assert Step(s3, Handle(n)) == s3.(flight := multiset{});
    Extend(INIT, es, Handle(n));
    es := es + [Handle(n)];
    Extend(INIT, es, EndCheck(f));
    es := es + [EndCheck(f)];
  }

  /******* Who may manage a workspace *******/

  lemma CreatorMayManage(s: State, uid: Uid, ws: Ws)
    requires ws !in s.workspaces
    ensures MayManage(Step(s, Create(uid, ws)), uid, ws)
  {
  }

  /** Whoever may manage a workspace and could not before has just created it; accepting an invitation is not enough. */
  lemma OnlyCreatingEmpowers(s: State, e: Event, uid: Uid, ws: Ws)
    requires Sane(s) && MayManage(Step(s, e), uid, ws) && !MayManage(s, uid, ws)
    ensures e == Create(uid, ws) && ws !in s.workspaces
  {
    if TouchesCache(e) {
      CacheStepKeepsTable(s, e);
    }
  }

  lemma {:induction false} ManagersAlong(s: State, es: seq<Event>, uid: Uid, ws: Ws)
    requires Sane(s) && MayManage(Run(s, es), uid, ws) && !MayManage(s, uid, ws)
    ensures Create(uid, ws) in es
    decreases |es|
  {
    if es != [] {
      if MayManage(Step(s, es[0]), uid, ws) {
        OnlyCreatingEmpowers(s, es[0], uid, ws);
      } else {
        StepKeepsSane(s, es[0]);
        ManagersAlong(Step(s, es[0]), es[1..], uid, ws);
      }
    }
  }

  /** In every run, whoever may manage a workspace created it. */
  lemma ManagersCreated(es: seq<Event>, uid: Uid, ws: Ws)
    requires MayManage(Run(INIT, es), uid, ws)
    ensures Create(uid, ws) in es
  {
    ManagersAlong(INIT, es, uid, ws);
  }

  /** Nobody but owners and admins may manage. */
  lemma MayManageIff(s: State, uid: Uid, ws: Ws)
    ensures MayManage(s, uid, ws) <==> ws in s.workspaces && Row(uid, ws) in s.rows && s.rows[Row(uid, ws)] != Member
  {
  }

  ghost predicate OneManager(s: State) {
    forall u, v, ws | MayManage(s, u, ws) && MayManage(s, v, ws) :: u == v
  }

  lemma StepKeepsOneManager(s: State, e: Event)
    requires Sane(s) && OneManager(s)
    ensures OneManager(Step(s, e))
  {
    forall u, v, ws | MayManage(Step(s, e), u, ws) && MayManage(Step(s, e), v, ws)
      ensures u == v
    {
      if !MayManage(s, u, ws) {
        OnlyCreatingEmpowers(s, e, u, ws);
      }
      if !MayManage(s, v, ws) {
        OnlyCreatingEmpowers(s, e, v, ws);
      }
    }
  }

  /** In every run at most one user may manage a workspace. */
  lemma {:induction false} OneManagerOverRuns(s: State, es: seq<Event>)
    requires Sane(s) && OneManager(s)
    ensures OneManager(Run(s, es))
    decreases |es|
  {
    if es != [] {
      StepKeepsSane(s, es[0]);
      StepKeepsOneManager(s, es[0]);
      OneManagerOverRuns(Step(s, es[0]), es[1..]);
    }
  }

  /** So a user who did not create the workspace, a member or not, can neither change its members nor delete it. */
  lemma OthersManageNothing(es: seq<Event>, uid: Uid, ws: Ws, members: set<Uid>)
    requires Create(uid, ws) !in es
    ensures var s := Run(INIT, es); Step(s, Update(uid, ws, members)) == s && Step(s, Delete(uid, ws)) == s
  {
    if MayManage(Run(INIT, es), uid, ws) {
      ManagersCreated(es, uid, ws);
    }
  }

  /******* What becomes of each row *******/

  /** A row goes with a member update if it is of that workspace and not in the list; every other one keeps its role. */
  lemma UpdateRows(s: State, author: Uid, ws: Ws, members: set<Uid>, r: Row)
    requires MayManage(s, author, ws)
    ensures var s' := Step(s, Update(author, ws, members));
            && (r in s'.rows <==> r in s.rows && (r.ws == ws ==> r.uid in members))
            && (r in s'.rows ==> s'.rows[r] == s.rows[r]) && s'.workspaces == s.workspaces
            && (author in members ==>
                  (r in s'.invites <==> r in s.invites || (r.ws == ws && r.uid in members && r !in s.rows)))
            && (author !in members ==> s'.invites == s.invites && s'.flight == s.flight)
  {
    assert r in s.rows && r.ws == ws ==> r.uid in Members(s, ws);
    assert r.ws == ws && r.uid in Members(s, ws) ==> r in s.rows;
    assert Row(author, ws) in s.rows && author in Members(s, ws);
  }

  /** A deleted workspace takes its rows and no other ones. */
  lemma DeleteRows(s: State, author: Uid, ws: Ws, r: Row)
    requires MayManage(s, author, ws)
    ensures var s' := Step(s, Delete(author, ws));
            && (r in s'.rows <==> r in s.rows && r.ws != ws) && (r in s'.rows ==> s'.rows[r] == s.rows[r])
            && s'.workspaces == s.workspaces - {ws}
  {
  }

  /** A user who leaves takes all their rows, the workspaces they own, and the rows of those. */
  lemma LeaveAllRows(s: State, uid: Uid, r: Row)
    ensures var s' := Step(s, LeaveAll(uid));
            var owns := (ws: Ws) => Row(uid, ws) in s.rows && s.rows[Row(uid, ws)] == Owner;
            && (r in s'.rows <==> r in s.rows && r.uid != uid && !owns(r.ws))
            && (r in s'.rows ==> s'.rows[r] == s.rows[r])
            && (r.ws in s'.workspaces <==> r.ws in s.workspaces && !owns(r.ws))
  {
    assert Row(uid, r.ws) in s.rows && s.rows[Row(uid, r.ws)] == Owner ==> r.ws in WithRole(s, uid, Owner);
    if r.ws in WithRole(s, uid, Owner) {
      var q :| q in s.rows && q.uid == uid && s.rows[q] == Owner && q.ws == r.ws;
      assert q == Row(uid, r.ws);
    }
  }

  /** An accepted invitation makes a member, and changes no other row. */
  lemma AcceptRows(s: State, uid: Uid, ws: Ws, r: Row)
    ensures var s' := Step(s, Accept(uid, ws));
            if r == Row(uid, ws) && r in s.invites && ws in s.workspaces then r in s'.rows && s'.rows[r] == Member
            else (r in s'.rows <==> r in s.rows) && (r in s.rows ==> s'.rows[r] == s.rows[r])
  {
  }

  /**
   What a notice does to one user's answer for one workspace: removals forget it, additions make it positive if it is
   there.
   */
  lemma NoticeAnswers(cache: Cache, n: Notice, uid: Uid, ws: Ws)
    ensures var was, now := CachedFor(cache, uid), CachedFor(DoHandle(cache, n), uid);
            if ws == n.ws && uid in n.removed then ws !in now
            else if ws == n.ws && uid in n.added && ws in was then ws in now && now[ws]
            else (ws in now <==> ws in was) && (ws in was ==> now[ws] == was[ws])
  {
  }

  /******* A member update followed by its acceptances *******/

  function Accepts(uids: seq<Uid>, ws: Ws): seq<Event> {
    if uids == [] then [] else [Accept(uids[0], ws)] + Accepts(uids[1..], ws)
  }

  function Elements(uids: seq<Uid>): set<Uid> {
    set u | u in uids
  }

  /** Each invited user who accepts becomes a member; without an invitation nothing happens. */
  lemma {:induction false} AcceptsAdd(s: State, uids: seq<Uid>, ws: Ws)
    requires ws in s.workspaces
    ensures Members(Run(s, Accepts(uids, ws)), ws) ==
            Members(s, ws) + (set u | u in uids && Row(u, ws) in s.invites)
    decreases |uids|
  {
    if uids != [] {
      var s1 := Step(s, Accept(uids[0], ws));
      assert Accepts(uids, ws)[1..] == Accepts(uids[1..], ws);
      AcceptsAdd(s1, uids[1..], ws);
      assert uids == [uids[0]] + uids[1..];
      MembersAfterAccept(s, uids[0], ws);
    }
  }

  function RoleOf(s: State, uid: Uid, ws: Ws): Option<Role> {
    if Row(uid, ws) in s.rows then Some(s.rows[Row(uid, ws)]) else None
  }

  /** Whoever accepts gets the role of a member; everybody else keeps theirs. */
  lemma {:induction false} AcceptsRoles(s: State, uids: seq<Uid>, ws: Ws, u: Uid)
    requires ws in s.workspaces
    ensures RoleOf(Run(s, Accepts(uids, ws)), u, ws) ==
            if u in uids && Row(u, ws) in s.invites then Some(Member) else RoleOf(s, u, ws)
    decreases |uids|
  {
    if uids != [] {
      assert Accepts(uids, ws)[1..] == Accepts(uids[1..], ws);
      assert uids == [uids[0]] + uids[1..];
      AcceptRows(s, uids[0], ws, Row(u, ws));
      AcceptsRoles(Step(s, Accept(uids[0], ws)), uids[1..], ws, u);
    }
  }

  lemma MembersAfterAccept(s: State, uid: Uid, ws: Ws)
    requires ws in s.workspaces
    ensures Members(Step(s, Accept(uid, ws)), ws) ==
            Members(s, ws) + if Row(uid, ws) in s.invites then {uid} else {}
  {
    var s' := Step(s, Accept(uid, ws));
    forall u ensures u in Members(s', ws) <==> u in Members(s, ws) || (u == uid && Row(uid, ws) in s.invites) {
      assert u in Members(s', ws) <==> Row(u, ws) in s'.rows;
      assert u in Members(s, ws) <==> Row(u, ws) in s.rows;
    }
  }

  lemma MembersAfterUpdate(s: State, author: Uid, ws: Ws, members: set<Uid>)
    requires MayManage(s, author, ws)
    ensures Members(Step(s, Update(author, ws, members)), ws) == Members(s, ws) * members
  {
    var s' := Step(s, Update(author, ws, members));
    forall u ensures u in Members(s', ws) <==> u in Members(s, ws) && u in members {
      assert u in Members(s', ws) <==> Row(u, ws) in s'.rows;
      assert u in Members(s, ws) <==> Row(u, ws) in s.rows;
    }
  }

  /**
   Once all added users have accepted, in any order and with repeats, the members are exactly the requested ones,
   provided the author stays; those who were added have the role of a member, and the others the role they had.
   */
  lemma AcceptedUpdateReachesRequest(s: State, author: Uid, ws: Ws, members: set<Uid>, accepts: seq<Uid>)
    requires MayManage(s, author, ws) && author in members
    requires Elements(accepts) == Added(s, ws, members)
    ensures Members(Run(Step(s, Update(author, ws, members)), Accepts(accepts, ws)), ws) == members
    ensures forall u | u in members ::
              RoleOf(Run(Step(s, Update(author, ws, members)), Accepts(accepts, ws)), u, ws) ==
              if u in accepts then Some(Member) else RoleOf(s, u, ws)
  {
    var s1 := Step(s, Update(author, ws, members));
    MembersAfterUpdate(s, author, ws, members);
    AcceptsAdd(s1, accepts, ws);
    forall u | u in accepts ensures Row(u, ws) in s1.invites { assert u in Elements(accepts); }
    assert (set u | u in accepts && Row(u, ws) in s1.invites) == Elements(accepts);
    forall u | u in members
      ensures RoleOf(Run(s1, Accepts(accepts, ws)), u, ws) == if u in accepts then Some(Member) else RoleOf(s, u, ws)
    {
      AcceptsRoles(s1, accepts, ws, u);
      UpdateRows(s, author, ws, members, Row(u, ws));
    }
  }

  /** An author who removes themself gets the removals but no invitation: nobody new can join. */
  lemma SelfRemovalInvitesNobody(s: State, author: Uid, ws: Ws, members: set<Uid>, accepts: seq<Uid>)
    requires MayManage(s, author, ws) && author !in members
    requires forall u | u in Added(s, ws, members) :: Row(u, ws) !in s.invites
    requires Elements(accepts) == Added(s, ws, members)
    ensures Members(Run(Step(s, Update(author, ws, members)), Accepts(accepts, ws)), ws) == Members(s, ws) * members
  {
    var s1 := Step(s, Update(author, ws, members));
    MembersAfterUpdate(s, author, ws, members);
    AcceptsAdd(s1, accepts, ws);
    assert author in Members(s, ws);
    forall u | u in accepts ensures Row(u, ws) !in s1.invites { assert u in Elements(accepts); }
    assert (set u | u in accepts && Row(u, ws) in s1.invites) == {};
  }

  /** The two loops of `updateWorkspace` over the requested and the actual members. */
  method MemberDiff(requested: seq<Uid>, actual: seq<Uid>) returns (added: seq<Uid>, removed: seq<Uid>)
    ensures NoDup(added) && NoDup(removed)
    ensures forall u :: u in added <==> u in requested && u !in actual
    ensures forall u :: u in removed <==> u in actual && u !in requested
  {
    var reqMembers, actMembers := Dedup(requested), Dedup(actual);
    DedupIsSet(requested);
    DedupIsSet(actual);
    added, removed := [], [];
    for i := 0 to |reqMembers|
      invariant NoDup(added)
      invariant forall u :: u in added <==> u in reqMembers[..i] && u !in actMembers
    {
      if reqMembers[i] !in actMembers {
        added := added + [reqMembers[i]];
      }
      assert reqMembers[..i + 1] == reqMembers[..i] + [reqMembers[i]];
    }
    assert reqMembers[..|reqMembers|] == reqMembers;
    for i := 0 to |actMembers|
      invariant NoDup(removed)
      invariant forall u :: u in removed <==> u in actMembers[..i] && u !in reqMembers
    {
      if actMembers[i] !in reqMembers {
        removed := removed + [actMembers[i]];
      }
      assert actMembers[..i + 1] == actMembers[..i] + [actMembers[i]];
    }
    assert actMembers[..|actMembers|] == actMembers;
  }

  /******* The service as it runs: per-user cache records changed in place *******/

  class MembershipService {
    var cache: Cache

    constructor ()
      ensures cache == map[]
    {
      cache := map[];
    }

    /** `isMember` stands for the answer of the table; the request fails for a non-member and nothing is stored. */
    method CheckMembership(uid: Uid, ws: Ws, isMember: bool) returns (allowed: bool)
      modifies this
      ensures allowed == if ws in CachedFor(old(cache), uid) then old(cache)[uid][ws] else isMember
      ensures cache == if ws !in CachedFor(old(cache), uid) && isMember
                       then StoreFetch(old(cache), Fetch(uid, ws, CachedFor(old(cache), uid))) else old(cache)
    {
      var known := CachedFor(cache, uid);
      if ws in known {
        return known[ws];
      }
      if !isMember {
        return false;
      }
      known := known[ws := true];
      cache := cache[uid := known];
      return true;
    }

    method InvalidateRemovedMembers(uids: seq<Uid>, ws: Ws)
      modifies this
      ensures cache == Invalidated(old(cache), Elements(uids), ws)
    {
      var records := cache;
      for i := 0 to |uids|
        invariant cache == Invalidated(records, Elements(uids[..i]), ws)
      {
        var uid := uids[i];
        if uid in records {
          if ws in records[uid] {
            cache := cache[uid := records[uid] - {ws}];
          }
        }
        assert Elements(uids[..i + 1]) == Elements(uids[..i]) + {uid};
        assert uid in records ==> cache[uid] == records[uid] - {ws};
      }
      assert uids[..|uids|] == uids;
    }

    method UpdateAddedMembers(uids: seq<Uid>, ws: Ws)
      modifies this
      ensures cache == Confirmed(old(cache), Elements(uids), ws)
    {
      var records := cache;
      for i := 0 to |uids|
        invariant cache == Confirmed(records, Elements(uids[..i]), ws)
      {
        var uid := uids[i];
        if uid in records {
          if ws in records[uid] {
            cache := cache[uid := records[uid][ws := true]];
          }
        }
        assert Elements(uids[..i + 1]) == Elements(uids[..i]) + {uid};
      }
      assert uids[..|uids|] == uids;
    }

    method HandleMembersModified(ws: Ws, added: seq<Uid>, removed: seq<Uid>)
      modifies this
      ensures cache == DoHandle(old(cache), Notice(ws, Elements(added), Elements(removed)))
    {
      InvalidateRemovedMembers(removed, ws);
      UpdateAddedMembers(added, ws);
    }
  }
}
