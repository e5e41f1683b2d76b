/**
 Keys of the presence markers, and how an expired key is taken apart again.
 */
module CacheKeys {
  import opened Options

  const SEP := ':'

  predicate ColonFree(s: string) {
    SEP !in s
  }

  /** `split(':')`. */
  function Split(s: string): (parts: seq<string>)
    ensures parts != []
  {
    if s == [] then [[]]
    else
      var rest := Split(s[1..]);
      if s[0] == SEP then [[]] + rest else [[s[0]] + rest[0]] + rest[1..]
  }

  function Join(parts: seq<string>): string
    requires parts != []
  {
    if |parts| == 1 then parts[0] else parts[0] + [SEP] + Join(parts[1..])
  }

  lemma {:induction false} PartsColonFree(s: string)
    ensures forall p | p in Split(s) :: ColonFree(p)
  {
    if s != [] {
      PartsColonFree(s[1..]);
      var rest := Split(s[1..]);
      assert ColonFree(rest[0]);
      forall p | p in Split(s) ensures ColonFree(p) {
        assert p == [] || p in rest || (s[0] != SEP && p == [s[0]] + rest[0]);
      }
    }
  }

  lemma {:induction false} SplitFree(s: string)
    requires ColonFree(s)
    ensures Split(s) == [s]
  {
    if s != [] {
      SplitFree(s[1..]);
      assert [s[0]] + s[1..] == s;
    }
  }

  lemma {:induction false} SplitFirst(first: string, rest: string)
    requires ColonFree(first)
    ensures Split(first + [SEP] + rest) == [first] + Split(rest)
  {
    var s := first + [SEP] + rest;
    if first == [] {
      assert s[1..] == rest;
    } else {
      SplitFirst(first[1..], rest);
      assert s[1..] == first[1..] + [SEP] + rest;
      assert [first[0]] + first[1..] == first;
    }
  }

  lemma {:induction false} SplitJoin(parts: seq<string>)
    requires parts != [] && forall p | p in parts :: ColonFree(p)
    ensures Split(Join(parts)) == parts
    decreases |parts|
  {
    if |parts| == 1 {
      SplitFree(parts[0]);
    } else {
      SplitJoin(parts[1..]);
      SplitFirst(parts[0], Join(parts[1..]));
    }
  }

  /** Taking a key apart gives back what it was built from exactly when no part holds the separator. */
  lemma SplitJoinIff(parts: seq<string>)
    requires parts != []
    ensures Split(Join(parts)) == parts <==> forall p | p in parts :: ColonFree(p)
  {
    if forall p | p in parts :: ColonFree(p) {
      SplitJoin(parts);
    } else {
      PartsColonFree(Join(parts));
    }
  }

  /******* Keys and their handlers *******/

  /** The record of a user's sessions. */
  function PresenceKey(uid: string): string { "presence:" + uid }

  function SessionKey(uid: string, sid: string): string { "presence:" + uid + ":" + sid }

  function WorkspaceKey(uid: string, sid: string, ws: string): string { "presence:" + uid + ":" + sid + ":" + ws }

  datatype Route =
    | Ignored
    | StaleSession(user: Option<string>, session: Option<string>)
    | StaleWorkspace(uid: string, sid: string, ws: string)

  function At(parts: seq<string>, i: nat): Option<string> {
    if i < |parts| then Some(parts[i]) else None
  }

  /** The expiry handler: an absent or empty third part means a session. */
  function Dispatch(key: string): Route {
    var parts := Split(key);
    if parts[0] != "presence" then Ignored
    else if |parts| > 3 && parts[3] != [] then StaleWorkspace(parts[1], parts[2], parts[3])
    else StaleSession(At(parts, 1), At(parts, 2))
  }

  lemma SessionKeyParts(uid: string, sid: string)
    ensures SessionKey(uid, sid) == Join(["presence", uid, sid])
  {
    JoinTwo(uid, sid);
    JoinMore("presence", [uid, sid]);
    assert ["presence", uid, sid] == ["presence"] + [uid, sid];
    assert SessionKey(uid, sid) == "presence" + [SEP] + (uid + [SEP] + sid);
  }

  lemma WorkspaceKeyParts(uid: string, sid: string, ws: string)
    ensures WorkspaceKey(uid, sid, ws) == Join(["presence", uid, sid, ws])
  {
    JoinTwo(sid, ws);
    JoinMore(uid, [sid, ws]);
    JoinMore("presence", [uid, sid, ws]);
    assert ["presence", uid, sid, ws] == ["presence"] + [uid, sid, ws];
    assert [uid, sid, ws] == [uid] + [sid, ws];
    assert WorkspaceKey(uid, sid, ws) == "presence" + [SEP] + (uid + [SEP] + (sid + [SEP] + ws));
  }

  lemma JoinMore(first: string, rest: seq<string>)
    requires rest != []
    ensures Join([first] + rest) == first + [SEP] + Join(rest)
  {
    assert ([first] + rest)[1..] == rest;
  }

  lemma JoinTwo(first: string, second: string)
    ensures Join([first, second]) == first + [SEP] + second
  {
    assert [first, second][1..] == [second];
  }

  /** A session key reaches the session handler with its own ids exactly when they hold no colon. */
  lemma SessionKeyDispatch(uid: string, sid: string)
    ensures Dispatch(SessionKey(uid, sid)) == StaleSession(Some(uid), Some(sid)) <==> ColonFree(uid) && ColonFree(sid)
  {
    var parts := ["presence", uid, sid];
    SessionKeyParts(uid, sid);
    PartsColonFree(SessionKey(uid, sid));
    if ColonFree(uid) && ColonFree(sid) {
      SplitJoin(parts);
    }
  }

  /**
   A workspace key reaches the workspace handler with its own ids exactly when they hold no colon and the workspace
   id is not empty.
   */
  lemma WorkspaceKeyDispatch(uid: string, sid: string, ws: string)
    ensures Dispatch(WorkspaceKey(uid, sid, ws)) == StaleWorkspace(uid, sid, ws) <==>
            ColonFree(uid) && ColonFree(sid) && ColonFree(ws) && ws != []
  {
    var parts := ["presence", uid, sid, ws];
    WorkspaceKeyParts(uid, sid, ws);
    PartsColonFree(WorkspaceKey(uid, sid, ws));
    if ColonFree(uid) && ColonFree(sid) && ColonFree(ws) {
      SplitJoin(parts);
    }
  }

  lemma PresenceKeyParts(uid: string)
    ensures PresenceKey(uid) == Join(["presence", uid])
  {
    JoinTwo("presence", uid);
    assert PresenceKey(uid) == "presence" + [SEP] + uid;
  }

  /** A presence, session or workspace key is told apart by its parts. */
  lemma KeyParts(uid: string, sid: string, ws: string)
    requires ColonFree(uid) && ColonFree(sid) && ColonFree(ws)
    ensures Split(PresenceKey(uid)) == ["presence", uid]
    ensures Split(SessionKey(uid, sid)) == ["presence", uid, sid]
    ensures Split(WorkspaceKey(uid, sid, ws)) == ["presence", uid, sid, ws]
  {
    PresenceKeyParts(uid);
    SessionKeyParts(uid, sid);
    WorkspaceKeyParts(uid, sid, ws);
    SplitJoin(["presence", uid]);
    SplitJoin(["presence", uid, sid]);
    SplitJoin(["presence", uid, sid, ws]);
  }

  /** Keys built from colon-free ids are equal only if they are of one kind and their ids are equal. */
  lemma KeysDiffer(uid: string, sid: string, ws: string, uid': string, sid': string, ws': string)
    requires ColonFree(uid) && ColonFree(sid) && ColonFree(ws)
    requires ColonFree(uid') && ColonFree(sid') && ColonFree(ws')
    ensures PresenceKey(uid) == PresenceKey(uid') <==> uid == uid'
    ensures SessionKey(uid, sid) == SessionKey(uid', sid') <==> uid == uid' && sid == sid'
    ensures WorkspaceKey(uid, sid, ws) == WorkspaceKey(uid', sid', ws') <==> uid == uid' && sid == sid' && ws == ws'
    ensures PresenceKey(uid) != SessionKey(uid', sid') && PresenceKey(uid) != WorkspaceKey(uid', sid', ws')
    ensures SessionKey(uid, sid) != WorkspaceKey(uid', sid', ws')
  {
    KeyParts(uid, sid, ws);
    KeyParts(uid', sid', ws');
    var k, k' := Split(WorkspaceKey(uid, sid, ws)), Split(WorkspaceKey(uid', sid', ws'));
    assert k[1] == uid && k[2] == sid && k[3] == ws && k'[1] == uid' && k'[2] == sid' && k'[3] == ws';
    var j, j' := Split(SessionKey(uid, sid)), Split(SessionKey(uid', sid'));
    assert j[1] == uid && j[2] == sid && j'[1] == uid' && j'[2] == sid';
    assert Split(PresenceKey(uid))[1] == uid && Split(PresenceKey(uid'))[1] == uid';
    assert |k'| == 4 && |j| == 3 && |j'| == 3 && |Split(PresenceKey(uid))| == 2;
  }

  /** Keys of anything but presence are ignored. */
  lemma OtherKeysIgnored(first: string, rest: string)
    requires ColonFree(first) && first != "presence"
    ensures Dispatch(first + [SEP] + rest) == Ignored && Dispatch(first) == Ignored
  {
    SplitFirst(first, rest);
    SplitFree(first);
  }
}
