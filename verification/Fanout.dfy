/** The fan-out of a batch of watch events to the users who watch their paths. */
module Fanout {
  import opened Arrays
  import opened DirWatch
  import opened Events
  import opened Options

  /** Hash of the open document, if any instance has it open, and of the file. */
  datatype Hashes = Hashes(doc: Option<string>, file: string)

  const ROOT := "/workspace"

  /** A write to a file is passed on only when an open document differs from the file. */
  predicate Survives(e: Event, h: Hashes) {
    e.isFile && e.isWrite ==> h.doc.Some? && h.doc.value != "" && h.file != h.doc.value
  }

  /** Watchers of the root are cached under a path with a trailing slash. */
  function Normal(e: Event): Event {
    if e.watchedPath == ROOT then e.(watchedPath := ROOT + "/") else e
  }

  /** What the inner loop over the watchers pushes for one user. */
  function Copies(e: Event, watchers: seq<Uid>, uid: Uid): seq<Event> {
    if watchers == [] then []
    else
      var n := |watchers| - 1;
      Copies(e, watchers[..n], uid) + if watchers[n] == uid then [e] else []
  }

  /** What the whole loop pushes for one user. */
  function Pushed(batch: seq<Event>, hashes: seq<Hashes>, dirs: Dirs, uid: Uid): seq<Event>
    requires |hashes| == |batch|
  {
    if batch == [] then []
    else
      var n := |batch| - 1;
      Pushed(batch[..n], hashes[..n], dirs, uid) +
      if Survives(batch[n], hashes[n]) then Copies(Normal(batch[n]), Watchers(dirs, Normal(batch[n]).watchedPath), uid)
      else []
  }

  /** The open documents found to differ from their file, in order. */
  function Conflicts(batch: seq<Event>, hashes: seq<Hashes>, held: set<int>): seq<int>
    requires |hashes| == |batch|
  {
    if batch == [] then []
    else
      var n := |batch| - 1;
      Conflicts(batch[..n], hashes[..n], held) +
      if batch[n].isFile && batch[n].isWrite && Survives(batch[n], hashes[n]) && batch[n].ino in held
      then [batch[n].ino] else []
  }

  function Of(batches: map<Uid, seq<Event>>, uid: Uid): seq<Event> {
    if uid in batches then batches[uid] else []
  }

  /** Only users with something to receive are in the map. */
  ghost predicate Holds(batches: map<Uid, seq<Event>>, uid: Uid, events: seq<Event>) {
    Of(batches, uid) == events && (uid in batches <==> events != [])
  }

  function PushOne(batches: map<Uid, seq<Event>>, uid: Uid, e: Event): map<Uid, seq<Event>> {
    batches[uid := Of(batches, uid) + [e]]
  }

  lemma PushOneHolds(batches: map<Uid, seq<Event>>, uid: Uid, e: Event, u: Uid, events: seq<Event>)
    requires Holds(batches, u, events)
    ensures Holds(PushOne(batches, uid, e), u, events + if uid == u then [e] else [])
  {
  }

  /** The watchers in `watchers` have been pushed the event. */
  ghost predicate Served(batches: map<Uid, seq<Event>>, after: map<Uid, seq<Event>>, e: Event, watchers: seq<Uid>) {
    forall u :: Holds(after, u, Of(batches, u) + Copies(e, watchers, u))
  }

  lemma ServeNext(batches: map<Uid, seq<Event>>, after: map<Uid, seq<Event>>, e: Event, watchers: seq<Uid>, uid: Uid)
    requires Served(batches, after, e, watchers)
    ensures Served(batches, PushOne(after, uid, e), e, watchers + [uid])
  {
    var next, more := PushOne(after, uid, e), watchers + [uid];
    forall u ensures Holds(next, u, Of(batches, u) + Copies(e, more, u)) {
      assert Holds(after, u, Of(batches, u) + Copies(e, watchers, u));
      ServeOne(Of(batches, u), after, e, watchers, uid, u);
    }
  }

  lemma CopiesNext(e: Event, watchers: seq<Uid>, uid: Uid, u: Uid)
    ensures Copies(e, watchers + [uid], u) == Copies(e, watchers, u) + if uid == u then [e] else []
  {
    assert (watchers + [uid])[..|watchers|] == watchers;
  }

  lemma ServeOne(had: seq<Event>, after: map<Uid, seq<Event>>, e: Event, watchers: seq<Uid>, uid: Uid, u: Uid)
    requires Holds(after, u, had + Copies(e, watchers, u))
    ensures Holds(PushOne(after, uid, e), u, had + Copies(e, watchers + [uid], u))
  {
    var copies, last := Copies(e, watchers, u), if uid == u then [e] else [];
    CopiesNext(e, watchers, uid, u);
    PushOneHolds(after, uid, e, u, had + copies);
    assert (had + copies) + last == had + (copies + last);
  }

  lemma NoneServed(batches: map<Uid, seq<Event>>, e: Event)
    requires forall u :: u in batches ==> Of(batches, u) != []
    ensures Served(batches, batches, e, [])
  {
    forall u ensures Holds(batches, u, Of(batches, u) + Copies(e, [], u)) {
      assert Of(batches, u) + [] == Of(batches, u);
    }
  }

  /** A user's list is started when their first event is pushed. */
  method PushTo(batches: map<Uid, seq<Event>>, uid: Uid, e: Event) returns (after: map<Uid, seq<Event>>)
    ensures after == PushOne(batches, uid, e)
  {
    after := batches;
    if uid !in after {
      after := after[uid := []];
    }
    after := after[uid := after[uid] + [e]];
  }

  method PushToWatchers(batches: map<Uid, seq<Event>>, e: Event, watchers: seq<Uid>)
    returns (after: map<Uid, seq<Event>>)
    requires forall u :: u in batches ==> Of(batches, u) != []
    ensures Served(batches, after, e, watchers)
  {
    after := batches;
    NoneServed(batches, e);
    assert watchers[..0] == [];
    for i := 0 to |watchers|
      invariant Served(batches, after, e, watchers[..i])
    {
      var uid := watchers[i];
      ServeNext(batches, after, e, watchers[..i], uid);
      assert watchers[..i + 1] == watchers[..i] + [uid];
      after := PushTo(after, uid, e);
    }
    assert watchers[..|watchers|] == watchers;
  }

  lemma PushedNext(batch: seq<Event>, hashes: seq<Hashes>, dirs: Dirs, uid: Uid, i: nat)
    requires |hashes| == |batch| && i < |batch|
    ensures Pushed(batch[..i + 1], hashes[..i + 1], dirs, uid) == Pushed(batch[..i], hashes[..i], dirs, uid) +
            if Survives(batch[i], hashes[i])
            then Copies(Normal(batch[i]), Watchers(dirs, Normal(batch[i]).watchedPath), uid) else []
  {
    assert batch[..i + 1][..i] == batch[..i] && hashes[..i + 1][..i] == hashes[..i];
  }

  lemma ConflictsNext(batch: seq<Event>, hashes: seq<Hashes>, held: set<int>, i: nat)
    requires |hashes| == |batch| && i < |batch|
    ensures Conflicts(batch[..i + 1], hashes[..i + 1], held) == Conflicts(batch[..i], hashes[..i], held) +
            if batch[i].isFile && batch[i].isWrite && Survives(batch[i], hashes[i]) && batch[i].ino in held
            then [batch[i].ino] else []
  {
    assert batch[..i + 1][..i] == batch[..i] && hashes[..i + 1][..i] == hashes[..i];
  }

  /** Every user has been pushed what these events give them. */
  ghost predicate AllPushed(batches: map<Uid, seq<Event>>, batch: seq<Event>, hashes: seq<Hashes>, dirs: Dirs)
    requires |hashes| == |batch|
  {
    forall u :: Holds(batches, u, Pushed(batch, hashes, dirs, u))
  }

  lemma SkipKeepsPushed(batches: map<Uid, seq<Event>>, batch: seq<Event>, hashes: seq<Hashes>, dirs: Dirs, i: nat)
    requires |hashes| == |batch| && i < |batch| && AllPushed(batches, batch[..i], hashes[..i], dirs)
    requires !Survives(batch[i], hashes[i])
    ensures AllPushed(batches, batch[..i + 1], hashes[..i + 1], dirs)
  {
    var b, h := batch[..i + 1], hashes[..i + 1];
    forall u ensures Holds(batches, u, Pushed(b, h, dirs, u)) {
      assert Holds(batches, u, Pushed(batch[..i], hashes[..i], dirs, u));
      PushedNext(batch, hashes, dirs, u, i);
    }
  }

  method PushEvent(batches: map<Uid, seq<Event>>, batch: seq<Event>, hashes: seq<Hashes>, dirs: Dirs, i: nat)
    returns (after: map<Uid, seq<Event>>)
    requires |hashes| == |batch| && i < |batch| && AllPushed(batches, batch[..i], hashes[..i], dirs)
    requires Survives(batch[i], hashes[i])
    ensures AllPushed(after, batch[..i + 1], hashes[..i + 1], dirs)
  {
    var event := batch[i];
    if event.watchedPath == ROOT {
      event := event.(watchedPath := ROOT + "/");
    }
    forall u ensures u in batches ==> Of(batches, u) != [] {
      assert Holds(batches, u, Pushed(batch[..i], hashes[..i], dirs, u));
    }
    after := PushToWatchers(batches, event, Watchers(dirs, event.watchedPath));
    ghost var b, h := batch[..i + 1], hashes[..i + 1];
    forall u ensures Holds(after, u, Pushed(b, h, dirs, u)) {
      assert Holds(batches, u, Pushed(batch[..i], hashes[..i], dirs, u));
      assert Holds(after, u, Of(batches, u) + Copies(event, Watchers(dirs, event.watchedPath), u));
      PushedNext(batch, hashes, dirs, u, i);
    }
  }

  /** The fan-out of one batch. */
  method Sync(batch: seq<Event>, hashes: seq<Hashes>, dirs: Dirs, held: set<int>)
    returns (batches: map<Uid, seq<Event>>, conflicts: seq<int>)
    requires |hashes| == |batch|
    ensures forall u :: Holds(batches, u, Pushed(batch, hashes, dirs, u))
    ensures WellFormed(dirs) ==> forall u :: Of(batches, u) == Wanted(batch, hashes, dirs, u)
    ensures conflicts == Conflicts(batch, hashes, held)
  {
    batches, conflicts := map[], [];
    for i := 0 to |batch|
      invariant AllPushed(batches, batch[..i], hashes[..i], dirs)
      invariant conflicts == Conflicts(batch[..i], hashes[..i], held)
    {
      ConflictsNext(batch, hashes, held, i);
      if batch[i].isFile && batch[i].isWrite {
        if hashes[i].doc.None? || hashes[i].doc.value == "" {
          SkipKeepsPushed(batches, batch, hashes, dirs, i);
          continue;
        }
        if hashes[i].file == hashes[i].doc.value {
          SkipKeepsPushed(batches, batch, hashes, dirs, i);
          continue;
        } else if batch[i].ino in held {
          conflicts := conflicts + [batch[i].ino];
        }
      }
      batches := PushEvent(batches, batch, hashes, dirs, i);
    }
    assert batch[..|batch|] == batch && hashes[..|hashes|] == hashes;
    if WellFormed(dirs) {
      forall u ensures Of(batches, u) == Wanted(batch, hashes, dirs, u) {
        assert Holds(batches, u, Pushed(batch, hashes, dirs, u));
        UserGetsWatchedEvents(batch, hashes, dirs, u);
      }
    }
  }

  /******* What each user receives *******/

  predicate Wants(e: Event, h: Hashes, dirs: Dirs, uid: Uid) {
    Survives(e, h) && uid in Watchers(dirs, Normal(e).watchedPath)
  }

  /** The events a user watches, once each and in order, with the root written as the watchers know it. */
  function Wanted(batch: seq<Event>, hashes: seq<Hashes>, dirs: Dirs, uid: Uid): seq<Event>
    requires |hashes| == |batch|
  {
    if batch == [] then []
    else
      (if Wants(batch[0], hashes[0], dirs, uid) then [Normal(batch[0])] else []) +
      Wanted(batch[1..], hashes[1..], dirs, uid)
  }

  /**
   One event by itself: a write to a file is kept exactly when a document of it is open somewhere and differs from the
   file, everything else always; an event of the root goes to the watchers cached under the root with a slash.
   */
  lemma OneEvent(e: Event, h: Hashes, dirs: Dirs, uid: Uid)
    ensures var same := e.isFile && e.isWrite && (h.doc == None || h.doc == Some("") || h.doc == Some(h.file));
            var at := if e.watchedPath == "/workspace" then "/workspace/" else e.watchedPath;
            Wanted([e], [h], dirs, uid) ==
            if !same && at in dirs && uid in dirs[at] then [e.(watchedPath := at)] else []
  {
    assert [e][1..] == [] && [h][1..] == [];
    assert "/workspace" + "/" == "/workspace/";
  }

  /** A conflict is reported exactly for a write to a document open here that differs from the file. */
  lemma OneConflict(e: Event, h: Hashes, held: set<int>)
    ensures Conflicts([e], [h], held) ==
            if e.isFile && e.isWrite && e.ino in held && h.doc.Some? && h.doc.value != "" && h.doc.value != h.file
            then [e.ino] else []
  {
    assert [e][..0] == [] && [h][..0] == [];
  }

  lemma FrontNoDup(watchers: seq<Uid>, last: Uid)
    requires NoDup(watchers + [last])
    ensures NoDup(watchers) && last !in watchers
  {
    var all := watchers + [last];
    assert all[|watchers|] == last;
    forall i | 0 <= i < |watchers| ensures watchers[i] != last { assert all[i] == watchers[i]; }
    forall i, j | 0 <= i < j < |watchers| ensures watchers[i] != watchers[j] {
      assert all[i] == watchers[i] && all[j] == watchers[j];
    }
  }

  lemma {:induction false} OneCopy(e: Event, watchers: seq<Uid>, uid: Uid)
    requires NoDup(watchers)
    ensures Copies(e, watchers, uid) == if uid in watchers then [e] else []
    decreases |watchers|
  {
    if watchers != [] {
      var n := |watchers| - 1;
      var front, last := watchers[..n], watchers[n];
      assert watchers == front + [last];
      FrontNoDup(front, last);
      OneCopy(e, front, uid);
      CopiesNext(e, front, last, uid);
    }
  }

  lemma {:induction false} WantedLast(batch: seq<Event>, hashes: seq<Hashes>, dirs: Dirs, uid: Uid)
    requires |hashes| == |batch| && batch != []
    ensures var n := |batch| - 1;
            Wanted(batch, hashes, dirs, uid) == Wanted(batch[..n], hashes[..n], dirs, uid) +
            if Wants(batch[n], hashes[n], dirs, uid) then [Normal(batch[n])] else []
    decreases |batch|
  {
    var n := |batch| - 1;
    if n > 0 {
      var b, h := batch[1..], hashes[1..];
      WantedLast(b, h, dirs, uid);
      assert b[..n - 1] == batch[..n][1..] && h[..n - 1] == hashes[..n][1..];
      assert b[n - 1] == batch[n] && h[n - 1] == hashes[n];
      assert batch[..n][0] == batch[0] && hashes[..n][0] == hashes[0];
    }
  }

  /**
   For every batch and every well-formed directory map, a user is pushed exactly the surviving events of the paths
   they watch, in order and once each.
   */
  lemma {:induction false} UserGetsWatchedEvents(batch: seq<Event>, hashes: seq<Hashes>, dirs: Dirs, uid: Uid)
    requires |hashes| == |batch| && WellFormed(dirs)
    ensures Pushed(batch, hashes, dirs, uid) == Wanted(batch, hashes, dirs, uid)
    decreases |batch|
  {
    if batch != [] {
      var n := |batch| - 1;
      UserGetsWatchedEvents(batch[..n], hashes[..n], dirs, uid);
      WantedLast(batch, hashes, dirs, uid);
      OneCopy(Normal(batch[n]), Watchers(dirs, Normal(batch[n]).watchedPath), uid);
    }
  }
}
