/**
 Watch events from their arrival to the fan-out: throttled, batched, and processed when a debounce timer fires.

 A processing reads the batch while it grows, element by element; only after its loop has ended does it replace the
 batch by an empty one. Accepted events are numbered in order of arrival, and every batch is a stretch of them.
 */
module Pipeline {
  import opened DirWatch
  import opened Events
  import opened Options
  import Fanout
  import Throttle

  type Pid = nat

  /** The first event of a processing, the watchers it found in the cache, and the hashes looked up for what it read. */
  datatype View = View(from: nat, dirs: Dirs, hashes: seq<Fanout.Hashes>)

  /**
   A processing of batch number `gen`, started by workspace state number `epoch`; `next` is the event it reads next.
   */
  datatype Proc = Proc(gen: nat, epoch: nat, next: nat, looping: bool, view: View)

  /** What a processing sends once its loop has ended: the fan-out of the events from `view.from` up to `to`. */
  datatype Delivery = Delivery(view: View, to: nat)

  /**
   `ends` holds where each finished batch ended. `timer` is the debounce timer; `strays` counts the debounce timers that
   outlived a reset. `delivered` lists the events handed to the fan-out, by number, in the order they were read.
   */
  datatype Queue = Queue(accepted: seq<Event>, ends: seq<nat>, epoch: nat, timer: bool, strays: nat,
                         procs: map<Pid, Proc>, delivered: seq<nat>, outbox: seq<Delivery>)

  const EMPTY_QUEUE := Queue([], [], 0, false, 0, map[], [], [])

  datatype Op =
    | Push(event: Event)
    | Reset
    | Fire(pid: Pid, cached: Option<Dirs>)
    | FireStray(pid: Pid, cached: Option<Dirs>)
    | Read(pid: Pid, hashes: Fanout.Hashes)
    | EndLoop(pid: Pid)
    | Clear(pid: Pid)

  /** Where the present batch starts. */
  function Base(q: Queue): nat {
    if q.ends == [] then 0 else q.ends[|q.ends| - 1]
  }

  /** Where the batch of a processing ends; the present batch still grows. */
  function Limit(q: Queue, p: Proc): nat {
    if p.gen < |q.ends| then q.ends[p.gen] else |q.accepted|
  }

  function Begun(q: Queue, cached: Option<Dirs>): Proc {
    Proc(|q.ends|, q.epoch, Base(q), cached.Some?, View(Base(q), if cached.Some? then cached.value else map[], []))
  }

  /** A processing that finds no cached workspace reads nothing and clears the batch all the same. */
  function Start(q: Queue, pid: Pid, cached: Option<Dirs>): Queue {
    q.(procs := q.procs[pid := Begun(q, cached)])
  }

  /** The batch is replaced by an empty one. */
  function Cut(q: Queue): Queue {
    q.(ends := q.ends + [|q.accepted|])
  }

  function Advanced(p: Proc, h: Fanout.Hashes): Proc {
    p.(next := p.next + 1, view := p.view.(hashes := p.view.hashes + [h]))
  }

  predicate Reads(q: Queue, pid: Pid) {
    pid in q.procs && q.procs[pid].looping && q.procs[pid].next < Limit(q, q.procs[pid])
  }

  function DoRead(q: Queue, pid: Pid, h: Fanout.Hashes): Queue {
    if Reads(q, pid) then
      q.(delivered := q.delivered + [q.procs[pid].next], procs := q.procs[pid := Advanced(q.procs[pid], h)])
    else q
  }

  /** The loop over, the lists are sent. */
  function DoEnd(q: Queue, pid: Pid): Queue {
    if pid in q.procs && q.procs[pid].looping && q.procs[pid].next >= Limit(q, q.procs[pid]) then
      q.(procs := q.procs[pid := q.procs[pid].(looping := false)],
         outbox := q.outbox + [Delivery(q.procs[pid].view, q.procs[pid].next)])
    else q
  }

  /** A processing from before a reset clears the state of before the reset. */
  function DoClear(q: Queue, pid: Pid): Queue {
    if pid in q.procs && !q.procs[pid].looping then
      var q' := q.(procs := q.procs - {pid});
      if q.procs[pid].epoch == q.epoch then Cut(q') else q'
    else q
  }

  function Apply(q: Queue, op: Op): Queue {
    match op
    case Push(e) => q.(accepted := q.accepted + [e], timer := true)
    case Reset => Cut(q).(epoch := q.epoch + 1, timer := false, strays := q.strays + if q.timer then 1 else 0)
    case Fire(pid, cached) => if q.timer && pid !in q.procs then Start(q, pid, cached).(timer := false) else q
    case FireStray(pid, cached) =>
      if q.strays > 0 && pid !in q.procs then Start(q, pid, cached).(strays := q.strays - 1) else q
    case Read(pid, h) => DoRead(q, pid, h)
    case EndLoop(pid) => DoEnd(q, pid)
    case Clear(pid) => DoClear(q, pid)
  }

  /******* Every accepted event is delivered once and in order, or waits *******/

  /** A running loop has the event ahead of it. */
  ghost predicate Held(q: Queue, i: nat) {
    exists pid | pid in q.procs :: q.procs[pid].looping && q.procs[pid].next <= i < Limit(q, q.procs[pid])
  }

  predicate InOrder(q: Queue) {
    forall j | 0 <= j < |q.delivered| :: q.delivered[j] == j
  }

  /**
   What was delivered are the first accepted events, in order and once each; every other one is in the batch or held
   by a loop.
   */
  ghost predicate Once(q: Queue) {
    && InOrder(q)
    && forall i: nat | |q.delivered| <= i < |q.accepted| :: Base(q) <= i || Held(q, i)
  }

  predicate Sane(q: Queue) {
    && |q.delivered| <= |q.accepted|
    && (forall g | 0 <= g < |q.ends| :: q.ends[g] <= |q.accepted|)
    && (forall pid | pid in q.procs :: q.procs[pid].gen <= |q.ends| && q.procs[pid].next <= Limit(q, q.procs[pid]))
  }

  /** Every undelivered event is ahead of some running loop. */
  ghost predicate AllHeld(q: Queue) {
    forall i: nat | |q.delivered| <= i < |q.accepted| :: Held(q, i)
  }

  /**
   A loop reads the first undelivered event; when the batch is replaced, at the end of a processing or by a reset, every
   undelivered event is ahead of some running loop.
   */
  ghost predicate Allowed(q: Queue, op: Op) {
    match op
    case Read(pid, _) => Reads(q, pid) ==> q.procs[pid].next == |q.delivered|
    case Clear(pid) => pid in q.procs && !q.procs[pid].looping && q.procs[pid].epoch == q.epoch ==> AllHeld(q)
    case Reset => AllHeld(q)
    case _ => true
  }

  lemma HeldStays(q: Queue, q': Queue, i: nat)
    requires Held(q, i)
    requires forall pid | pid in q.procs && q.procs[pid].looping && q.procs[pid].next <= i < Limit(q, q.procs[pid]) ::
               pid in q'.procs && q'.procs[pid].looping && q'.procs[pid].next <= i < Limit(q', q'.procs[pid])
    ensures Held(q', i)
  {
    var pid :| pid in q.procs && q.procs[pid].looping && q.procs[pid].next <= i < Limit(q, q.procs[pid]);
    assert pid in q'.procs;
  }

  lemma CutKeeps(q: Queue, q': Queue)
    requires Sane(q) && Once(q) && q'.ends == q.ends + [|q.accepted|]
    requires q'.accepted == q.accepted && q'.delivered == q.delivered
    requires q'.procs.Keys <= q.procs.Keys && forall pid | pid in q'.procs :: q'.procs[pid] == q.procs[pid]
    requires forall pid | pid in q.procs && q.procs[pid].looping :: pid in q'.procs
    ensures Sane(q')
    ensures Once(q') <==> AllHeld(q)
  {
    assert forall pid | pid in q'.procs :: Limit(q', q'.procs[pid]) == Limit(q, q.procs[pid]);
    forall i: nat | Held(q', i) ensures Held(q, i) { HeldStays(q', q, i); }
    forall i: nat | Held(q, i) ensures Held(q', i) { HeldStays(q, q', i); }
    assert Base(q') == |q.accepted|;
  }

  lemma ReadKeeps(q: Queue, pid: Pid, h: Fanout.Hashes)
    requires Sane(q) && Once(q) && Reads(q, pid)
    ensures Sane(DoRead(q, pid, h)) || q.procs[pid].next != |q.delivered|
    ensures Once(DoRead(q, pid, h)) <==> q.procs[pid].next == |q.delivered|
  {
    var q' := DoRead(q, pid, h);
    var k := |q.delivered|;
    assert q'.delivered[k] == q.procs[pid].next;
    if q.procs[pid].next == k {
      forall i: nat | k + 1 <= i < |q.accepted| && Held(q, i) ensures Held(q', i) { HeldStays(q, q', i); }
    }
  }

  lemma GrowKeeps(q: Queue, q': Queue)
    requires Sane(q) && Once(q) && q'.ends == q.ends && q'.delivered == q.delivered
    requires q.accepted <= q'.accepted && q.procs.Keys <= q'.procs.Keys
    requires forall pid | pid in q.procs :: q'.procs[pid] == q.procs[pid] ||
               (q'.procs[pid] == q.procs[pid].(looping := false) && q.procs[pid].next >= Limit(q, q.procs[pid]))
    requires forall pid | pid in q'.procs && pid !in q.procs ::
               q'.procs[pid].gen == |q.ends| && q'.procs[pid].next == Base(q)
    ensures Sane(q') && Once(q')
  {
    forall i: nat | i < |q.accepted| && Held(q, i) ensures Held(q', i) { HeldStays(q, q', i); }
    assert Base(q) <= |q.accepted|;
  }

  lemma ClearKeeps(q: Queue, pid: Pid)
    requires Sane(q) && Once(q) && pid in q.procs && !q.procs[pid].looping
    ensures Once(DoClear(q, pid)) <==> Allowed(q, Clear(pid))
    ensures Sane(DoClear(q, pid))
  {
    var q' := DoClear(q, pid);
    if q.procs[pid].epoch == q.epoch {
      CutKeeps(q, q');
    } else {
      forall i: nat | Held(q, i) ensures Held(q', i) { HeldStays(q, q', i); }
    }
  }

  /** One operation leaves every accepted event delivered once and in order, or waiting, exactly when it is allowed. */
  lemma OpKeepsOnce(q: Queue, op: Op)
    requires Sane(q) && Once(q)
    ensures Once(Apply(q, op)) <==> Allowed(q, op)
    ensures Allowed(q, op) ==> Sane(Apply(q, op))
  {
    match op {
      case Read(pid, h) => if Reads(q, pid) { ReadKeeps(q, pid, h); }
      case Clear(pid) => if pid in q.procs && !q.procs[pid].looping { ClearKeeps(q, pid); }
      case Reset => CutKeeps(q, Apply(q, op));
      case _ => GrowKeeps(q, Apply(q, op));
    }
  }

  /******* No batch is forgotten *******/

  /** A non-empty batch has its debounce timer pending or a processing that will replace it. */
  ghost predicate Attended(q: Queue) {
    Base(q) < |q.accepted| ==> q.timer || exists pid | pid in q.procs :: q.procs[pid].epoch == q.epoch
  }

  lemma OpKeepsAttended(q: Queue, op: Op)
    requires Attended(q)
    ensures Attended(Apply(q, op))
  {
    var q' := Apply(q, op);
    if Base(q') < |q'.accepted| && !q'.timer {
      if Base(q) < |q.accepted| && !q.timer {
        var pid :| pid in q.procs && q.procs[pid].epoch == q.epoch;
        assert pid in q'.procs && q'.procs[pid].epoch == q'.epoch;
      } else {
        assert op.Fire?;
        assert op.pid in q'.procs;
      }
    }
  }

  /******* Throttle and queue together *******/

  /** `received` records every event, `dropped` those that met a burst. */
  datatype State = State(gate: Throttle.Gate, queue: Queue, received: seq<Event>, dropped: seq<Event>)

  const INIT := State(Throttle.OPEN_GATE, EMPTY_QUEUE, [], [])

  datatype Step =
    | Watch(step: Throttle.Step)
    | Work(op: Op)

  /** What a throttle step asks of the queue. */
  function OpOf(g: Throttle.Gate, step: Throttle.Step): Option<Op> {
    match step
    case Receive(e, _) => if Throttle.Passes(g, e) then Some(Push(e)) else None
    case SetWorkspace => Some(Reset)
    case _ => None
  }

  /** Only the throttle pushes and resets. */
  predicate Possible(step: Step) {
    step.Work? ==> !step.op.Push? && !step.op.Reset?
  }

  function QueueOp(s: State, step: Step): Option<Op> {
    match step
    case Watch(w) => OpOf(s.gate, w)
    case Work(op) => if Possible(step) then Some(op) else None
  }

  function Next(s: State, step: Step): State {
    var queue := if QueueOp(s, step).Some? then Apply(s.queue, QueueOp(s, step).value) else s.queue;
    match step
    case Watch(Receive(e, outcome)) =>
      State(Throttle.DoReceive(s.gate, e, outcome), queue, s.received + [e],
            if Throttle.Passes(s.gate, e) then s.dropped else s.dropped + [e])
    case Watch(w) => s.(gate := Throttle.Apply(s.gate, w), queue := queue)
    case Work(_) => s.(queue := queue)
  }

  function Run(s: State, steps: seq<Step>): State
    decreases |steps|
  {
    if steps == [] then s else Run(Next(s, steps[0]), steps[1..])
  }

  /** The received events, in order, are the accepted and the dropped ones, each of those in order. */
  predicate Merges(received: seq<Event>, accepted: seq<Event>, dropped: seq<Event>)
    decreases |received|
  {
    var n, a, d := |received|, |accepted|, |dropped|;
    if n == 0 then a == 0 && d == 0
    else
      || (a > 0 && accepted[a - 1] == received[n - 1] && Merges(received[..n - 1], accepted[..a - 1], dropped))
      || (d > 0 && dropped[d - 1] == received[n - 1] && Merges(received[..n - 1], accepted, dropped[..d - 1]))
  }

  lemma MergesAccepted(r: seq<Event>, a: seq<Event>, d: seq<Event>, e: Event)
    requires Merges(r, a, d)
    ensures Merges(r + [e], a + [e], d)
  {
    assert (r + [e])[..|r|] == r && (a + [e])[..|a|] == a;
  }

  lemma MergesDropped(r: seq<Event>, a: seq<Event>, d: seq<Event>, e: Event)
    requires Merges(r, a, d)
    ensures Merges(r + [e], a, d + [e])
  {
    assert (r + [e])[..|r|] == r && (d + [e])[..|d|] == d;
  }

  lemma StepMerges(s: State, step: Step)
    requires Merges(s.received, s.queue.accepted, s.dropped)
    ensures Merges(Next(s, step).received, Next(s, step).queue.accepted, Next(s, step).dropped)
  {
    if step.Watch? && step.step.Receive? {
      var e := step.step.event;
      if Throttle.Passes(s.gate, e) {
        MergesAccepted(s.received, s.queue.accepted, s.dropped, e);
      } else {
        MergesDropped(s.received, s.queue.accepted, s.dropped, e);
      }
    } else {
      assert Next(s, step).received == s.received && Next(s, step).dropped == s.dropped;
      assert Next(s, step).queue.accepted == s.queue.accepted;
    }
  }

  /**
   Whatever happens: no received event is missing from the accepted and dropped ones, none is in both, and no batch
   is forgotten.
   */
  ghost predicate Kept(s: State) {
    Merges(s.received, s.queue.accepted, s.dropped) && Attended(s.queue)
  }

  /**
   Over every run, each event received is accepted or dropped, in order, and a non-empty batch has a timer or a
   processing.
   */
  lemma {:induction false} NothingForgotten(s: State, steps: seq<Step>)
    requires Kept(s)
    ensures Kept(Run(s, steps))
    decreases |steps|
  {
    if steps != [] {
      StepMerges(s, steps[0]);
      if QueueOp(s, steps[0]).Some? {
        OpKeepsAttended(s.queue, QueueOp(s, steps[0]).value);
      }
      NothingForgotten(Next(s, steps[0]), steps[1..]);
    }
  }

  ghost predicate AllowedStep(s: State, step: Step) {
    QueueOp(s, step).Some? ==> Allowed(s.queue, QueueOp(s, step).value)
  }

  ghost predicate OnceAlong(s: State, steps: seq<Step>)
    decreases |steps|
  {
    Once(s.queue) && (steps != [] ==> OnceAlong(Next(s, steps[0]), steps[1..]))
  }

  ghost predicate AllowedAlong(s: State, steps: seq<Step>)
    decreases |steps|
  {
    steps != [] ==> AllowedStep(s, steps[0]) && AllowedAlong(Next(s, steps[0]), steps[1..])
  }

  lemma {:induction false} OnceAlongIff(s: State, steps: seq<Step>)
    requires Sane(s.queue) && Once(s.queue)
    ensures OnceAlong(s, steps) <==> AllowedAlong(s, steps)
    decreases |steps|
  {
    if steps != [] {
      if QueueOp(s, steps[0]).Some? {
        OpKeepsOnce(s.queue, QueueOp(s, steps[0]).value);
      }
      if Once(Next(s, steps[0]).queue) {
        OnceAlongIff(Next(s, steps[0]), steps[1..]);
      }
    }
  }

  /**
   In every run every received event is dropped, or delivered to the fan-out once and in order, or waits, at every
   moment, exactly when every read and every replacement of the batch is allowed.
   */
  lemma DeliveredOnceOverRuns(steps: seq<Step>)
    ensures OnceAlong(INIT, steps) <==> AllowedAlong(INIT, steps)
    ensures Kept(Run(INIT, steps))
  {
    OnceAlongIff(INIT, steps);
    NothingForgotten(INIT, steps);
  }

  /** The throttle runs as if alone. */
  function Watches(steps: seq<Step>): seq<Throttle.Step> {
    if steps == [] then [] else (if steps[0].Watch? then [steps[0].step] else []) + Watches(steps[1..])
  }

  lemma {:induction false} ThrottleRunsAlone(s: State, steps: seq<Step>)
    ensures Run(s, steps).gate == Throttle.Run(s.gate, Watches(steps))
    decreases |steps|
  {
    if steps != [] {
      ThrottleRunsAlone(Next(s, steps[0]), steps[1..]);
      if steps[0].Watch? {
        assert Watches(steps)[0] == steps[0].step && Watches(steps)[1..] == Watches(steps[1..]);
        assert Next(s, steps[0]).gate == Throttle.Apply(s.gate, steps[0].step);
      } else {
        assert Watches(steps) == Watches(steps[1..]);
      }
    }
  }

  /******* One processing at a time *******/

  /** A processing starts only when none is under way, and nothing is reset. */
  predicate NoOverlap(q: Queue, op: Op) {
    (op.Fire? ==> q.procs == map[]) && !op.Reset? && !op.FireStray?
  }

  predicate Solo(q: Queue) {
    && (q.procs == map[] ==> |q.delivered| == Base(q))
    && forall pid | pid in q.procs ::
         && q.procs.Keys == {pid} && q.procs[pid].epoch == q.epoch && q.procs[pid].gen == |q.ends|
         && q.procs[pid].next == |q.delivered|
  }

  /**
   The batch is replaced although the processing did not read all of it: it found no workspace, or an event came
   late.
   */
  predicate Loses(q: Queue, op: Op) {
    op.Clear? && op.pid in q.procs && !q.procs[op.pid].looping && q.procs[op.pid].next < |q.accepted|
  }

  lemma SoleHolder(q: Queue, pid: Pid)
    requires Sane(q) && Solo(q) && pid in q.procs && !q.procs[pid].looping
    ensures AllHeld(q) <==> q.procs[pid].next == |q.accepted|
  {
    assert forall other | other in q.procs.Keys :: other == pid;
    if |q.delivered| < |q.accepted| {
      assert !Held(q, |q.delivered|);
    }
  }

  lemma SoloStep(q: Queue, op: Op)
    requires Sane(q) && Once(q) && Solo(q) && NoOverlap(q, op)
    ensures Allowed(q, op) <==> !Loses(q, op)
    ensures Allowed(q, op) ==> Solo(Apply(q, op))
  {
    if op.Clear? && op.pid in q.procs && !q.procs[op.pid].looping {
      SoleHolder(q, op.pid);
      assert Base(Apply(q, op)) == |q.accepted|;
      assert forall other | other in q.procs.Keys :: other == op.pid;
    } else if q.procs != map[] {
      var pid :| pid in q.procs;
      assert pid in Apply(q, op).procs;
    } else if op.Fire? && q.timer {
      assert op.pid in Apply(q, op).procs;
    }
  }

  predicate NoOverlapAlong(s: State, steps: seq<Step>)
    decreases |steps|
  {
    steps != [] ==>
      && (QueueOp(s, steps[0]).Some? ==> NoOverlap(s.queue, QueueOp(s, steps[0]).value))
      && NoOverlapAlong(Next(s, steps[0]), steps[1..])
  }

  predicate LosesNoneAlong(s: State, steps: seq<Step>)
    decreases |steps|
  {
    steps != [] ==>
      && !(QueueOp(s, steps[0]).Some? && Loses(s.queue, QueueOp(s, steps[0]).value))
      && LosesNoneAlong(Next(s, steps[0]), steps[1..])
  }

  /**
   Over every run without overlapping processings, delivery is once and in order at every moment exactly when every
   processing has read the whole batch when it replaces it.
   */
  lemma {:induction false} DeliveredOnceWithoutOverlap(s: State, steps: seq<Step>)
    requires Sane(s.queue) && Once(s.queue) && Solo(s.queue) && NoOverlapAlong(s, steps)
    ensures OnceAlong(s, steps) <==> LosesNoneAlong(s, steps)
    decreases |steps|
  {
    if steps != [] {
      if QueueOp(s, steps[0]).Some? {
        SoloStep(s.queue, QueueOp(s, steps[0]).value);
        OpKeepsOnce(s.queue, QueueOp(s, steps[0]).value);
      }
      if Once(Next(s, steps[0]).queue) {
        DeliveredOnceWithoutOverlap(Next(s, steps[0]), steps[1..]);
      }
    }
  }

  /******* Order survives losses *******/

  predicate Below(delivered: seq<nat>, bound: nat) {
    forall j | 0 <= j < |delivered| :: delivered[j] < bound
  }

  predicate Ascends(delivered: seq<nat>) {
    forall i, j | 0 <= i < j < |delivered| :: delivered[i] < delivered[j]
  }

  /** At most one processing, beyond everything delivered. */
  predicate Single(q: Queue) {
    && Ascends(q.delivered) && Base(q) <= |q.accepted|
    && (q.procs == map[] ==> Below(q.delivered, Base(q)))
    && forall pid | pid in q.procs ::
         && q.procs.Keys == {pid} && q.procs[pid].epoch == q.epoch && q.procs[pid].gen == |q.ends|
         && Base(q) <= q.procs[pid].next <= |q.accepted| && Below(q.delivered, q.procs[pid].next)
  }

  lemma SoleKey(q: Queue, pid: Pid)
    requires q.procs.Keys == {pid}
    ensures pid in q.procs && forall other | other in q.procs :: other == pid
  {
    assert forall other | other in q.procs.Keys :: other == pid;
  }

  lemma SingleRead(q: Queue, pid: Pid, h: Fanout.Hashes)
    requires Single(q) && Reads(q, pid)
    ensures Single(DoRead(q, pid, h))
  {
    SoleKey(q, pid);
    var q' := DoRead(q, pid, h);
    assert q'.procs.Keys == {pid};
    SoleKey(q', pid);
    assert Below(q.delivered, q.procs[pid].next);
  }

  lemma SingleClear(q: Queue, pid: Pid)
    requires Single(q) && pid in q.procs && !q.procs[pid].looping
    ensures Single(DoClear(q, pid))
  {
    SoleKey(q, pid);
    assert DoClear(q, pid).procs == map[];
    assert Base(DoClear(q, pid)) == |q.accepted|;
    assert Below(q.delivered, q.procs[pid].next);
  }

  lemma SingleFire(q: Queue, pid: Pid, cached: Option<Dirs>)
    requires Single(q) && q.procs == map[] && q.timer
    ensures Single(Apply(q, Fire(pid, cached)))
  {
    var q' := Apply(q, Fire(pid, cached));
    assert q'.procs == map[pid := Begun(q, cached)] && q'.procs.Keys == {pid};
    SoleKey(q', pid);
  }

  lemma SingleOther(q: Queue, op: Op)
    requires Single(q) && (op.Push? || op.EndLoop?)
    ensures Single(Apply(q, op))
  {
    var q' := Apply(q, op);
    assert q'.procs.Keys == q.procs.Keys && Base(q') == Base(q) && q'.delivered == q.delivered;
    assert q'.procs == map[] ==> q.procs == map[] by { assert q.procs.Keys == {} ==> q.procs == map[]; }
    forall pid | pid in q'.procs
      ensures q'.procs[pid].next == q.procs[pid].next && q'.procs[pid].gen == q.procs[pid].gen
    {
    }
  }

  lemma SingleStep(q: Queue, op: Op)
    requires Single(q) && NoOverlap(q, op)
    ensures Single(Apply(q, op))
  {
    match op {
      case Read(pid, h) => if Reads(q, pid) { SingleRead(q, pid, h); }
      case Clear(pid) => if pid in q.procs && !q.procs[pid].looping { SingleClear(q, pid); }
      case Fire(pid, cached) => if q.timer { SingleFire(q, pid, cached); }
      case _ => SingleOther(q, op);
    }
  }

  /** Without overlap, whatever is lost, no event is delivered twice or after a later one. */
  lemma {:induction false} OrderWithoutOverlap(s: State, steps: seq<Step>)
    requires Single(s.queue) && NoOverlapAlong(s, steps)
    ensures Ascends(Run(s, steps).queue.delivered)
    decreases |steps|
  {
    if steps != [] {
      if QueueOp(s, steps[0]).Some? {
        SingleStep(s.queue, QueueOp(s, steps[0]).value);
      }
      OrderWithoutOverlap(Next(s, steps[0]), steps[1..]);
    }
  }

  /******* What the users are sent *******/

  predicate AlignedProc(q: Queue, p: Proc) {
    p.gen <= |q.ends| && p.view.from <= p.next <= Limit(q, p) && |p.view.hashes| == p.next - p.view.from
  }

  predicate AlignedDelivery(q: Queue, d: Delivery) {
    d.view.from <= d.to <= |q.accepted| && |d.view.hashes| == d.to - d.view.from
  }

  /** Processings and deliveries are about stretches of accepted events, with the hashes of each. */
  predicate Aligned(q: Queue) {
    && (forall g | 0 <= g < |q.ends| :: q.ends[g] <= |q.accepted|)
    && (forall pid | pid in q.procs :: AlignedProc(q, q.procs[pid]))
    && (forall d | d in q.outbox :: AlignedDelivery(q, d))
  }

  /** Batches that ended stay as they were, and the present one only grows or ends where it is. */
  predicate Extends(q: Queue, q': Queue) {
    && q.accepted <= q'.accepted
    && (q'.ends == q.ends || (q'.ends == q.ends + [|q.accepted|] && q'.accepted == q.accepted))
  }

  lemma ExtendsKeepsAligned(q: Queue, q': Queue, p: Proc)
    requires Extends(q, q') && AlignedProc(q, p)
    ensures AlignedProc(q', p)
  {
  }

  lemma OpExtends(q: Queue, op: Op)
    ensures Extends(q, Apply(q, op))
  {
  }

  lemma StepAlignsProc(q: Queue, op: Op, pid: Pid)
    requires Aligned(q) && pid in Apply(q, op).procs
    ensures AlignedProc(Apply(q, op), Apply(q, op).procs[pid])
  {
    OpExtends(q, op);
    if pid in q.procs {
      ExtendsKeepsAligned(q, Apply(q, op), q.procs[pid]);
    }
  }

  lemma StepAlignsOutbox(q: Queue, op: Op, d: Delivery)
    requires Aligned(q) && d in Apply(q, op).outbox
    ensures AlignedDelivery(Apply(q, op), d)
  {
    OpExtends(q, op);
    if d !in q.outbox {
      assert AlignedProc(q, q.procs[op.pid]);
    } else {
      assert AlignedDelivery(q, d);
    }
  }

  lemma OpKeepsAligned(q: Queue, op: Op)
    requires Aligned(q)
    ensures Aligned(Apply(q, op))
  {
    var q' := Apply(q, op);
    OpExtends(q, op);
    forall pid | pid in q'.procs ensures AlignedProc(q', q'.procs[pid]) { StepAlignsProc(q, op, pid); }
    forall d | d in q'.outbox ensures AlignedDelivery(q', d) { StepAlignsOutbox(q, op, d); }
  }

  lemma {:induction false} AlignedOverRuns(s: State, steps: seq<Step>)
    requires Aligned(s.queue)
    ensures Aligned(Run(s, steps).queue)
    decreases |steps|
  {
    if steps != [] {
      if QueueOp(s, steps[0]).Some? {
        OpKeepsAligned(s.queue, QueueOp(s, steps[0]).value);
      }
      AlignedOverRuns(Next(s, steps[0]), steps[1..]);
    }
  }

  /** The events a delivery is about. */
  function Stretch(q: Queue, d: Delivery): seq<Event>
    requires AlignedDelivery(q, d)
  {
    q.accepted[d.view.from..d.to]
  }

  /** The list a delivery sends to a user. */
  function SentTo(q: Queue, d: Delivery, uid: Uid): seq<Event>
    requires AlignedDelivery(q, d)
  {
    Fanout.Pushed(Stretch(q, d), d.view.hashes, d.view.dirs, uid)
  }

  /**
   In every run, with any processings overlapping, each delivery is about a stretch of accepted events and sends every
   user exactly the surviving ones whose path they watched when it started, once each and in order.
   */
  lemma UserListsOverRuns(steps: seq<Step>, k: nat, uid: Uid)
    requires k < |Run(INIT, steps).queue.outbox| && WellFormed(Run(INIT, steps).queue.outbox[k].view.dirs)
    ensures var q := Run(INIT, steps).queue;
            var d := q.outbox[k];
            && AlignedDelivery(q, d)
            && SentTo(q, d, uid) == Fanout.Wanted(Stretch(q, d), d.view.hashes, d.view.dirs, uid)
  {
    AlignedOverRuns(INIT, steps);
    var q := Run(INIT, steps).queue;
    var d := q.outbox[k];
    assert d in q.outbox;
    Fanout.UserGetsWatchedEvents(Stretch(q, d), d.view.hashes, d.view.dirs, uid);
  }

  /******* A delivery is about one batch *******/

  /** Batches end in order, none beyond what was accepted. */
  predicate EndsAscend(q: Queue) {
    && (forall g | 0 <= g < |q.ends| :: q.ends[g] <= |q.accepted|)
    && (forall g, h | 0 <= g < h < |q.ends| :: q.ends[g] <= q.ends[h])
  }

  predicate ProcWithin(q: Queue, p: Proc) {
    && p.gen <= |q.ends| && p.next <= |q.accepted|
    && (forall g | 0 <= g < p.gen :: q.ends[g] <= p.view.from)
    && (forall g | p.gen <= g < |q.ends| :: p.next <= q.ends[g])
  }

  /** No batch ends inside the stretch the delivery is about. */
  predicate WithinOneBatch(q: Queue, d: Delivery) {
    d.to <= |q.accepted| && forall g | 0 <= g < |q.ends| :: q.ends[g] <= d.view.from || d.to <= q.ends[g]
  }

  predicate Within(q: Queue) {
    && EndsAscend(q)
    && (forall pid | pid in q.procs :: ProcWithin(q, q.procs[pid]))
    && (forall d | d in q.outbox :: WithinOneBatch(q, d))
  }

  lemma ExtendsKeepsProcWithin(q: Queue, q': Queue, p: Proc)
    requires Extends(q, q') && ProcWithin(q, p)
    ensures ProcWithin(q', p)
  {
  }

  lemma ReadKeepsProcWithin(q: Queue, pid: Pid, h: Fanout.Hashes)
    requires EndsAscend(q) && Reads(q, pid) && ProcWithin(q, q.procs[pid])
    ensures ProcWithin(q, Advanced(q.procs[pid], h))
  {
  }

  lemma BegunWithin(q: Queue, cached: Option<Dirs>)
    requires EndsAscend(q)
    ensures ProcWithin(q, Begun(q, cached))
  {
  }

  /** What a step makes of one processing, its batch aside. */
  lemma StepProc(q: Queue, op: Op, pid: Pid)
    requires pid in Apply(q, op).procs
    ensures var p := Apply(q, op).procs[pid];
            || (pid in q.procs && p.(looping := q.procs[pid].looping) == q.procs[pid])
            || (op.Read? && op.pid == pid && Reads(q, pid) && p == Advanced(q.procs[pid], op.hashes))
            || ((op.Fire? || op.FireStray?) && p == Begun(q, op.cached))
  {
  }

  lemma StepKeepsProcWithin(q: Queue, op: Op, pid: Pid)
    requires EndsAscend(q) && (pid in q.procs ==> ProcWithin(q, q.procs[pid])) && pid in Apply(q, op).procs
    ensures ProcWithin(q, Apply(q, op).procs[pid])
  {
    StepProc(q, op, pid);
    if op.Read? && op.pid == pid && Reads(q, pid) {
      ReadKeepsProcWithin(q, pid, op.hashes);
    } else if op.Fire? || op.FireStray? {
      BegunWithin(q, op.cached);
    }
  }

  lemma StepKeepsOutboxWithin(q: Queue, op: Op, d: Delivery)
    requires Within(q) && d in Apply(q, op).outbox
    ensures WithinOneBatch(Apply(q, op), d)
  {
    OpExtends(q, op);
    if d in q.outbox {
      assert WithinOneBatch(q, d);
    } else {
      assert ProcWithin(q, q.procs[op.pid]);
    }
  }

  lemma OpKeepsWithin(q: Queue, op: Op)
    requires Within(q)
    ensures Within(Apply(q, op))
  {
    var q' := Apply(q, op);
    OpExtends(q, op);
    forall pid | pid in q'.procs ensures ProcWithin(q', q'.procs[pid]) {
      StepKeepsProcWithin(q, op, pid);
      ExtendsKeepsProcWithin(q, q', q'.procs[pid]);
    }
    forall d | d in q'.outbox ensures WithinOneBatch(q', d) { StepKeepsOutboxWithin(q, op, d); }
  }

  lemma {:induction false} WithinAlong(s: State, steps: seq<Step>)
    requires Within(s.queue)
    ensures Within(Run(s, steps).queue)
    decreases |steps|
  {
    if steps != [] {
      if QueueOp(s, steps[0]).Some? {
        OpKeepsWithin(s.queue, QueueOp(s, steps[0]).value);
      }
      WithinAlong(Next(s, steps[0]), steps[1..]);
    }
  }

  /** In every run, with resets and any processings overlapping, a delivery never mixes the events of two batches. */
  lemma DeliveriesKeepToBatches(steps: seq<Step>, k: nat)
    requires k < |Run(INIT, steps).queue.outbox|
    ensures WithinOneBatch(Run(INIT, steps).queue, Run(INIT, steps).queue.outbox[k])
  {
    WithinAlong(INIT, steps);
  }

  /******* Processings from before a reset *******/

  predicate Epochs(q: Queue) {
    forall pid | pid in q.procs :: q.procs[pid].epoch <= q.epoch
  }

  /** A processing started by a workspace state that was replaced since. */
  predicate Stale(q: Queue, pid: Pid) {
    pid in q.procs && q.procs[pid].epoch < q.epoch
  }

  lemma {:induction false} EpochsOverRuns(s: State, steps: seq<Step>)
    requires Epochs(s.queue)
    ensures Epochs(Run(s, steps).queue)
    decreases |steps|
  {
    if steps != [] {
      EpochsOverRuns(Next(s, steps[0]), steps[1..]);
    }
  }

  /** In every run, a reset makes every processing under way stale. */
  lemma ResetMakesStale(steps: seq<Step>, pid: Pid)
    requires pid in Run(INIT, steps).queue.procs
    ensures Stale(Next(Run(INIT, steps), Watch(Throttle.SetWorkspace)).queue, pid)
  {
    EpochsOverRuns(INIT, steps);
  }

  /** And it stays so until it goes, which leaves the present batch and everything else as they are. */
  lemma StaleSparesBatch(q: Queue, op: Op, pid: Pid)
    requires Stale(q, pid)
    ensures Stale(Apply(q, op), pid) || (op == Clear(pid) && Apply(q, op) == q.(procs := q.procs - {pid}))
  {
  }

  /******* Debounce timers *******/

  function Timers(q: Queue): nat {
    q.strays + if q.timer then 1 else 0
  }

  predicate Starts(q: Queue, op: Op) {
    (op.Fire? || op.FireStray?) && op.pid !in q.procs && op.pid in Apply(q, op).procs
  }

  function StartsIn(s: State, steps: seq<Step>): nat
    decreases |steps|
  {
    if steps == [] then 0
    else
      var op := QueueOp(s, steps[0]);
      (if op.Some? && Starts(s.queue, op.value) then 1 else 0) + StartsIn(Next(s, steps[0]), steps[1..])
  }

  /** A timer is armed by an event, outlives resets, and starts one processing. */
  lemma TimersStep(q: Queue, op: Op)
    ensures Timers(Apply(q, op)) ==
            Timers(q) + (if op.Push? && !q.timer then 1 else 0) - (if Starts(q, op) then 1 else 0)
  {
  }

  /** In every run, the processings started and the timers still pending are no more than the events accepted. */
  lemma {:induction false} NoProcessingWithoutEvent(s: State, steps: seq<Step>)
    ensures var q := Run(s, steps).queue;
            StartsIn(s, steps) + Timers(q) + |s.queue.accepted| <= Timers(s.queue) + |q.accepted|
    decreases |steps|
  {
    if steps != [] {
      var op := QueueOp(s, steps[0]);
      if op.Some? {
        TimersStep(s.queue, op.value);
      }
      NoProcessingWithoutEvent(Next(s, steps[0]), steps[1..]);
    }
  }

  /** Where the deliveries so far end. */
  function Reach(outbox: seq<Delivery>): nat {
    if outbox == [] then 0 else outbox[|outbox| - 1].to
  }

  /** The deliveries follow each other without gap or overlap from the first accepted event on. */
  predicate Tiles(outbox: seq<Delivery>) {
    forall k | 0 <= k < |outbox| :: outbox[k].view.from == Reach(outbox[..k])
  }

  predicate Tiled(q: Queue) {
    && Tiles(q.outbox)
    && ((forall pid | pid in q.procs :: !q.procs[pid].looping) ==> Reach(q.outbox) == |q.delivered|)
    && (forall pid | pid in q.procs && q.procs[pid].looping :: Reach(q.outbox) == q.procs[pid].view.from)
  }

  lemma TilesMore(outbox: seq<Delivery>, d: Delivery)
    requires Tiles(outbox) && d.view.from == Reach(outbox)
    ensures Tiles(outbox + [d]) && Reach(outbox + [d]) == d.to
  {
    var all := outbox + [d];
    forall k | 0 <= k < |all| ensures all[k].view.from == Reach(all[..k]) {
      assert k < |outbox| ==> all[..k] == outbox[..k];
      assert k == |outbox| ==> all[..k] == outbox;
    }
  }

  lemma TiledEnd(q: Queue, pid: Pid)
    requires Solo(q) && Tiled(q) && pid in q.procs
    requires q.procs[pid].looping && q.procs[pid].next >= Limit(q, q.procs[pid])
    ensures Tiled(DoEnd(q, pid))
  {
    SoleKey(q, pid);
    TilesMore(q.outbox, Delivery(q.procs[pid].view, q.procs[pid].next));
  }

  lemma TiledRead(q: Queue, pid: Pid, h: Fanout.Hashes)
    requires Solo(q) && Tiled(q) && Reads(q, pid)
    ensures Tiled(DoRead(q, pid, h))
  {
    SoleKey(q, pid);
    assert pid in DoRead(q, pid, h).procs && DoRead(q, pid, h).procs[pid].looping;
  }

  lemma TiledFire(q: Queue, pid: Pid, cached: Option<Dirs>)
    requires Solo(q) && Tiled(q) && q.procs == map[] && q.timer
    ensures Tiled(Apply(q, Fire(pid, cached)))
  {
    var q' := Apply(q, Fire(pid, cached));
    assert q'.procs == map[pid := Begun(q, cached)] && pid in q'.procs;
  }

  lemma TiledClear(q: Queue, pid: Pid)
    requires Solo(q) && Tiled(q) && pid in q.procs && !q.procs[pid].looping
    ensures Tiled(DoClear(q, pid))
  {
    SoleKey(q, pid);
  }

  lemma TiledStep(q: Queue, op: Op)
    requires Solo(q) && Tiled(q) && NoOverlap(q, op)
    ensures Tiled(Apply(q, op))
  {
    match op {
      case Read(pid, h) => if Reads(q, pid) { TiledRead(q, pid, h); }
      case EndLoop(pid) =>
        if pid in q.procs && q.procs[pid].looping && q.procs[pid].next >= Limit(q, q.procs[pid]) { TiledEnd(q, pid); }
      case Clear(pid) => if pid in q.procs && !q.procs[pid].looping { TiledClear(q, pid); }
      case Fire(pid, cached) => if q.timer { TiledFire(q, pid, cached); }
      case Push(_) =>
    }
  }

  /**
   Over every run without overlap in which nothing is lost, the deliveries tile the accepted events from the first one
   on: every event delivered so far is in exactly one delivery, or read by the loop under way.
   */
  lemma {:induction false} DeliveriesTile(s: State, steps: seq<Step>)
    requires Sane(s.queue) && Once(s.queue) && Solo(s.queue) && Tiled(s.queue)
    requires NoOverlapAlong(s, steps) && LosesNoneAlong(s, steps)
    ensures Tiled(Run(s, steps).queue)
    decreases |steps|
  {
    if steps != [] {
      if QueueOp(s, steps[0]).Some? {
        var op := QueueOp(s, steps[0]).value;
        SoloStep(s.queue, op);
        OpKeepsOnce(s.queue, op);
        TiledStep(s.queue, op);
      }
      DeliveriesTile(Next(s, steps[0]), steps[1..]);
    }
  }

  /******* Runs that lose or repeat an event *******/

  lemma {:induction false} RunSnoc(s: State, steps: seq<Step>, step: Step)
    ensures Run(s, steps + [step]) == Next(Run(s, steps), step)
    decreases |steps|
  {
    if steps == [] {
      assert steps + [step] == [step] && [step][1..] == [];
    } else {
      assert (steps + [step])[0] == steps[0] && (steps + [step])[1..] == steps[1..] + [step];
      RunSnoc(Next(s, steps[0]), steps[1..], step);
    }
  }

  function Arrives(path: Path): Step {
    Watch(Throttle.Receive(Throttle.PlainEvent(path), Throttle.Sent))
  }

  /** Nobody watches, and no hash is needed. */
  const CACHED: Option<Dirs> := Some(map[])
  const PLAIN := Fanout.Hashes(None, "")

  function Worker(next: nat, looping: bool): Proc {
    Proc(0, 0, next, looping, View(0, map[], seq(next, i => PLAIN)))
  }

  /** A run in which one event arrives and a processing starts. */
  lemma Started(path: Path) returns (steps: seq<Step>)
    ensures NoOverlapAlong(INIT, steps)
    ensures var s := Run(INIT, steps);
            && s.queue == Queue([Throttle.PlainEvent(path)], [], 0, false, 0, map[0 := Worker(0, true)], [], [])
            && s.gate == Throttle.OPEN_GATE.(paths := map[path := Throttle.PathState(0, 1, false, false)])
  {
    steps := [Arrives(path)];
    RunSnoc(INIT, [], steps[0]);
    assert [] + steps == steps;
    var s1 := Run(INIT, steps);
    assert s1.queue == Queue([Throttle.PlainEvent(path)], [], 0, true, 0, map[], [], []);
    assert Begun(s1.queue, CACHED) == Worker(0, true);
    RunSnoc(INIT, steps, Work(Fire(0, CACHED)));
    NoOverlapSnoc(INIT, steps, Work(Fire(0, CACHED)));
    steps := steps + [Work(Fire(0, CACHED))];
  }

  lemma {:induction false} NoOverlapSnoc(s: State, steps: seq<Step>, step: Step)
    requires NoOverlapAlong(s, steps)
    requires var op := QueueOp(Run(s, steps), step); op.Some? ==> NoOverlap(Run(s, steps).queue, op.value)
    ensures NoOverlapAlong(s, steps + [step])
    decreases |steps|
  {
    if steps == [] {
      assert steps + [step] == [step] && [step][1..] == [];
    } else {
      assert (steps + [step])[0] == steps[0] && (steps + [step])[1..] == steps[1..] + [step];
      NoOverlapSnoc(Next(s, steps[0]), steps[1..], step);
    }
  }

  lemma Append(steps: seq<Step>, step: Step) returns (more: seq<Step>)
    requires NoOverlapAlong(INIT, steps)
    requires var op := QueueOp(Run(INIT, steps), step); op.Some? ==> NoOverlap(Run(INIT, steps).queue, op.value)
    ensures NoOverlapAlong(INIT, more) && Run(INIT, more) == Next(Run(INIT, steps), step)
  {
    RunSnoc(INIT, steps, step);
    NoOverlapSnoc(INIT, steps, step);
    more := steps + [step];
  }

  lemma WorkerAdvances(next: nat)
    ensures Advanced(Worker(next, true), PLAIN) == Worker(next + 1, true)
  {
    assert seq(next + 1, i => PLAIN) == seq(next, i => PLAIN) + [PLAIN];
  }

  /** An event that arrives after the loop has ended and before the batch is replaced is lost. */
  lemma LateEventIsLost(path: Path) returns (steps: seq<Step>)
    ensures NoOverlapAlong(INIT, steps)
    ensures var q := Run(INIT, steps).queue;
            |q.accepted| == 2 && q.delivered == [0] && Base(q) == 2 && q.procs == map[]
  {
    steps := Started(path);
    WorkerAdvances(0);
    steps := Append(steps, Work(Read(0, PLAIN)));
    assert Run(INIT, steps).queue.procs == map[0 := Worker(1, true)] && Run(INIT, steps).queue.delivered == [0];
    steps := Append(steps, Work(EndLoop(0)));
    assert Run(INIT, steps).queue.procs == map[0 := Worker(1, false)];
    steps := Append(steps, Arrives(path));
    assert |Run(INIT, steps).queue.accepted| == 2;
    steps := Append(steps, Work(Clear(0)));
  }

  /** A debounce timer that outlives a reset starts a processing of the new batch, once. */
  lemma StrayTimerProcesses(q: Queue, pid: Pid, dirs: Dirs, e: Event)
    requires q.timer && pid !in q.procs
    ensures var q1 := Apply(Apply(q, Reset), Push(e));
            var q2 := Apply(q1, FireStray(pid, Some(dirs)));
            && Base(q1) == |q.accepted| && q1.strays == q.strays + 1 && q2.strays == q.strays
            && pid in q2.procs && q2.procs[pid].looping && q2.procs[pid].next == |q.accepted| && q2.timer
  {
  }

  /** Two processings of one batch deliver its events twice. */
  lemma OverlapDeliversTwice(path: Path) returns (steps: seq<Step>)
    ensures Run(INIT, steps).queue.delivered == [0, 0]
  {
    steps := Started(path);
    steps := Append(steps, Arrives(path));
    assert Run(INIT, steps).queue.timer && Begun(Run(INIT, steps).queue, CACHED) == Worker(0, true);
    RunSnoc(INIT, steps, Work(Fire(1, CACHED)));
    steps := steps + [Work(Fire(1, CACHED))];
    assert Run(INIT, steps).queue.procs == map[0 := Worker(0, true), 1 := Worker(0, true)];
    RunSnoc(INIT, steps, Work(Read(0, PLAIN)));
    steps := steps + [Work(Read(0, PLAIN))];
    assert Run(INIT, steps).queue.procs[1] == Worker(0, true) && Run(INIT, steps).queue.delivered == [0];
    RunSnoc(INIT, steps, Work(Read(1, PLAIN)));
    steps := steps + [Work(Read(1, PLAIN))];
  }

  /******* The service as it runs: path state, batch and timer changed in place *******/

  function Numbers(from: nat, n: nat): seq<nat> {
    seq(n, i => from + i)
  }

  /** What a processing that has read the first events of the batch has seen. */
  function Seen(q: Queue, dirs: Dirs, hashes: seq<Fanout.Hashes>): View {
    View(Base(q), dirs, hashes)
  }

  /** A processing that has read as many events as there are `hashes`, with nothing else happening meanwhile. */
  function Reading(q: Queue, pid: Pid, dirs: Dirs, hashes: seq<Fanout.Hashes>): Queue {
    q.(timer := false,
       procs := q.procs[pid := Proc(|q.ends|, q.epoch, Base(q) + |hashes|, true, Seen(q, dirs, hashes))],
       delivered := q.delivered + Numbers(Base(q), |hashes|))
  }

  lemma ReadingStarts(q: Queue, pid: Pid, dirs: Dirs)
    requires q.timer && pid !in q.procs
    ensures Apply(q, Fire(pid, Some(dirs))) == Reading(q, pid, dirs, [])
  {
    assert Numbers(Base(q), 0) == [];
  }

  lemma ReadingGoesOn(q: Queue, pid: Pid, dirs: Dirs, hashes: seq<Fanout.Hashes>, h: Fanout.Hashes)
    requires Base(q) + |hashes| < |q.accepted|
    ensures Apply(Reading(q, pid, dirs, hashes), Read(pid, h)) == Reading(q, pid, dirs, hashes + [h])
  {
    var n := |hashes|;
    assert Numbers(Base(q), n + 1) == Numbers(Base(q), n) + [Base(q) + n];
  }

  /** The batch replaced by an empty one, after its first events were read and sent. */
  function Finished(q: Queue, sent: seq<Delivery>, n: nat): Queue {
    Cut(q).(timer := false, delivered := q.delivered + Numbers(Base(q), n), outbox := q.outbox + sent)
  }

  lemma ReadingEnds(q: Queue, pid: Pid, dirs: Dirs, hashes: seq<Fanout.Hashes>)
    requires pid !in q.procs && Base(q) + |hashes| == |q.accepted|
    ensures Apply(Apply(Reading(q, pid, dirs, hashes), EndLoop(pid)), Clear(pid)) ==
            Finished(q, [Delivery(Seen(q, dirs, hashes), |q.accepted|)], |hashes|)
  {
    assert Apply(Apply(Reading(q, pid, dirs, hashes), EndLoop(pid)), Clear(pid)).procs == q.procs;
  }

  lemma UncachedEnds(q: Queue, pid: Pid)
    requires q.timer && pid !in q.procs
    ensures Apply(Apply(q, Fire(pid, None)), Clear(pid)) == Finished(q, [], 0)
  {
    assert Numbers(Base(q), 0) == [];
    assert Apply(Apply(q, Fire(pid, None)), Clear(pid)).procs == q.procs;
  }

  lemma RunOp(s: State, steps: seq<Step>, op: Op)
    requires !op.Push? && !op.Reset?
    ensures Run(s, steps + [Work(op)]) == Run(s, steps).(queue := Apply(Run(s, steps).queue, op))
  {
    RunSnoc(s, steps, Work(op));
  }

  /** `log` is the state of the model the fields stand for. */
  class FSService {
    var paths: map<Path, Throttle.PathState>
    var batch: seq<Event>
    var debounce: bool
    var sent: seq<Throttle.Signal>
    ghost var log: State

    ghost predicate Valid()
      reads this
    {
      && paths == log.gate.paths && sent == log.gate.signals && debounce == log.queue.timer
      && Base(log.queue) <= |log.queue.accepted| && batch == log.queue.accepted[Base(log.queue)..]
    }

    constructor ()
      ensures Valid() && log == INIT
    {
      paths, batch, debounce, sent := map[], [], false, [];
      log := INIT;
    }

    method SetWorkspace()
      requires Valid()
      modifies this
      ensures Valid() && log == Next(old(log), Watch(Throttle.SetWorkspace))
    {
      paths, batch, debounce, sent := map[], [], false, [];
      log := Next(log, Watch(Throttle.SetWorkspace));
    }

    method HandleWatchEvent(e: Event, outcome: Throttle.Outcome)
      requires Valid()
      modifies this
      ensures Valid() && log == Next(old(log), Watch(Throttle.Receive(e, outcome)))
      ensures e.watchedPath in paths && paths == old(paths)[e.watchedPath := paths[e.watchedPath]]
      ensures var was := if e.watchedPath in old(paths) then old(paths)[e.watchedPath] else Throttle.FRESH;
              var now := paths[e.watchedPath];
              && now.last == e.timestamp
              && now.count == (if e.timestamp > was.last + Throttle.BURST_INTERVAL then 1 else was.count + 1)
              && (now.bursting <==> was.bursting || now.count > Throttle.BURST_THRESHOLD)
      ensures batch == if paths[e.watchedPath].bursting then old(batch) else old(batch) + [e]
    {
      ghost var g, q := log.gate, log.queue;
      ghost var after := Next(log, Watch(Throttle.Receive(e, outcome)));
      assert after.gate == Throttle.DoReceive(g, e, outcome);
      var state := if e.watchedPath in paths then paths[e.watchedPath] else Throttle.FRESH;
      assert state == Throttle.Get(g, e.watchedPath);
      if e.timestamp - state.last > Throttle.BURST_INTERVAL {
        state := state.(count := 0);
      }
      state := state.(count := state.count + 1, last := e.timestamp);
      assert state.count == Throttle.NextCount(Throttle.Get(g, e.watchedPath), e.timestamp);
      if !state.bursting && state.count > Throttle.BURST_THRESHOLD {
        assert Throttle.Starts(Throttle.Get(g, e.watchedPath), e.timestamp) && after.queue == q;
        state := state.(bursting := true);
        if outcome.Sent? {
          sent := sent + [Throttle.Block(e.watchedPath)];
        }
        if outcome.Throws? {
          paths, log := paths[e.watchedPath := state], after;
          return;
        }
      }
      if state.bursting {
        assert after.queue == q;
        state := state.(timer := true);
        paths, log := paths[e.watchedPath := state], after;
        return;
      }
      assert Throttle.Passes(g, e) && after.queue == Apply(q, Push(e));
      paths, log := paths[e.watchedPath := state], after;
      batch := batch + [e];
      debounce := true;
    }

    /**
     A processing with nothing else happening meanwhile reads the whole batch in order, sends every user what the batch
     holds for them, and leaves an empty batch. `hashes` are those looked up for its events.
     */
    method Process(pid: Pid, cached: Option<Dirs>, hashes: seq<Fanout.Hashes>, held: set<int>)
      returns (lists: map<Uid, seq<Event>>, conflicts: seq<int>, ghost steps: seq<Step>)
      requires Valid() && debounce && pid !in log.queue.procs && |hashes| == |batch|
      modifies this
      ensures Valid() && batch == [] && log == Run(old(log), steps)
      ensures cached.None? ==> lists == map[] && log.queue == Finished(old(log).queue, [], 0)
      ensures cached.Some? ==>
                && (forall u :: Fanout.Holds(lists, u, Fanout.Pushed(old(batch), hashes, cached.value, u)))
                && conflicts == Fanout.Conflicts(old(batch), hashes, held)
                && log.queue == Finished(old(log).queue, [Delivery(Seen(old(log).queue, cached.value, hashes),
                                                                   |old(log).queue.accepted|)], |hashes|)
    {
      ghost var s, q := log, log.queue;
      lists, conflicts, debounce := map[], [], false;
      if cached.Some? {
        steps := ReadAll(pid, cached.value, hashes);
        lists, conflicts := Fanout.Sync(batch, hashes, cached.value, held);
        RunOp(s, steps, EndLoop(pid));
        steps := steps + [Work(EndLoop(pid))];
        ReadingEnds(q, pid, cached.value, hashes);
      } else {
        steps := [Work(Fire(pid, None))];
        RunOp(s, [], Fire(pid, None));
        assert [] + steps == steps;
        UncachedEnds(q, pid);
      }
      RunOp(s, steps, Clear(pid));
      steps := steps + [Work(Clear(pid))];
      log := Run(s, steps);
      batch := [];
    }

    /** The steps of the loop. */
    ghost method ReadAll(pid: Pid, dirs: Dirs, hashes: seq<Fanout.Hashes>) returns (steps: seq<Step>)
      requires log.queue.timer && pid !in log.queue.procs && Base(log.queue) + |hashes| == |log.queue.accepted|
      ensures Run(log, steps) == log.(queue := Reading(log.queue, pid, dirs, hashes))
    {
      var s, q := log, log.queue;
      steps := [Work(Fire(pid, Some(dirs)))];
      RunOp(s, [], Fire(pid, Some(dirs)));
      assert [] + steps == steps;
      ReadingStarts(q, pid, dirs);
      var i := 0;
      while i < |hashes|
        invariant 0 <= i <= |hashes|
        invariant Run(s, steps) == s.(queue := Reading(q, pid, dirs, hashes[..i]))
      {
        RunOp(s, steps, Read(pid, hashes[i]));
        ReadingGoesOn(q, pid, dirs, hashes[..i], hashes[i]);
        assert hashes[..i + 1] == hashes[..i] + [hashes[i]];
        steps := steps + [Work(Read(pid, hashes[i]))];
        i := i + 1;
      }
      assert hashes[..|hashes|] == hashes;
    }
  }
}
