/**
 Throttling of watch events, per watched path: a burst blocks the path until a cooldown timer fires.
 */
module Throttle {
  import opened Events
  import opened Options

  const BURST_THRESHOLD: nat := 50
  const BURST_INTERVAL: int := 200

  /** `timer` says whether a cooldown timer is pending for the path. */
  datatype PathState = PathState(last: int, count: nat, bursting: bool, timer: bool)

  const FRESH := PathState(0, 0, false, false)

  datatype Signal = Block(path: Path) | Resume(path: Path)

  /** How sending a signal ends: sent, nothing to send to, or failed because the path has no watchers. */
  datatype Outcome = Sent | Unsent | Throws

  /**
   Path state of one workspace on one instance. `stray` holds the cooldown timers that outlived a reset. `signals`
   records what was sent since the last reset; `missed` counts, per path, the signals that were due and not sent and
   the signals sent by stray timers.
   */
  datatype Gate = Gate(paths: map<Path, PathState>, stray: multiset<Path>, signals: seq<Signal>, missed: map<Path, nat>)

  const OPEN_GATE := Gate(map[], multiset{}, [], map[])

  datatype Step =
    | Receive(event: Event, outcome: Outcome)
    | TimerFires(path: Path, outcome: Outcome)
    | StrayFires(path: Path, outcome: Outcome)
    | SetWorkspace

  function Get(g: Gate, path: Path): PathState {
    if path in g.paths then g.paths[path] else FRESH
  }

  function Missed(g: Gate, path: Path): nat {
    if path in g.missed then g.missed[path] else 0
  }

  /** The count after an event: a gap longer than the interval starts it afresh. */
  function NextCount(st: PathState, timestamp: int): nat {
    if timestamp - st.last > BURST_INTERVAL then 1 else st.count + 1
  }

  predicate Starts(st: PathState, timestamp: int) {
    !st.bursting && NextCount(st, timestamp) > BURST_THRESHOLD
  }

  function Signalled(g: Gate, sig: Signal, outcome: Outcome): Gate {
    if outcome.Sent? then g.(signals := g.signals + [sig])
    else g.(missed := g.missed[sig.path := Missed(g, sig.path) + 1])
  }

  /** A block signal that throws ends the handler before the timer is set. */
  function DoReceive(g: Gate, e: Event, outcome: Outcome): Gate {
    var st := Get(g, e.watchedPath);
    var starts := Starts(st, e.timestamp);
    var bursting := st.bursting || starts;
    var next := PathState(e.timestamp, NextCount(st, e.timestamp), bursting,
                          st.timer || (bursting && !(starts && outcome.Throws?)));
    var g' := g.(paths := g.paths[e.watchedPath := next]);
    if starts then Signalled(g', Block(e.watchedPath), outcome) else g'
  }

  function DoTimer(g: Gate, path: Path, outcome: Outcome): Gate {
    if !Get(g, path).timer then g
    else
      var g' := g.(paths := g.paths[path := Get(g, path).(bursting := false, timer := false)]);
      Signalled(g', Resume(path), outcome)
  }

  function DoStray(g: Gate, path: Path, outcome: Outcome): Gate {
    if path !in g.stray then g
    else
      var g' := g.(stray := g.stray - multiset{path});
      if outcome.Sent? then
        g'.(signals := g.signals + [Resume(path)], missed := g.missed[path := Missed(g, path) + 1])
      else g'
  }

  function TimersOf(paths: map<Path, PathState>): multiset<Path> {
    multiset(set p | p in paths && paths[p].timer)
  }

  function Apply(g: Gate, step: Step): Gate {
    match step
    case Receive(e, outcome) => DoReceive(g, e, outcome)
    case TimerFires(path, outcome) => DoTimer(g, path, outcome)
    case StrayFires(path, outcome) => DoStray(g, path, outcome)
    case SetWorkspace => Gate(map[], g.stray + TimersOf(g.paths), [], map[])
  }

  /** The event is batched: its path is not bursting once the event is counted. */
  predicate Passes(g: Gate, e: Event) {
    !Get(g, e.watchedPath).bursting && !Starts(Get(g, e.watchedPath), e.timestamp)
  }

  function Run(g: Gate, steps: seq<Step>): Gate
    decreases |steps|
  {
    if steps == [] then g else Run(Apply(g, steps[0]), steps[1..])
  }

  /******* Timers that outlive a reset *******/

  /** How often a timer of the path from before a reset fires. */
  function StrayFirings(g: Gate, steps: seq<Step>, path: Path): nat
    decreases |steps|
  {
    if steps == [] then 0
    else (if steps[0].StrayFires? && steps[0].path == path && path in g.stray then 1 else 0) +
         StrayFirings(Apply(g, steps[0]), steps[1..], path)
  }

  /** How many resets find the path's timer pending. */
  function Outlived(g: Gate, steps: seq<Step>, path: Path): nat
    decreases |steps|
  {
    if steps == [] then 0
    else (if steps[0].SetWorkspace? && Get(g, path).timer then 1 else 0) +
         Outlived(Apply(g, steps[0]), steps[1..], path)
  }

  lemma ReceiveKeepsStrays(g: Gate, e: Event, outcome: Outcome)
    ensures DoReceive(g, e, outcome).stray == g.stray
  {
  }

  lemma ResetLeavesStrays(g: Gate, path: Path)
    ensures Apply(g, SetWorkspace).stray[path] == g.stray[path] + if Get(g, path).timer then 1 else 0
  {
  }

  lemma StraysStep(g: Gate, step: Step, path: Path)
    ensures Apply(g, step).stray[path] + (if step.StrayFires? && step.path == path && path in g.stray then 1 else 0) ==
            g.stray[path] + if step.SetWorkspace? && Get(g, path).timer then 1 else 0
  {
    match step
    case Receive(e, outcome) => ReceiveKeepsStrays(g, e, outcome);
    case SetWorkspace => ResetLeavesStrays(g, path);
    case _ =>
  }

  /** In every run, each timer that outlives a reset fires at most once. */
  lemma {:induction false} StraysFireOnce(g: Gate, steps: seq<Step>, path: Path)
    ensures StrayFirings(g, steps, path) + Run(g, steps).stray[path] == g.stray[path] + Outlived(g, steps, path)
    decreases |steps|
  {
    if steps != [] {
      StraysStep(g, steps[0], path);
      StraysFireOnce(Apply(g, steps[0]), steps[1..], path);
    }
  }

  /******* Signals alternate *******/

  function Of(signals: seq<Signal>, path: Path): seq<Signal> {
    if signals == [] then []
    else
      var n := |signals| - 1;
      Of(signals[..n], path) + if signals[n].path == path then [signals[n]] else []
  }

  predicate Odd(n: nat) {
    n != 0 && !Odd(n - 1)
  }

  /** Block, resume, block, resume, and so on, starting with block. */
  predicate Alternates(signals: seq<Signal>) {
    signals != [] ==>
      var n := |signals| - 1;
      Alternates(signals[..n]) && (signals[n].Block? <==> !Odd(n))
  }

  ghost predicate AllAlternate(g: Gate) {
    forall path :: Alternates(Of(g.signals, path))
  }

  /** An odd number of the path's signals was sent or missed. */
  predicate Owing(g: Gate, path: Path) {
    Odd(|Of(g.signals, path)|) != Odd(Missed(g, path))
  }

  /** The signals sent and those missed account for the burst; only a bursting path has a timer. */
  predicate Accounted(g: Gate, path: Path) {
    && (Get(g, path).bursting <==> Owing(g, path))
    && (Get(g, path).timer ==> Get(g, path).bursting)
  }

  ghost predicate AllAccounted(g: Gate) {
    forall path :: Accounted(g, path)
  }

  /**
   The step sends a signal although an odd number of signals of its path was missed since the last reset; for a stray
   timer, although the path is bursting exactly when that number is odd.
   */
  predicate OutOfTurn(g: Gate, step: Step) {
    match step
    case Receive(e, Sent) => Starts(Get(g, e.watchedPath), e.timestamp) && Odd(Missed(g, e.watchedPath))
    case TimerFires(path, Sent) => Get(g, path).timer && Odd(Missed(g, path))
    case StrayFires(path, Sent) => path in g.stray && (Get(g, path).bursting <==> Odd(Missed(g, path)))
    case _ => false
  }

  lemma OfAppend(signals: seq<Signal>, sig: Signal, path: Path)
    ensures Of(signals + [sig], path) == Of(signals, path) + if sig.path == path then [sig] else []
  {
    assert (signals + [sig])[..|signals|] == signals;
  }

  lemma AlternatesAppend(signals: seq<Signal>, sig: Signal)
    ensures Alternates(signals + [sig]) <==> Alternates(signals) && (sig.Block? <==> !Odd(|signals|))
  {
    assert (signals + [sig])[..|signals|] == signals;
  }

  /** What a step sends, if anything. */
  function Sends(g: Gate, step: Step): Option<Signal> {
    match step
    case Receive(e, Sent) => if Starts(Get(g, e.watchedPath), e.timestamp) then Some(Block(e.watchedPath)) else None
    case TimerFires(path, Sent) => if Get(g, path).timer then Some(Resume(path)) else None
    case StrayFires(path, Sent) => if path in g.stray then Some(Resume(path)) else None
    case _ => None
  }

  predicate SendsTo(g: Gate, step: Step, path: Path) {
    Sends(g, step).Some? && Sends(g, step).value.path == path
  }

  lemma SendsAppends(g: Gate, step: Step)
    requires !step.SetWorkspace?
    ensures Apply(g, step).signals == g.signals + if Sends(g, step).Some? then [Sends(g, step).value] else []
  {
  }

  /** A signal that is due, sent or not, turns what is owing. */
  lemma SignalledTurns(g: Gate, sig: Signal, outcome: Outcome, path: Path)
    ensures Owing(Signalled(g, sig, outcome), path) <==> (Owing(g, path) != (sig.path == path))
  {
    var g' := Signalled(g, sig, outcome);
    if outcome.Sent? {
      OfAppend(g.signals, sig, path);
      assert Missed(g', path) == Missed(g, path);
      if sig.path == path {
        OddNext(|Of(g.signals, path)|);
      } else {
        assert Of(g'.signals, path) == Of(g.signals, path);
      }
    } else {
      assert g'.signals == g.signals;
      OddNext(Missed(g, path));
    }
  }

  lemma OddNext(n: nat)
    ensures Odd(n + 1) <==> !Odd(n)
  {
  }

  lemma ReceiveAccounts(g: Gate, e: Event, outcome: Outcome, path: Path)
    requires Accounted(g, path)
    ensures Accounted(DoReceive(g, e, outcome), path)
  {
    var g' := DoReceive(g, e, outcome);
    var g1 := g.(paths := g'.paths);
    assert Owing(g1, path) <==> Owing(g, path);
    assert e.watchedPath != path ==> Get(g', path) == Get(g, path);
    if Starts(Get(g, e.watchedPath), e.timestamp) {
      SignalledTurns(g1, Block(e.watchedPath), outcome, path);
    } else {
      assert g' == g1;
    }
  }

  lemma TimerAccounts(g: Gate, p: Path, outcome: Outcome, path: Path)
    requires Accounted(g, path)
    ensures Accounted(DoTimer(g, p, outcome), path)
  {
    if Get(g, p).timer {
      var g1 := g.(paths := g.paths[p := Get(g, p).(bursting := false, timer := false)]);
      assert Owing(g1, path) <==> Owing(g, path);
      SignalledTurns(g1, Resume(p), outcome, path);
      assert p != path ==> Get(DoTimer(g, p, outcome), path) == Get(g, path);
    }
  }

  lemma StrayAccounts(g: Gate, p: Path, outcome: Outcome, path: Path)
    requires Accounted(g, path)
    ensures Accounted(DoStray(g, p, outcome), path)
  {
    OfAppend(g.signals, Resume(p), path);
    OddNext(|Of(g.signals, path)|);
    OddNext(Missed(g, path));
    assert Get(DoStray(g, p, outcome), path) == Get(g, path);
  }

  lemma AccountedStep(g: Gate, step: Step, path: Path)
    requires Accounted(g, path)
    ensures Accounted(Apply(g, step), path)
  {
    match step {
      case Receive(e, outcome) => ReceiveAccounts(g, e, outcome, path);
      case TimerFires(p, outcome) => TimerAccounts(g, p, outcome, path);
      case StrayFires(p, outcome) => StrayAccounts(g, p, outcome, path);
      case SetWorkspace =>
    }
  }

  /** What is sent to a path is out of turn exactly if the number of signals sent before has the wrong parity. */
  lemma TurnIsParity(g: Gate, step: Step, path: Path)
    requires Accounted(g, path) && SendsTo(g, step, path)
    ensures OutOfTurn(g, step) <==> (Sends(g, step).value.Block? <==> Odd(|Of(g.signals, path)|))
  {
  }

  lemma PathAlternation(g: Gate, step: Step, path: Path)
    requires Alternates(Of(g.signals, path)) && Accounted(g, path) && !step.SetWorkspace?
    ensures Alternates(Of(Apply(g, step).signals, path)) <==> !(OutOfTurn(g, step) && SendsTo(g, step, path))
  {
    SendsAppends(g, step);
    if Sends(g, step).Some? {
      var sig := Sends(g, step).value;
      OfAppend(g.signals, sig, path);
      if sig.path == path {
        TurnIsParity(g, step, path);
        AlternatesAppend(Of(g.signals, path), sig);
      } else {
        assert Of(Apply(g, step).signals, path) == Of(g.signals, path);
      }
    } else {
      assert Apply(g, step).signals == g.signals;
    }
  }

  /** One step leaves every path's signals alternating exactly when it sends none out of turn. */
  lemma AlternationStep(g: Gate, step: Step)
    requires AllAlternate(g) && AllAccounted(g)
    ensures AllAlternate(Apply(g, step)) <==> !OutOfTurn(g, step)
    ensures AllAccounted(Apply(g, step))
  {
    forall path ensures Accounted(Apply(g, step), path) {
      assert Accounted(g, path);
      AccountedStep(g, step, path);
    }
    if OutOfTurn(g, step) {
      var path := Sends(g, step).value.path;
      assert Accounted(g, path);
      PathAlternation(g, step, path);
    } else if !step.SetWorkspace? {
      forall path ensures Alternates(Of(Apply(g, step).signals, path)) {
        assert Accounted(g, path);
        PathAlternation(g, step, path);
      }
    }
  }

  ghost predicate AlternateAlong(g: Gate, steps: seq<Step>)
    decreases |steps|
  {
    AllAlternate(g) && (steps != [] ==> AlternateAlong(Apply(g, steps[0]), steps[1..]))
  }

  predicate InTurnAlong(g: Gate, steps: seq<Step>)
    decreases |steps|
  {
    steps != [] ==> !OutOfTurn(g, steps[0]) && InTurnAlong(Apply(g, steps[0]), steps[1..])
  }

  /**
   For any events, timestamps, timers and failing signals: the signals sent for every path alternate from block since
   the last reset, at every moment, exactly when no signal is sent out of turn.
   */
  lemma {:induction false} SignalsAlternate(g: Gate, steps: seq<Step>)
    requires AllAlternate(g) && AllAccounted(g)
    ensures AlternateAlong(g, steps) <==> InTurnAlong(g, steps)
    decreases |steps|
  {
    if steps != [] {
      AlternationStep(g, steps[0]);
      if AllAlternate(Apply(g, steps[0])) {
        SignalsAlternate(Apply(g, steps[0]), steps[1..]);
      }
    }
  }

  /** No signal fails, and no timer that outlived a reset fires. */
  predicate Faultless(g: Gate, steps: seq<Step>)
    decreases |steps|
  {
    steps != [] ==>
      && (steps[0].SetWorkspace? || steps[0].outcome.Sent?)
      && !(steps[0].StrayFires? && steps[0].path in g.stray)
      && Faultless(Apply(g, steps[0]), steps[1..])
  }

  /** Without failed signals and stray timers nothing is missed, so nothing comes out of turn. */
  lemma {:induction false} FaultlessIsInTurn(g: Gate, steps: seq<Step>)
    requires Faultless(g, steps) && forall p | p in g.missed :: g.missed[p] == 0
    ensures InTurnAlong(g, steps)
    decreases |steps|
  {
    if steps != [] {
      FaultlessIsInTurn(Apply(g, steps[0]), steps[1..]);
    }
  }

  /** Resets find no cooldown timer pending. */
  predicate ResetsQuiet(g: Gate, steps: seq<Step>)
    decreases |steps|
  {
    steps != [] ==>
      && (steps[0].SetWorkspace? ==> forall p | p in g.paths :: !g.paths[p].timer)
      && ResetsQuiet(Apply(g, steps[0]), steps[1..])
  }

  predicate AllSent(steps: seq<Step>) {
    forall i | 0 <= i < |steps| && !steps[i].SetWorkspace? :: steps[i].outcome.Sent?
  }

  /** If every signal is sent and every reset finds no timer pending, no stray timer ever exists. */
  lemma {:induction false} QuietResetsAreFaultless(g: Gate, steps: seq<Step>)
    requires g.stray == multiset{} && ResetsQuiet(g, steps) && AllSent(steps)
    ensures Faultless(g, steps)
    decreases |steps|
  {
    if steps != [] {
      if steps[0].SetWorkspace? {
        assert (set p | p in g.paths && g.paths[p].timer) == {};
      }
      QuietResetsAreFaultless(Apply(g, steps[0]), steps[1..]);
    }
  }

  /******* Signals out of turn happen *******/

  function Repeated(step: Step, n: nat): seq<Step> {
    seq(n, i => step)
  }

  function PlainEvent(path: Path): Event {
    Event(path, path, false, false, 0, 0)
  }

  /** Events of one path at one time, up to the threshold. */
  lemma {:induction false} QuietEvents(path: Path, n: nat, from: nat)
    requires from + n <= BURST_THRESHOLD
    ensures var g := OPEN_GATE.(paths := if from == 0 then map[] else map[path := PathState(0, from, false, false)]);
            var steps := Repeated(Receive(PlainEvent(path), Sent), n);
            Run(g, steps) ==
            OPEN_GATE.(paths := if from + n == 0 then map[] else map[path := PathState(0, from + n, false, false)])
    decreases n
  {
    if n > 0 {
      var step := Receive(PlainEvent(path), Sent);
      var g := OPEN_GATE.(paths := if from == 0 then map[] else map[path := PathState(0, from, false, false)]);
      assert Repeated(step, n)[1..] == Repeated(step, n - 1);
      assert Apply(g, step).paths == map[path := PathState(0, from + 1, false, false)];
      QuietEvents(path, n - 1, from + 1);
    }
  }

  lemma {:induction false} RunAppend(g: Gate, a: seq<Step>, b: seq<Step>)
    ensures Run(g, a + b) == Run(Run(g, a), b)
    decreases |a|
  {
    if a == [] {
      assert a + b == b;
    } else {
      assert (a + b)[0] == a[0] && (a + b)[1..] == a[1..] + b;
      RunAppend(Apply(g, a[0]), a[1..], b);
    }
  }

  lemma RunThree(g: Gate, a: Step, b: Step, c: Step)
    ensures Run(g, [a, b, c]) == Apply(Apply(Apply(g, a), b), c)
  {
    assert [a, b, c][1..] == [b, c] && [b, c][1..] == [c] && [c][1..] == [];
    assert Run(Apply(Apply(g, a), b), [c]) == Apply(Apply(Apply(g, a), b), c);
    assert Run(Apply(g, a), [b, c]) == Run(Apply(Apply(g, a), b), [c]);
  }

  /** A run that ends with a resume nobody was blocked for: the block failed, a user came back, the timer fired. */
  lemma FailedBlockLetsResumeComeFirst(path: Path) returns (steps: seq<Step>)
    ensures forall i | 0 <= i < |steps| :: !steps[i].SetWorkspace?
    ensures Of(Run(OPEN_GATE, steps).signals, path) == [Resume(path)]
  {
    var e := PlainEvent(path);
    var quiet := Repeated(Receive(e, Sent), BURST_THRESHOLD);
    var rest := [Receive(e, Throws), Receive(e, Sent), TimerFires(path, Sent)];
    steps := quiet + rest;
    QuietEvents(path, BURST_THRESHOLD, 0);
    RunAppend(OPEN_GATE, quiet, rest);
    var g := Run(OPEN_GATE, quiet);
    assert Get(g, path) == PathState(0, BURST_THRESHOLD, false, false);
    RunThree(g, rest[0], rest[1], rest[2]);
    assert Get(Apply(g, rest[0]), path) == PathState(0, BURST_THRESHOLD + 1, true, false);
    OfAppend([], Resume(path), path);
  }

  /** Whenever a reset meets a cooldown, the timer that outlives it sends a resume first. */
  lemma ResetStraysTimer(g: Gate, path: Path)
    requires Get(g, path).timer
    ensures Of(Apply(Apply(g, SetWorkspace), StrayFires(path, Sent)).signals, path) == [Resume(path)]
  {
    assert path in (set p | p in g.paths && g.paths[p].timer);
    assert path in Apply(g, SetWorkspace).stray;
    OfAppend([], Resume(path), path);
  }

  /** A run in which that happens. */
  lemma StrayResumeComesFirst(path: Path) returns (steps: seq<Step>)
    ensures AllSent(steps)
    ensures Of(Run(OPEN_GATE, steps).signals, path) == [Resume(path)]
  {
    var e := PlainEvent(path);
    var quiet := Repeated(Receive(e, Sent), BURST_THRESHOLD);
    var rest := [Receive(e, Sent), SetWorkspace, StrayFires(path, Sent)];
    steps := quiet + rest;
    QuietEvents(path, BURST_THRESHOLD, 0);
    RunAppend(OPEN_GATE, quiet, rest);
    var g := Run(OPEN_GATE, quiet);
    RunThree(g, rest[0], rest[1], rest[2]);
    ResetStraysTimer(Apply(g, rest[0]), path);
  }

  /******* A burst adds few events to the batch *******/

  /**
   The events of the path in `steps` follow each other with gaps of at most the interval, the first of them after
   time `last`, if given.
   */
  predicate Window(steps: seq<Step>, path: Path, following: bool, last: int)
    decreases |steps|
  {
    if steps == [] then true
    else if steps[0].SetWorkspace? then false
    else if steps[0].Receive? && steps[0].event.watchedPath == path then
      && (following ==> steps[0].event.timestamp - last <= BURST_INTERVAL)
      && Window(steps[1..], path, true, steps[0].event.timestamp)
    else Window(steps[1..], path, following, last)
  }

  /** How many events of the path are batched along the way. */
  function Batched(g: Gate, steps: seq<Step>, path: Path): nat
    decreases |steps|
  {
    if steps == [] then 0
    else
      (if steps[0].Receive? && steps[0].event.watchedPath == path && Passes(g, steps[0].event) then 1 else 0)
      + Batched(Apply(g, steps[0]), steps[1..], path)
  }

  function Room(count: nat): nat {
    if count < BURST_THRESHOLD then BURST_THRESHOLD - count else 0
  }

  lemma {:induction false} WindowLeavesRoom(g: Gate, steps: seq<Step>, path: Path)
    requires Window(steps, path, true, Get(g, path).last)
    ensures Batched(g, steps, path) <= Room(Get(g, path).count)
    decreases |steps|
  {
    if steps != [] {
      WindowLeavesRoom(Apply(g, steps[0]), steps[1..], path);
    }
  }

  /**
   From any state, with any timers and other paths' events in between, a window of events of one path adds at most
   `BURST_THRESHOLD` of them to the batch.
   */
  lemma {:induction false} BurstIsBounded(g: Gate, steps: seq<Step>, path: Path)
    requires Window(steps, path, false, 0)
    ensures Batched(g, steps, path) <= BURST_THRESHOLD
    decreases |steps|
  {
    if steps != [] {
      var g' := Apply(g, steps[0]);
      if steps[0].Receive? && steps[0].event.watchedPath == path {
        WindowLeavesRoom(g', steps[1..], path);
      } else {
        BurstIsBounded(g', steps[1..], path);
      }
    }
  }

  /******* When a burst starts, from the times of the events alone *******/

  /** The times of the path's events since the last reset. */
  function Times(steps: seq<Step>, path: Path): seq<int> {
    if steps == [] then []
    else
      var n := |steps| - 1;
      var before := Times(steps[..n], path);
      match steps[n]
      case Receive(e, _) => if e.watchedPath == path then before + [e.timestamp] else before
      case SetWorkspace => []
      case _ => before
  }

  /** How many of the last events follow each other without a gap longer than the interval. */
  function Streak(times: seq<int>): nat {
    if times == [] then 0
    else
      var n := |times| - 1;
      if n == 0 || times[n] - times[n - 1] > BURST_INTERVAL then 1 else Streak(times[..n]) + 1
  }

  lemma StreakMore(times: seq<int>, t: int)
    ensures Streak(times + [t]) ==
            if times == [] || t - times[|times| - 1] > BURST_INTERVAL then 1 else Streak(times) + 1
  {
    var all, n := times + [t], |times|;
    assert all != [] && |all| - 1 == n && all[n] == t && all[..n] == times;
    if n > 0 {
      assert all[n - 1] == times[n - 1];
    }
  }

  predicate CountsStreak(g: Gate, times: seq<int>, path: Path) {
    && Get(g, path).count == Streak(times)
    && Get(g, path).last == if times == [] then 0 else times[|times| - 1]
  }

  lemma TimesMore(steps: seq<Step>, step: Step, path: Path)
    ensures Times(steps + [step], path) ==
            if step.Receive? && step.event.watchedPath == path then Times(steps, path) + [step.event.timestamp]
            else if step.SetWorkspace? then [] else Times(steps, path)
  {
    var all, n := steps + [step], |steps|;
    assert all != [] && |all| - 1 == n && all[n] == step && all[..n] == steps;
  }

  lemma ReceivedCount(g: Gate, e: Event, outcome: Outcome)
    ensures var st := Get(DoReceive(g, e, outcome), e.watchedPath);
            st.count == NextCount(Get(g, e.watchedPath), e.timestamp) && st.last == e.timestamp
  {
  }

  lemma NextCountIsStreak(count: nat, last: int, times: seq<int>, t: int)
    requires count == Streak(times) && last == if times == [] then 0 else times[|times| - 1]
    ensures NextCount(PathState(last, count, false, false), t) == Streak(times + [t])
  {
    StreakMore(times, t);
  }

  lemma ReceiveCountsStreak(g: Gate, e: Event, outcome: Outcome, times: seq<int>)
    requires CountsStreak(g, times, e.watchedPath)
    ensures CountsStreak(DoReceive(g, e, outcome), times + [e.timestamp], e.watchedPath)
  {
    var st := Get(g, e.watchedPath);
    ReceivedCount(g, e, outcome);
    NextCountIsStreak(st.count, st.last, times, e.timestamp);
    assert (times + [e.timestamp])[|times|] == e.timestamp;
  }

  /** A step that is no event of the path and no reset leaves its count and time alone. */
  lemma OthersKeepCount(g: Gate, step: Step, path: Path)
    requires !step.SetWorkspace? && !(step.Receive? && step.event.watchedPath == path)
    ensures Get(Apply(g, step), path).count == Get(g, path).count && Get(Apply(g, step), path).last == Get(g, path).last
  {
  }

  lemma StepCountsStreak(g: Gate, step: Step, steps: seq<Step>, path: Path)
    requires CountsStreak(g, Times(steps, path), path)
    ensures CountsStreak(Apply(g, step), Times(steps + [step], path), path)
  {
    TimesMore(steps, step, path);
    if step.Receive? && step.event.watchedPath == path {
      ReceiveCountsStreak(g, step.event, step.outcome, Times(steps, path));
    } else if !step.SetWorkspace? {
      OthersKeepCount(g, step, path);
    }
  }

  /** In every run, the count kept for a path is the length of its present streak. */
  lemma {:induction false} CountIsStreak(steps: seq<Step>, path: Path)
    ensures CountsStreak(Run(OPEN_GATE, steps), Times(steps, path), path)
    decreases |steps|
  {
    if steps != [] {
      var n := |steps| - 1;
      CountIsStreak(steps[..n], path);
      StepCountsStreak(Run(OPEN_GATE, steps[..n]), steps[n], steps[..n], path);
      assert steps == steps[..n] + [steps[n]];
      RunAppend(OPEN_GATE, steps[..n], [steps[n]]);
      assert [steps[n]][1..] == [];
    }
  }

  /** In every run, an event is batched exactly when its path is not blocked and its streak is within the threshold. */
  lemma PassesIff(steps: seq<Step>, e: Event)
    ensures Passes(Run(OPEN_GATE, steps), e) <==>
            && !Get(Run(OPEN_GATE, steps), e.watchedPath).bursting
            && Streak(Times(steps, e.watchedPath) + [e.timestamp]) <= BURST_THRESHOLD
  {
    CountIsStreak(steps, e.watchedPath);
    StreakMore(Times(steps, e.watchedPath), e.timestamp);
  }

  /** After a gap longer than the interval, an event of a path that is not blocked passes, whatever came before. */
  lemma GapPasses(g: Gate, e: Event)
    requires !Get(g, e.watchedPath).bursting && e.timestamp - Get(g, e.watchedPath).last > BURST_INTERVAL
    ensures Passes(g, e) && !Get(DoReceive(g, e, Sent), e.watchedPath).bursting
  {
  }

  function Arrivals(steps: seq<Step>, path: Path): nat {
    if steps == [] then 0
    else (if steps[0].Receive? && steps[0].event.watchedPath == path then 1 else 0) + Arrivals(steps[1..], path)
  }

  /** No streak of the path goes beyond the threshold, the last event having come at `last` as number `count`. */
  predicate Sparse(steps: seq<Step>, path: Path, last: int, count: nat)
    decreases |steps|
  {
    if steps == [] then true
    else
      match steps[0]
      case Receive(e, _) =>
        if e.watchedPath != path then Sparse(steps[1..], path, last, count)
        else
          var n := if e.timestamp - last > BURST_INTERVAL then 1 else count + 1;
          n <= BURST_THRESHOLD && Sparse(steps[1..], path, e.timestamp, n)
      case SetWorkspace => Sparse(steps[1..], path, 0, 0)
      case _ => Sparse(steps[1..], path, last, count)
  }

  lemma {:induction false} BatchedAtMost(g: Gate, steps: seq<Step>, path: Path)
    ensures Batched(g, steps, path) <= Arrivals(steps, path)
    decreases |steps|
  {
    if steps != [] {
      BatchedAtMost(Apply(g, steps[0]), steps[1..], path);
    }
  }

  /** Where the path is not blocked, all its events are batched exactly when no streak goes beyond the threshold. */
  lemma {:induction false} AllBatchedIff(g: Gate, steps: seq<Step>, path: Path)
    requires !Get(g, path).bursting && !Get(g, path).timer
    ensures Batched(g, steps, path) == Arrivals(steps, path) <==>
            Sparse(steps, path, Get(g, path).last, Get(g, path).count)
    decreases |steps|
  {
    if steps != [] {
      var g' := Apply(g, steps[0]);
      BatchedAtMost(g', steps[1..], path);
      if !Get(g', path).bursting {
        AllBatchedIff(g', steps[1..], path);
      }
    }
  }

  /** A timer that fires ends the burst of its path and nothing else. */
  lemma TimerUnblocks(g: Gate, path: Path, outcome: Outcome, other: Path)
    requires Get(g, path).timer
    ensures var g' := DoTimer(g, path, outcome);
            && !Get(g', path).bursting && !Get(g', path).timer
            && Get(g', path).count == Get(g, path).count && Get(g', path).last == Get(g, path).last
            && (other != path ==> Get(g', other) == Get(g, other))
  {
  }
}
