/**
 The pin limiter of the email sign-in: attempt counters on a cached record with a time to live.
 */
module EmailPin {
  import opened Options

  const MAX_ATTEMPT_COUNT: nat := 3
  const TTL: nat := 300
  const LOCK_TTL: nat := 900

  datatype Record = Record(requests: nat, verifies: nat, pin: string)

  /** `mailed` and `compared` count the pins mailed and the guesses compared since the record was created. */
  datatype State = State(record: Option<Record>, deadline: int, now: int, mailed: nat, compared: nat)

  datatype Call = Tick(elapsed: nat) | Register(pin: string) | Verify(guess: string)

  datatype Answer = Quiet | Mailed | TooManyVerifies | TooManyRequests | PinExpired | Wrong | Success

  predicate Alive(s: State) {
    s.record.Some? && s.now < s.deadline
  }

  function Store(s: State, r: Record, ttl: nat): State {
    s.(record := Some(r), deadline := s.now + ttl)
  }

  /** `pin` is the random pin drawn by the call. It replaces the stored pin even when the call is refused. */
  function DoRegister(s: State, pin: string): (State, Answer) {
    var s0 := if Alive(s) then s else s.(record := Some(Record(0, 0, pin)), mailed := 0, compared := 0);
    var r := s0.record.value.(requests := s0.record.value.requests + 1, pin := pin);
    if r.verifies > MAX_ATTEMPT_COUNT then (Store(s0, r, LOCK_TTL), TooManyVerifies)
    else if r.requests > MAX_ATTEMPT_COUNT then (Store(s0, r, LOCK_TTL), TooManyRequests)
    else (Store(s0, r, TTL).(mailed := s0.mailed + 1), Mailed)
  }

  function DoVerify(s: State, guess: string): (State, Answer) {
    if !Alive(s) then (s, PinExpired)
    else
      var r := s.record.value;
      if r.verifies > MAX_ATTEMPT_COUNT then (Store(s, r, LOCK_TTL), TooManyVerifies)
      else
        var s1 := s.(compared := s.compared + 1);
        if r.pin != guess then (Store(s1, r.(verifies := r.verifies + 1), TTL), Wrong)
        else (s1.(record := None), Success)
  }

  function Step(s: State, c: Call): (State, Answer) {
    match c
    case Tick(elapsed) => (s.(now := s.now + elapsed), Quiet)
    case Register(pin) => DoRegister(s, pin)
    case Verify(guess) => DoVerify(s, guess)
  }

  function Run(s: State, calls: seq<Call>): State
    decreases |calls|
  {
    if calls == [] then s else Run(Step(s, calls[0]).0, calls[1..])
  }

  /******* Bounds within one lifetime of the record *******/

  /** Bounds on the present lifetime or, once the record is gone, on the last one. */
  predicate Counted(s: State) {
    && s.mailed <= MAX_ATTEMPT_COUNT && s.compared <= MAX_ATTEMPT_COUNT + 1
    && (s.record.Some? ==> s.mailed <= s.record.value.requests && s.compared == s.record.value.verifies)
  }

  /**
   Over any sequence of calls, at most `MAX_ATTEMPT_COUNT` pins are mailed and one guess more is compared in one
   lifetime of the record.
   */
  lemma {:induction false} AttemptsAreBounded(s: State, calls: seq<Call>)
    requires Counted(s)
    ensures Counted(Run(s, calls))
    decreases |calls|
  {
    if calls != [] {
      AttemptsAreBounded(Step(s, calls[0]).0, calls[1..]);
    }
  }

  /** What is counted is what is answered: a mailed pin, and a guess found right or wrong. */
  lemma AnswersAreCounted(s: State, c: Call)
    ensures var (s', answer) := Step(s, c);
            var isNew := c.Register? && !Alive(s);
            && (answer == Quiet <==> c.Tick?)
            && s'.mailed == (if isNew then 0 else s.mailed) + (if answer == Mailed then 1 else 0)
            && s'.compared == (if isNew then 0 else s.compared) +
                              (if answer == Wrong || answer == Success then 1 else 0)
  {
  }

  /******* The right pin *******/

  /** The pin drawn by the last request, refused or not. */
  function LastDrawn(calls: seq<Call>): Option<string> {
    if calls == [] then None
    else
      var n := |calls| - 1;
      if calls[n].Register? then Some(calls[n].pin) else LastDrawn(calls[..n])
  }

  const NOBODY := State(None, 0, 0, 0, 0)

  lemma {:induction false} RunLast(s: State, calls: seq<Call>, c: Call)
    ensures Run(s, calls + [c]) == Step(Run(s, calls), c).0
    decreases |calls|
  {
    if calls == [] {
      assert calls + [c] == [c] && [c][1..] == [];
    } else {
      assert (calls + [c])[0] == calls[0] && (calls + [c])[1..] == calls[1..] + [c];
      RunLast(Step(s, calls[0]).0, calls[1..], c);
    }
  }

  /** In every run the stored pin is the one drawn last. */
  lemma {:induction false} StoredPinIsLast(calls: seq<Call>)
    ensures var s := Run(NOBODY, calls); s.record.Some? ==> LastDrawn(calls) == Some(s.record.value.pin)
    decreases |calls|
  {
    if calls != [] {
      var n := |calls| - 1;
      StoredPinIsLast(calls[..n]);
      RunLast(NOBODY, calls[..n], calls[n]);
      assert calls == calls[..n] + [calls[n]];
    }
  }

  /** In every run a guess succeeds only if it is the pin drawn last. */
  lemma SuccessNeedsLastPin(calls: seq<Call>, guess: string)
    requires DoVerify(Run(NOBODY, calls), guess).1 == Success
    ensures LastDrawn(calls) == Some(guess)
  {
    StoredPinIsLast(calls);
  }

  /** A pin that was mailed signs its user in for `TTL` seconds, once, and no longer. */
  lemma MailedPinVerifies(s: State, pin: string, wait: nat)
    requires DoRegister(s, pin).1 == Mailed
    ensures var s1 := DoRegister(s, pin).0;
            var (s2, answer) := DoVerify(s1.(now := s1.now + wait), pin);
            && (wait < TTL ==> answer == Success && DoVerify(s2, pin).1 == PinExpired)
            && (wait >= TTL ==> answer == PinExpired)
  {
  }

  /******* The lock after too many guesses *******/

  /** Too many guesses, with `left` of the lock's time to go. */
  predicate LockedFor(s: State, left: nat) {
    s.record.Some? && s.record.value.verifies > MAX_ATTEMPT_COUNT && s.deadline == s.now + left
  }

  /** No pause of the lock's length between calls, the first pause having `left` to go. */
  predicate Busy(calls: seq<Call>, left: int)
    decreases |calls|
  {
    left > 0 &&
    (calls != [] ==>
       match calls[0] {
         case Tick(elapsed) => Busy(calls[1..], left - elapsed)
         case _ => Busy(calls[1..], LOCK_TTL)
       })
  }

  /** Every call is answered with a refusal. */
  predicate AllRefused(s: State, calls: seq<Call>)
    decreases |calls|
  {
    calls != [] ==>
      && (calls[0].Tick? || Step(s, calls[0]).1 == TooManyVerifies)
      && AllRefused(Step(s, calls[0]).0, calls[1..])
  }

  lemma {:induction false} LockHolds(s: State, calls: seq<Call>, left: nat)
    requires LockedFor(s, left) && Busy(calls, left)
    ensures AllRefused(s, calls)
    ensures Run(s, calls).mailed == s.mailed && Run(s, calls).compared == s.compared
    decreases |calls|
  {
    if calls != [] {
      var s' := Step(s, calls[0]).0;
      match calls[0] {
        case Tick(elapsed) => LockHolds(s', calls[1..], left - elapsed);
        case _ => LockHolds(s', calls[1..], LOCK_TTL);
      }
    }
  }

  /**
   After a refusal for too many guesses, nothing is mailed or compared until `LOCK_TTL` seconds pass without a call.
   */
  lemma RefusalLocks(s: State, c: Call, calls: seq<Call>)
    requires Step(s, c).1 == TooManyVerifies && Busy(calls, LOCK_TTL)
    ensures AllRefused(Step(s, c).0, calls)
    ensures var s' := Step(s, c).0; Run(s', calls).mailed == s'.mailed && Run(s', calls).compared == s'.compared
  {
    LockHolds(Step(s, c).0, calls, LOCK_TTL);
  }

  /** Such a pause ends the lock: the next request is mailed. */
  lemma PauseUnlocks(s: State, c: Call, pause: nat, pin: string)
    requires Step(s, c).1 == TooManyVerifies && pause >= LOCK_TTL
    ensures DoRegister(Step(s, c).0.(now := s.now + pause), pin).1 == Mailed
  {
  }

  /**
   A refusal for too many requests lasts for `LOCK_TTL` seconds without a call, but one wrong guess cuts that to `TTL`.
   */
  lemma WrongGuessShortensRequestLock(s: State, pin: string, guess: string, next: string, wait: nat)
    requires DoRegister(s, pin).1 == TooManyRequests && guess != pin
    ensures var s1 := DoRegister(s, pin).0;
            var s2 := DoVerify(s1, guess).0;
            && (DoRegister(s1.(now := s1.now + wait), next).1 == Mailed <==> wait >= LOCK_TTL)
            && DoVerify(s1, guess).1 == Wrong
            && (DoRegister(s2.(now := s2.now + wait), next).1 == Mailed <==> wait >= TTL)
  {
  }

  /** Three requests in a row are mailed; the fourth is refused. */
  lemma FourthRequestIsRefused(s: State, pin: string)
    requires !Alive(s)
    ensures var (s1, a1) := DoRegister(s, pin);
            var (s2, a2) := DoRegister(s1, pin);
            var (s3, a3) := DoRegister(s2, pin);
            a1 == a2 == a3 == Mailed && DoRegister(s3, pin).1 == TooManyRequests
  {
    var s1 := DoRegister(s, pin).0;
    var s2 := DoRegister(s1, pin).0;
    assert s2.record.value.requests == 2;
  }

  /** A refused request also replaces the pin: a pin mailed earlier no longer verifies. */
  lemma RefusedRequestVoidsMailedPin(s: State, mailed: string, drawn: string)
    requires DoRegister(s, drawn).1 == TooManyRequests && mailed != drawn
    ensures DoVerify(DoRegister(s, drawn).0, mailed).1 == Wrong
  {
  }

  /******* The service as it runs: counters set on the cached record *******/

  class AuthService {
    var record: Option<Record>
    var deadline: int
    var now: int
    var mailed: nat
    var compared: nat

    constructor (s: State)
      ensures Now() == s
    {
      record, deadline, now, mailed, compared := s.record, s.deadline, s.now, s.mailed, s.compared;
    }

    function Now(): State
      reads this
    {
      State(record, deadline, now, mailed, compared)
    }

    method Set(r: Record, ttl: nat)
      modifies this`record, this`deadline
      ensures Now() == Store(old(Now()), r, ttl)
    {
      record, deadline := Some(r), now + ttl;
    }

    method RegisterEmail(pin: string) returns (answer: Answer)
      modifies this
      ensures (Now(), answer) == DoRegister(old(Now()), pin)
    {
      var cached := Record(0, 0, pin);
      if record.Some? && now < deadline {
        cached := record.value;
      } else {
        mailed, compared := 0, 0;
      }
      cached := cached.(requests := cached.requests + 1);
      cached := cached.(pin := pin);
      if cached.verifies > MAX_ATTEMPT_COUNT {
        Set(cached, LOCK_TTL);
        return TooManyVerifies;
      }
      if cached.requests > MAX_ATTEMPT_COUNT {
        Set(cached, LOCK_TTL);
        return TooManyRequests;
      }
      Set(cached, TTL);
      mailed := mailed + 1;
      return Mailed;
    }

    method VerifyEmail(guess: string) returns (answer: Answer)
      modifies this
      ensures (Now(), answer) == DoVerify(old(Now()), guess)
    {
      if record.None? || now >= deadline {
        return PinExpired;
      }
      var cached := record.value;
      if cached.verifies > MAX_ATTEMPT_COUNT {
        Set(cached, LOCK_TTL);
        return TooManyVerifies;
      }
      cached := cached.(verifies := cached.verifies + 1);
      compared := compared + 1;
      if cached.pin != guess {
        Set(cached, TTL);
        return Wrong;
      }
      record := None;
      return Success;
    }
  }
}
