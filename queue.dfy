/** The in-memory delivery queue (internal/app/queue/queue.go, configured
    by internal/app/queue/config.go): a bounded FIFO buffer filled by `Put`
    and drained by one consumer that delivers each message through the
    retry policy of `sendWithRetry`.

    The sender and the stop signal are outside the model: the sender is an
    oracle `sendOk(attempt)` saying whether the attempt-th `SendMessage`
    call succeeds, and the stop signal an oracle `stop(k)` saying whether
    the queue is stopped during the k-th wait. Times are nanoseconds. */
module Queue {
  import opened Base
  import opened Messages

  /** `queue.Config`. */
  datatype Config = Config(capacity: int, initialRetryDelay: Time, maxRetryDelay: Time, maxRetries: int)

  /** What `Put` returns: nil or `ErrQueueFull`. */
  datatype PutResult = Accepted | ErrQueueFull

  /** What `sendWithRetry` returns. */
  datatype RetryResult =
    | NoError                        // nil
    | LastSendError(attempt: nat)    // the error of the last (0-based) attempt
    | StoppedDuringRetry             // "queue stopped during retry"

  /** One step of `sendWithRetry`, as seen from outside. */
  datatype RetryEvent =
    | Send(attempt: nat)       // a `SendMessage` call
    | Waited(delay: Time)      // a wait that ran to its end
    | Interrupted(delay: Time) // a wait cut short by the stop signal

  // ---------------------------------------------------------------------
  // Backoff
  // ---------------------------------------------------------------------

  function Min(a: int, b: int): int { if a <= b then a else b }

  /** The delay after a completed wait: doubled, capped at `maxDelay`. */
  function NextDelay(delay: Time, maxDelay: Time): (r: Time)
    ensures r <= maxDelay && r <= 2 * delay
    ensures r == maxDelay || r == 2 * delay
  {
    var doubled := delay * 2;
    if doubled > maxDelay then maxDelay else doubled
  }

  /** The delay of the i-th (0-based) wait. */
  function DelayAt(cfg: Config, i: nat): Time {
    if i == 0 then cfg.initialRetryDelay else NextDelay(DelayAt(cfg, i - 1), cfg.maxRetryDelay)
  }

  function Pow2(n: nat): (r: nat)
    ensures r >= 1
  {
    if n == 0 then 1 else 2 * Pow2(n - 1)
  }

  /** Scaling by a positive factor moves a value away from zero. */
  lemma ScaleAwayFromZero(d: int, p: nat)
    requires p >= 1
    ensures d < 0 ==> d * p <= d
    ensures d >= 0 ==> d * p >= d
  {
    assert d * p == d + d * (p - 1);
    if d < 0 {
      assert d * (p - 1) <= 0;
    } else {
      assert d * (p - 1) >= 0;
    }
  }

  /** With an initial delay no larger than the cap, the i-th wait lasts
      min(d0 * 2^i, dmax). */
  lemma {:induction false} DelayAtClosedForm(cfg: Config, i: nat)
    requires cfg.initialRetryDelay <= cfg.maxRetryDelay
    ensures DelayAt(cfg, i) == Min(cfg.initialRetryDelay * Pow2(i), cfg.maxRetryDelay)
  {
    if i > 0 {
      DelayAtClosedForm(cfg, i - 1);
      var d0, dmax := cfg.initialRetryDelay, cfg.maxRetryDelay;
      var p := Pow2(i - 1);
      var x := d0 * p;
      assert d0 * Pow2(i) == 2 * x by {
        assert Pow2(i) == 2 * p;
      }
      ScaleAwayFromZero(d0, p);
      assert DelayAt(cfg, i - 1) == Min(x, dmax);
    }
  }

  /** With an initial delay no larger than the cap, no wait exceeds the cap. */
  lemma DelayAtBounded(cfg: Config, i: nat)
    requires cfg.initialRetryDelay <= cfg.maxRetryDelay
    ensures DelayAt(cfg, i) <= cfg.maxRetryDelay
  {
    DelayAtClosedForm(cfg, i);
  }

  // ---------------------------------------------------------------------
  // The retry policy as a closed form
  // ---------------------------------------------------------------------

  /** An attempt ends the loop if the send succeeds or the stop signal
      arrives during the wait that follows it. */
  predicate Decisive(sendOk: nat -> bool, stop: nat -> bool, i: nat) {
    sendOk(i) || stop(i)
  }

  /** The first decisive attempt at or after `from`, or the attempt limit. */
  function FirstDecisive(cfg: Config, sendOk: nat -> bool, stop: nat -> bool, from: nat): (k: nat)
    ensures from <= k
    ensures k < cfg.maxRetries ==> Decisive(sendOk, stop, k)
    ensures k >= cfg.maxRetries ==> k == from || k == cfg.maxRetries
    ensures forall i | from <= i < k :: i < cfg.maxRetries && !Decisive(sendOk, stop, i)
    decreases cfg.maxRetries - from
  {
    if from >= cfg.maxRetries || Decisive(sendOk, stop, from) then from
    else FirstDecisive(cfg, sendOk, stop, from + 1)
  }

  /** The events of the first n attempts when all of them failed and every
      wait after them ran out: send, wait, send, wait, ... */
  function FailedAttempts(cfg: Config, n: nat): (t: seq<RetryEvent>)
    ensures |t| == 2 * n
  {
    if n == 0 then [] else FailedAttempts(cfg, n - 1) + [Send(n - 1), Waited(DelayAt(cfg, n - 1))]
  }

  lemma {:induction false} FailedAttemptsAt(cfg: Config, n: nat, i: nat)
    requires i < n
    ensures FailedAttempts(cfg, n)[2 * i] == Send(i)
    ensures FailedAttempts(cfg, n)[2 * i + 1] == Waited(DelayAt(cfg, i))
  {
    if i < n - 1 {
      FailedAttemptsAt(cfg, n - 1, i);
    }
  }

  /** The outcome and the events of `sendWithRetry`, stated directly: let
      k be the first decisive attempt. If it is within the limit, the send
      succeeded (nil) or the stop signal cut its wait short; otherwise all
      attempts failed and the last error is returned (or nil when no
      attempt was allowed at all). */
  function RetryOutcome(cfg: Config, sendOk: nat -> bool, stop: nat -> bool): (r: (RetryResult, seq<RetryEvent>))
    ensures r.0.LastSendError? ==> r.0.attempt + 1 == cfg.maxRetries && |r.1| == 2 * cfg.maxRetries
    ensures r.0 == StoppedDuringRetry ==> r.1 != [] && r.1[|r.1| - 1].Interrupted?
    ensures r.0 == NoError && r.1 != [] ==> r.1[|r.1| - 1].Send?
    ensures r.1 == [] <==> cfg.maxRetries <= 0
  {
    var k := FirstDecisive(cfg, sendOk, stop, 0);
    if k < cfg.maxRetries then
      if sendOk(k) then (NoError, FailedAttempts(cfg, k) + [Send(k)])
      else (StoppedDuringRetry, FailedAttempts(cfg, k) + [Send(k), Interrupted(DelayAt(cfg, k))])
    else if k == 0 then (NoError, [])
    else (LastSendError(k - 1), FailedAttempts(cfg, k))
  }

  /** The number of `SendMessage` calls in a trace. */
  function SendCount(t: seq<RetryEvent>): nat {
    if t == [] then 0 else SendCount(t[..|t| - 1]) + (if t[|t| - 1].Send? then 1 else 0)
  }

  /** The number of waits (completed or interrupted) in a trace. */
  function WaitCount(t: seq<RetryEvent>): nat {
    if t == [] then 0 else WaitCount(t[..|t| - 1]) + (if t[|t| - 1].Send? then 0 else 1)
  }

  lemma {:induction false} FailedAttemptsCounts(cfg: Config, n: nat)
    ensures SendCount(FailedAttempts(cfg, n)) == n
    ensures WaitCount(FailedAttempts(cfg, n)) == n
  {
    if n > 0 {
      FailedAttemptsCounts(cfg, n - 1);
      var t := FailedAttempts(cfg, n);
      assert t[..|t| - 1][..|t| - 2] == FailedAttempts(cfg, n - 1);
    }
  }

  lemma CountsAppendSend(t: seq<RetryEvent>, a: nat)
    ensures SendCount(t + [Send(a)]) == SendCount(t) + 1
    ensures WaitCount(t + [Send(a)]) == WaitCount(t)
  {
    assert (t + [Send(a)])[..|t|] == t;
  }

  /** `sendWithRetry` never calls the sender more than `MaxRetries` times. */
  lemma SendsAtMostMaxRetries(cfg: Config, sendOk: nat -> bool, stop: nat -> bool)
    ensures SendCount(RetryOutcome(cfg, sendOk, stop).1) <= if cfg.maxRetries <= 0 then 0 else cfg.maxRetries
  {
    var k := FirstDecisive(cfg, sendOk, stop, 0);
    FailedAttemptsCounts(cfg, k);
    if k < cfg.maxRetries {
      var f := FailedAttempts(cfg, k);
      CountsAppendSend(f, k);
      if !sendOk(k) {
        var t := f + [Send(k), Interrupted(DelayAt(cfg, k))];
        assert t[..|t| - 1] == f + [Send(k)];
      }
    }
  }

  /** nil is returned right after the first successful call: every earlier
      attempt failed, its wait ran out, and nothing follows the success. */
  lemma SuccessEndsRetry(cfg: Config, sendOk: nat -> bool, stop: nat -> bool)
    requires cfg.maxRetries > 0
    requires RetryOutcome(cfg, sendOk, stop).0 == NoError
    ensures var t := RetryOutcome(cfg, sendOk, stop).1;
      var k := |t| / 2;
      && k < cfg.maxRetries && sendOk(k)
      && t == FailedAttempts(cfg, k) + [Send(k)]
      && forall i | 0 <= i < k :: !sendOk(i) && !stop(i)
  {
    var k := FirstDecisive(cfg, sendOk, stop, 0);
    assert k < cfg.maxRetries && sendOk(k);
    var t := FailedAttempts(cfg, k) + [Send(k)];
    assert |t| / 2 == k;
    forall i | 0 <= i < k ensures !sendOk(i) && !stop(i) {
      assert !Decisive(sendOk, stop, i);
    }
  }

  /** With `MaxRetries` <= 0 nothing is sent and nil is returned. */
  lemma NoAttemptsWhenNoRetries(cfg: Config, sendOk: nat -> bool, stop: nat -> bool)
    requires cfg.maxRetries <= 0
    ensures RetryOutcome(cfg, sendOk, stop) == (NoError, [])
  {
  }

  /** A sender that always fails is called exactly `MaxRetries` times, every
      call (the last one included) is followed by a full wait, the waits
      follow the backoff schedule, and the last error is returned. */
  lemma PermanentFailure(cfg: Config, sendOk: nat -> bool, stop: nat -> bool)
    requires cfg.maxRetries > 0
    requires forall i :: !sendOk(i) && !stop(i)
    ensures var (r, t) := RetryOutcome(cfg, sendOk, stop);
      && r == LastSendError(cfg.maxRetries - 1)
      && SendCount(t) == cfg.maxRetries && WaitCount(t) == cfg.maxRetries
      && |t| == 2 * cfg.maxRetries
      && forall i | 0 <= i < cfg.maxRetries :: t[2 * i] == Send(i) && t[2 * i + 1] == Waited(DelayAt(cfg, i))
  {
    var n := cfg.maxRetries;
    assert FirstDecisive(cfg, sendOk, stop, 0) == n;
    FailedAttemptsCounts(cfg, n);
    forall i | 0 <= i < n
      ensures FailedAttempts(cfg, n)[2 * i] == Send(i) && FailedAttempts(cfg, n)[2 * i + 1] == Waited(DelayAt(cfg, i))
    {
      FailedAttemptsAt(cfg, n, i);
    }
  }

  /** A stop signal during a wait ends the loop at once: the stopped error
      is returned and no send follows the interrupted wait. */
  lemma StopEndsRetry(cfg: Config, sendOk: nat -> bool, stop: nat -> bool)
    requires RetryOutcome(cfg, sendOk, stop).0 == StoppedDuringRetry
    ensures var t := RetryOutcome(cfg, sendOk, stop).1;
      var k := (|t| - 2) / 2;
      && |t| >= 2 && k < cfg.maxRetries && stop(k) && !sendOk(k)
      && t == FailedAttempts(cfg, k) + [Send(k), Interrupted(DelayAt(cfg, k))]
  {
    var k := FirstDecisive(cfg, sendOk, stop, 0);
    assert k < cfg.maxRetries && !sendOk(k);
    var t := FailedAttempts(cfg, k) + [Send(k), Interrupted(DelayAt(cfg, k))];
    assert (|t| - 2) / 2 == k;
  }

  /** Once the queue is stopped every wait is interrupted, so each message
      gets a single attempt, and a failed one yields the stopped error. */
  lemma StoppedQueueSendsOnce(cfg: Config, sendOk: nat -> bool, stop: nat -> bool)
    requires cfg.maxRetries > 0
    requires forall w :: stop(w)
    ensures RetryOutcome(cfg, sendOk, stop) ==
      if sendOk(0) then (NoError, [Send(0)])
      else (StoppedDuringRetry, [Send(0), Interrupted(cfg.initialRetryDelay)])
  {
    assert Decisive(sendOk, stop, 0);
    assert FirstDecisive(cfg, sendOk, stop, 0) == 0;
    assert FailedAttempts(cfg, 0) == [];
    assert [] + [Send(0)] == [Send(0)];
    assert [] + [Send(0), Interrupted(cfg.initialRetryDelay)] == [Send(0), Interrupted(cfg.initialRetryDelay)];
  }

  /** The scenario "fails twice, then succeeds" with d0 = 1 and dmax = 10:
      the two waits last 1 and 2, and the message is delivered. */
  lemma FailTwiceThenSucceed(sendOk: nat -> bool, stop: nat -> bool)
    requires !sendOk(0) && !sendOk(1) && sendOk(2)
    requires !stop(0) && !stop(1)
    ensures RetryOutcome(Config(1, 1, 10, 10), sendOk, stop) ==
      (NoError, [Send(0), Waited(1), Send(1), Waited(2), Send(2)])
  {
    var cfg := Config(1, 1, 10, 10);
    assert Decisive(sendOk, stop, 2);
    assert FirstDecisive(cfg, sendOk, stop, 2) == 2;
    assert FirstDecisive(cfg, sendOk, stop, 0) == 2;
    assert DelayAt(cfg, 1) == 2;
    assert FailedAttempts(cfg, 2) == [Send(0), Waited(1), Send(1), Waited(2)] by {
      assert FailedAttempts(cfg, 1) == [] + [Send(0), Waited(1)] == [Send(0), Waited(1)];
    }
    assert [Send(0), Waited(1), Send(1), Waited(2)] + [Send(2)] == [Send(0), Waited(1), Send(1), Waited(2), Send(2)];
  }

  /** `sendWithRetry`: up to `MaxRetries` attempts; each failed attempt is
      followed by a wait of the current delay, which the stop signal can
      interrupt; after a full wait the delay doubles up to the cap. */
  method SendWithRetry(cfg: Config, sendOk: nat -> bool, stop: nat -> bool)
    returns (result: RetryResult, ghost trace: seq<RetryEvent>)
    ensures result == RetryOutcome(cfg, sendOk, stop).0
    ensures trace == RetryOutcome(cfg, sendOk, stop).1
  {
    var err: Option<nat> := None;
    var delay := cfg.initialRetryDelay;
    var attempt: nat := 0;
    trace := [];
    ghost var k := FirstDecisive(cfg, sendOk, stop, 0);
    while attempt < cfg.maxRetries
      invariant attempt <= k
      invariant delay == DelayAt(cfg, attempt)
      invariant err == if attempt == 0 then None else Some(attempt - 1)
      invariant trace == FailedAttempts(cfg, attempt)
      decreases cfg.maxRetries - attempt
    {
      var ok := sendOk(attempt);
      if ok {
        assert Decisive(sendOk, stop, attempt);
        trace := trace + [Send(attempt)];
        result := NoError;
        return;
      }
      err := Some(attempt);
      if stop(attempt) {
        assert Decisive(sendOk, stop, attempt);
        trace := trace + [Send(attempt), Interrupted(delay)];
        result := StoppedDuringRetry;
        return;
      }
      trace := trace + [Send(attempt), Waited(delay)];
      delay := delay * 2;
      if delay > cfg.maxRetryDelay {
        delay := cfg.maxRetryDelay;
      }
      attempt := attempt + 1;
    }
    result := if err.Some? then LastSendError(err.value) else NoError;
  }

  // ---------------------------------------------------------------------
  // Delay arithmetic on 64 bits, as the source writes it
  // ---------------------------------------------------------------------

  /** Two's-complement wrap-around of an integer into int64. */
  function WrapInt64(x: int): (r: Int64)
    ensures InInt64(x) ==> r == x
  {
    (x - INT64_MIN) % 0x1_0000_0000_0000_0000 + INT64_MIN
  }

  /** `delay *= 2; if delay > MaxRetryDelay { delay = MaxRetryDelay }`
      where `delay` is a 64-bit `time.Duration`. */
  function NextDelayInt64(delay: Int64, maxDelay: Int64): (r: Int64)
    ensures r <= maxDelay
    ensures r == maxDelay || (r - 2 * delay) % 0x1_0000_0000_0000_0000 == 0
  {
    var doubled := WrapInt64(2 * delay);
    if doubled > maxDelay then maxDelay else doubled
  }

  /** Below the overflow point the 64-bit update is the intended one. */
  lemma NextDelayInt64Agrees(delay: Int64, maxDelay: Int64)
    requires InInt64(2 * delay)
    ensures NextDelayInt64(delay, maxDelay) == NextDelay(delay, maxDelay)
  {
  }

  /** Above it the doubling wraps to a negative delay that slips under the
      cap: a delay of 2^62 ns with the largest cap becomes -2^63 instead of
      the cap, and every later wait is zero. */
  lemma NextDelayInt64Overflows()
    ensures NextDelayInt64(0x4000_0000_0000_0000, INT64_MAX) == INT64_MIN
    ensures NextDelay(0x4000_0000_0000_0000, INT64_MAX) == INT64_MAX
    ensures NextDelayInt64(INT64_MIN, INT64_MAX) == 0
  {
  }

  // ---------------------------------------------------------------------
  // The queue
  // ---------------------------------------------------------------------

  /** The consumer's life: not started, running, ended by `os.Exit(1)`
      after a failed delivery, or finished after `Stop` drained the buffer. */
  datatype Phase = Created | Running | Exited | Finished

  /** The sender oracle of the k-th dequeued message. */
  function SenderFor(sendOk: (nat, nat) -> bool, k: nat): nat -> bool {
    (a: nat) => sendOk(k, a)
  }

  /** The stop oracle of the k-th dequeued message; once the queue is
      stopped every wait is interrupted. */
  function StopFor(closed: bool, stopSignal: (nat, nat) -> bool, k: nat): (r: nat -> bool)
    ensures closed ==> forall w: nat :: r(w)
    ensures !closed ==> forall w: nat :: r(w) == stopSignal(k, w)
  {
    (w: nat) => closed || stopSignal(k, w)
  }

  class Queue {
    const config: Config
    /** Whether a `MessageSender` was supplied (`Start` panics without one). */
    const hasSender: bool
    /** The buffered channel `messages`, front first. */
    var buffer: seq<Message>
    /** `Stop` has closed `stopCh` and `messages`. */
    var closed: bool
    var phase: Phase
    /** How many messages the consumer has taken. */
    var taken: nat
    /** Every message `Put` accepted, in order. */
    ghost var accepted: seq<Message>
    /** Every message the consumer has taken, in order. */
    ghost var consumed: seq<Message>
    /** What `sendWithRetry` returned for each taken message. */
    ghost var results: seq<RetryResult>

    /** The buffer never exceeds the capacity; what was accepted is what
        was consumed followed by what is buffered (FIFO); the consumer only
        goes on after nil and exits on the first error. */
    ghost predicate Valid()
      reads this
    {
      && config.capacity >= 0
      && |buffer| <= config.capacity
      && accepted == consumed + buffer
      && taken == |consumed| == |results|
      && (forall i | 0 <= i < |results| :: results[i] == NoError || (phase == Exited && i == |results| - 1))
      && (phase == Exited ==> |results| > 0 && results[|results| - 1] != NoError)
      && (phase == Created ==> consumed == [])
      && (phase == Finished ==> closed && buffer == [])
    }

    /** `NewQueue`: an empty buffer of the configured capacity (Go's `make`
        panics on a negative capacity). */
    constructor (cfg: Config, hasSender: bool)
      requires cfg.capacity >= 0
      ensures Valid()
      ensures config == cfg && this.hasSender == hasSender
      ensures buffer == [] && accepted == [] && consumed == [] && results == []
      ensures !closed && phase == Created && taken == 0
    {
      config := cfg;
      this.hasSender := hasSender;
      buffer := [];
      closed := false;
      phase := Created;
      taken := 0;
      accepted := [];
      consumed := [];
      results := [];
    }

    /** `Put`: appends at the back when there is room, otherwise reports
        `ErrQueueFull` and changes nothing. Sending on the closed channel
        after `Stop` panics, so callers must not. */
    method Put(msg: Message) returns (r: PutResult)
      requires Valid() && !closed && phase != Exited
      modifies this
      ensures Valid()
      ensures r == if |old(buffer)| < config.capacity then Accepted else ErrQueueFull
      ensures buffer == if r == Accepted then old(buffer) + [msg] else old(buffer)
      ensures accepted == if r == Accepted then old(accepted) + [msg] else old(accepted)
      ensures consumed == old(consumed) && results == old(results) && taken == old(taken)
      ensures closed == old(closed) && phase == old(phase)
    {
      if |buffer| < config.capacity {
        buffer := buffer + [msg];
        accepted := accepted + [msg];
        r := Accepted;
      } else {
        r := ErrQueueFull;
      }
    }

    /** `Start` with a sender: the consumer begins. */
    method Start()
      requires Valid() && phase == Created && !closed && hasSender
      modifies this
      ensures Valid() && phase == Running
      ensures buffer == old(buffer) && accepted == old(accepted) && consumed == old(consumed)
      ensures results == old(results) && taken == old(taken) && closed == old(closed)
    {
      phase := Running;
    }

    /** One turn of the consumer loop in `Start`: take the front message,
        run `sendWithRetry` on it to the end, and exit the process on any
        error. */
    method ConsumeNext(sendOk: (nat, nat) -> bool, stopSignal: (nat, nat) -> bool)
      returns (result: RetryResult, ghost trace: seq<RetryEvent>)
      requires Valid() && phase == Running && buffer != []
      modifies this
      ensures Valid()
      ensures buffer == old(buffer)[1..] && consumed == old(consumed) + [old(buffer)[0]]
      ensures accepted == old(accepted) && closed == old(closed) && taken == old(taken) + 1
      ensures (result, trace) == RetryOutcome(config, SenderFor(sendOk, old(taken)), StopFor(closed, stopSignal, old(taken)))
      ensures results == old(results) + [result]
      ensures phase == if result == NoError then Running else Exited
    {
      var msg := buffer[0];
      assert [msg] + buffer[1..] == buffer;
      buffer := buffer[1..];
      consumed := consumed + [msg];
      assert consumed + buffer == old(consumed) + old(buffer);
      result, trace := SendWithRetry(config, SenderFor(sendOk, taken), StopFor(closed, stopSignal, taken));
      results := results + [result];
      assert forall i | 0 <= i < |old(results)| :: results[i] == old(results)[i];
      taken := taken + 1;
      if result != NoError {
        phase := Exited;
      }
    }

    /** `Stop`: closes the stop signal and the buffer, then waits for the
        consumer, which delivers what is still buffered (each with a single
        attempt, since every wait is now interrupted) until it runs dry or
        exits. A queue never started keeps its buffer. Closing twice
        panics, so callers must not. */
    method Stop(sendOk: (nat, nat) -> bool, stopSignal: (nat, nat) -> bool)
      requires Valid() && !closed && phase != Exited
      modifies this
      ensures Valid() && closed
      ensures accepted == old(accepted)
      ensures old(phase) == Created ==> phase == Created && buffer == old(buffer) && consumed == old(consumed)
      ensures old(phase) == Running ==> phase == Exited || (phase == Finished && consumed == old(consumed) + old(buffer))
      ensures old(consumed) <= consumed && old(results) <= results
      ensures consumed + buffer == old(consumed) + old(buffer)
      ensures phase == Finished ==> buffer == []
      ensures phase == Exited ==> |results| > |old(results)|
      ensures old(phase) == Created ==> results == old(results)
    {
      closed := true;
      if phase == Running {
        while buffer != [] && phase == Running
          invariant Valid() && closed && accepted == old(accepted)
          invariant phase == Running || phase == Exited
          invariant old(consumed) <= consumed && old(results) <= results
          invariant consumed + buffer == old(consumed) + old(buffer)
          invariant phase == Exited ==> |results| > |old(results)|
          decreases |buffer|
        {
          var result;
          ghost var trace;
          result, trace := ConsumeNext(sendOk, stopSignal);
        }
        if phase == Running {
          phase := Finished;
        }
      }
    }
  }

  /** The consumer hands messages to the sender in the order `Put`
      accepted them. */
  lemma ConsumedInArrivalOrder(q: Queue)
    requires q.Valid()
    ensures q.consumed <= q.accepted
  {
    assert q.accepted == q.consumed + q.buffer;
  }

  /** With capacity 1 and nothing consumed, of two `Put`s exactly the
      second reports a full queue. */
  method CapacityOneScenario(m1: Message, m2: Message) returns (r1: PutResult, r2: PutResult)
    ensures r1 == Accepted && r2 == ErrQueueFull
  {
    var q := new Queue(Config(1, SECOND, MINUTE, 10), true);
    r1 := q.Put(m1);
    r2 := q.Put(m2);
  }
}
