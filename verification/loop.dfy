/**
 The production loop of `produce_events` as a pure state machine.

 The Kafka client is replaced by a finite script: one entry per loop
 iteration, saying how the send path of that iteration ended and, when the
 iteration survived its send, how the pause after it ended. Running the
 script yields the number of successful sends, the reason the loop stopped
 and the trace of calls the loop made on the channel.
 */
module ProduceLoop {

  datatype Option<T> = None | Some(value: T)

  /**
   How `producer.send(...)` followed by `future.get(...)` ended: an
   acknowledgement with its placement, a `KafkaError` (caught inside the
   iteration), another exception, or a `KeyboardInterrupt`.
   */
  datatype SendOutcome = Ok(partition: int, offset: int) | KafkaErr | OtherErr | Interrupt

  /**
   How the rest of the iteration (the log line, `random.uniform` and
   `time.sleep`) ended: normally, by a `KeyboardInterrupt`, or by another
   exception.
   */
  datatype PauseOutcome = Slept | PauseInterrupted | PauseErr

  datatype Iteration = Iteration(send: SendOutcome, pause: PauseOutcome)

  /** The calls the loop makes on the producer. */
  datatype Call = Send | Flush | Close

  /**
   Why the loop stopped: the `break` at the cap, the `KeyboardInterrupt`
   handler, the `Exception` handler, or not at all because the script ran
   out while the loop was still running.
   */
  datatype Stop = CapReached | Interrupted | Failed | ScriptExhausted

  /** The end of the loop proper: final count and number of iterations that reached the channel. */
  datatype LoopEnd = LoopEnd(count: nat, steps: nat, stop: Stop)

  /** What `produce_events` leaves behind. */
  datatype RunResult = RunResult(count: nat, steps: nat, stop: Stop, trace: seq<Call>)

  /** `max_events and event_count >= max_events`: `None` and `0` are falsy. */
  predicate CapHit(maxEvents: Option<int>, count: nat)
  {
    maxEvents.Some? && maxEvents.value != 0 && count >= maxEvents.value
  }

  /** An iteration after which the loop goes round again. */
  predicate Continues(it: Iteration)
  {
    (it.send.Ok? || it.send.KafkaErr?) && it.pause.Slept?
  }

  /** The number of acknowledged sends among the first `n` iterations of a script. */
  function Acknowledged(script: seq<Iteration>, n: nat): (k: nat)
    ensures k <= n && k <= |script|
  {
    if n == 0 || script == [] then 0
    else (if script[0].send.Ok? then 1 else 0) + Acknowledged(script[1..], n - 1)
  }

  /** The number of acknowledged sends in a whole script. */
  function Successes(script: seq<Iteration>): nat
  {
    Acknowledged(script, |script|)
  }

  /** The number of times `c` occurs in `trace`. */
  function Occurrences(trace: seq<Call>, c: Call): (n: nat)
    ensures n <= |trace|
  {
    if trace == [] then 0
    else (if trace[0] == c then 1 else 0) + Occurrences(trace[1..], c)
  }

  /** The trace holds exactly one flush and one close, and ends with them, flush first. */
  predicate FlushedThenClosedOnce(trace: seq<Call>)
  {
    Occurrences(trace, Flush) == 1 && Occurrences(trace, Close) == 1 &&
    |trace| >= 2 && trace[|trace| - 2] == Flush && trace[|trace| - 1] == Close
  }

  /** `n` sends in a row. */
  function Sends(n: nat): (t: seq<Call>)
    ensures |t| == n
    ensures forall i :: 0 <= i < n ==> t[i] == Send
  {
    if n == 0 then [] else [Send] + Sends(n - 1)
  }

  lemma {:induction false} OccurrencesAppend(a: seq<Call>, b: seq<Call>, c: Call)
    ensures Occurrences(a + b, c) == Occurrences(a, c) + Occurrences(b, c)
  {
    if a == [] {
      assert a + b == b;
    } else {
      assert (a + b)[1..] == a[1..] + b;
      OccurrencesAppend(a[1..], b, c);
    }
  }

  lemma {:induction false} OccurrencesInSends(n: nat)
    ensures Occurrences(Sends(n), Send) == n
    ensures Occurrences(Sends(n), Flush) == 0
    ensures Occurrences(Sends(n), Close) == 0
  {
    if n > 0 {
      assert Sends(n)[1..] == Sends(n - 1);
      OccurrencesInSends(n - 1);
    }
  }

  /**
   What the loop promises about an end `e` it reached from count `count`
   on `script`, iteration by iteration.
   */
  predicate Accounts(maxEvents: Option<int>, script: seq<Iteration>, count: nat, e: LoopEnd)
  {
    && e.steps <= |script|
    // only an acknowledged send increments the count
    && e.count == count + Acknowledged(script, e.steps)
    // the cap is checked, and found not hit, before every event the loop produces
    && (forall i :: 0 <= i < e.steps ==> !CapHit(maxEvents, count + Acknowledged(script, i)))
    // the break is taken only at the cap
    && (e.stop == CapReached ==> CapHit(maxEvents, e.count))
    // a loop still running has used the whole script without reaching the cap
    && (e.stop == ScriptExhausted ==> e.steps == |script| && !CapHit(maxEvents, e.count))
    && (e.stop == CapReached || e.stop == ScriptExhausted ==>
          forall i :: 0 <= i < e.steps ==> Continues(script[i]))
    // an interrupt or exception comes from the last iteration run, and from no earlier one;
    // the interrupt handler is reached exactly when that iteration was interrupted
    && (e.stop == Interrupted || e.stop == Failed ==>
          && e.steps >= 1
          && !Continues(script[e.steps - 1])
          && (forall i :: 0 <= i < e.steps - 1 ==> Continues(script[i]))
          && (e.stop == Interrupted <==> Interrupts(script[e.steps - 1])))
  }

  /**
   A `KeyboardInterrupt` is what leaves the iteration: it struck during the
   send, or during the pause after a send that raised nothing else. (An
   exception other than `KafkaError` in the send skips the pause altogether.)
   */
  predicate Interrupts(it: Iteration)
  {
    it.send.Interrupt? || (!it.send.OtherErr? && it.pause.PauseInterrupted?)
  }

  /** The accounting carries over one iteration that went round. */
  lemma {:induction false} AccountsStep(maxEvents: Option<int>, script: seq<Iteration>, count: nat, rest: LoopEnd)
    requires script != [] && !CapHit(maxEvents, count) && Continues(script[0])
    requires Accounts(maxEvents, script[1..], count + (if script[0].send.Ok? then 1 else 0), rest)
    ensures Accounts(maxEvents, script, count, LoopEnd(rest.count, rest.steps + 1, rest.stop))
  {
  }

  /**
   The handler an iteration that did not go round ends in: a
   `KeyboardInterrupt` during the send or the pause reaches the interrupt
   handler, any other exception the `Exception` handler.
   */
  function ExitReason(it: Iteration): Stop
    requires !Continues(it)
  {
    match it.send
    case Interrupt => Interrupted
    case OtherErr => Failed
    case _ => if it.pause.PauseInterrupted? then Interrupted else Failed
  }

  /** The accounting of a loop whose first iteration leaves it. */
  lemma AccountsExit(maxEvents: Option<int>, script: seq<Iteration>, count: nat)
    requires script != [] && !CapHit(maxEvents, count) && !Continues(script[0])
    ensures Accounts(maxEvents, script, count,
      LoopEnd(count + (if script[0].send.Ok? then 1 else 0), 1, ExitReason(script[0])))
  {
  }

  /**
   The `while True` loop from event count `count` on. Each round first makes
   the cap check, then runs the next scripted iteration: only an
   acknowledged send increments the count, a `KafkaError` is absorbed and the
   loop moves on to the next iteration without retrying, and an interrupt or
   any other exception leaves the loop.
   */
  function Loop(maxEvents: Option<int>, script: seq<Iteration>, count: nat): (e: LoopEnd)
    decreases |script|
    ensures Accounts(maxEvents, script, count, e)
  {
    if CapHit(maxEvents, count) then LoopEnd(count, 0, CapReached)
    else if script == [] then LoopEnd(count, 0, ScriptExhausted)
    else
      var it := script[0];
      var c := if it.send.Ok? then count + 1 else count;
      if Continues(it) then
        var rest := Loop(maxEvents, script[1..], c);
        AccountsStep(maxEvents, script, count, rest);
        LoopEnd(rest.count, rest.steps + 1, rest.stop)
      else
        AccountsExit(maxEvents, script, count);
        LoopEnd(c, 1, ExitReason(it))
  }

  /**
   `produce_events`: the loop from a zero count, then, on every way out of
   it, the `finally` block's `flush()` followed by `close()`. The count at
   exit is the number of acknowledged sends it observed.
   */
  function ProduceEvents(maxEvents: Option<int>, script: seq<Iteration>): (r: RunResult)
    ensures r.steps <= |script|
    ensures r.steps == Occurrences(r.trace, Send)
    ensures r.count == Acknowledged(script, r.steps)
    ensures r.stop != ScriptExhausted ==> FlushedThenClosedOnce(r.trace)
    ensures r.stop == ScriptExhausted ==>
      Occurrences(r.trace, Flush) == 0 && Occurrences(r.trace, Close) == 0
    ensures Accounts(maxEvents, script, 0, LoopEnd(r.count, r.steps, r.stop))
  {
    var e := Loop(maxEvents, script, 0);
    var closing := if e.stop == ScriptExhausted then [] else [Flush, Close];
    OccurrencesInSends(e.steps);
    OccurrencesAppend(Sends(e.steps), closing, Send);
    OccurrencesAppend(Sends(e.steps), closing, Flush);
    OccurrencesAppend(Sends(e.steps), closing, Close);
    RunResult(e.count, e.steps, e.stop, Sends(e.steps) + closing)
  }
}
