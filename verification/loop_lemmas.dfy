/**
 Properties of the production loop over all outcome scripts: the cap, the
 uncapped case, per-event failures, and the independence of a finished run
 from whatever the script holds after it.
 */
module LoopLemmas {
  import opened ProduceLoop

  /** Counting acknowledged sends one iteration further into a script. */
  lemma {:induction false} AcknowledgedExtend(script: seq<Iteration>, k: nat)
    requires k < |script|
    ensures Acknowledged(script, k + 1) == Acknowledged(script, k) + (if script[k].send.Ok? then 1 else 0)
  {
    if k > 0 {
      AcknowledgedExtend(script[1..], k - 1);
    }
  }

  /** With a positive cap `n`, a loop that starts at or below `n` never ends above it. */
  lemma {:induction false} LoopCountBounded(maxEvents: Option<int>, script: seq<Iteration>, count: nat)
    requires maxEvents.Some? && maxEvents.value > 0 && count <= maxEvents.value
    ensures Loop(maxEvents, script, count).count <= maxEvents.value
    decreases |script|
  {
    if !CapHit(maxEvents, count) && script != [] {
      var it := script[0];
      if Continues(it) {
        LoopCountBounded(maxEvents, script[1..], if it.send.Ok? then count + 1 else count);
      }
    }
  }

  /** With `max_events = n > 0`, the reported count never exceeds `n`. */
  lemma CountNeverExceedsCap(maxEvents: Option<int>, script: seq<Iteration>)
    requires maxEvents.Some? && maxEvents.value > 0
    ensures ProduceEvents(maxEvents, script).count <= maxEvents.value
  {
    LoopCountBounded(maxEvents, script, 0);
  }

  /**
   With `max_events = n > 0`, the loop leaves by the `break` exactly when the
   count has reached `n`: a break means the count is `n`, and a count of `n`
   without a break is only possible when the interrupt or exception struck
   in the pause right after the `n`-th acknowledgement.
   */
  lemma {:induction false} BreakExactlyAtCap(maxEvents: Option<int>, script: seq<Iteration>)
    requires maxEvents.Some? && maxEvents.value > 0
    ensures var r := ProduceEvents(maxEvents, script);
      r.stop == CapReached ==> r.count == maxEvents.value
    ensures var r := ProduceEvents(maxEvents, script);
      r.count == maxEvents.value && r.stop != CapReached ==>
        && (r.stop == Interrupted || r.stop == Failed)
        && r.steps >= 1
        && script[r.steps - 1].send.Ok?
        && !script[r.steps - 1].pause.Slept?
  {
    var r := ProduceEvents(maxEvents, script);
    CountNeverExceedsCap(maxEvents, script);
    if r.count == maxEvents.value && r.stop != CapReached {
      assert r.stop != ScriptExhausted;
      var k := r.steps - 1;
      AcknowledgedExtend(script, k);
      assert !CapHit(maxEvents, 0 + Acknowledged(script, k));
    }
  }

  /** From count `count`, a script of acknowledged sends reaches the cap after `n - count` sends. */
  lemma {:induction false} LoopAllAcknowledged(maxEvents: Option<int>, script: seq<Iteration>, count: nat)
    requires maxEvents.Some? && maxEvents.value > 0 && count <= maxEvents.value
    requires |script| >= maxEvents.value - count
    requires forall i :: 0 <= i < |script| ==> script[i].send.Ok? && script[i].pause.Slept?
    ensures Loop(maxEvents, script, count) == LoopEnd(maxEvents.value, maxEvents.value - count, CapReached)
    decreases |script|
  {
    if count < maxEvents.value {
      LoopAllAcknowledged(maxEvents, script[1..], count + 1);
    }
  }

  /**
   If the channel acknowledges every send and `max_events = n > 0`, exactly
   `n` sends are made, the count is `n`, and the run ends by the cap with
   one flush and one close.
   */
  lemma AlwaysAcknowledgedSendsExactlyCap(maxEvents: Option<int>, script: seq<Iteration>)
    requires maxEvents.Some? && maxEvents.value > 0
    requires |script| >= maxEvents.value
    requires forall i :: 0 <= i < |script| ==> script[i].send.Ok? && script[i].pause.Slept?
    ensures var r := ProduceEvents(maxEvents, script);
      && r.count == maxEvents.value
      && r.steps == maxEvents.value
      && r.stop == CapReached
      && r.trace == Sends(maxEvents.value) + [Flush, Close]
  {
    LoopAllAcknowledged(maxEvents, script, 0);
  }

  /**
   Per-event `KafkaError`s neither count nor stop the loop: as long as the
   script holds only acknowledged and failed sends, and at least `n - count`
   acknowledgements, the loop runs on until the cap.
   */
  lemma {:induction false} LoopSurvivesSendErrors(maxEvents: Option<int>, script: seq<Iteration>, count: nat)
    requires maxEvents.Some? && maxEvents.value > 0 && count <= maxEvents.value
    requires forall i :: 0 <= i < |script| ==> Continues(script[i])
    requires Successes(script) >= maxEvents.value - count
    ensures Loop(maxEvents, script, count).stop == CapReached
    ensures Loop(maxEvents, script, count).count == maxEvents.value
    decreases |script|
  {
    if count < maxEvents.value {
      assert script != [];
      LoopSurvivesSendErrors(maxEvents, script[1..], if script[0].send.Ok? then count + 1 else count);
    }
  }

  /** The run-level form: failed sends are skipped and the cap is still reached. */
  lemma {:induction false} SendErrorsDoNotStopTheRun(maxEvents: Option<int>, script: seq<Iteration>)
    requires maxEvents.Some? && maxEvents.value > 0
    requires forall i :: 0 <= i < |script| ==> Continues(script[i])
    requires Successes(script) >= maxEvents.value
    ensures ProduceEvents(maxEvents, script).stop == CapReached
    ensures ProduceEvents(maxEvents, script).count == maxEvents.value
  {
    LoopSurvivesSendErrors(maxEvents, script, 0);
  }

  /**
   A failed send is not retried: it leaves the count as it was and the next
   iteration takes the next scripted outcome.
   */
  lemma KafkaErrorIsNotRetried(maxEvents: Option<int>, rest: seq<Iteration>, count: nat)
    requires !CapHit(maxEvents, count)
    ensures var e := Loop(maxEvents, [Iteration(KafkaErr, Slept)] + rest, count);
      var e' := Loop(maxEvents, rest, count);
      e.count == e'.count && e.stop == e'.stop && e.steps == e'.steps + 1
  {
  }

  /** `max_events` of `None` or `0` disables the cap: the loop never leaves by the `break`. */
  lemma UncappedNeverBreaks(maxEvents: Option<int>, script: seq<Iteration>)
    requires maxEvents == None || maxEvents == Some(0)
    ensures ProduceEvents(maxEvents, script).stop != CapReached
  {
  }

  /**
   Without a cap, and with neither an interrupt nor an exception, the loop
   goes through every scripted iteration and is still running at the end,
   having counted every acknowledged send.
   */
  lemma UncappedRunCountsEverySuccess(maxEvents: Option<int>, script: seq<Iteration>)
    requires maxEvents == None || maxEvents == Some(0)
    requires forall i :: 0 <= i < |script| ==> Continues(script[i])
    ensures ProduceEvents(maxEvents, script).stop == ScriptExhausted
    ensures ProduceEvents(maxEvents, script).steps == |script|
    ensures ProduceEvents(maxEvents, script).count == Successes(script)
  {
  }

  /**
   A negative `max_events` is truthy and already exceeded by the zero count:
   the loop breaks before producing anything, then flushes and closes.
   */
  lemma NegativeCapStopsAtOnce(maxEvents: Option<int>, script: seq<Iteration>)
    requires maxEvents.Some? && maxEvents.value < 0
    ensures ProduceEvents(maxEvents, script) == RunResult(0, 0, CapReached, [Flush, Close])
  {
  }

  /**
   A loop still running at the end of script `s` continues on `t` exactly
   as a loop started on `t` from the count it had reached.
   */
  lemma {:induction false} LoopComposes(maxEvents: Option<int>, s: seq<Iteration>, t: seq<Iteration>, count: nat)
    requires Loop(maxEvents, s, count).stop == ScriptExhausted
    ensures var e := Loop(maxEvents, s, count);
      var e' := Loop(maxEvents, t, e.count);
      Loop(maxEvents, s + t, count) == LoopEnd(e'.count, |s| + e'.steps, e'.stop)
    decreases |s|
  {
    if s == [] {
      assert s + t == t;
    } else {
      var it := s[0];
      assert (s + t)[0] == it && (s + t)[1..] == s[1..] + t;
      LoopComposes(maxEvents, s[1..], t, if it.send.Ok? then count + 1 else count);
    }
  }

  /** A loop that has stopped never looks at the script beyond its exit. */
  lemma {:induction false} LoopIgnoresRestOfScript(maxEvents: Option<int>, s: seq<Iteration>, t: seq<Iteration>, count: nat)
    requires Loop(maxEvents, s, count).stop != ScriptExhausted
    ensures Loop(maxEvents, s + t, count) == Loop(maxEvents, s, count)
    decreases |s|
  {
    if !CapHit(maxEvents, count) {
      var it := s[0];
      assert (s + t)[0] == it && (s + t)[1..] == s[1..] + t;
      if Continues(it) {
        LoopIgnoresRestOfScript(maxEvents, s[1..], t, if it.send.Ok? then count + 1 else count);
      }
    }
  }

  /** Once `produce_events` has returned, later channel outcomes change nothing about its run. */
  lemma FinishedRunIgnoresRestOfScript(maxEvents: Option<int>, s: seq<Iteration>, t: seq<Iteration>)
    requires ProduceEvents(maxEvents, s).stop != ScriptExhausted
    ensures ProduceEvents(maxEvents, s + t) == ProduceEvents(maxEvents, s)
  {
    LoopIgnoresRestOfScript(maxEvents, s, t, 0);
  }
}
