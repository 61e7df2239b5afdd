/**
 What `main` does once the arguments are parsed: check the pacing bounds,
 create the producer, run the loop, and pick the process exit status.

 Whether the Kafka connection can be made is a parameter; the topic and
 bootstrap-server strings only pass through and are not modelled.
 */
module MainFlow {
  import opened Rates
  import opened ProduceLoop
  import LoopLemmas

  /** The parsed command-line values the flow depends on. */
  datatype Args = Args(rateMin: Float, rateMax: Float, maxEvents: Option<int>)

  /**
   How `main` ended: it returned at the rate checks, the producer could not be
   created, or the loop ran (and possibly is still running).
   */
  datatype MainEnd = RatesRejected(why: RateCheck) | ConstructionFailed | Produced(run: RunResult)

  /** `main` after `parse_args`. */
  function RunMain(args: Args, connects: bool, script: seq<Iteration>): (m: MainEnd)
    ensures m.RatesRejected? <==> !RatesAccepted(args.rateMin, args.rateMax)
    ensures m.RatesRejected? ==> m.why != Accepted
    ensures m.ConstructionFailed? <==> RatesAccepted(args.rateMin, args.rateMax) && !connects
    ensures m.Produced? ==> m.run.count <= m.run.steps <= |script|
    ensures m.Produced? ==> m.run == ProduceEvents(args.maxEvents, script)
  {
    var check := CheckRates(args.rateMin, args.rateMax);
    if check != Accepted then RatesRejected(check)
    else if !connects then ConstructionFailed
    else Produced(ProduceEvents(args.maxEvents, script))
  }

  /** The channel calls `main` causes: none before a producer exists. */
  function ChannelCalls(m: MainEnd): seq<Call>
  {
    if m.Produced? then m.run.trace else []
  }

  /**
   The status handed to `exit`: `None` while the loop is still running.
   Rejected bounds return `None` from `main`, which exits with 0; a failed
   construction returns 1; a loop that stopped for any reason returns 0,
   because `produce_events` handles its interrupt and its exceptions itself.
   */
  function ExitStatus(m: MainEnd): (code: Option<int>)
    ensures code == Some(1) <==> m.ConstructionFailed?
    ensures code == None <==> m.Produced? && m.run.stop == ScriptExhausted
    ensures code == Some(0) <==> m.RatesRejected? || (m.Produced? && m.run.stop != ScriptExhausted)
  {
    match m
    case RatesRejected(_) => Some(0)
    case ConstructionFailed => Some(1)
    case Produced(run) => if run.stop == ScriptExhausted then None else Some(0)
  }

  /**
   The loop starts only for accepted bounds: rejected bounds make no call on
   any producer and exit with status 0, and accepted bounds with a working
   connection always reach the loop.
   */
  lemma LoopStartsIffRatesAccepted(args: Args, script: seq<Iteration>)
    ensures !RatesAccepted(args.rateMin, args.rateMax) ==>
      ChannelCalls(RunMain(args, true, script)) == [] && ExitStatus(RunMain(args, true, script)) == Some(0)
    ensures RunMain(args, true, script).Produced? <==> RatesAccepted(args.rateMin, args.rateMax)
  {
  }

  /**
   Once the loop has run, `main` has made exactly one flush and one close, the
   last two calls, unless the loop is still running; and it exits with 0.
   */
  lemma StoppedRunFlushesThenClosesOnce(args: Args, script: seq<Iteration>)
    requires RatesAccepted(args.rateMin, args.rateMax)
    ensures var m := RunMain(args, true, script);
      var t := ChannelCalls(m);
      ExitStatus(m) == Some(0) ==> FlushedThenClosedOnce(t)
  {
  }

  /**
   `main` hands the parsed `--max-events` to the loop unchanged: with a
   positive cap `n`, a run started from `main` never counts past `n`.
   */
  lemma MainNeverCountsPastCap(args: Args, connects: bool, script: seq<Iteration>)
    requires args.maxEvents.Some? && args.maxEvents.value > 0
    ensures var m := RunMain(args, connects, script);
      m.Produced? ==> m.run.count <= args.maxEvents.value
  {
    LoopLemmas.CountNeverExceedsCap(args.maxEvents, script);
  }
}
