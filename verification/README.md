# Ecommerce event producer: a Dafny model of its production loop

The producer (`producer.py`) generates fake ecommerce events and publishes
them to a Kafka topic at a randomised pace. This project models its control
logic:

- `produce_events` is modelled as a pure state machine over a finite
  *outcome script*. Each script entry is one loop iteration. It says how the
  send path (`producer.send` then `future.get`) ended: `Ok(partition, offset)`,
  a `KafkaError`, another exception, or a `KeyboardInterrupt`. It also says
  how the pause after a surviving send ended: it slept, it was interrupted,
  or it raised. `produce_events` itself returns `None`; the model records
  the count at exit, the number of iterations run, the reason the loop
  stopped (the `max_events` break, the interrupt handler, the exception
  handler, or "still running" when the script runs out), and the trace of
  channel calls (`Send`…, `Flush`, `Close`).
- `main`'s checks on `--rate-min` and `--rate-max` are modelled over Python
  floats, infinities and NaN included, together with how `main` ends and the
  status it passes to `exit`.
- `generate_event` is modelled as a dictionary with five keys. Its event type
  is drawn from the fixed list `view`, `add_to_cart`, `purchase`.

Files:

- `events.dfy` (module `Events`): the event factory.
- `rates.dfy` (module `Rates`): Python float comparison and the rate checks.
- `loop.dfy` (module `ProduceLoop`): the script datatypes, `Loop` and `ProduceEvents`.
- `loop_lemmas.dfy` (module `LoopLemmas`): properties of the loop over all scripts.
- `main_flow.dfy` (module `MainFlow`): `main` after argument parsing, and its exit status.

Behaviour of the code that the model follows:

- `max_events` is tested for truthiness (`max_events and event_count >= max_events`).
  `None` and `0` disable the cap. A negative value is truthy and is already
  exceeded by the zero count, so the loop breaks before its first event.
- Rejected rate bounds make `main` return `None`, and `exit(None)` gives
  status 0.
- `produce_events` catches every `Exception` and `KeyboardInterrupt` raised in
  its loop itself, so in the model a run that stops on an error still exits
  with status 0, and only a failure to construct the producer gives status 1.
- The rate checks are written as rejections (`< 0`, `>`). Every comparison
  with NaN is false, so a NaN bound passes them (`Rates.NaNBoundIsAccepted`).
  This does not mean such a run paces normally: `random.uniform` with a NaN
  bound gives NaN and `time.sleep(nan)` raises `ValueError`, and an infinite
  bound makes `time.sleep` raise `OverflowError`, so the run leaves through
  the `Exception` handler after its first iteration. The model allows this
  through the pause outcome, which it leaves unconstrained.
- The pause is a plain `time.sleep`. An interrupt during it ends the loop
  through the interrupt handler after the count has already been
  incremented. This is why the script carries a pause outcome next to the
  send outcome.

## Model

| member | source | states |
|---|---|---|
| Events.GenerateEvent | producer.py:25-37 | an event has exactly the five keys `user_id`, `event_type`, `product`, `timestamp`, `amount`, and its `event_type` is one of `view`, `add_to_cart`, `purchase` (the one at the drawn index) |
| Events.EventTypeChoiceIsBijective | producer.py:25-32 | distinct draws give distinct event types, and each of the three types is given by some draw |
| Rates.CheckRates | producer.py:176-182 | for bounds other than NaN, the bounds are accepted exactly when `0 <= rate_min`, `0 <= rate_max` and `rate_min <= rate_max`; a NaN bound is never rejected as out of order; the "non-negative" message is chosen exactly when either bound compares below zero, and the "rate-min must be <= rate-max" one only for two non-negative, non-NaN bounds with `rate_min > rate_max` |
| Rates.AcceptedIffNonNegativeAndOrdered | producer.py:176-182 | for bounds other than NaN, the loop may start if and only if `0 <= rate_min`, `0 <= rate_max` and `rate_min <= rate_max` |
| Rates.NaNBoundIsAccepted | producer.py:176-182 | a NaN bound passes the checks exactly when the other bound is not negative |
| ProduceLoop.Loop | producer.py:79-106 | the loop's end satisfies `Accounts`: the final count is the start count plus the acknowledged sends among the iterations run; the cap is checked and found not hit before each event; a break means the cap holds; a loop still running has used the whole script; every iteration before the last one went round; an interrupt or exception exit comes from the last iteration, and it is the interrupt handler exactly when a `KeyboardInterrupt` struck that iteration's send, or its pause after a send that raised nothing other than a `KafkaError` |
| ProduceLoop.ProduceEvents | producer.py:58-115 | the run's count, iterations and stop reason satisfy `Accounts` for the loop from count 0 (so the stopping rule of `Loop` holds for the run); the count at exit equals the acknowledged sends among the iterations it ran, and there is one `Send` per iteration run; on every exit path the trace has exactly one `Flush` and one `Close`, as its last two calls in that order; while still running there is neither |
| LoopLemmas.LoopCountBounded | producer.py:80-94 | with a positive cap `n`, a loop that starts at or below `n` ends at or below `n` |
| LoopLemmas.CountNeverExceedsCap | producer.py:80-94 | with `max_events = n > 0`, the reported count never exceeds `n` |
| LoopLemmas.BreakExactlyAtCap | producer.py:80-106 | with `max_events = n > 0`, a break means the count is `n`; a count of `n` without a break happens only when an interrupt or exception struck in the pause right after the `n`-th acknowledgement |
| LoopLemmas.LoopAllAcknowledged | producer.py:80-94 | from count `c <= n`, a channel that always acknowledges gives exactly `n - c` further iterations, ending at the cap with count `n` |
| LoopLemmas.AlwaysAcknowledgedSendsExactlyCap | producer.py:80-115 | with `max_events = n > 0` and a channel that always acknowledges, exactly `n` sends are made, the count is `n`, and the run breaks and then flushes and closes |
| LoopLemmas.LoopSurvivesSendErrors | producer.py:89-106 | a script of acknowledged and `KafkaError` iterations with enough acknowledgements reaches the cap with count `n` |
| LoopLemmas.SendErrorsDoNotStopTheRun | producer.py:89-106 | per-event `KafkaError`s do not stop the run: it still ends by the cap with count `n` |
| LoopLemmas.KafkaErrorIsNotRetried | producer.py:89-106 | a `KafkaError` iteration leaves the count unchanged, and the loop continues with the next scripted outcome, with no retry |
| LoopLemmas.UncappedNeverBreaks | producer.py:73-83 | with `max_events` `None` or `0` the loop never leaves by the `break` |
| LoopLemmas.UncappedRunCountsEverySuccess | producer.py:73-106 | an uncapped run with no interrupt or exception never exits by itself; it has made one send per scripted iteration and counted every acknowledgement |
| LoopLemmas.NegativeCapStopsAtOnce | producer.py:81-83 | a negative `max_events` makes the loop break before any send; it then only flushes and closes, with count 0 |
| LoopLemmas.LoopComposes | producer.py:80-106 | a loop still running after script `s` continues on `t` exactly as a fresh loop started on `t` from the count it had reached |
| LoopLemmas.LoopIgnoresRestOfScript | producer.py:80-106 | a loop that has stopped is unaffected by any outcomes scripted after its exit |
| LoopLemmas.FinishedRunIgnoresRestOfScript | producer.py:79-115 | once `produce_events` has exited, later channel outcomes change neither its count nor its trace |
| MainFlow.RunMain | producer.py:175-198 | `main` returns at the checks exactly when the bounds are rejected; construction fails exactly for accepted bounds without a connection; otherwise the run is `produce_events` on the parsed `max_events`, and its count never exceeds its sends |
| MainFlow.ExitStatus | producer.py:176-202 | the exit status is 1 exactly when the producer could not be created; it is 0 exactly for rejected bounds and for a loop that stopped, whatever the reason; there is no status yet exactly while the loop is still running |
| MainFlow.LoopStartsIffRatesAccepted | producer.py:176-193 | with a working connection, the loop starts if and only if the bounds are accepted; rejected bounds make no channel call and exit with status 0 |
| MainFlow.MainNeverCountsPastCap | producer.py:187-193 | `main` passes `--max-events` to the loop unchanged: with a positive cap `n`, a run started from `main` never counts past `n` |
| MainFlow.StoppedRunFlushesThenClosesOnce | producer.py:108-115 | once `main` has a status after running the loop, its channel calls end with exactly one flush followed by exactly one close |

## Left out

- The Kafka client: producer construction options (retries, acks, gzip), the JSON value serializer, and partition/offset meaning. The channel is only the scripted outcome of each send. Construction success is a boolean parameter.
- The 10-second `future.get` timeout: a timeout is a `KafkaError` outcome in the script.
- Randomness and time. The Faker identifiers and words, `datetime.now()`, and the amount draw and its rounding are parameters of `Events.GenerateEvent`. `random.choice` is the drawn index. The pacing value from `random.uniform` and the sleep are reduced to the pause outcome.
- The amount range `[10, 100]` and its 2-decimal rounding: these are floating-point numerics; the amount is an opaque parameter.
- An exception raised while generating an event is not told apart from one raised by the send: both are an `OtherErr` iteration, recorded as a `Send` in the trace.
- A `KeyboardInterrupt` inside `generate_event` is likewise an `Interrupt` iteration, so the trace records a `Send` that was never made.
- An interrupt during the `print` just before the `break` would end the run in the interrupt handler with the cap reached; the model has the break as atomic and always reports `CapReached` there.
- An exception from `flush()` or `close()` in the `finally` block: the model assumes both return. A failing `flush()` would skip `close()` and reach `main`'s `except Exception`, which returns 1.
- Argument parsing, environment defaults, topic and bootstrap-server strings, help text, and all printed output.
- `BaseException`s other than `KeyboardInterrupt` (such as `SystemExit`): they would skip both handlers. Only `Exception`s and the interrupt are modelled.
