# Metric instruments of the OpenTelemetry Python SDK, modelled in Dafny

This project models the instrument layer of the OpenTelemetry Python metrics
SDK (`opentelemetry-sdk/src/opentelemetry/sdk/_metrics/_internal/instrument.py`):
the six instrument classes, the validation both base classes perform when an
instrument is constructed, the synchronous recording methods `Counter.add`,
`UpDownCounter.add` and `Histogram.record`, and the asynchronous adapter that
registers user callbacks (plain callables or generator objects) and turns
them into measurements in `_Asynchronous.callback()`.

Everything is a value: an instrument is an `Identity` (kind, lower-cased name,
unit, description, scope), optionally with its registered callbacks. The
measurement consumer is the sequence of measurements it has received, the
logger the sequence of `Diagnostic(level, template, arg)` calls made on it,
and a synchronous call maps these `Sinks` to new ones. Generator objects are
shared mutable objects in Python, so they live in a map from generator
identity to generator state, and the wrapper registered for a generator holds
only its identity (the `callback=callback` default argument). What a plain
callable returns during a collection depends on state outside the
instrument, so it is a parameter of the pass (`World`).

Files:

- `results.dfy` — `Option` and `Result` (a constructed value or a raised message).
- `text.dfy` — ASCII lower-casing and the construction error message.
- `instruments.dfy` — kinds, identity, measurements, diagnostics and the shared construction steps.
- `synchronous.dfy` — `Counter.add`, `UpDownCounter.add`, `Histogram.record` and series of calls.
- `callbacks.dfy` — callback outcomes, generator stepping, registration and invocation.
- `asynchronous.dfy` — `_Asynchronous.__init__` and the collection pass `callback()`.
- `scenarios.dfy` — worked collection cycles.

`callback()` is a lazy generator, so items that a callback's iterable
produced before it raised have already been yielded and stay in the output
(`Batch.Broken`); the failure then ends that callback's contribution for the
pass.

## Model

| member | source | states |
|---|---|---|
| Text.LowerChar | opentelemetry-sdk/src/opentelemetry/sdk/_metrics/_internal/instrument.py:63 | one character lower-cased: never a capital afterwards, capitals shift by 32, everything else is kept |
| Text.Lower | opentelemetry-sdk/src/opentelemetry/sdk/_metrics/_internal/instrument.py:63 | `name.lower()` keeps the length and lower-cases each character in place |
| Text.LowerIsLower | opentelemetry-sdk/src/opentelemetry/sdk/_metrics/_internal/instrument.py:89 | the lower-cased name holds no capital letter |
| Text.LowerIdempotent | opentelemetry-sdk/src/opentelemetry/sdk/_metrics/_internal/instrument.py:63 | lower-casing twice is lower-casing once |
| Text.LowerFixesLower | opentelemetry-sdk/src/opentelemetry/sdk/_metrics/_internal/instrument.py:89 | a name without capitals is stored unchanged |
| Text.ErrorMessage | opentelemetry-sdk/src/opentelemetry/sdk/_metrics/_internal/instrument.py:41-43 | the error text is the fixed 62-character prefix "Expected ASCII string of maximum length 63 characters but got " followed by exactly the offending string |
| Text.ErrorMessageInjective | opentelemetry-sdk/src/opentelemetry/sdk/_metrics/_internal/instrument.py:59-62 | two errors carry the same message exactly when they name the same string, so the message identifies the offender |
| Instruments.Tag | opentelemetry-sdk/src/opentelemetry/sdk/_metrics/_internal/instrument.py:114-119 | every `(value, attributes)` item becomes one measurement with that value and attributes, tagged with the instrument, in the same order |
| Instruments.NewIdentity | opentelemetry-sdk/src/opentelemetry/sdk/_metrics/_internal/instrument.py:56-65 | construction succeeds exactly when both flags are set; an invalid name fails with the name's message whatever the unit; a valid name with an invalid unit fails with the unit's message; on success the name is lower-cased and unit, description, scope and kind are kept |
| Instruments.UnitErrorOnlyForValidName | opentelemetry-sdk/src/opentelemetry/sdk/_metrics/_internal/instrument.py:56-62 | an error naming the unit (distinct from the name) is only raised when the name passed and the unit failed |
| Instruments.StoredNameIsCanonical | opentelemetry-sdk/src/opentelemetry/sdk/_metrics/_internal/instrument.py:63-65 | the stored name holds no capital and is its own lower-case form |
| Instruments.NameCaseIsIrrelevant | opentelemetry-sdk/src/opentelemetry/sdk/_metrics/_internal/instrument.py:89-93 | two accepted names differing only in letter case produce the same instrument |
| Synchronous.CounterAdd | opentelemetry-sdk/src/opentelemetry/sdk/_metrics/_internal/instrument.py:128-139 | a negative amount leaves the consumer untouched and adds one warning naming the counter; any other amount appends exactly one measurement of this counter and logs nothing |
| Synchronous.UpDownCounterAdd | opentelemetry-sdk/src/opentelemetry/sdk/_metrics/_internal/instrument.py:142-148 | every amount, negative and zero included, appends exactly one measurement and logs nothing |
| Synchronous.HistogramRecord | opentelemetry-sdk/src/opentelemetry/sdk/_metrics/_internal/instrument.py:159-171 | a negative amount leaves the consumer untouched and adds one warning naming the histogram; any other amount appends exactly one measurement and logs nothing |
| Synchronous.ApplyDeliversAtMostOne | opentelemetry-sdk/src/opentelemetry/sdk/_metrics/_internal/instrument.py:128-171 | each recording call keeps everything already consumed and logged and adds exactly one entry; the consumer grows exactly when the kind admits the amount |
| Synchronous.Admitted | opentelemetry-sdk/src/opentelemetry/sdk/_metrics/_internal/instrument.py:132 | the sign policy keeps exactly the non-negative calls for Counter and Histogram and every call for UpDownCounter |
| Synchronous.AdmittedAppend | opentelemetry-sdk/src/opentelemetry/sdk/_metrics/_internal/instrument.py:132-137 | each call is judged on its own: the admitted calls of a concatenation are the concatenation of the admitted parts, and one call is kept exactly when its kind admits the amount, which fixes the order and number of admitted calls |
| Synchronous.SeriesDeliversAdmitted | opentelemetry-sdk/src/opentelemetry/sdk/_metrics/_internal/instrument.py:128-171 | after any sequence of calls the consumer has received exactly the admitted calls, in call order, as measurements of this instrument |
| Synchronous.SeriesWarnsPerDropped | opentelemetry-sdk/src/opentelemetry/sdk/_metrics/_internal/instrument.py:128-171 | after any sequence of calls the logger has gained one warning naming the instrument per dropped call, and nothing else |
| Callbacks.Advance | opentelemetry-sdk/src/opentelemetry/sdk/_metrics/_internal/instrument.py:104-105 | `next(generator)` raises StopIteration exactly when the generator is finished, and then changes nothing; a yield step returns its batch and moves the generator on by exactly one step; a raising step raises a failure and finishes the generator; any raise leaves it finished for good |
| Callbacks.WrapAll | opentelemetry-sdk/src/opentelemetry/sdk/_metrics/_internal/instrument.py:100-109 | one registered entry per raw callback, in order; plain callables kept as they are, each generator wrapped and bound to itself |
| Callbacks.Register | opentelemetry-sdk/src/opentelemetry/sdk/_metrics/_internal/instrument.py:96-109 | no callbacks gives an empty list; otherwise the list has the input's length and entry i is the wrapping of raw callback i |
| Callbacks.RegisterRoundTrip | opentelemetry-sdk/src/opentelemetry/sdk/_metrics/_internal/instrument.py:98-109 | registration loses nothing: unwrapping every entry gives back the raw callbacks in order |
| Callbacks.Invoke | opentelemetry-sdk/src/opentelemetry/sdk/_metrics/_internal/instrument.py:104-114 | invoking a plain callable touches no generator; invoking a wrapper advances its own generator one step and no other; no generator appears or disappears |
| Callbacks.WrapperAdvancesOnlyItsGenerator | opentelemetry-sdk/src/opentelemetry/sdk/_metrics/_internal/instrument.py:102-107 | the wrapper registered for the i-th raw callback, a generator, steps exactly that generator once and leaves every other generator as it was |
| Asynchronous.NewAsynchronous | opentelemetry-sdk/src/opentelemetry/sdk/_metrics/_internal/instrument.py:71-109 | the same validation, order of checks and stored fields as the synchronous base; on success the callback list is empty for no callbacks and otherwise unwraps to the input, entry by entry |
| Asynchronous.Collect | opentelemetry-sdk/src/opentelemetry/sdk/_metrics/_internal/instrument.py:111-125 | `callback()` on an instrument always completes; its measurements are tagged with that instrument; the logger keeps its earlier entries and gains only errors naming the instrument; no generator appears or disappears |
| Asynchronous.OutcomeContribution | opentelemetry-sdk/src/opentelemetry/sdk/_metrics/_internal/instrument.py:114-125 | StopIteration adds no measurement and no log entry; any other failure adds exactly one error naming the instrument; a returned iterable contributes one measurement per item it produced |
| Asynchronous.CollectFrom | opentelemetry-sdk/src/opentelemetry/sdk/_metrics/_internal/instrument.py:111-125 | a pass always completes; every measurement it outputs is tagged with the instrument; the logger keeps its earlier entries and gains only errors naming the instrument; no generator appears or disappears |
| Asynchronous.CollectIsConcatenation | opentelemetry-sdk/src/opentelemetry/sdk/_metrics/_internal/instrument.py:111-125 | with no generator registered twice, the output is the concatenation in registration order of each callback's items, and the log gains one error per failed callback, so failures do not stop later callbacks |
| Asynchronous.ConstructedPassIsConcatenation | opentelemetry-sdk/src/opentelemetry/sdk/_metrics/_internal/instrument.py:96-125 | a constructed asynchronous instrument whose generators are alive can be collected, and with no generator passed twice its pass outputs the in-order concatenation of each registered callback's items and logs one error per failed callback |
| Asynchronous.ReportedCountsFailures | opentelemetry-sdk/src/opentelemetry/sdk/_metrics/_internal/instrument.py:120-125 | over any list of callback outcomes, the reported errors number exactly the outcomes that raised something other than StopIteration, and each one names the instrument |
| Asynchronous.PassLogsOneErrorPerFailure | opentelemetry-sdk/src/opentelemetry/sdk/_metrics/_internal/instrument.py:111-125 | with no generator registered twice, the errors one pass logs number exactly the callbacks that raised something other than StopIteration |
| Asynchronous.CollectAdvancesEachGeneratorOnce | opentelemetry-sdk/src/opentelemetry/sdk/_metrics/_internal/instrument.py:102-114 | with no generator registered twice, a pass steps every registered generator exactly once and leaves every other generator unchanged |
| Asynchronous.ExhaustionIsPermanent | opentelemetry-sdk/src/opentelemetry/sdk/_metrics/_internal/instrument.py:104-121 | a finished generator is left as it is by a pass, and its wrapper raises StopIteration, so it contributes nothing in this and every later pass |
| Asynchronous.PlainCallbacksArePure | opentelemetry-sdk/src/opentelemetry/sdk/_metrics/_internal/instrument.py:108-119 | a pass over plain callables changes no generator and outputs the same measurements whenever the callables return the same things |
| Scenarios.GeneratorRunsDry | opentelemetry-sdk/src/opentelemetry/sdk/_metrics/_internal/instrument.py:102-121 | a generator yielding A then B gives A, B, nothing, nothing over four passes, with nothing logged |
| Scenarios.CallbackFailsOnce | opentelemetry-sdk/src/opentelemetry/sdk/_metrics/_internal/instrument.py:111-125 | a callable that raises on the second pass costs only its own items and one error on that pass, and is invoked again on the third |
| Scenarios.BrokenIterableKeepsPrefix | opentelemetry-sdk/src/opentelemetry/sdk/_metrics/_internal/instrument.py:113-125 | items an iterable produced before raising are output, one error is logged, and the next callable still runs |
| Scenarios.SharedGeneratorStepsTwice | opentelemetry-sdk/src/opentelemetry/sdk/_metrics/_internal/instrument.py:100-107 | a generator registered twice is shared by its two wrappers, so one pass takes two of its steps |

## Left out

- The name and unit validator `_check_name_and_unit` lives in the API package and is not part of this model; it is the parameter `check`, a pair of flags for name and unit, and its pattern and length rule are not modelled.
- `str.lower()` is modelled for ASCII letters only; other Unicode case mappings are not modelled.
- The `super().__init__` calls into the API base classes (lines 68 and 94) are foreign code and are not modelled, including anything they do with the `callbacks` iterable.
- The consumer reference stored by the constructors is not a field: the consumer is the `Sinks.consumer` sequence passed to each call. The measurement consumer's own work (aggregation, views, export) is not modelled.
- A measurement refers to its instrument by the instrument's identity value, so two instruments with equal fields are not told apart.
- Amounts are integers; floats and their special values are not modelled, only the sign test matters.
- Logging is the sequence of logger calls (level, template, argument); formatting, handlers and the traceback attached by `exception` are not modelled.
- Only exceptions derived from `Exception` are modelled; a `BaseException` such as `KeyboardInterrupt` would escape `callback()`.
- The pass is modelled as run to its end: a collector that stops iterating `callback()` early, leaving later callbacks uninvoked, and the interleaving of log calls with the collector's consumption are not modelled.
- Callback outcomes are given per pass (`World`) or per generator step; generator `send`/`throw`/`close` and callbacks that re-register other callbacks are not modelled.
- Concurrent `add`/`record`/`callback()` calls are not modelled; the file has no synchronisation.
- A plain callable or a generator body is arbitrary code that could itself call `next()` on a registered generator; the model gives a plain callable no effect on the generators, so "changes no generator" in `PlainCallbacksArePure` and "every other generator unchanged" in `CollectAdvancesEachGeneratorOnce` rest on that abstraction.
- The same plain callable registered twice is given one outcome per pass (`World`), so two invocations of it within one pass cannot return different things.
- A `callbacks` argument that is not iterable, or whose iteration raises, makes `_Asynchronous.__init__` raise at line 100 after the fields are stored; the model takes `callbacks` as an optional finite sequence and does not express that failure.
