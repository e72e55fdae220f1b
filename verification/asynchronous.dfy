/**
 The asynchronous instruments (ObservableCounter, ObservableUpDownCounter,
 ObservableGauge): construction with callback registration, and the
 collection pass `callback()` that turns what the callbacks produce into
 measurements while isolating each callback's failure.
 */
module Asynchronous {
  import opened Results
  import opened Text
  import opened Instruments
  import opened Callbacks

  /** An asynchronous instrument: its identity and its registered callbacks. */
  datatype AsyncInstrument = AsyncInstrument(identity: Identity, callbacks: seq<Wrapped>)

  const CallbackFailedTemplate: string := "Callback failed for instrument %s."

  /** The error logged when a callback raises anything but `StopIteration`. */
  function CallbackFailed(inst: Identity): Diagnostic {
    Diagnostic(Error, CallbackFailedTemplate, inst.name)
  }

  /** `_Asynchronous.__init__`: validate, store the identity, then register the callbacks. */
  function NewAsynchronous(
    kind: Kind,
    check: NameUnitCheck,
    name: string,
    scope: Scope,
    callbacks: Option<seq<RawCallback>>,
    unit: string,
    description: string): (r: Result<AsyncInstrument>)
    requires !kind.IsSynchronous()
    ensures r.Ok? <==> check(name, unit).0 && check(name, unit).1
    ensures !check(name, unit).0 ==> r == Err(ErrorMessage(name))
    ensures check(name, unit).0 && !check(name, unit).1 ==> r == Err(ErrorMessage(unit))
    ensures r.Ok? ==> r.value.identity == Identity(kind, Lower(name), unit, description, scope)
    ensures r.Ok? && callbacks.None? ==> r.value.callbacks == []
    ensures r.Ok? && callbacks.Some? ==>
      |r.value.callbacks| == |callbacks.value|
      && forall i :: 0 <= i < |callbacks.value| ==> Unwrap(r.value.callbacks[i]) == callbacks.value[i]
  {
    match NewIdentity(kind, check, name, scope, unit, description)
    case Err(m) => Err(m)
    case Ok(id) =>
      Ok(AsyncInstrument(id, Register(callbacks)))
  }

  /** The measurements one invocation's outcome contributes, in the order produced. */
  function Emitted(inst: Identity, o: Outcome): seq<Measurement> {
    match o
    case Returned(Complete(xs)) => Tag(inst, xs)
    case Returned(Broken(p)) => Tag(inst, p)
    case Raises(_) => []
  }

  /** The diagnostics one invocation's outcome causes: one error for any exception but `StopIteration`. */
  function Reported(inst: Identity, o: Outcome): seq<Diagnostic> {
    match o
    case Returned(Complete(_)) => []
    case Returned(Broken(_)) => [CallbackFailed(inst)]
    case Raises(StopIteration) => []
    case Raises(Failure) => [CallbackFailed(inst)]
  }

  /** True when the invocation raised something other than `StopIteration`. */
  predicate Failed(o: Outcome) {
    (o.Returned? && o.batch.Broken?) || o == Raises(Failure)
  }

  /** One callback's fate: `StopIteration` is silent, any other failure is one error naming the instrument. */
  lemma OutcomeContribution(inst: Identity, o: Outcome)
    ensures o == Raises(StopIteration) ==> Emitted(inst, o) == [] && Reported(inst, o) == []
    ensures o == Raises(Failure) ==> Emitted(inst, o) == []
    ensures |Reported(inst, o)| == (if Failed(o) then 1 else 0)
    ensures forall d :: d in Reported(inst, o) ==> d.level == Error && d.arg == inst.name
    ensures o.Returned? && o.batch.Complete? ==> |Emitted(inst, o)| == |o.batch.items|
    ensures o.Returned? && o.batch.Broken? ==> |Emitted(inst, o)| == |o.batch.prefix|
    ensures forall m :: m in Emitted(inst, o) ==> m.instrument == inst
  {
  }

  /** The result of one collection pass. */
  datatype Pass = Pass(measurements: seq<Measurement>, gens: Generators, logger: seq<Diagnostic>)

  /**
   `callback()` over the callbacks `cbs`, in order: invoke each, emit its
   measurements, log its failure, and go on with the next one whatever
   happened. It never fails.
   */
  function CollectFrom(inst: Identity, cbs: seq<Wrapped>, world: World, gens: Generators, logger: seq<Diagnostic>): (r: Pass)
    requires Bound(cbs, gens)
    ensures r.gens.Keys == gens.Keys
    ensures forall m :: m in r.measurements ==> m.instrument == inst
    ensures |r.logger| >= |logger| && r.logger[..|logger|] == logger
    ensures forall i :: |logger| <= i < |r.logger| ==> r.logger[i] == CallbackFailed(inst)
    decreases |cbs|
  {
    if cbs == [] then Pass([], gens, logger)
    else
      var (o, gens1) := Invoke(cbs[0], world, gens);
      var rest := CollectFrom(inst, cbs[1..], world, gens1, logger + Reported(inst, o));
      Pass(Emitted(inst, o) + rest.measurements, rest.gens, rest.logger)
  }

  /** One collection pass of an asynchronous instrument. */
  function Collect(a: AsyncInstrument, world: World, gens: Generators, logger: seq<Diagnostic>): (r: Pass)
    requires Bound(a.callbacks, gens)
    ensures r.gens.Keys == gens.Keys
    ensures forall m :: m in r.measurements ==> m.instrument == a.identity
    ensures |r.logger| >= |logger| && r.logger[..|logger|] == logger
    ensures forall i :: |logger| <= i < |r.logger| ==> r.logger[i] == CallbackFailed(a.identity)
  {
    CollectFrom(a.identity, a.callbacks, world, gens, logger)
  }

  /** No generator object is reachable through two registered callbacks. */
  predicate DistinctGenerators(cbs: seq<Wrapped>) {
    forall i, j :: 0 <= i < j < |cbs| && cbs[i].Stepper? && cbs[j].Stepper? ==> cbs[i].gen != cbs[j].gen
  }

  /** Whether some registered callback is bound to generator `g`. */
  predicate Uses(cbs: seq<Wrapped>, g: GenId) {
    exists k :: 0 <= k < |cbs| && cbs[k] == Stepper(g)
  }

  /** The outcome of each callback if it were invoked against the state before the pass. */
  function FirstOutcomes(cbs: seq<Wrapped>, world: World, gens: Generators): (r: seq<Outcome>)
    requires Bound(cbs, gens)
    ensures |r| == |cbs|
    ensures forall i :: 0 <= i < |cbs| ==> r[i] == Invoke(cbs[i], world, gens).0
  {
    if cbs == [] then [] else [Invoke(cbs[0], world, gens).0] + FirstOutcomes(cbs[1..], world, gens)
  }

  /** All measurements of a list of outcomes, concatenated in order. */
  function AllEmitted(inst: Identity, os: seq<Outcome>): seq<Measurement> {
    if os == [] then [] else Emitted(inst, os[0]) + AllEmitted(inst, os[1..])
  }

  /** All diagnostics of a list of outcomes, concatenated in order. */
  function AllReported(inst: Identity, os: seq<Outcome>): seq<Diagnostic> {
    if os == [] then [] else Reported(inst, os[0]) + AllReported(inst, os[1..])
  }

  /** How many of the outcomes are failures other than `StopIteration`. */
  function Failures(os: seq<Outcome>): nat {
    if os == [] then 0 else (if Failed(os[0]) then 1 else 0) + Failures(os[1..])
  }

  /** A pass's outcomes log exactly one error naming the instrument per failed callback. */
  lemma {:induction false} ReportedCountsFailures(inst: Identity, os: seq<Outcome>)
    ensures |AllReported(inst, os)| == Failures(os)
    ensures forall d :: d in AllReported(inst, os) ==> d == CallbackFailed(inst)
  {
    if os != [] {
      ReportedCountsFailures(inst, os[1..]);
      OutcomeContribution(inst, os[0]);
    }
  }

  /** Callbacks that do not use generator `g` do not notice a change of `g`. */
  lemma OutcomesIgnoreOtherGenerators(cbs: seq<Wrapped>, world: World, gens: Generators, g: GenId, st: GenState)
    requires Bound(cbs, gens) && g in gens
    requires !Uses(cbs, g)
    ensures FirstOutcomes(cbs, world, gens[g := st]) == FirstOutcomes(cbs, world, gens)
  {
  }

  /**
   With every generator registered at most once, one pass outputs the
   concatenation, in registration order, of what each callback produces
   from the state before the pass, and logs one error per failed callback,
   in the same order.
   */
  lemma {:induction false} CollectIsConcatenation(
    inst: Identity, cbs: seq<Wrapped>, world: World, gens: Generators, logger: seq<Diagnostic>)
    requires Bound(cbs, gens) && DistinctGenerators(cbs)
    ensures CollectFrom(inst, cbs, world, gens, logger).measurements
            == AllEmitted(inst, FirstOutcomes(cbs, world, gens))
    ensures CollectFrom(inst, cbs, world, gens, logger).logger
            == logger + AllReported(inst, FirstOutcomes(cbs, world, gens))
    decreases |cbs|
  {
    if cbs != [] {
      var (o, gens1) := Invoke(cbs[0], world, gens);
      var tail := cbs[1..];
      var logger1 := logger + Reported(inst, o);
      assert Bound(tail, gens1);
      assert DistinctGenerators(tail);
      CollectIsConcatenation(inst, tail, world, gens1, logger1);
      if cbs[0].Stepper? {
        var g := cbs[0].gen;
        assert !Uses(tail, g);
        OutcomesIgnoreOtherGenerators(tail, world, gens, g, Advance(gens[g]).1);
      }
      assert FirstOutcomes(tail, world, gens1) == FirstOutcomes(tail, world, gens);
      var os := FirstOutcomes(cbs, world, gens);
      assert os[0] == o;
      assert os[1..] == FirstOutcomes(tail, world, gens);
      assert logger1 + AllReported(inst, os[1..]) == logger + AllReported(inst, os);
    }
  }

  /**
   With every generator registered at most once, one pass advances each
   registered generator by exactly one step and leaves every other
   generator untouched.
   */
  lemma {:induction false} CollectAdvancesEachGeneratorOnce(
    inst: Identity, cbs: seq<Wrapped>, world: World, gens: Generators, logger: seq<Diagnostic>)
    requires Bound(cbs, gens) && DistinctGenerators(cbs)
    ensures forall g :: g in gens && Uses(cbs, g) ==>
      CollectFrom(inst, cbs, world, gens, logger).gens[g] == Advance(gens[g]).1
    ensures forall g :: g in gens && !Uses(cbs, g) ==>
      CollectFrom(inst, cbs, world, gens, logger).gens[g] == gens[g]
    decreases |cbs|
  {
    if cbs != [] {
      var (o, gens1) := Invoke(cbs[0], world, gens);
      var tail := cbs[1..];
      var logger1 := logger + Reported(inst, o);
      assert Bound(tail, gens1);
      assert DistinctGenerators(tail);
      CollectAdvancesEachGeneratorOnce(inst, tail, world, gens1, logger1);
      var r := CollectFrom(inst, cbs, world, gens, logger);
      assert r.gens == CollectFrom(inst, tail, world, gens1, logger1).gens;
      forall g | g in gens
        ensures Uses(cbs, g) ==> r.gens[g] == Advance(gens[g]).1
        ensures !Uses(cbs, g) ==> r.gens[g] == gens[g]
      {
        if cbs[0] == Stepper(g) {
          assert !Uses(tail, g);
          assert Uses(cbs, g) by { assert cbs[0] == Stepper(g); }
        } else {
          assert gens1[g] == gens[g];
          if Uses(cbs, g) {
            var k :| 0 <= k < |cbs| && cbs[k] == Stepper(g);
            assert tail[k - 1] == Stepper(g);
          }
          if Uses(tail, g) {
            var k :| 0 <= k < |tail| && tail[k] == Stepper(g);
            assert cbs[k + 1] == Stepper(g);
          }
        }
      }
    }
  }

  /**
   An exhausted generator stays exhausted: a pass leaves it as it was
   (whatever the registration looks like), so it contributes nothing to
   this or any later pass.
   */
  lemma {:induction false} ExhaustionIsPermanent(
    inst: Identity, cbs: seq<Wrapped>, world: World, gens: Generators, logger: seq<Diagnostic>, g: GenId)
    requires Bound(cbs, gens) && g in gens && gens[g].Exhausted()
    ensures CollectFrom(inst, cbs, world, gens, logger).gens[g] == gens[g]
    ensures forall i :: 0 <= i < |cbs| && cbs[i] == Stepper(g) ==>
      Invoke(cbs[i], world, gens).0 == Raises(StopIteration)
    decreases |cbs|
  {
    if cbs != [] {
      var (o, gens1) := Invoke(cbs[0], world, gens);
      assert gens1[g] == gens[g];
      ExhaustionIsPermanent(inst, cbs[1..], world, gens1, logger + Reported(inst, o), g);
    }
  }

  /**
   A pass over plain callables only touches no generator, and what it
   outputs depends on nothing but what the callables return now: repeated
   passes against the same world output the same measurements.
   */
  lemma {:induction false} PlainCallbacksArePure(
    inst: Identity, cbs: seq<Wrapped>, world: World, gens1: Generators, gens2: Generators,
    log1: seq<Diagnostic>, log2: seq<Diagnostic>)
    requires forall k :: 0 <= k < |cbs| ==> cbs[k].Direct?
    ensures CollectFrom(inst, cbs, world, gens1, log1).gens == gens1
    ensures CollectFrom(inst, cbs, world, gens1, log1).measurements
            == CollectFrom(inst, cbs, world, gens2, log2).measurements
    decreases |cbs|
  {
    if cbs != [] {
      var o := world(cbs[0].handle);
      PlainCallbacksArePure(inst, cbs[1..], world, gens1, gens2,
                            log1 + Reported(inst, o), log2 + Reported(inst, o));
    }
  }

  /** Every generator object among the raw callbacks is alive. */
  predicate Alive(cs: seq<RawCallback>, gens: Generators) {
    forall k :: 0 <= k < |cs| && cs[k].GeneratorObject? ==> cs[k].gen in gens
  }

  /** No generator object is passed twice among the raw callbacks. */
  predicate DistinctRaw(cs: seq<RawCallback>) {
    forall i, j :: 0 <= i < j < |cs| && cs[i].GeneratorObject? && cs[j].GeneratorObject? ==> cs[i].gen != cs[j].gen
  }

  /**
   A successfully constructed asynchronous instrument can be collected
   against any state in which its generators are alive, and, with no
   generator passed twice, its pass outputs the in-order concatenation of
   what each registered callback produces and logs one error per failed
   callback.
   */
  lemma ConstructedPassIsConcatenation(
    kind: Kind, check: NameUnitCheck, name: string, scope: Scope, callbacks: Option<seq<RawCallback>>,
    unit: string, description: string, world: World, gens: Generators, logger: seq<Diagnostic>)
    requires !kind.IsSynchronous()
    requires NewAsynchronous(kind, check, name, scope, callbacks, unit, description).Ok?
    requires callbacks.Some? ==> Alive(callbacks.value, gens) && DistinctRaw(callbacks.value)
    ensures var a := NewAsynchronous(kind, check, name, scope, callbacks, unit, description).value;
      && Bound(a.callbacks, gens)
      && Collect(a, world, gens, logger).measurements
         == AllEmitted(a.identity, FirstOutcomes(a.callbacks, world, gens))
      && Collect(a, world, gens, logger).logger
         == logger + AllReported(a.identity, FirstOutcomes(a.callbacks, world, gens))
  {
    var a := NewAsynchronous(kind, check, name, scope, callbacks, unit, description).value;
    var cbs := a.callbacks;
    assert cbs == Register(callbacks);
    forall k | 0 <= k < |cbs| && cbs[k].Stepper?
      ensures cbs[k].gen in gens
    {
      assert callbacks.value[k].GeneratorObject?;
    }
    forall i, j | 0 <= i < j < |cbs| && cbs[i].Stepper? && cbs[j].Stepper?
      ensures cbs[i].gen != cbs[j].gen
    {
      assert callbacks.value[i].GeneratorObject? && callbacks.value[j].GeneratorObject?;
    }
    CollectIsConcatenation(a.identity, cbs, world, gens, logger);
  }

  /** With every generator registered at most once, a pass logs exactly one error per failed callback. */
  lemma PassLogsOneErrorPerFailure(
    inst: Identity, cbs: seq<Wrapped>, world: World, gens: Generators, logger: seq<Diagnostic>)
    requires Bound(cbs, gens) && DistinctGenerators(cbs)
    ensures |CollectFrom(inst, cbs, world, gens, logger).logger| == |logger| + Failures(FirstOutcomes(cbs, world, gens))
  {
    CollectIsConcatenation(inst, cbs, world, gens, logger);
    ReportedCountsFailures(inst, FirstOutcomes(cbs, world, gens));
  }

}
