/**
 What a user callback of an asynchronous instrument does when invoked, the
 generator objects some callbacks are, and how registration wraps each
 raw callback into a zero-argument callable.
 */
module Callbacks {
  import opened Results
  import opened Instruments

  /**
   The iterable one invocation returns: either iterated to its end, or
   raising after it has already produced `prefix`.
   */
  datatype Batch = Complete(items: seq<Observation>) | Broken(prefix: seq<Observation>)

  /** The exception an invocation can raise: `StopIteration` or any other. */
  datatype Raised = StopIteration | Failure

  /** The effect of invoking a wrapped callback once. */
  datatype Outcome = Returned(batch: Batch) | Raises(exc: Raised)

  /**
   One step of a generator's body: yield a batch, or raise an exception
   (which finishes the generator, as it does in Python).
   */
  datatype Step = Yield(batch: Batch) | Throw

  /**
   A generator object: the steps its body will take and how many it has
   taken. Once `pos` reaches the end the body has returned.
   */
  datatype GenState = GenState(steps: seq<Step>, pos: nat) {
    /** The body has returned or raised: every further `next` raises `StopIteration`. */
    predicate Exhausted() {
      pos >= |steps|
    }
  }

  /** Identifies a generator object; generators are shared, mutable objects. */
  type GenId = nat

  /** The generator objects alive, by identity. */
  type Generators = map<GenId, GenState>

  /** Identifies a plain callable. */
  type Handle = nat

  /**
   What each plain callable does when invoked during this collection: it
   may read any state outside the instrument, so it is a parameter of the
   collection rather than a field.
   */
  type World = Handle -> Outcome

  /** A callback as the caller registers it: a plain callable or a generator object. */
  datatype RawCallback = Callable(handle: Handle) | GeneratorObject(gen: GenId)

  /**
   A registered callback: the plain callable itself, or the wrapper whose
   default argument binds it to one generator object.
   */
  datatype Wrapped = Direct(handle: Handle) | Stepper(gen: GenId)

  /** `next(generator)`: the outcome of one step and the generator's new state. */
  function Advance(g: GenState): (r: (Outcome, GenState))
    ensures r.1.steps == g.steps
    ensures r.0 == Raises(StopIteration) <==> g.Exhausted()
    ensures g.Exhausted() ==> r.1 == g
    ensures r.0.Raises? ==> r.1.Exhausted()
    ensures r.0.Returned? ==> r.1.pos == g.pos + 1 && g.steps[g.pos] == Yield(r.0.batch)
    ensures !g.Exhausted() && g.steps[g.pos].Yield? ==>
      r == (Returned(g.steps[g.pos].batch), g.(pos := g.pos + 1))
    ensures !g.Exhausted() && g.steps[g.pos] == Throw ==> r == (Raises(Failure), g.(pos := |g.steps|))
  {
    if g.Exhausted() then (Raises(StopIteration), g)
    else match g.steps[g.pos]
      case Yield(b) => (Returned(b), g.(pos := g.pos + 1))
      case Throw => (Raises(Failure), g.(pos := |g.steps|))
  }

  /** Registration of one raw callback: generators get their own bound wrapper. */
  function WrapOne(c: RawCallback): Wrapped {
    match c
    case Callable(h) => Direct(h)
    case GeneratorObject(g) => Stepper(g)
  }

  /** What a registered callback was registered from. */
  function Unwrap(w: Wrapped): RawCallback {
    match w
    case Direct(h) => Callable(h)
    case Stepper(g) => GeneratorObject(g)
  }

  /** Wraps every raw callback, one wrapper per entry, in registration order. */
  function WrapAll(cs: seq<RawCallback>): (r: seq<Wrapped>)
    ensures |r| == |cs|
    ensures forall i :: 0 <= i < |cs| ==> (r[i].Direct? <==> cs[i].Callable?)
    ensures forall i :: 0 <= i < |cs| && cs[i].Callable? ==> r[i] == Direct(cs[i].handle)
    ensures forall i :: 0 <= i < |cs| && cs[i].GeneratorObject? ==> r[i] == Stepper(cs[i].gen)
  {
    if cs == [] then [] else [WrapOne(cs[0])] + WrapAll(cs[1..])
  }

  /** The callback list an asynchronous instrument builds from its `callbacks` argument. */
  function Register(callbacks: Option<seq<RawCallback>>): (r: seq<Wrapped>)
    ensures callbacks.None? ==> r == []
    ensures callbacks.Some? ==> |r| == |callbacks.value|
    ensures callbacks.Some? ==> forall i :: 0 <= i < |r| ==> r[i] == WrapOne(callbacks.value[i])
  {
    match callbacks
    case None => []
    case Some(cs) => WrapAll(cs)
  }

  /** Registration loses nothing: unwrapping the list gives back the raw callbacks in order. */
  lemma RegisterRoundTrip(cs: seq<RawCallback>)
    ensures |Register(Some(cs))| == |cs|
    ensures forall i :: 0 <= i < |cs| ==> Unwrap(Register(Some(cs))[i]) == cs[i]
  {
  }

  /** Every generator a callback list is bound to is alive. */
  predicate Bound(cbs: seq<Wrapped>, gens: Generators) {
    forall k :: 0 <= k < |cbs| && cbs[k].Stepper? ==> cbs[k].gen in gens
  }

  /** Invoking a registered callback: a plain callable runs, a wrapper advances its generator. */
  function Invoke(cb: Wrapped, world: World, gens: Generators): (r: (Outcome, Generators))
    requires cb.Stepper? ==> cb.gen in gens
    ensures r.1.Keys == gens.Keys
    ensures cb.Direct? ==> r == (world(cb.handle), gens)
    ensures cb.Stepper? ==> r.0 == Advance(gens[cb.gen]).0
    ensures cb.Stepper? ==> r.1 == gens[cb.gen := Advance(gens[cb.gen]).1]
  {
    match cb
    case Direct(h) => (world(h), gens)
    case Stepper(g) =>
      var (o, g') := Advance(gens[g]);
      (o, gens[g := g'])
  }

  /**
   Each generator gets its own wrapper: invoking the i-th registered
   callback, when it came from generator `g`, takes exactly one step of `g`
   and of no other generator.
   */
  lemma WrapperAdvancesOnlyItsGenerator(cs: seq<RawCallback>, i: nat, world: World, gens: Generators)
    requires i < |cs| && cs[i].GeneratorObject? && cs[i].gen in gens
    ensures Register(Some(cs))[i].Stepper?
    ensures var (o, after) := Invoke(Register(Some(cs))[i], world, gens);
      && o == Advance(gens[cs[i].gen]).0
      && after[cs[i].gen] == Advance(gens[cs[i].gen]).1
      && forall g :: g in gens && g != cs[i].gen ==> g in after && after[g] == gens[g]
  {
  }
}
