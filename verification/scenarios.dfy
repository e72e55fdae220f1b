/**
 Worked collection cycles for the behaviours the asynchronous adapter
 promises: a generator that runs dry, a plain callback that fails once,
 and a generator registered twice.
 */
module Scenarios {
  import opened Results
  import opened Instruments
  import opened Callbacks
  import opened Asynchronous

  const Gauge: Identity := Identity(ObservableGauge, "cpu.load", "1", "", Scope("host", "1.0"))
  const A: seq<Observation> := [Observation(3, None)]
  const B: seq<Observation> := [Observation(5, None), Observation(7, Some(map["core" := "0"]))]
  const C: seq<Observation> := [Observation(11, None)]

  /** A world in which every plain callable returns `xs`. */
  function Returning(xs: seq<Observation>): World {
    (h: Handle) => Returned(Complete(xs))
  }

  /**
   A generator that yields batch A, then batch B, then returns: four
   successive passes output A, then B, then nothing, then nothing again,
   and never log anything.
   */
  lemma GeneratorRunsDry()
    ensures var cbs := [Stepper(0)];
      var g0 := map[0 := GenState([Yield(Complete(A)), Yield(Complete(B))], 0)];
      var p1 := CollectFrom(Gauge, cbs, Returning([]), g0, []);
      var p2 := CollectFrom(Gauge, cbs, Returning([]), p1.gens, p1.logger);
      var p3 := CollectFrom(Gauge, cbs, Returning([]), p2.gens, p2.logger);
      var p4 := CollectFrom(Gauge, cbs, Returning([]), p3.gens, p3.logger);
      && p1.measurements == Tag(Gauge, A)
      && p2.measurements == Tag(Gauge, B)
      && p3.measurements == []
      && p4.measurements == []
      && p4.logger == []
  {
  }

  /**
   Two plain callables; the first raises on the second pass only. The
   second pass keeps the other callable's output and logs one error; the
   third pass invokes the failing callable again.
   */
  lemma CallbackFailsOnce()
    ensures var cbs := [Direct(0), Direct(1)];
      var ok: World := (h: Handle) => if h == 0 then Returned(Complete(A)) else Returned(Complete(C));
      var bad: World := (h: Handle) => if h == 0 then Raises(Failure) else Returned(Complete(C));
      var p1 := CollectFrom(Gauge, cbs, ok, map[], []);
      var p2 := CollectFrom(Gauge, cbs, bad, p1.gens, p1.logger);
      var p3 := CollectFrom(Gauge, cbs, ok, p2.gens, p2.logger);
      && p1.measurements == Tag(Gauge, A) + Tag(Gauge, C) && p1.logger == []
      && p2.measurements == Tag(Gauge, C) && p2.logger == [CallbackFailed(Gauge)]
      && p3.measurements == Tag(Gauge, A) + Tag(Gauge, C) && p3.logger == [CallbackFailed(Gauge)]
  {
  }

  /**
   A callable whose iterable raises after its first item: that item is
   still output, one error is logged, and the next callable still runs.
   */
  lemma BrokenIterableKeepsPrefix()
    ensures var cbs := [Direct(0), Direct(1)];
      var w: World := (h: Handle) => if h == 0 then Returned(Broken(A)) else Returned(Complete(C));
      var p := CollectFrom(Gauge, cbs, w, map[], []);
      && p.measurements == Tag(Gauge, A) + Tag(Gauge, C)
      && p.logger == [CallbackFailed(Gauge)]
  {
  }

  /**
   The same generator object registered twice: the two wrappers share it,
   so one pass takes two of its steps.
   */
  lemma SharedGeneratorStepsTwice()
    ensures var cbs := Register(Some([GeneratorObject(0), GeneratorObject(0)]));
      var g0 := map[0 := GenState([Yield(Complete(A)), Yield(Complete(B))], 0)];
      var p := CollectFrom(Gauge, cbs, Returning([]), g0, []);
      && p.measurements == Tag(Gauge, A) + Tag(Gauge, B)
      && p.gens[0].Exhausted()
  {
  }
}
