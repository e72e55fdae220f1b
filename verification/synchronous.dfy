/**
 The synchronous instruments: `Counter.add`, `UpDownCounter.add` and
 `Histogram.record` hand one measurement to the measurement consumer, or
 drop a negative amount with a warning where the kind forbids it.
 */
module Synchronous {
  import opened Instruments

  /**
   The two places a synchronous call can leave a trace: the measurements
   the consumer has received so far and the diagnostics logged so far.
   */
  datatype Sinks = Sinks(consumer: seq<Measurement>, logger: seq<Diagnostic>)

  const CounterWarning: string := "Add amount must be non-negative on Counter %s."
  const HistogramWarning: string := "Record amount must be non-negative on Histogram %s."

  /** Counter and Histogram refuse negative amounts; UpDownCounter takes any amount. */
  predicate NonNegativeOnly(kind: Kind) {
    kind.Counter? || kind.Histogram?
  }

  /** The warning template each sign-restricted kind logs when it drops an amount. */
  function NegativeAmountWarning(kind: Kind): string
    requires NonNegativeOnly(kind)
  {
    if kind.Counter? then CounterWarning else HistogramWarning
  }

  /** The warning a sign-restricted instrument logs when it drops an amount. */
  function Dropped(inst: Identity): Diagnostic
    requires NonNegativeOnly(inst.kind)
  {
    Diagnostic(Warning, NegativeAmountWarning(inst.kind), inst.name)
  }

  /** `Counter.add`: a negative amount is logged and dropped, any other is consumed. */
  function CounterAdd(inst: Identity, amount: int, attributes: Attributes, s: Sinks): (r: Sinks)
    requires inst.kind == Counter
    ensures amount < 0 ==> r.consumer == s.consumer
    ensures amount < 0 ==> r.logger == s.logger + [Diagnostic(Warning, CounterWarning, inst.name)]
    ensures amount >= 0 ==> r.consumer == s.consumer + [Measurement(amount, inst, attributes)]
    ensures amount >= 0 ==> r.logger == s.logger
  {
    if amount < 0 then
      Sinks(s.consumer, s.logger + [Dropped(inst)])
    else
      Sinks(s.consumer + [Measurement(amount, inst, attributes)], s.logger)
  }

  /** `UpDownCounter.add`: every amount, negative and zero included, is consumed. */
  function UpDownCounterAdd(inst: Identity, amount: int, attributes: Attributes, s: Sinks): (r: Sinks)
    requires inst.kind == UpDownCounter
    ensures r.consumer == s.consumer + [Measurement(amount, inst, attributes)]
    ensures r.logger == s.logger
  {
    Sinks(s.consumer + [Measurement(amount, inst, attributes)], s.logger)
  }

  /** `Histogram.record`: a negative amount is logged and dropped, any other is consumed. */
  function HistogramRecord(inst: Identity, amount: int, attributes: Attributes, s: Sinks): (r: Sinks)
    requires inst.kind == Histogram
    ensures amount < 0 ==> r.consumer == s.consumer
    ensures amount < 0 ==> r.logger == s.logger + [Diagnostic(Warning, HistogramWarning, inst.name)]
    ensures amount >= 0 ==> r.consumer == s.consumer + [Measurement(amount, inst, attributes)]
    ensures amount >= 0 ==> r.logger == s.logger
  {
    if amount < 0 then
      Sinks(s.consumer, s.logger + [Dropped(inst)])
    else
      Sinks(s.consumer + [Measurement(amount, inst, attributes)], s.logger)
  }

  /** The recording method of a synchronous instrument, chosen by its class. */
  function Apply(inst: Identity, call: Observation, s: Sinks): Sinks
    requires inst.kind.IsSynchronous()
  {
    match inst.kind
    case Counter => CounterAdd(inst, call.value, call.attributes, s)
    case UpDownCounter => UpDownCounterAdd(inst, call.value, call.attributes, s)
    case Histogram => HistogramRecord(inst, call.value, call.attributes, s)
  }

  /** One call never loses what the consumer or the logger already held, and adds exactly one entry to one of them. */
  lemma ApplyDeliversAtMostOne(inst: Identity, call: Observation, s: Sinks)
    requires inst.kind.IsSynchronous()
    ensures var r := Apply(inst, call, s);
      |r.consumer| + |r.logger| == |s.consumer| + |s.logger| + 1
      && r.consumer[..|s.consumer|] == s.consumer
      && r.logger[..|s.logger|] == s.logger
    ensures |Apply(inst, call, s).consumer| == |s.consumer| + 1
            <==> !NonNegativeOnly(inst.kind) || call.value >= 0
  {
  }

  /** A sequence of calls made one after another on the same instrument. */
  function Series(inst: Identity, calls: seq<Observation>, s: Sinks): Sinks
    requires inst.kind.IsSynchronous()
    decreases |calls|
  {
    if calls == [] then s else Series(inst, calls[1..], Apply(inst, calls[0], s))
  }

  /** The calls the kind's sign policy lets through, in call order. */
  function Admitted(kind: Kind, calls: seq<Observation>): (r: seq<Observation>)
    ensures |r| <= |calls|
    ensures forall o :: o in r ==> o in calls
    ensures NonNegativeOnly(kind) ==> forall o :: o in r ==> o.value >= 0
    ensures NonNegativeOnly(kind) ==> forall o :: o in calls && o.value >= 0 ==> o in r
    ensures !NonNegativeOnly(kind) ==> r == calls
  {
    if calls == [] then []
    else if NonNegativeOnly(kind) && calls[0].value < 0 then Admitted(kind, calls[1..])
    else [calls[0]] + Admitted(kind, calls[1..])
  }

  /**
   The sign policy judges each call on its own: filtering a concatenation
   is concatenating the filtered parts, and a single call is kept exactly
   when the kind admits its amount. Together these fix the order and the
   multiplicity of the admitted calls.
   */
  lemma {:induction false} AdmittedAppend(kind: Kind, xs: seq<Observation>, ys: seq<Observation>)
    ensures Admitted(kind, xs + ys) == Admitted(kind, xs) + Admitted(kind, ys)
    ensures |xs| == 1 ==> Admitted(kind, xs) == (if NonNegativeOnly(kind) && xs[0].value < 0 then [] else xs)
    decreases |xs|
  {
    if xs != [] {
      assert (xs + ys)[0] == xs[0];
      assert (xs + ys)[1..] == xs[1..] + ys;
      AdmittedAppend(kind, xs[1..], ys);
      if !(NonNegativeOnly(kind) && xs[0].value < 0) {
        assert Admitted(kind, xs + ys) == [xs[0]] + (Admitted(kind, xs[1..]) + Admitted(kind, ys));
      }
    } else {
      assert xs + ys == ys;
    }
  }

  /**
   Over any sequence of calls, the consumer receives exactly the admitted
   calls as measurements of this instrument, in call order.
   */
  lemma {:induction false} SeriesDeliversAdmitted(inst: Identity, calls: seq<Observation>, s: Sinks)
    requires inst.kind.IsSynchronous()
    ensures Series(inst, calls, s).consumer == s.consumer + Tag(inst, Admitted(inst.kind, calls))
    decreases |calls|
  {
    if calls != [] {
      var c := calls[0];
      var s1 := Apply(inst, c, s);
      SeriesDeliversAdmitted(inst, calls[1..], s1);
      var rest := Admitted(inst.kind, calls[1..]);
      if NonNegativeOnly(inst.kind) && c.value < 0 {
        assert Admitted(inst.kind, calls) == rest;
      } else {
        assert Admitted(inst.kind, calls) == [c] + rest;
        TagAppend(inst, [c], rest);
      }
    }
  }

  /**
   Over any sequence of calls, the logger keeps what it held and receives
   one warning naming the instrument per dropped call, and nothing else.
   */
  lemma {:induction false} SeriesWarnsPerDropped(inst: Identity, calls: seq<Observation>, s: Sinks)
    requires inst.kind.IsSynchronous()
    ensures |Series(inst, calls, s).logger| == |s.logger| + |calls| - |Admitted(inst.kind, calls)|
    ensures Series(inst, calls, s).logger[..|s.logger|] == s.logger
    ensures forall i :: |s.logger| <= i < |Series(inst, calls, s).logger| ==>
      NonNegativeOnly(inst.kind) && Series(inst, calls, s).logger[i] == Dropped(inst)
    decreases |calls|
  {
    if calls != [] {
      var c := calls[0];
      var s1 := Apply(inst, c, s);
      SeriesWarnsPerDropped(inst, calls[1..], s1);
      var r := Series(inst, calls, s);
      assert r == Series(inst, calls[1..], s1);
      if NonNegativeOnly(inst.kind) && c.value < 0 {
        assert Admitted(inst.kind, calls) == Admitted(inst.kind, calls[1..]);
        assert s1.logger == s.logger + [Dropped(inst)];
        assert r.logger[..|s1.logger|] == s1.logger;
        assert r.logger[..|s.logger|] == s1.logger[..|s.logger|];
      } else {
        assert Admitted(inst.kind, calls) == [c] + Admitted(inst.kind, calls[1..]);
        assert s1.logger == s.logger;
      }
    }
  }
}
