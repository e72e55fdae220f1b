/**
 The identity shared by every instrument variant, the measurement value
 object, the diagnostics the layer logs, and the construction-time
 validation that both the synchronous and the asynchronous base classes
 perform before storing any field.
 */
module Instruments {
  import opened Results
  import opened Text

  /** The six concrete instrument classes. */
  datatype Kind =
    | Counter
    | UpDownCounter
    | Histogram
    | ObservableCounter
    | ObservableUpDownCounter
    | ObservableGauge
  {
    /** Counter, UpDownCounter and Histogram are recorded into directly by the caller. */
    predicate IsSynchronous() {
      Counter? || UpDownCounter? || Histogram?
    }
  }

  /** The owning instrumentation scope, kept opaque: the layer only stores it. */
  datatype Scope = Scope(name: string, version: string)

  /** The string-keyed attributes of a data point; `None` is the default argument. */
  type Attributes = Option<map<string, string>>

  /** What the fields of a successfully constructed instrument hold. */
  datatype Identity = Identity(
    kind: Kind,
    name: string,
    unit: string,
    description: string,
    scope: Scope)

  /** A `(value, attributes)` pair, as passed to `add`/`record` or yielded by a callback. */
  datatype Observation = Observation(value: int, attributes: Attributes)

  /** One data point, tied to the instrument that produced it. */
  datatype Measurement = Measurement(value: int, instrument: Identity, attributes: Attributes)

  /** The severity of a logged diagnostic: `warning` or `exception` (logged at error level). */
  datatype Level = Warning | Error

  /** One logger call: the level, the %-format template and its single argument. */
  datatype Diagnostic = Diagnostic(level: Level, template: string, arg: string)

  /**
   The name-and-unit validator of the API package, which returns a pair of
   flags: whether the name is valid and whether the unit is valid.
   */
  type NameUnitCheck = (string, string) -> (bool, bool)

  /** Wraps each observation into a measurement tagged with `inst`, keeping the order. */
  function Tag(inst: Identity, xs: seq<Observation>): (r: seq<Measurement>)
    ensures |r| == |xs|
    ensures forall i :: 0 <= i < |xs| ==>
      r[i] == Measurement(xs[i].value, inst, xs[i].attributes)
  {
    if xs == [] then [] else [Measurement(xs[0].value, inst, xs[0].attributes)] + Tag(inst, xs[1..])
  }

  /** Tagging commutes with concatenation. */
  lemma TagAppend(inst: Identity, xs: seq<Observation>, ys: seq<Observation>)
    ensures Tag(inst, xs + ys) == Tag(inst, xs) + Tag(inst, ys)
  {
  }

  /**
   The steps both `_Synchronous.__init__` and `_Asynchronous.__init__` take
   before anything else: validate name and unit (the name first), fail with
   a message naming the offending string, otherwise store the name
   lower-cased and the rest verbatim.
   */
  function NewIdentity(
    kind: Kind,
    check: NameUnitCheck,
    name: string,
    scope: Scope,
    unit: string,
    description: string): (r: Result<Identity>)
    ensures r.Ok? <==> check(name, unit).0 && check(name, unit).1
    ensures !check(name, unit).0 ==> r == Err(ErrorMessage(name))
    ensures check(name, unit).0 && !check(name, unit).1 ==> r == Err(ErrorMessage(unit))
    ensures r.Ok? ==> r.value.kind == kind && r.value.scope == scope
    ensures r.Ok? ==> r.value.name == Lower(name)
    ensures r.Ok? ==> r.value.unit == unit && r.value.description == description
  {
    var (nameValid, unitValid) := check(name, unit);
    if !nameValid then Err(ErrorMessage(name))
    else if !unitValid then Err(ErrorMessage(unit))
    else Ok(Identity(kind, Lower(name), unit, description, scope))
  }

  /**
   The name is checked before the unit: an error that names the unit (and
   not also the name) means the name passed validation.
   */
  lemma UnitErrorOnlyForValidName(
    kind: Kind, check: NameUnitCheck, name: string, scope: Scope, unit: string, description: string)
    requires NewIdentity(kind, check, name, scope, unit, description) == Err(ErrorMessage(unit))
    requires name != unit
    ensures check(name, unit).0
    ensures !check(name, unit).1
  {
  }

  /** The stored name is in canonical form: lower-cased, so lower-casing it again is a no-op. */
  lemma StoredNameIsCanonical(
    kind: Kind, check: NameUnitCheck, name: string, scope: Scope, unit: string, description: string)
    requires NewIdentity(kind, check, name, scope, unit, description).Ok?
    ensures IsLower(NewIdentity(kind, check, name, scope, unit, description).value.name)
    ensures Lower(NewIdentity(kind, check, name, scope, unit, description).value.name)
            == NewIdentity(kind, check, name, scope, unit, description).value.name
  {
  }

  /**
   Two accepted names that differ only in the case of ASCII letters give
   the same instrument identity.
   */
  lemma NameCaseIsIrrelevant(
    kind: Kind, check: NameUnitCheck, n1: string, n2: string, scope: Scope, unit: string, description: string)
    requires |n1| == |n2|
    requires forall i :: 0 <= i < |n1| ==> LowerChar(n1[i]) == LowerChar(n2[i])
    requires NewIdentity(kind, check, n1, scope, unit, description).Ok?
    requires NewIdentity(kind, check, n2, scope, unit, description).Ok?
    ensures NewIdentity(kind, check, n1, scope, unit, description)
            == NewIdentity(kind, check, n2, scope, unit, description)
  {
    assert Lower(n1) == Lower(n2);
  }
}
