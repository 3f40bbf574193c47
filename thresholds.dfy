/** The alert threshold record: five named values with fixed defaults, updated
    by a partial merge that only takes the truthy values of a request body. */
module Thresholds {
  import opened JsValues

  const TemperaturaMaxKey: string := "temperatura_max"
  const UmidadeMinKey: string := "umidade_min"
  const LuminosidadeMinKey: string := "luminosidade_min"
  const DistanciaMinKey: string := "distancia_min"
  const DistanciaMaxKey: string := "distancia_max"

  /** The five property names the merge looks at, in the order it assigns them. */
  const Keys: seq<string> :=
    [TemperaturaMaxKey, UmidadeMinKey, LuminosidadeMinKey, DistanciaMinKey, DistanciaMaxKey]

  /** A snapshot of the threshold record. The values are whatever the body
      supplied, not necessarily numbers. */
  datatype ThresholdSet = ThresholdSet(
    temperaturaMax: Value,
    umidadeMin: Value,
    luminosidadeMin: Value,
    distanciaMin: Value,
    distanciaMax: Value)

  /** The values the record starts with: 30 °C, 40 %, 200 lux, 5 cm and 50 cm. */
  function Defaults(): (t: ThresholdSet)
    ensures AllTruthy(t)
  {
    ThresholdSet(Num(30.0), Num(40.0), Num(200.0), Num(5.0), Num(50.0))
  }

  /** The record's property of the given name; `undefined` for any other name. */
  function Field(t: ThresholdSet, key: string): Value {
    if key == TemperaturaMaxKey then t.temperaturaMax
    else if key == UmidadeMinKey then t.umidadeMin
    else if key == LuminosidadeMinKey then t.luminosidadeMin
    else if key == DistanciaMinKey then t.distanciaMin
    else if key == DistanciaMaxKey then t.distanciaMax
    else Undefined
  }

  /** One guarded assignment `if (incoming) field = incoming`. */
  function Override(current: Value, incoming: Value): Value {
    if Truthy(incoming) then incoming else current
  }

  /** The record after a merge of `body`, one known property at a time: each
      known property takes the body's value when that value is truthy and keeps
      its old value otherwise. */
  function Merged(t: ThresholdSet, body: Record): (r: ThresholdSet)
    ensures forall i :: 0 <= i < |Keys| && Truthy(Lookup(body, Keys[i])) ==>
      Field(r, Keys[i]) == Lookup(body, Keys[i])
    ensures forall i :: 0 <= i < |Keys| && !Truthy(Lookup(body, Keys[i])) ==>
      Field(r, Keys[i]) == Field(t, Keys[i])
  {
    ThresholdSet(
      Override(t.temperaturaMax, Lookup(body, TemperaturaMaxKey)),
      Override(t.umidadeMin, Lookup(body, UmidadeMinKey)),
      Override(t.luminosidadeMin, Lookup(body, LuminosidadeMinKey)),
      Override(t.distanciaMin, Lookup(body, DistanciaMinKey)),
      Override(t.distanciaMax, Lookup(body, DistanciaMaxKey)))
  }

  /** Every threshold holds a truthy value. */
  predicate AllTruthy(t: ThresholdSet) {
    forall i :: 0 <= i < |Keys| ==> Truthy(Field(t, Keys[i]))
  }

  /** A snapshot is determined by its five named properties. */
  lemma FieldsDetermine(t: ThresholdSet, u: ThresholdSet)
    requires forall i :: 0 <= i < |Keys| ==> Field(t, Keys[i]) == Field(u, Keys[i])
    ensures t == u
  {
    assert Field(t, Keys[0]) == Field(u, Keys[0]);
    assert Field(t, Keys[1]) == Field(u, Keys[1]);
    assert Field(t, Keys[2]) == Field(u, Keys[2]);
    assert Field(t, Keys[3]) == Field(u, Keys[3]);
    assert Field(t, Keys[4]) == Field(u, Keys[4]);
  }

  /** Properties other than the five known ones have no effect: two bodies that
      agree on the known names merge alike. */
  lemma MergeIgnoresUnknownKeys(t: ThresholdSet, b1: Record, b2: Record)
    requires forall i :: 0 <= i < |Keys| ==> Lookup(b1, Keys[i]) == Lookup(b2, Keys[i])
    ensures Merged(t, b1) == Merged(t, b2)
  {
    FieldsDetermine(Merged(t, b1), Merged(t, b2));
  }

  /** Merging the same body twice gives the record of merging it once. */
  lemma MergeIdempotent(t: ThresholdSet, body: Record)
    ensures Merged(Merged(t, body), body) == Merged(t, body)
  {
  }

  /** A body whose known properties are all falsy leaves the record unchanged. */
  lemma MergeFalsyIsNoop(t: ThresholdSet, body: Record)
    requires forall i :: 0 <= i < |Keys| ==> !Truthy(Lookup(body, Keys[i]))
    ensures Merged(t, body) == t
  {
    FieldsDetermine(Merged(t, body), t);
  }

  /** The empty body leaves the record unchanged; so do `null` and `0`, which
      are falsy: a zero threshold cannot be set. */
  lemma MergeEmptyNullZeroAreNoops(t: ThresholdSet, key: string)
    ensures Merged(t, map[]) == t
    ensures Merged(t, map[key := Null]) == t
    ensures Merged(t, map[key := Num(0.0)]) == t
  {
    MergeFalsyIsNoop(t, map[]);
    MergeFalsyIsNoop(t, map[key := Null]);
    MergeFalsyIsNoop(t, map[key := Num(0.0)]);
  }

  /** From the defaults, merging `{temperatura_max: 25}` changes only that
      property; a following empty or null merge keeps the result. */
  lemma MergeFromDefaultsExample()
    ensures Merged(Defaults(), map[TemperaturaMaxKey := Num(25.0)])
         == Defaults().(temperaturaMax := Num(25.0))
    ensures Merged(Defaults().(temperaturaMax := Num(25.0)), map[])
         == Defaults().(temperaturaMax := Num(25.0))
    ensures Merged(Defaults().(temperaturaMax := Num(25.0)), map[TemperaturaMaxKey := Null])
         == Defaults().(temperaturaMax := Num(25.0))
  {
  }

  /** Merging into a record whose five thresholds are all truthy keeps them all
      truthy, so starting from the defaults every threshold stays truthy. */
  lemma MergeKeepsTruthy(t: ThresholdSet, body: Record)
    requires AllTruthy(t)
    ensures AllTruthy(Merged(t, body))
  {
  }
}
