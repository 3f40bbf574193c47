/** The module-level state behind the HTTP handlers: the reading history and
    the threshold record, each handler body lifted into one method. */
module Store {
  import opened JsValues
  import opened Readings
  import opened Thresholds
  import opened Dashboard

  class TelemetryStore {
    /** The reading history, oldest first. */
    var history: seq<Record>
    /** The five properties of the shared threshold object. */
    var temperaturaMax: Value
    var umidadeMin: Value
    var luminosidadeMin: Value
    var distanciaMin: Value
    var distanciaMax: Value

    /** The history stays within capacity and every threshold stays truthy. */
    ghost predicate Valid()
      reads this
    {
      |history| <= Capacity && AllTruthy(Snapshot())
    }

    /** The threshold object as a value. */
    function Snapshot(): ThresholdSet
      reads this
    {
      ThresholdSet(temperaturaMax, umidadeMin, luminosidadeMin, distanciaMin, distanciaMax)
    }

    /** The state at start-up: the default thresholds and an empty history. */
    constructor ()
      ensures Valid()
      ensures history == [] && Snapshot() == Defaults()
    {
      temperaturaMax := Num(30.0);
      umidadeMin := Num(40.0);
      luminosidadeMin := Num(200.0);
      distanciaMin := Num(5.0);
      distanciaMax := Num(50.0);
      history := [];
    }

    /** GET /api/get-thresholds: the current threshold record. */
    method GetThresholds() returns (t: ThresholdSet)
      requires Valid()
      ensures t == Snapshot() && AllTruthy(t)
    {
      t := ThresholdSet(temperaturaMax, umidadeMin, luminosidadeMin, distanciaMin, distanciaMax);
    }

    /** POST /api/send-data: stamp the reading with `now` when its timestamp is
        falsy, push it, and drop the oldest entry once there are more than
        `Capacity`. The thresholds are untouched. */
    method SendData(body: Record, now: int)
      requires Valid()
      modifies this
      ensures Valid()
      ensures history == Appended(old(history), Stamp(body, now))
      ensures |history| == Min(|old(history)| + 1, Capacity)
      ensures history[|history| - 1] == Stamp(body, now)
      ensures Snapshot() == old(Snapshot())
    {
      var dados := body;
      if !Truthy(Lookup(dados, TimestampKey)) {
        dados := dados[TimestampKey := Num(now as real)];
      }
      history := history + [dados];
      if |history| > Capacity {
        history := history[1..];
      }
    }

    /** GET /api/get-data: the dashboard view of the current state; nothing changes. */
    method GetData() returns (d: DashboardView)
      requires Valid()
      ensures d == BuildDashboard(history, Snapshot())
      ensures d.dadosAtuais == if history == [] then map[] else history[|history| - 1]
      ensures d.historico == Newest(history, RecentCount)
      ensures d.totalRegistros == |history|
    {
      var ultimosDados := Recent(history);
      var dadosAtuais := if |ultimosDados| > 0 then ultimosDados[|ultimosDados| - 1] else map[];
      d := DashboardView(dadosAtuais, ultimosDados, Snapshot(), |history|, "online");
    }

    /** POST /api/update-thresholds: overwrite each known property whose value in
        `body` is truthy, then echo the whole record. The history is untouched. */
    method UpdateThresholds(body: Record) returns (echo: ThresholdSet)
      requires Valid()
      modifies this
      ensures Valid()
      ensures Snapshot() == Merged(old(Snapshot()), body)
      ensures echo == Snapshot()
      ensures history == old(history)
    {
      ghost var before := Snapshot();
      if Truthy(Lookup(body, TemperaturaMaxKey)) { temperaturaMax := Lookup(body, TemperaturaMaxKey); }
      if Truthy(Lookup(body, UmidadeMinKey)) { umidadeMin := Lookup(body, UmidadeMinKey); }
      if Truthy(Lookup(body, LuminosidadeMinKey)) { luminosidadeMin := Lookup(body, LuminosidadeMinKey); }
      if Truthy(Lookup(body, DistanciaMinKey)) { distanciaMin := Lookup(body, DistanciaMinKey); }
      if Truthy(Lookup(body, DistanciaMaxKey)) { distanciaMax := Lookup(body, DistanciaMaxKey); }
      MergeKeepsTruthy(before, body);
      echo := Snapshot();
    }
  }

  /** A client of the store relying on the method contracts alone. */
  method DashboardScenario(now: int)
  {
    var store := new TelemetryStore();
    store.SendData(map["temperature" := Num(31.0), TimestampKey := Num(1000.0)], now);
    store.SendData(map["temperature" := Num(22.0), TimestampKey := Num(2000.0)], now);
    var d := store.GetData();
    assert d.dadosAtuais == map["temperature" := Num(22.0), TimestampKey := Num(2000.0)];
    assert d.totalRegistros == 2;
    var t := store.UpdateThresholds(map[DistanciaMinKey := Num(0.0), TemperaturaMaxKey := Num(25.0)]);
    assert t == Defaults().(temperaturaMax := Num(25.0));
  }
}
