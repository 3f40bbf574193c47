/** The response of the dashboard read: assembled from one snapshot of the
    history and of the threshold record, without changing either. */
module Dashboard {
  import opened JsValues
  import opened Readings
  import opened Thresholds

  datatype DashboardView = DashboardView(
    dadosAtuais: Record,
    historico: seq<Record>,
    thresholds: ThresholdSet,
    totalRegistros: nat,
    apiStatus: string)

  /** `dados_atuais` is the newest reading or `{}`, `historico` the newest
      `RecentCount` readings oldest first, `total_registros` the history's length. */
  function BuildDashboard(h: seq<Record>, t: ThresholdSet): (d: DashboardView)
    ensures h == [] ==> d.dadosAtuais == map[]
    ensures h != [] ==> d.dadosAtuais == h[|h| - 1]
    ensures d.historico == Newest(h, RecentCount) && |d.historico| == Min(RecentCount, |h|)
    ensures d.thresholds == t
    ensures d.totalRegistros == |h|
    ensures d.apiStatus == "online"
  {
    var ultimos := Recent(h);
    DashboardView(Current(h), ultimos, t, |h|, "online")
  }

  /** Starting empty, two readings that bring their own timestamps are stored
      as sent; the dashboard then shows the second as current, both in order,
      and a total of two. */
  lemma TwoReadingsScenario(now1: int, now2: int)
    ensures
      var r1: Record := map["temperature" := Num(31.0), TimestampKey := Num(1000.0)];
      var r2: Record := map["temperature" := Num(22.0), TimestampKey := Num(2000.0)];
      BuildDashboard(Appended(Appended([], Stamp(r1, now1)), Stamp(r2, now2)), Defaults())
        == DashboardView(r2, [r1, r2], Defaults(), 2, "online")
  {
    var r1: Record := map["temperature" := Num(31.0), TimestampKey := Num(1000.0)];
    var r2: Record := map["temperature" := Num(22.0), TimestampKey := Num(2000.0)];
    assert Lookup(r1, TimestampKey) == Num(1000.0);
    assert Lookup(r2, TimestampKey) == Num(2000.0);
    assert Stamp(r1, now1) == r1;
    assert Stamp(r2, now2) == r2;
    var h := Appended(Appended([], r1), r2);
    assert h == [r1, r2];
    assert BuildDashboard(h, Defaults()).historico == [r1, r2];
  }
}
