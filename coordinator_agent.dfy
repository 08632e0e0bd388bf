/** The coordinator: runs detection, enrichment and analysis in sequence on
    one batch. Collecting the lines and rendering the reports are not part of
    this model; the batch, its outlier labels and the minted identifiers are
    inputs. */
module CoordinatorAgent {
  import opened Text
  import opened Records
  import opened DetectionAgent
  import opened ThreatIntelAgent
  import opened AnalystAgent

  /** The number of anomalous lines that contain an indicator phrase. */
  ghost function IndicatorHits(logs: seq<string>, preds: seq<int>): nat
    requires |preds| == |logs|
    decreases |logs|
  {
    if |logs| == 0 then
      0
    else
      var n := |logs| - 1;
      IndicatorHits(logs[..n], preds[..n])
        + (if preds[n] == Outlier && HasIndicator(logs[n]) then 1 else 0)
  }

  /** The analysis a run produces, as a value: one incident per outlier
      label, and as many high-risk ones as there are flagged lines with an
      indicator phrase. */
  function Pipeline(logs: seq<string>, preds: seq<int>, ids: seq<string>): (a: Analysis)
    requires |preds| == |logs| && |ids| == |logs|
    ensures a.totalIncidents == multiset(preds)[Outlier]
    ensures a.highRisk == IndicatorHits(logs, preds)
  {
    DetectedCount(logs, preds, ids);
    HighRiskIsIndicatorHits(logs, preds, ids);
    AnalysisOf(Enriched(Detected(logs, preds, ids)))
  }

  /** The high-risk count contributed by one line. */
  lemma HighRiskOfLine(id: string, log: string, pred: int)
    ensures HighRiskCount(Enriched(if pred == Outlier then [Make(id, log)] else []))
      == if pred == Outlier && HasIndicator(log) then 1 else 0
  {
    if pred == Outlier {
      var w := Enriched([Make(id, log)]);
      assert w[..0] == [];
    }
  }

  /** Every detection has risk 60 or 90, so the high-risk records are exactly
      those of the anomalous lines with an indicator phrase. */
  lemma {:induction false} HighRiskIsIndicatorHits(logs: seq<string>, preds: seq<int>, ids: seq<string>)
    requires |preds| == |logs| && |ids| == |logs|
    ensures HighRiskCount(Enriched(Detected(logs, preds, ids))) == IndicatorHits(logs, preds)
    decreases |logs|
  {
    if |logs| > 0 {
      var n := |logs| - 1;
      var before := Detected(logs[..n], preds[..n], ids[..n]);
      var last := if preds[n] == Outlier then [Make(ids[n], logs[n])] else [];
      assert Detected(logs, preds, ids) == before + last;
      HighRiskIsIndicatorHits(logs[..n], preds[..n], ids[..n]);
      EnrichedAppend(before, last);
      HighRiskCountAppend(Enriched(before), Enriched(last));
      HighRiskOfLine(ids[n], logs[n], preds[n]);
    }
  }

  /** When every anomalous line carries an indicator phrase, every incident is
      high-risk. */
  lemma {:induction false} AllIndicatorsAllHigh(logs: seq<string>, preds: seq<int>)
    requires |preds| == |logs|
    requires forall i :: 0 <= i < |logs| && preds[i] == Outlier ==> HasIndicator(logs[i])
    ensures IndicatorHits(logs, preds) == multiset(preds)[Outlier]
    decreases |logs|
  {
    if |logs| > 0 {
      var n := |logs| - 1;
      AllIndicatorsAllHigh(logs[..n], preds[..n]);
      assert preds == preds[..n] + [preds[n]];
      assert multiset(preds) == multiset(preds[..n]) + multiset{preds[n]};
    }
  }

  /** The coordinator's run, minus collection and rendering. */
  method Run(logs: seq<string>, preds: seq<int>, ids: seq<string>) returns (analysis: Analysis)
    requires |preds| == |logs| && |ids| == |logs|
    ensures analysis == Pipeline(logs, preds, ids)
    ensures analysis.totalIncidents == multiset(preds)[Outlier]
    ensures analysis.highRisk == IndicatorHits(logs, preds)
    ensures |analysis.summary| == |Anomalies(preds)|
    ensures forall k :: 0 <= k < |analysis.summary| ==>
      var e, i := analysis.summary[k], Anomalies(preds)[k];
      e.id == ids[i] && e.kind == AnomalousActivity && e.event == logs[i] &&
      e.severity == SeverityOf(logs[i]) && e.riskScore == RiskOf(SeverityOf(logs[i])) &&
      e.mitre == InitialAccess
  {
    var detections := Detect(logs, preds, ids);
    var enriched := Enrich(detections);
    analysis := Analyze(enriched);
    DetectedAt(logs, preds, ids);
  }

  /** The built-in sample batch used when the log file does not exist. */
  const SampleLogs: seq<string> := [
    "Failed SSH login from 164.92.75.21",
    "User root executed suspicious command: nc -lvnp 4444",
    "Large outbound traffic to 103.221.55.9",
    "Normal cron job executed",
    "User john logged in successfully"
  ]

  /** On the sample batch, if the outlier model flags only the netcat line
      and the outbound-traffic line, every incident is high-risk with tactic
      "TA0001 - Initial Access". */
  lemma SampleBatchAllHigh(preds: seq<int>, ids: seq<string>)
    requires |preds| == |SampleLogs| && |ids| == |SampleLogs|
    requires forall i :: 0 <= i < |preds| && preds[i] == Outlier ==> i == 1 || i == 2
    ensures Pipeline(SampleLogs, preds, ids).highRisk == Pipeline(SampleLogs, preds, ids).totalIncidents
    ensures forall k :: 0 <= k < |Pipeline(SampleLogs, preds, ids).summary| ==>
      Pipeline(SampleLogs, preds, ids).summary[k].mitre == InitialAccess &&
      Pipeline(SampleLogs, preds, ids).summary[k].severity == High &&
      Pipeline(SampleLogs, preds, ids).summary[k].riskScore == 90
  {
    assert OccursAt(RemoteShell, SampleLogs[1], 39);
    assert OccursAt(LargeOutbound, SampleLogs[2], 0);
    AllIndicatorsAllHigh(SampleLogs, preds);
    DetectedAt(SampleLogs, preds, ids);
  }
}
