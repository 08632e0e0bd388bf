/** The detection agent: turns the outlier labels of the batch into detection
    records, each with a keyword-derived severity and a risk score. The labels
    themselves (one per log line, -1 for an outlier) come from a bag-of-words
    vectoriser and an isolation forest, which are not part of this model: they
    are the input `preds`. The identifier the agent mints for the detection of
    line `i` is the input `ids[i]`. */
module DetectionAgent {
  import opened Text
  import opened Records

  /** The label the outlier model gives an anomalous line. */
  const Outlier: int := -1

  /** The one category every detection carries. */
  const AnomalousActivity: string := "Anomalous Activity"

  const High: string := "high"
  const Medium: string := "medium"

  /** The two indicator phrases: a netcat reverse-shell listener and a large
      outbound transfer. */
  const RemoteShell: string := "nc -lvnp"
  const LargeOutbound: string := "Large outbound"

  /** The line contains one of the indicator phrases. */
  ghost predicate HasIndicator(log: string)
  {
    Occurs(RemoteShell, log) || Occurs(LargeOutbound, log)
  }

  /** The severity tier of an anomalous line. */
  function SeverityOf(log: string): (s: string)
    ensures s == High <==> HasIndicator(log)
    ensures s == High || s == Medium
  {
    if Contains(log, RemoteShell) || Contains(log, LargeOutbound) then High else Medium
  }

  /** The risk score of a severity tier. */
  function RiskOf(severity: string): (r: int)
    ensures r == 90 || r == 60
    ensures r == 90 <==> severity == High
  {
    if severity == High then 90 else 60
  }

  /** The record the agent emits for an anomalous line, before enrichment:
      the minted id, the fixed category, the line itself, and high/90 when the
      line has an indicator phrase, medium/60 otherwise. */
  function Make(id: string, log: string): (v: DetectionValue)
    ensures v.id == id && v.kind == AnomalousActivity && v.log == log && v.mitre == None
    ensures v.severity == (if HasIndicator(log) then High else Medium)
    ensures v.risk == (if HasIndicator(log) then 90 else 60)
  {
    var severity := SeverityOf(log);
    DetectionValue(id, AnomalousActivity, log, severity, RiskOf(severity), None)
  }

  /** The positions of the outlier labels, in increasing order. */
  function Anomalies(preds: seq<int>): (idx: seq<nat>)
    ensures |idx| <= |preds|
    ensures forall k :: 0 <= k < |idx| ==> idx[k] < |preds| && preds[idx[k]] == Outlier
    ensures forall j, k :: 0 <= j < k < |idx| ==> idx[j] < idx[k]
    ensures forall i :: 0 <= i < |preds| && preds[i] == Outlier ==> i in idx
    decreases |preds|
  {
    if |preds| == 0 then
      []
    else
      var n := |preds| - 1;
      Anomalies(preds[..n]) + (if preds[n] == Outlier then [n] else [])
  }

  /** There are as many anomalies as there are outlier labels. */
  lemma {:induction false} AnomaliesCount(preds: seq<int>)
    ensures |Anomalies(preds)| == multiset(preds)[Outlier]
    decreases |preds|
  {
    if |preds| > 0 {
      var n := |preds| - 1;
      AnomaliesCount(preds[..n]);
      assert preds == preds[..n] + [preds[n]];
      assert multiset(preds) == multiset(preds[..n]) + multiset{preds[n]};
    }
  }

  /** The records the agent emits for the batch `logs` with labels `preds`:
      one per outlier label, in line order. */
  function Detected(logs: seq<string>, preds: seq<int>, ids: seq<string>): (vs: seq<DetectionValue>)
    requires |preds| == |logs| && |ids| == |logs|
    ensures |vs| <= |logs|
    ensures forall k :: 0 <= k < |vs| ==>
      vs[k].kind == AnomalousActivity && vs[k].mitre == None && (vs[k].risk == 90 || vs[k].risk == 60)
    decreases |logs|
  {
    if |logs| == 0 then
      []
    else
      var n := |logs| - 1;
      Detected(logs[..n], preds[..n], ids[..n])
        + (if preds[n] == Outlier then [Make(ids[n], logs[n])] else [])
  }

  /** The `k`-th record is the one for the `k`-th outlier label: it carries
      that line's identifier, the category "Anomalous Activity", that line's
      text, and the severity and risk of that text. */
  lemma {:induction false} DetectedAt(logs: seq<string>, preds: seq<int>, ids: seq<string>)
    requires |preds| == |logs| && |ids| == |logs|
    ensures |Detected(logs, preds, ids)| == |Anomalies(preds)|
    ensures forall k :: 0 <= k < |Anomalies(preds)| ==>
      Detected(logs, preds, ids)[k] == Make(ids[Anomalies(preds)[k]], logs[Anomalies(preds)[k]])
    decreases |logs|
  {
    if |logs| > 0 {
      var n := |logs| - 1;
      DetectedAt(logs[..n], preds[..n], ids[..n]);
      var idx, before := Anomalies(preds), Anomalies(preds[..n]);
      var all, prefix := Detected(logs, preds, ids), Detected(logs[..n], preds[..n], ids[..n]);
      assert idx == before + (if preds[n] == Outlier then [n] else []);
      assert all == prefix + (if preds[n] == Outlier then [Make(ids[n], logs[n])] else []);
      forall k | 0 <= k < |idx|
        ensures all[k] == Make(ids[idx[k]], logs[idx[k]])
      {
        if k < |before| {
          assert all[k] == prefix[k] && idx[k] == before[k];
          assert logs[..n][before[k]] == logs[before[k]] && ids[..n][before[k]] == ids[before[k]];
        } else {
          assert idx[k] == n && all[k] == Make(ids[n], logs[n]);
        }
      }
    }
  }

  /** The number of records equals the number of outlier labels, and is at
      most the number of lines. */
  lemma DetectedCount(logs: seq<string>, preds: seq<int>, ids: seq<string>)
    requires |preds| == |logs| && |ids| == |logs|
    ensures |Detected(logs, preds, ids)| == multiset(preds)[Outlier] <= |logs|
  {
    DetectedAt(logs, preds, ids);
    AnomaliesCount(preds);
  }

  /** Distinct identifiers for the flagged lines give distinct identifiers
      per record. */
  lemma DetectedIdsDistinct(logs: seq<string>, preds: seq<int>, ids: seq<string>)
    requires |preds| == |logs| && |ids| == |logs|
    requires forall i, j :: 0 <= i < j < |ids| && preds[i] == Outlier && preds[j] == Outlier ==> ids[i] != ids[j]
    ensures forall j, k :: 0 <= j < k < |Detected(logs, preds, ids)| ==>
      Detected(logs, preds, ids)[j].id != Detected(logs, preds, ids)[k].id
  {
    DetectedAt(logs, preds, ids);
  }

  /** The agent's loop over the batch: a fresh record for every line labelled
      as an outlier, appended in line order. */
  method Detect(logs: seq<string>, preds: seq<int>, ids: seq<string>) returns (results: seq<Detection>)
    requires |preds| == |logs| && |ids| == |logs|
    ensures Values(results) == Detected(logs, preds, ids)
    ensures forall k :: 0 <= k < |results| ==> fresh(results[k])
    ensures forall j, k :: 0 <= j < k < |results| ==> results[j] != results[k]
  {
    results := [];
    for i := 0 to |logs|
      invariant Values(results) == Detected(logs[..i], preds[..i], ids[..i])
      invariant forall k :: 0 <= k < |results| ==> fresh(results[k])
      invariant forall j, k :: 0 <= j < k < |results| ==> results[j] != results[k]
    {
      assert logs[..i + 1][..i] == logs[..i];
      assert preds[..i + 1][..i] == preds[..i];
      assert ids[..i + 1][..i] == ids[..i];
      if preds[i] == Outlier {
        var severity := SeverityOf(logs[i]);
        var risk := RiskOf(severity);
        var d := new Detection(ids[i], AnomalousActivity, logs[i], severity, risk);
        results := results + [d];
      }
    }
    assert logs[..|logs|] == logs && preds[..|logs|] == preds && ids[..|logs|] == ids;
  }
}
