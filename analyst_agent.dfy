/** The analyst agent: counts the enriched detections, counts the high-risk
    ones, and projects every record into the report-facing summary list. */
module AnalystAgent {
  import opened Records

  /** Risks at or above this value are high-risk. */
  const HighRiskThreshold: int := 80

  /** One entry of the summary list; `kind` is the entry's `type` key,
      `event` the record's `log` and `riskScore` its `risk`. */
  datatype SummaryEntry = SummaryEntry(
    id: string,
    kind: string,
    event: string,
    severity: string,
    riskScore: int,
    mitre: string)

  /** The analysis the agent returns: `total_incidents`, `high_risk` and
      `summary`. */
  datatype Analysis = Analysis(totalIncidents: int, highRisk: int, summary: seq<SummaryEntry>)

  /** Every record carries the `mitre` key that enrichment adds. */
  ghost predicate AllEnriched(vs: seq<DetectionValue>)
  {
    forall k :: 0 <= k < |vs| ==> vs[k].mitre.Some?
  }

  /** A record is high-risk when its risk is at least 80. */
  predicate IsHighRisk(v: DetectionValue)
  {
    v.risk >= HighRiskThreshold
  }

  /** The number of high-risk records (the agent's generator sum). */
  function HighRiskCount(vs: seq<DetectionValue>): (n: nat)
    ensures n <= |vs|
    ensures n == 0 <==> forall k :: 0 <= k < |vs| ==> !IsHighRisk(vs[k])
    ensures n == |vs| <==> forall k :: 0 <= k < |vs| ==> IsHighRisk(vs[k])
    decreases |vs|
  {
    if |vs| == 0 then
      0
    else
      var m := |vs| - 1;
      assert forall k :: 0 <= k < m ==> vs[..m][k] == vs[k];
      HighRiskCount(vs[..m]) + (if IsHighRisk(vs[m]) then 1 else 0)
  }

  /** The positions of the high-risk records (a reference definition). */
  ghost function HighRiskPositions(vs: seq<DetectionValue>): set<int>
  {
    set k | 0 <= k < |vs| && IsHighRisk(vs[k])
  }

  /** The count is the number of positions holding a high-risk record. */
  lemma {:induction false} HighRiskCountIsCardinality(vs: seq<DetectionValue>)
    ensures HighRiskCount(vs) == |HighRiskPositions(vs)|
    decreases |vs|
  {
    if |vs| > 0 {
      var m := |vs| - 1;
      HighRiskCountIsCardinality(vs[..m]);
      var before := HighRiskPositions(vs[..m]);
      assert before == set k | 0 <= k < m && IsHighRisk(vs[k]);
      if IsHighRisk(vs[m]) {
        assert HighRiskPositions(vs) == before + {m};
        assert m !in before;
      } else {
        assert HighRiskPositions(vs) == before;
      }
    }
  }

  /** The count over a concatenation is the sum of the counts. */
  lemma {:induction false} HighRiskCountAppend(a: seq<DetectionValue>, b: seq<DetectionValue>)
    ensures HighRiskCount(a + b) == HighRiskCount(a) + HighRiskCount(b)
    decreases |b|
  {
    if |b| == 0 {
      assert a + b == a;
    } else {
      var m := |b| - 1;
      var ab := a + b;
      assert ab[..|a| + m] == a + b[..m];
      assert ab[|a| + m] == b[m];
      HighRiskCountAppend(a, b[..m]);
      var tail := if IsHighRisk(b[m]) then 1 else 0;
      assert HighRiskCount(ab) == HighRiskCount(a + b[..m]) + tail;
      assert HighRiskCount(b) == HighRiskCount(b[..m]) + tail;
    }
  }

  /** The summary entry of one enriched record. */
  function Project(v: DetectionValue): (e: SummaryEntry)
    requires v.mitre.Some?
    ensures Unproject(e) == v
  {
    SummaryEntry(v.id, v.kind, v.log, v.severity, v.risk, v.mitre.value)
  }

  /** The enriched record a summary entry describes. */
  function Unproject(e: SummaryEntry): DetectionValue
  {
    DetectionValue(e.id, e.kind, e.event, e.severity, e.riskScore, Some(e.mitre))
  }

  /** Projection and its inverse are mutually inverse: with `Project`'s
      contract, no field of an enriched record is lost or altered. */
  lemma ProjectInverse(e: SummaryEntry)
    ensures Project(Unproject(e)) == e
  {
  }

  /** The summary list of an enriched list. */
  function Summary(vs: seq<DetectionValue>): (s: seq<SummaryEntry>)
    requires AllEnriched(vs)
    ensures |s| == |vs|
    ensures forall k :: 0 <= k < |vs| ==> Unproject(s[k]) == vs[k]
  {
    seq(|vs|, k requires 0 <= k < |vs| => Project(vs[k]))
  }

  /** The analysis of an enriched list, as a value. */
  function AnalysisOf(vs: seq<DetectionValue>): (a: Analysis)
    requires AllEnriched(vs)
    ensures 0 <= a.highRisk <= a.totalIncidents == |vs| == |a.summary|
    ensures a.highRisk == |HighRiskPositions(vs)|
    ensures forall k :: 0 <= k < |vs| ==> Unproject(a.summary[k]) == vs[k]
  {
    HighRiskCountIsCardinality(vs);
    Analysis(|vs|, HighRiskCount(vs), Summary(vs))
  }

  /** The agent's `analyze`: the total and the high-risk count, then the
      summary built entry by entry in list order. */
  method Analyze(enriched: seq<Detection>) returns (analysis: Analysis)
    requires forall k :: 0 <= k < |enriched| ==> enriched[k].mitre.Some?
    ensures analysis == AnalysisOf(Values(enriched))
    ensures analysis.totalIncidents == |enriched|
    ensures analysis.highRisk == |HighRiskPositions(Values(enriched))|
    ensures |analysis.summary| == |enriched|
    ensures forall k :: 0 <= k < |enriched| ==>
      var e, d := analysis.summary[k], enriched[k];
      e.id == d.id && e.kind == d.kind && e.event == d.log &&
      e.severity == d.severity && e.riskScore == d.risk && Some(e.mitre) == d.mitre
  {
    analysis := Analysis(|enriched|, HighRiskCount(Values(enriched)), []);
    for i := 0 to |enriched|
      invariant analysis.totalIncidents == |enriched|
      invariant analysis.highRisk == HighRiskCount(Values(enriched))
      invariant |analysis.summary| == i
      invariant forall k :: 0 <= k < i ==> analysis.summary[k] == Project(enriched[k].Value())
    {
      var e := enriched[i];
      var entry := SummaryEntry(e.id, e.kind, e.log, e.severity, e.risk, e.mitre.value);
      analysis := analysis.(summary := analysis.summary + [entry]);
    }
    HighRiskCountIsCardinality(Values(enriched));
  }
}
