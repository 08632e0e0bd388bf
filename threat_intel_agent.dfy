/** The threat-intelligence agent: attaches a MITRE ATT&CK tactic, looked up
    by the record's category, to every detection record, in place. */
module ThreatIntelAgent {
  import opened Records
  import DetectionAgent

  const InitialAccess: string := "TA0001 - Initial Access"

  /** The fallback for a category the map does not know. */
  const Unknown: string := "Unknown"

  /** The agent's static category-to-tactic map: a single entry. */
  const MitreMap: map<string, string> := map[DetectionAgent.AnomalousActivity := InitialAccess]

  /** The tactic for a category: the mapped one, or "Unknown". */
  function Technique(kind: string): (t: string)
    ensures t == (if kind == DetectionAgent.AnomalousActivity then InitialAccess else Unknown)
  {
    if kind in MitreMap then MitreMap[kind] else Unknown
  }

  /** The contents of the list after enrichment: the same length and order,
      no key but `mitre` changed, and every record given the tactic of its
      category. */
  function Enriched(vs: seq<DetectionValue>): (ws: seq<DetectionValue>)
    ensures |ws| == |vs|
    ensures forall k :: 0 <= k < |vs| ==>
      ws[k].id == vs[k].id && ws[k].kind == vs[k].kind && ws[k].log == vs[k].log &&
      ws[k].severity == vs[k].severity && ws[k].risk == vs[k].risk &&
      ws[k].mitre == Some(Technique(vs[k].kind))
  {
    seq(|vs|, k requires 0 <= k < |vs| => vs[k].(mitre := Some(Technique(vs[k].kind))))
  }

  /** Enrichment works record by record, so it distributes over concatenation. */
  lemma EnrichedAppend(a: seq<DetectionValue>, b: seq<DetectionValue>)
    ensures Enriched(a + b) == Enriched(a) + Enriched(b)
  {
  }

  /** Every record of category "Anomalous Activity" gets "TA0001 - Initial Access". */
  lemma EnrichedAnomalous(vs: seq<DetectionValue>)
    requires forall k :: 0 <= k < |vs| ==> vs[k].kind == DetectionAgent.AnomalousActivity
    ensures forall k :: 0 <= k < |vs| ==> Enriched(vs)[k].mitre == Some(InitialAccess)
  {
  }

  /** The agent's loop: sets `mitre` on every record of the list and returns
      the same list. A record listed twice is simply set twice to the same
      value; no other key and no other object changes. */
  method Enrich(detections: seq<Detection>) returns (enriched: seq<Detection>)
    modifies set d | d in detections
    ensures enriched == detections
    ensures Values(detections) == Enriched(old(Values(detections)))
  {
    for i := 0 to |detections|
      invariant forall k :: 0 <= k < |detections| ==>
        detections[k].id == old(detections[k].id) &&
        detections[k].kind == old(detections[k].kind) &&
        detections[k].log == old(detections[k].log) &&
        detections[k].severity == old(detections[k].severity) &&
        detections[k].risk == old(detections[k].risk)
      invariant forall k :: 0 <= k < |detections| ==>
        detections[k].mitre ==
          if detections[k] in detections[..i] then Some(Technique(detections[k].kind))
          else old(detections[k].mitre)
    {
      var d := detections[i];
      d.mitre := Some(if d.kind in MitreMap then MitreMap[d.kind] else Unknown);
    }
    assert detections[..|detections|] == detections;
    enriched := detections;
  }
}
