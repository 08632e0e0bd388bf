/** The detection record that flows from the detection agent through the
    threat-intelligence agent to the analyst agent. In the system it is a
    mutable dictionary: the detection agent creates it with the keys `id`,
    `type`, `log`, `severity` and `risk`, and enrichment later adds `mitre` to
    the same object. */
module Records {

  datatype Option<+T> = None | Some(value: T)

  /** The contents of one detection record at one moment. `kind` is the
      record's `type` key; `mitre` is `None` until enrichment adds the key. */
  datatype DetectionValue = DetectionValue(
    id: string,
    kind: string,
    log: string,
    severity: string,
    risk: int,
    mitre: Option<string>)

  /** A detection record as a heap object, so that enrichment can update it in
      place and every list holding it sees the change. */
  class Detection {
    var id: string
    var kind: string
    var log: string
    var severity: string
    var risk: int
    var mitre: Option<string>

    /** A record as the detection agent creates it: no `mitre` key yet. */
    constructor (id: string, kind: string, log: string, severity: string, risk: int)
      ensures Value() == DetectionValue(id, kind, log, severity, risk, None)
    {
      this.id := id;
      this.kind := kind;
      this.log := log;
      this.severity := severity;
      this.risk := risk;
      this.mitre := None;
    }

    function Value(): DetectionValue
      reads this
    {
      DetectionValue(id, kind, log, severity, risk, mitre)
    }
  }

  /** The contents of a list of records, element by element. */
  function Values(ds: seq<Detection>): (vs: seq<DetectionValue>)
    reads set d | d in ds
    ensures |vs| == |ds|
    ensures forall k :: 0 <= k < |ds| ==> vs[k] == ds[k].Value()
  {
    seq(|ds|, k reads set d | d in ds requires 0 <= k < |ds| => ds[k].Value())
  }
}
