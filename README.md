# Post-scoring pipeline of the multi-agent security monitor

This project models the part of the monitor in `full_agents_system.py` that runs after the outlier model has scored the batch. That part has four agents:

- **Detection agent.** It turns the outlier labels into detection records. One record is emitted per line labelled `-1`, in line order. Each record has the type "Anomalous Activity", the line text, a keyword severity and a risk score.
- **Severity rule.** A line is "high" when it contains `nc -lvnp` or `Large outbound`, and "medium" otherwise. High maps to risk 90 and medium to 60.
- **Threat-intelligence agent.** It adds a `mitre` key to every record, in place. The value comes from a one-entry static map, with "Unknown" as the fallback.
- **Analyst agent.** It counts the records, counts those with risk at least 80, and projects every record into a summary entry in list order.

The coordinator composes these steps: `analyze(enrich(detect(logs)))`.

Modules:

- `Text`: substring search, which is the meaning of Python's `in` on strings.
- `Records`: the detection record. It is a `class`, because enrichment mutates the dictionary in place. Its contents at any moment are a `DetectionValue`. The key `type` is the field `kind`, because `type` is a reserved word in Dafny.
- `DetectionAgent`, `ThreatIntelAgent`, `AnalystAgent`, `CoordinatorAgent`: one module per agent class.

Inputs stand in for what the model leaves out:

- The outlier labels are the input `preds`. In the system they come from a bag-of-words `CountVectorizer` and an `IsolationForest` (contamination 0.3, seed 42) fitted and applied to the same batch. The model only assumes one label per line, with `-1` meaning outlier. Any other value counts as normal, exactly as the `== -1` test in the code treats it.
- The identifiers are the input `ids`. The system calls `uuid.uuid4()` once per detection; here `ids[i]` is the identifier minted for line `i` if that line is flagged. Distinct identifiers are a hypothesis of `DetectedIdsDistinct`, not an assumption of the model.

Each imperative step has a method checked against a function on values:

- `Detect` builds its list by appending in a loop. Its result's contents are `Detected`, and its records are fresh and pairwise distinct.
- `Enrich` sets `mitre` on each object and returns the same list. The new contents are `Enriched` of the old contents. This holds even when one object appears twice in the list.
- `Analyze` builds its summary in a loop. Its result is `AnalysisOf` of the contents.

Two behaviours of the code outside this model:

- The code does not check the batch before fitting. An empty batch, or one with no word of two or more letters or digits, makes the vectoriser's `fit_transform` (full_agents_system.py:46) raise before the forest is fitted; that failure is left out with the fit.
- On a `PermissionError` the collector prints a message and returns an empty batch, not the sample batch (full_agents_system.py:23-24).

Two constants of the code are declared as `const`, so they have no row of their own:

- `ThreatIntelAgent.MitreMap` is the agent's one-entry `mitre_map` (full_agents_system.py:73-75). Its row is `Technique`, the lookup over it.
- `CoordinatorAgent.SampleLogs` is the collector's 5-line fallback batch (full_agents_system.py:28-34). Its row is `SampleBatchAllHigh`, the lemma about it.

## Model

| member | source | states |
|---|---|---|
| Text.Contains | full_agents_system.py:58 | the executable test is true exactly when the phrase occurs at some position of the line, i.e. Python's `phrase in log` |
| DetectionAgent.SeverityOf | full_agents_system.py:58 | severity is "high" exactly when the line contains "nc -lvnp" or "Large outbound", and is "medium" otherwise |
| DetectionAgent.RiskOf | full_agents_system.py:59 | risk is 90 or 60, and it is 90 exactly when the severity is "high" |
| DetectionAgent.Make | full_agents_system.py:58-66 | a detection carries the minted id, type "Anomalous Activity", the line text and no mitre key; it is high/90 when the line has an indicator phrase and medium/60 otherwise |
| DetectionAgent.Anomalies | full_agents_system.py:56-57 | the flagged positions are exactly the indices labelled -1, each in range, in strictly increasing order |
| DetectionAgent.AnomaliesCount | full_agents_system.py:56-57 | the number of flagged positions equals the number of -1 labels |
| DetectionAgent.DetectedAt | full_agents_system.py:56-66 | one record per -1 label and no other, in increasing line order; the k-th carries the id minted for its line, type "Anomalous Activity", that line's text, and its severity and risk |
| DetectionAgent.DetectedCount | full_agents_system.py:56-67 | the number of detections equals the count of -1 labels and is at most the number of lines |
| DetectionAgent.Detected | full_agents_system.py:56-67 | the value-level `detect`: at most one record per line, each of type "Anomalous Activity" with risk 90 or 60 and no mitre key; see also DetectedAt and DetectedCount |
| DetectionAgent.DetectedIdsDistinct | full_agents_system.py:61 | pairwise distinct ids for the flagged lines give pairwise distinct detection ids |
| DetectionAgent.Detect | full_agents_system.py:52-67 | the loop returns fresh, pairwise distinct records whose contents are exactly Detected(logs, preds, ids) |
| Records.Detection.constructor | full_agents_system.py:60-66 | a new record holds the given id, type, log, severity and risk, and no mitre key |
| ThreatIntelAgent.Technique | full_agents_system.py:73-79 | the lookup in the one-entry map `MitreMap` yields "TA0001 - Initial Access" for "Anomalous Activity" and "Unknown" for every other category |
| ThreatIntelAgent.Enriched | full_agents_system.py:77-80 | enrichment keeps length and order, leaves id, type, log, severity and risk unchanged, and sets mitre to the category's tactic |
| ThreatIntelAgent.EnrichedAppend | full_agents_system.py:78-79 | enrichment works record by record, so it distributes over concatenation |
| ThreatIntelAgent.EnrichedAnomalous | full_agents_system.py:73-79 | every "Anomalous Activity" record is enriched with "TA0001 - Initial Access" |
| ThreatIntelAgent.Enrich | full_agents_system.py:77-80 | the loop returns the same list; its objects now hold Enriched of their old contents, so no key but mitre and no other object changes |
| AnalystAgent.HighRiskCount | full_agents_system.py:89 | the high-risk count is at most the length; it is 0 exactly when no record has risk >= 80, and equals the length exactly when all do |
| AnalystAgent.HighRiskCountIsCardinality | full_agents_system.py:89 | the high-risk count is the number of positions whose record has risk >= 80 |
| AnalystAgent.HighRiskCountAppend | full_agents_system.py:89 | the high-risk count of a concatenation is the sum of the counts |
| AnalystAgent.Project | full_agents_system.py:93-100 | a summary entry maps back to exactly the enriched record it came from (id to id, type to type, log to event, severity to severity, risk to risk_score, mitre to mitre) |
| AnalystAgent.ProjectInverse | full_agents_system.py:93-100 | every summary entry is the projection of the record it describes |
| AnalystAgent.Summary | full_agents_system.py:92-100 | the summary list has one entry per record, in order, and each entry maps back to its record |
| AnalystAgent.AnalysisOf | full_agents_system.py:87-101 | total_incidents is the length; high_risk is the number of positions whose record has risk >= 80, so 0 <= high_risk <= total_incidents; the summary has the same length and order, and each entry maps back to its record |
| AnalystAgent.Analyze | full_agents_system.py:86-101 | the result is AnalysisOf of the records' contents: total is the length, high_risk is the number of records with risk >= 80, and the summary entries project the records field by field in order |
| CoordinatorAgent.HighRiskOfLine | full_agents_system.py:57-59 | one line adds 1 to the high-risk count exactly when it is flagged and contains an indicator phrase |
| CoordinatorAgent.HighRiskIsIndicatorHits | full_agents_system.py:140-143 | after detect and enrich, high_risk equals the number of flagged lines that contain an indicator phrase |
| CoordinatorAgent.AllIndicatorsAllHigh | full_agents_system.py:56-59 | when every flagged line has an indicator phrase, the indicator hits equal the number of -1 labels |
| CoordinatorAgent.Pipeline | full_agents_system.py:140-143 | the value-level run: total_incidents is the number of -1 labels and high_risk is the number of flagged lines with an indicator phrase |
| CoordinatorAgent.Run | full_agents_system.py:140-143 | detect, enrich, analyze give total = number of -1 labels and high_risk = flagged lines with an indicator phrase; the k-th summary entry describes the k-th flagged line with tactic "TA0001 - Initial Access" |
| CoordinatorAgent.SampleBatchAllHigh | full_agents_system.py:28-34 | on the 5-line sample batch `SampleLogs`, if only the netcat and outbound-traffic lines are flagged, every incident is high/90 with tactic "TA0001 - Initial Access" and high_risk equals total_incidents |

## Left out

- Collecting the log lines (`CollectorAgent.collect_logs`, full_agents_system.py:12-35). It is file-system I/O with `PermissionError` handling and prints. Only its 5-line fallback batch is kept, as `CoordinatorAgent.SampleLogs`.
- The vectoriser and isolation-forest fit and predict (full_agents_system.py:42-47, 50, 53-54). These are foreign library calls with floating-point, randomised internals. Their result is the input `preds`, so the model does not capture which lines get flagged, nor the `ValueError` the vectoriser raises on an empty or wordless batch.
- `uuid.uuid4()` (full_agents_system.py:61). Random identifier generation is replaced by the input `ids`.
- Report rendering (`ReportAgent.generate_text`, `generate_json`, full_agents_system.py:107-127). These are clock reads, string formatting and JSON serialisation.
- The rendering half of `CoordinatorAgent.run` (full_agents_system.py:145-148) and the `__main__` block (full_agents_system.py:153-161). These are printing and writing a file.
- AnalystAgent.Analyze: requires every record to carry a `mitre` key. The code would raise `KeyError` on a record without one, and the model does not represent that path.
