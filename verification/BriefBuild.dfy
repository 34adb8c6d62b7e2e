/** Building a brief from the raw fields of a work item (engine/repair_brief.py). */
module BriefBuild {
  import opened Wrappers
  import opened Text
  import opened RepairBrief

  /** A list field as found: absent or empty, not a list, or a list of values. */
  datatype Listed = NoList | NotAList | List(values: seq<Value>)

  const MAX_ITEMS := 20

  /** The complete manifest the revalidation recorded: its digest, its revision, and each file with its role. */
  datatype Manifest = Manifest(digest: string, revision: string, files: seq<(string, string)>)

  datatype Raw = Raw(
    proposal: bool,
    route: Route,
    key: string,
    marker: string,
    identity: string,
    evidenceDigest: string,
    manifest: Option<Manifest>,
    problem: Value,
    consequence: Value,
    evidence: Listed,
    owner: Value,
    suggestion: Value,
    contracts: Listed,
    verification: Value,
    confidence: Value,
    questions: Listed)

  /** Which text each field accepts beyond being text of the right length. */
  type Filter = (string, string) -> bool

  function SanitizedField(field: string, v: Value, accepted: Filter): Result<string> {
    Sanitized(v, text => accepted(field, text))
  }

  function SanitizedEach(field: string, values: seq<Value>, accepted: Filter): Result<seq<string>> {
    if values == [] then Ok([])
    else
      var first :- SanitizedField(field, values[0], accepted);
      var rest :- SanitizedEach(field, values[1..], accepted);
      Ok([first] + rest)
  }

  /** `_items`. */
  function SanitizedItems(field: string, v: Listed, accepted: Filter): Result<seq<string>> {
    match v
    case NoList => Err("missing")
    case NotAList => Err("invalid")
    case List(values) =>
      if values == [] then Err("missing")
      else if |values| > MAX_ITEMS then Err("too-long")
      else SanitizedEach(field, values, accepted)
  }

  function SanitizedFiles(files: seq<(string, string)>, accepted: Filter): Result<seq<(string, string)>> {
    if files == [] then Ok([])
    else
      var path :- SanitizedField("affected", Text(files[0].0), accepted);
      var rest :- SanitizedFiles(files[1..], accepted);
      Ok([(path, files[0].1)] + rest)
  }

  function Confidence(v: Value): Result<string> {
    if v.Missing? then Err("missing")
    else if v.Text? && v.text in {"high", "medium", "low"} then Ok(v.text)
    else Err("invalid")
  }

  predicate IsBlank(v: Value) {
    v.Missing? || (v.Text? && Strip(v.text) == "")
  }

  /** The sanitized fields, in the two groups the brief is assembled from. */
  datatype Observation = Observation(
    problem: string, consequence: string, evidence: seq<string>, affected: seq<(string, string)>, owner: string)

  datatype Proposal = Proposal(
    fix: Option<string>, contracts: seq<string>, verification: string, confidence: string, questions: seq<string>)

  function Observed(raw: Raw, files: seq<(string, string)>, accepted: Filter): Result<Observation> {
    var problem :- SanitizedField("problem", raw.problem, accepted);
    var consequence :- SanitizedField("consequence", raw.consequence, accepted);
    var evidence :- SanitizedItems("evidence", raw.evidence, accepted);
    var affected :- SanitizedFiles(files, accepted);
    var owner :- SanitizedField("owner", raw.owner, accepted);
    Ok(Observation(problem, consequence, evidence, affected, owner))
  }

  function SanitizedFix(v: Value, accepted: Filter): Result<Option<string>> {
    var text :- SanitizedField("fix", v, accepted);
    Ok(Some(text))
  }

  function SuggestedFix(v: Value, accepted: Filter): Result<Option<string>> {
    if IsBlank(v) then Ok(None) else SanitizedFix(v, accepted)
  }

  function AskedQuestions(raw: Raw, accepted: Filter): Result<seq<string>> {
    if raw.proposal then SanitizedItems("questions", raw.questions, accepted) else Ok([])
  }

  function Proposed(raw: Raw, accepted: Filter): Result<Proposal> {
    var fix :- SuggestedFix(raw.suggestion, accepted);
    var contracts :- SanitizedItems("contracts", raw.contracts, accepted);
    var verification :- SanitizedField("verification", raw.verification, accepted);
    var confidence :- Confidence(raw.confidence);
    var questions :- AskedQuestions(raw, accepted);
    Ok(Proposal(fix, contracts, verification, confidence, questions))
  }

  function Assembled(raw: Raw, m: Manifest, o: Observation, p: Proposal): Brief {
    Brief(raw.proposal, raw.route, raw.key, raw.marker, raw.identity, raw.evidenceDigest, m.digest, "", "", m.revision,
          o.problem, o.consequence, o.evidence, o.affected, o.owner, p.fix, p.contracts, p.verification, p.confidence,
          p.questions)
  }

  /** `build_brief` up to its size limit: every field sanitized in turn, the first refusal parks the brief. The digests
      are computed from what was built. */
  function Built(raw: Raw, accepted: Filter, version: Brief -> string, reviewed: Brief -> string): Result<Brief> {
    if raw.manifest.None? then Err("unbound")
    else
      var o :- Observed(raw, raw.manifest.value.files, accepted);
      var p :- Proposed(raw, accepted);
      var brief := Assembled(raw, raw.manifest.value, o, p);
      Ok(brief.(version := version(brief), reviewedVersion := reviewed(brief)))
  }

  /** What the candidate, the manifest and SHA-256 bring: digests, a revision without white space, and known roles. */
  predicate BringsDigests(raw: Raw) {
    && IsDigest(raw.key) && IsDigest(raw.marker) && IsDigest(raw.identity) && IsDigest(raw.evidenceDigest)
    && (raw.manifest.Some? ==>
          && IsDigest(raw.manifest.value.digest) && SingleLine(raw.manifest.value.revision)
          && forall i :: 0 <= i < |raw.manifest.value.files| ==> SingleLine(raw.manifest.value.files[i].1))
  }

  lemma {:induction false} EachIsSane(field: string, values: seq<Value>, accepted: Filter)
    requires SanitizedEach(field, values, accepted).Ok?
    ensures AllSane(SanitizedEach(field, values, accepted).value)
  {
    if values != [] {
      SanitizedIsSane(values[0], text => accepted(field, text));
      EachIsSane(field, values[1..], accepted);
    }
  }

  lemma {:induction false} FilesAreSane(files: seq<(string, string)>, accepted: Filter)
    requires SanitizedFiles(files, accepted).Ok?
    ensures
      var r := SanitizedFiles(files, accepted).value;
      |r| == |files| && forall i :: 0 <= i < |r| ==> Sane(r[i].0) && r[i].1 == files[i].1
  {
    if files != [] {
      SanitizedIsSane(Text(files[0].0), text => accepted("affected", text));
      FilesAreSane(files[1..], accepted);
    }
  }

  lemma FieldIsSane(field: string, v: Value, accepted: Filter)
    requires SanitizedField(field, v, accepted).Ok?
    ensures Sane(SanitizedField(field, v, accepted).value)
  {
    SanitizedIsSane(v, text => accepted(field, text));
  }

  lemma ItemsAreSane(field: string, v: Listed, accepted: Filter)
    requires SanitizedItems(field, v, accepted).Ok?
    ensures AllSane(SanitizedItems(field, v, accepted).value)
  {
    EachIsSane(field, v.values, accepted);
  }

  predicate SaneObservation(o: Observation, files: seq<(string, string)>) {
    && Sane(o.problem) && Sane(o.consequence) && Sane(o.owner) && AllSane(o.evidence)
    && |o.affected| == |files|
    && forall i :: 0 <= i < |files| ==> Sane(o.affected[i].0) && o.affected[i].1 == files[i].1
  }

  lemma ObservedIsSane(raw: Raw, files: seq<(string, string)>, accepted: Filter)
    requires Observed(raw, files, accepted).Ok?
    ensures SaneObservation(Observed(raw, files, accepted).value, files)
  {
    FieldIsSane("problem", raw.problem, accepted);
    FieldIsSane("consequence", raw.consequence, accepted);
    FieldIsSane("owner", raw.owner, accepted);
    ItemsAreSane("evidence", raw.evidence, accepted);
    FilesAreSane(files, accepted);
  }

  predicate SaneProposal(p: Proposal) {
    && (p.fix.Some? ==> Sane(p.fix.value))
    && AllSane(p.contracts) && Sane(p.verification) && AllSane(p.questions) && SingleLine(p.confidence)
  }

  lemma ProposedIsSane(raw: Raw, accepted: Filter)
    requires Proposed(raw, accepted).Ok?
    ensures SaneProposal(Proposed(raw, accepted).value)
  {
    FieldIsSane("verification", raw.verification, accepted);
    ItemsAreSane("contracts", raw.contracts, accepted);
    SuggestedFixIsSane(raw.suggestion, accepted);
    AskedQuestionsAreSane(raw, accepted);
    ConfidenceIsOneLine(raw.confidence);
  }

  lemma SuggestedFixIsSane(v: Value, accepted: Filter)
    requires SuggestedFix(v, accepted).Ok?
    ensures SuggestedFix(v, accepted).value.Some? ==> Sane(SuggestedFix(v, accepted).value.value)
  {
    if !IsBlank(v) {
      FieldIsSane("fix", v, accepted);
    }
  }

  lemma AskedQuestionsAreSane(raw: Raw, accepted: Filter)
    requires AskedQuestions(raw, accepted).Ok?
    ensures AllSane(AskedQuestions(raw, accepted).value)
  {
    if raw.proposal {
      ItemsAreSane("questions", raw.questions, accepted);
    }
  }

  lemma ConfidenceIsOneLine(v: Value)
    requires Confidence(v).Ok?
    ensures SingleLine(Confidence(v).value)
  {
  }

  /** Whatever the raw fields hold, a brief that is built can be published. */
  lemma BuiltIsPublishable(raw: Raw, accepted: Filter, version: Brief -> string, reviewed: Brief -> string)
    requires BringsDigests(raw) && forall b :: IsDigest(version(b)) && IsDigest(reviewed(b))
    requires Built(raw, accepted, version, reviewed).Ok?
    ensures Publishable(Built(raw, accepted, version, reviewed).value)
  {
    ObservedIsSane(raw, raw.manifest.value.files, accepted);
    ProposedIsSane(raw, accepted);
  }

  lemma BuiltKeepsCandidate(raw: Raw, accepted: Filter, version: Brief -> string, reviewed: Brief -> string,
                            brief: Brief)
    requires Built(raw, accepted, version, reviewed) == Ok(brief)
    ensures brief.evidenceDigest == raw.evidenceDigest && brief.proposal == raw.proposal && brief.key == raw.key
  {
  }

  /** So the pair is read back from the body of every brief that is built, in any fixed wording. */
  lemma PairOfBuilt(w: Wording, raw: Raw, accepted: Filter, version: Brief -> string, reviewed: Brief -> string,
                    brief: Brief)
    requires Fixed(w) && BringsDigests(raw) && forall b :: IsDigest(version(b)) && IsDigest(reviewed(b))
    requires Built(raw, accepted, version, reviewed) == Ok(brief)
    ensures PublishedPair(Body(w, brief))
         == Pair(Some(raw.evidenceDigest), if raw.proposal then None else Some(brief.reviewedVersion))
  {
    BuiltIsPublishable(raw, accepted, version, reviewed);
    BuiltKeepsCandidate(raw, accepted, version, reviewed, brief);
    PublishedPairOfBody(w, brief);
  }
}
