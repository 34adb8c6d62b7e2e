/** The published repair brief and the pair read back from its body (engine/repair_brief.py). */
module RepairBrief {
  import opened Wrappers
  import opened Text
  import opened CodeSpan

  const HEADING := "## Provenance"
  const OPENING := "```text"
  const CLOSING := "```"
  const EVIDENCE := "evidence-digest: "
  const REVIEWED := "reviewed-brief-version: "
  const MAX_TEXT := 1000
  const MAX_TITLE := 120

  // ----- sanitized text -----

  /** The length of the word that begins the text. */
  function WordEnd(s: string): (k: nat)
    ensures k <= |s| && (forall i :: 0 <= i < k ==> !IsSpace(s[i]))
    ensures k < |s| ==> IsSpace(s[k])
  {
    if s == "" || IsSpace(s[0]) then 0
    else
      var k := WordEnd(s[1..]);
      assert forall i :: 1 <= i < k + 1 ==> s[i] == s[1..][i - 1];
      1 + k
  }

  predicate IsWord(w: string) {
    w != "" && forall i :: 0 <= i < |w| ==> !IsSpace(w[i])
  }

  /** `str.split()`: the words between white space. */
  function Words(s: string): (words: seq<string>)
    ensures forall w :: w in words ==> IsWord(w)
    decreases |s|
  {
    if s == "" then []
    else if IsSpace(s[0]) then Words(s[1..])
    else [s[..WordEnd(s)]] + Words(s[WordEnd(s)..])
  }

  function JoinWords(words: seq<string>): string {
    if words == [] then "" else if |words| == 1 then words[0] else words[0] + " " + JoinWords(words[1..])
  }

  function Normalized(s: string): string {
    JoinWords(Words(s))
  }

  /** A text that cannot break a line, and that a code span reads back. */
  predicate Sane(s: string) {
    s != "" && SingleLine(s) && Trimmed(s) && !AllSpaces(s) && !HasLineEnding(s)
  }

  lemma {:induction false} JoinedWordsAreSane(words: seq<string>)
    requires words != [] && forall w :: w in words ==> IsWord(w)
    ensures Sane(JoinWords(words)) && !IsSpace(JoinWords(words)[0])
  {
    var first := words[0];
    assert first in words;
    if |words| > 1 {
      assert forall w :: w in words[1..] ==> w in words;
      JoinedWordsAreSane(words[1..]);
    }
    assert JoinWords(words)[0] == first[0];
  }

  /** What a field may hold: missing, of another type, or text. */
  datatype Value = Missing | NotText | Text(text: string)

  /** `_text`: white space collapsed, then refused when empty, too long or not accepted. */
  function Sanitized(v: Value, accepted: string -> bool): Result<string> {
    match v
    case Missing => Err("missing")
    case NotText => Err("invalid")
    case Text(raw) =>
      var text := Normalized(raw);
      if text == "" then Err("missing")
      else if |text| > MAX_TEXT then Err("too-long")
      else if !accepted(text) then Err("rejected")
      else Ok(text)
  }

  /** Every accepted field is one trimmed line, whatever line breaks the raw value had. */
  lemma SanitizedIsSane(v: Value, accepted: string -> bool)
    requires Sanitized(v, accepted).Ok?
    ensures Sane(Sanitized(v, accepted).value) && |Sanitized(v, accepted).value| <= MAX_TEXT
  {
    JoinedWordsAreSane(Words(v.text));
  }

  /** So every accepted field is shown as it is: its code span reads back as the field, whatever follows on the line. */
  lemma SanitizedReadsBack(v: Value, accepted: string -> bool, rest: string)
    requires Sanitized(v, accepted).Ok? && (rest == "" || rest[0] != '`')
    ensures ReadSpan(Code(Sanitized(v, accepted).value) + rest) == Some((Sanitized(v, accepted).value, rest))
  {
    SanitizedIsSane(v, accepted);
    CodeReadsBack(Sanitized(v, accepted).value, rest);
  }

  // ----- the brief -----

  datatype Route = Concern | Finding

  /** The digests are those the brief computes: its version, its reviewed version and a proposal's marker. */
  datatype Brief = Brief(
    proposal: bool,
    route: Route,
    key: string,
    marker: string,
    identity: string,
    evidenceDigest: string,
    manifestDigest: string,
    version: string,
    reviewedVersion: string,
    revision: string,
    problem: string,
    consequence: string,
    evidence: seq<string>,
    affected: seq<(string, string)>,
    owner: string,
    fix: Option<string>,
    contracts: seq<string>,
    verification: string,
    confidence: string,
    questions: seq<string>)

  predicate IsHexDigit(c: char) {
    '0' <= c <= '9' || 'a' <= c <= 'f'
  }

  predicate IsDigest(s: string) {
    |s| == 64 && forall i :: 0 <= i < |s| ==> IsHexDigit(s[i])
  }

  predicate AllSane(items: seq<string>) {
    forall i :: 0 <= i < |items| ==> Sane(items[i])
  }

  /** What building a brief guarantees of it. */
  predicate Publishable(b: Brief) {
    && IsDigest(b.key) && IsDigest(b.marker) && IsDigest(b.identity) && IsDigest(b.evidenceDigest)
    && IsDigest(b.manifestDigest) && IsDigest(b.version) && IsDigest(b.reviewedVersion)
    && SingleLine(b.revision) && SingleLine(b.confidence)
    && Sane(b.problem) && Sane(b.consequence) && Sane(b.owner) && Sane(b.verification)
    && (b.fix.Some? ==> Sane(b.fix.value))
    && AllSane(b.evidence) && AllSane(b.contracts) && AllSane(b.questions)
    && forall i :: 0 <= i < |b.affected| ==> Sane(b.affected[i].0) && SingleLine(b.affected[i].1)
  }

  // ----- the layouts -----

  /** The fixed sentences and headings of the two layouts. */
  datatype Wording = Wording(
    sourceHeading: string, scope: string, excluded: string, findingHeading: string, assertionsHeading: string,
    riskHeading: string, risk: string, completionHeading: string, completion: string,
    proposalHeading: string, proposal: string, affected: string, alternativesHeading: string, suggestion: string,
    split: string, keep: string, ownershipHeading: string, questionsHeading: string, decisionHeading: string,
    decision: string)

  /** A line that is not the provenance heading and does not break. */
  predicate Inert(line: string) {
    SingleLine(line) && line != HEADING
  }

  predicate AllInert(lines: seq<string>) {
    forall i :: 0 <= i < |lines| ==> Inert(lines[i])
  }

  predicate Fixed(w: Wording) {
    && Inert(w.sourceHeading) && Inert(w.scope) && Inert(w.excluded)
    && Inert(w.findingHeading) && Inert(w.assertionsHeading)
    && Inert(w.riskHeading) && SingleLine(w.risk) && Inert(w.completionHeading) && Inert(w.completion)
    && Inert(w.proposalHeading) && Inert(w.proposal) && Inert(w.affected) && Inert(w.alternativesHeading)
    && SingleLine(w.suggestion) && Inert(w.split) && Inert(w.keep)
    && Inert(w.ownershipHeading) && Inert(w.questionsHeading)
    && Inert(w.decisionHeading) && SingleLine(w.decision)
  }

  // ----- rendering -----

  function Bullets(items: seq<string>): seq<string> {
    seq(|items|, i requires 0 <= i < |items| => "- " + Code(items[i]))
  }

  function Affected(b: Brief): seq<string> {
    seq(|b.affected|, i requires 0 <= i < |b.affected| => "- " + Code(b.affected[i].0) + " (" + b.affected[i].1 + ")")
  }

  function Observed(b: Brief): seq<string> {
    ["Problem: " + Code(b.problem), "", "Maintenance consequence: " + Code(b.consequence), "", "Evidence:", ""]
    + Bullets(b.evidence)
  }

  function Contracts(b: Brief): seq<string> {
    ["Protected contracts:", ""] + Bullets(b.contracts)
  }

  function Source(w: Wording, b: Brief): seq<string> {
    (if b.proposal then [w.proposalHeading, "", w.proposal, "", RevisionLine(b), "", w.affected, ""]
     else [w.sourceHeading, "", RevisionLine(b), "", w.scope, ""])
    + Affected(b)
  }

  function RevisionLine(b: Brief): string {
    "Source revision: `" + b.revision + "`"
  }

  function ConfidenceLine(b: Brief, tail: string): string {
    "Review confidence: " + b.confidence + tail
  }

  function RepairFix(b: Brief): seq<string> {
    if b.fix.Some? then ["", "Suggested fix: " + Code(b.fix.value)] else []
  }

  function RepairClose(w: Wording, b: Brief): seq<string> {
    ["", "Required verification: " + Code(b.verification), "", w.riskHeading, "",
     ConfidenceLine(b, w.risk), "", w.completionHeading, "", w.completion, ""]
  }

  function RepairHead(w: Wording, b: Brief): seq<string> {
    Source(w, b)
    + ["", w.excluded, "", if b.route == Finding then w.findingHeading else w.assertionsHeading, ""]
    + Observed(b)
  }

  function RepairTail(w: Wording, b: Brief): seq<string> {
    ["", "Proposed owner: " + Code(b.owner)]
    + RepairFix(b)
    + [""]
    + Contracts(b)
    + RepairClose(w, b)
  }

  function RepairLines(w: Wording, b: Brief): seq<string> {
    RepairHead(w, b) + RepairTail(w, b)
  }

  // Long fixed texts are written in two parts: each part is then seen to be a single line by itself.
  const APPLY := "- Apply the reviewer" + "'s suggestion: "
  const VERIFY := "Required verification" + " for any approved change: "

  function ProposalFix(w: Wording, b: Brief): seq<string> {
    if b.fix.Some? then [APPLY + Code(b.fix.value) + w.suggestion] else []
  }

  function ProposalClose(w: Wording, b: Brief): seq<string> {
    ["", VERIFY + Code(b.verification), "", w.questionsHeading, ""]
    + Bullets(b.questions)
    + ["", w.decisionHeading, "", ConfidenceLine(b, w.decision), ""]
  }

  function ProposalHead(w: Wording, b: Brief): seq<string> {
    Source(w, b)
    + ["", w.assertionsHeading, ""]
    + Observed(b)
  }

  function ProposalTail(w: Wording, b: Brief): seq<string> {
    ["", w.alternativesHeading, ""]
    + ProposalFix(w, b)
    + [w.split, w.keep, "", w.ownershipHeading, "", "Proposed owner: " + Code(b.owner), ""]
    + Contracts(b)
    + ProposalClose(w, b)
  }

  function ProposalLines(w: Wording, b: Brief): seq<string> {
    ProposalHead(w, b) + ProposalTail(w, b)
  }

  function RouteName(route: Route): string {
    if route == Finding then "finding" else "concern"
  }

  function MarkerComment(b: Brief): string {
    "<!-- desloppify-" + (if b.proposal then "proposal" else RouteName(b.route)) + "-key: "
    + (if b.proposal then b.marker else b.key) + " -->"
  }

  function LastFields(b: Brief): seq<string> {
    ["manifest-digest: " + b.manifestDigest, "source-revision: " + b.revision, "brief-version: " + b.version]
  }

  function SchemaField(b: Brief): string {
    "schema: " + if b.proposal then "desloppify-proposal-brief:v1" else "desloppify-repair-brief:v1"
  }

  function FirstFields(b: Brief): seq<string> {
    if b.proposal then [SchemaField(b)] + ["proposal-key: " + b.marker]
    else [SchemaField(b), RouteName(b.route) + "-key: " + b.key, RouteName(b.route) + "-identity: " + b.identity]
  }

  /** The fields of the fenced block. */
  function Fields(b: Brief): seq<string> {
    FirstFields(b)
    + [EVIDENCE + b.evidenceDigest]
    + (if b.proposal then [] else [REVIEWED + b.reviewedVersion])
    + LastFields(b)
  }

  function Provenance(b: Brief): seq<string> {
    [HEADING, "", MarkerComment(b), "", OPENING] + Fields(b) + [CLOSING]
  }

  function BodyLines(w: Wording, b: Brief): seq<string> {
    (if b.proposal then ProposalLines(w, b) else RepairLines(w, b)) + Provenance(b)
  }

  function Body(w: Wording, b: Brief): string {
    JoinLines(BodyLines(w, b))
  }

  function Title(b: Brief): (t: string)
    ensures |t| <= MAX_TITLE
  {
    var title := (if b.proposal then "Proposal: " else "Repair: ") + b.problem;
    if |title| <= MAX_TITLE then title
    else StripRight(title[..MAX_TITLE - 3]) + "..."
  }

  // ----- reading the pair back -----

  datatype Pair = Pair(evidence: Option<string>, reviewed: Option<string>)

  function Count(lines: seq<string>, x: string): nat {
    if lines == [] then 0 else (if lines[0] == x then 1 else 0) + Count(lines[1..], x)
  }

  function IndexOf(lines: seq<string>, x: string): (k: nat)
    requires x in lines
    ensures k < |lines| && lines[k] == x && x !in lines[..k]
  {
    if lines[0] == x then 0
    else
      var k := IndexOf(lines[1..], x);
      assert lines[..k + 1] == [lines[0]] + lines[1..][..k];
      1 + k
  }

  /** The digest of a line that is the name and a digest and nothing else. */
  function Published(name: string, line: string): Option<string> {
    if name <= line && IsDigest(line[|name|..]) then Some(line[|name|..]) else None
  }

  function Values(name: string, lines: seq<string>): seq<string> {
    if lines == [] then []
    else (if Published(name, lines[0]).Some? then [Published(name, lines[0]).value] else []) + Values(name, lines[1..])
  }

  function Single(values: seq<string>): Option<string> {
    if |values| == 1 then Some(values[0]) else None
  }

  /** The lines between the fences of what follows the heading. */
  function Inside(after: seq<string>): seq<string> {
    if OPENING !in after then []
    else
      var inside := after[IndexOf(after, OPENING) + 1..];
      if CLOSING !in inside then [] else inside[..IndexOf(inside, CLOSING)]
  }

  /** The lines between the fences after the one heading; none when the heading or a fence is missing or repeated. */
  function Block(lines: seq<string>): seq<string> {
    if Count(lines, HEADING) != 1 || HEADING !in lines then [] else Inside(lines[IndexOf(lines, HEADING)..])
  }

  /** `published_pair`. */
  function PublishedPair(body: string): Pair {
    var block := Block(Lines(body));
    Pair(Single(Values(EVIDENCE, block)), Single(Values(REVIEWED, block)))
  }

  // ----- no field contributes a line of its own -----

  lemma CodeIsSingleLine(text: string)
    requires SingleLine(text)
    ensures SingleLine(Code(text))
  {
  }

  /** A lead that does not begin like a heading makes its line inert. */
  lemma Labelled(lead: string, rest: string)
    requires lead != "" && lead[0] != '#' && SingleLine(lead) && SingleLine(rest)
    ensures Inert(lead + rest)
  {
    assert (lead + rest)[0] != HEADING[0];
  }

  lemma CodeLine(lead: string, text: string, rest: string)
    requires lead != "" && lead[0] != '#' && SingleLine(lead) && Sane(text) && SingleLine(rest)
    ensures Inert(lead + Code(text) + rest) && Inert(lead + Code(text))
  {
    CodeIsSingleLine(text);
    Labelled(lead, Code(text));
    Labelled(lead + Code(text), rest);
  }

  lemma BulletsAreInert(items: seq<string>)
    requires AllSane(items)
    ensures AllInert(Bullets(items))
  {
    forall i | 0 <= i < |items| ensures Inert(Bullets(items)[i]) {
      CodeLine("- ", items[i], "");
    }
  }

  lemma AffectedIsInert(b: Brief)
    requires Publishable(b)
    ensures AllInert(Affected(b))
  {
    forall i | 0 <= i < |b.affected| ensures Inert(Affected(b)[i]) {
      var role := b.affected[i].1;
      CodeLine("- ", b.affected[i].0, " (" + role + ")");
      assert "- " + Code(b.affected[i].0) + (" (" + role + ")") == Affected(b)[i];
    }
  }

  lemma InertConcat(a: seq<string>, b: seq<string>)
    requires AllInert(a) && AllInert(b)
    ensures AllInert(a + b)
  {
  }

  lemma ObservedIsInert(b: Brief)
    requires Publishable(b)
    ensures AllInert(Observed(b))
  {
    CodeLine("Problem: ", b.problem, "");
    CodeLine("Maintenance consequence: ", b.consequence, "");
    Labelled("Evidence:", "");
    BulletsAreInert(b.evidence);
    assert "Evidence:" + "" == "Evidence:";
    InertConcat(
      ["Problem: " + Code(b.problem), "", "Maintenance consequence: " + Code(b.consequence), "", "Evidence:", ""],
      Bullets(b.evidence));
  }

  lemma ContractsAreInert(b: Brief)
    requires Publishable(b)
    ensures AllInert(Contracts(b))
  {
    Labelled("Protected contracts:", "");
    assert "Protected contracts:" + "" == "Protected contracts:";
    BulletsAreInert(b.contracts);
    InertConcat(["Protected contracts:", ""], Bullets(b.contracts));
  }

  lemma SourceIsInert(w: Wording, b: Brief)
    requires Fixed(w) && Publishable(b)
    ensures AllInert(Source(w, b))
  {
    Labelled("Source revision: `", b.revision);
    Labelled("Source revision: `" + b.revision, "`");
    AffectedIsInert(b);
  }

  lemma ConfidenceIsInert(b: Brief, tail: string)
    requires Publishable(b) && SingleLine(tail)
    ensures Inert(ConfidenceLine(b, tail))
  {
    Labelled("Review confidence: ", b.confidence);
    Labelled("Review confidence: " + b.confidence, tail);
  }

  lemma VerificationIsInert(b: Brief)
    requires Publishable(b)
    ensures Inert("Required verification: " + Code(b.verification))
  {
    CodeLine("Required verification: ", b.verification, "");
  }

  lemma FixIsInert(b: Brief)
    requires Publishable(b)
    ensures AllInert(RepairFix(b))
  {
    if b.fix.Some? {
      CodeLine("Suggested fix: ", b.fix.value, "");
    }
  }

  lemma OwnerIsInert(b: Brief)
    requires Publishable(b)
    ensures Inert("Proposed owner: " + Code(b.owner))
  {
    CodeLine("Proposed owner: ", b.owner, "");
  }

  lemma EmptyIsInert()
    ensures Inert("")
  {
  }

  /** Inert lines set apart by empty ones, as the layouts do. */
  lemma TwoLines(a: string, b: string)
    requires Inert(a) && Inert(b)
    ensures AllInert(["", a, "", b, ""])
  {
    EmptyIsInert();
  }

  lemma ThreeLines(a: string, b: string, c: string)
    requires Inert(a) && Inert(b) && Inert(c)
    ensures AllInert([a, "", b, "", c, ""])
  {
    EmptyIsInert();
  }

  lemma RepairCloseIsInert(w: Wording, b: Brief)
    requires Fixed(w) && Publishable(b)
    ensures AllInert(RepairClose(w, b))
  {
    ConfidenceIsInert(b, w.risk);
    VerificationIsInert(b);
    var verification, confidence := "Required verification: " + Code(b.verification), ConfidenceLine(b, w.risk);
    TwoLines(verification, w.riskHeading);
    ThreeLines(confidence, w.completionHeading, w.completion);
    InertConcat(["", verification, "", w.riskHeading, ""], [confidence, "", w.completionHeading, "", w.completion, ""]);
    assert RepairClose(w, b)
        == ["", verification, "", w.riskHeading, ""] + [confidence, "", w.completionHeading, "", w.completion, ""];
  }

  lemma RepairHeadIsInert(w: Wording, b: Brief)
    requires Fixed(w) && Publishable(b)
    ensures AllInert(RepairHead(w, b))
  {
    SourceIsInert(w, b);
    ObservedIsInert(b);
    var heading := if b.route == Finding then w.findingHeading else w.assertionsHeading;
    TwoLines(w.excluded, heading);
    InertConcat(Source(w, b), ["", w.excluded, "", heading, ""]);
    InertConcat(Source(w, b) + ["", w.excluded, "", heading, ""], Observed(b));
  }

  lemma RepairTailIsInert(w: Wording, b: Brief)
    requires Fixed(w) && Publishable(b)
    ensures AllInert(RepairTail(w, b))
  {
    EmptyIsInert();
    OwnerIsInert(b);
    FixIsInert(b);
    ContractsAreInert(b);
    RepairCloseIsInert(w, b);
    var owner := ["", "Proposed owner: " + Code(b.owner)];
    InertConcat(owner, RepairFix(b));
    InertConcat(owner + RepairFix(b), [""]);
    InertConcat(owner + RepairFix(b) + [""], Contracts(b));
    InertConcat(owner + RepairFix(b) + [""] + Contracts(b), RepairClose(w, b));
  }

  lemma RepairLinesAreInert(w: Wording, b: Brief)
    requires Fixed(w) && Publishable(b)
    ensures AllInert(RepairLines(w, b))
  {
    RepairHeadIsInert(w, b);
    RepairTailIsInert(w, b);
    InertConcat(RepairHead(w, b), RepairTail(w, b));
  }

  lemma ApplyIsLead()
    ensures SingleLine(APPLY) && APPLY != "" && APPLY[0] == '-'
  {
    SingleConcat("- Apply the reviewer", "'s suggestion: ");
  }

  lemma VerifyIsLead()
    ensures SingleLine(VERIFY) && VERIFY != "" && VERIFY[0] == 'R'
  {
    SingleConcat("Required verification", " for any approved change: ");
  }

  lemma ProposalFixIsInert(w: Wording, b: Brief)
    requires Fixed(w) && Publishable(b)
    ensures AllInert(ProposalFix(w, b))
  {
    ApplyIsLead();
    if b.fix.Some? {
      CodeLine(APPLY, b.fix.value, w.suggestion);
    }
  }

  lemma ProposalCloseIsInert(w: Wording, b: Brief)
    requires Fixed(w) && Publishable(b)
    ensures AllInert(ProposalClose(w, b))
  {
    VerifyIsLead();
    ConfidenceIsInert(b, w.decision);
    BulletsAreInert(b.questions);
    CodeLine(VERIFY, b.verification, "");
    var verification, confidence := VERIFY + Code(b.verification), ConfidenceLine(b, w.decision);
    TwoLines(verification, w.questionsHeading);
    TwoLines(w.decisionHeading, confidence);
    InertConcat(["", verification, "", w.questionsHeading, ""], Bullets(b.questions));
    InertConcat(["", verification, "", w.questionsHeading, ""] + Bullets(b.questions),
                ["", w.decisionHeading, "", confidence, ""]);
  }

  lemma ProposalHeadIsInert(w: Wording, b: Brief)
    requires Fixed(w) && Publishable(b)
    ensures AllInert(ProposalHead(w, b))
  {
    EmptyIsInert();
    SourceIsInert(w, b);
    ObservedIsInert(b);
    InertConcat(Source(w, b), ["", w.assertionsHeading, ""]);
    InertConcat(Source(w, b) + ["", w.assertionsHeading, ""], Observed(b));
  }

  lemma ProposalTailIsInert(w: Wording, b: Brief)
    requires Fixed(w) && Publishable(b)
    ensures AllInert(ProposalTail(w, b))
  {
    EmptyIsInert();
    ProposalFixIsInert(w, b);
    OwnerIsInert(b);
    ContractsAreInert(b);
    ProposalCloseIsInert(w, b);
    var before := ["", w.alternativesHeading, ""] + ProposalFix(w, b);
    InertConcat(["", w.alternativesHeading, ""], ProposalFix(w, b));
    var options := [w.split, w.keep, "", w.ownershipHeading, "", "Proposed owner: " + Code(b.owner), ""];
    InertConcat(before, options);
    InertConcat(before + options, Contracts(b));
    InertConcat(before + options + Contracts(b), ProposalClose(w, b));
  }

  lemma ProposalLinesAreInert(w: Wording, b: Brief)
    requires Fixed(w) && Publishable(b)
    ensures AllInert(ProposalLines(w, b))
  {
    ProposalHeadIsInert(w, b);
    ProposalTailIsInert(w, b);
    InertConcat(ProposalHead(w, b), ProposalTail(w, b));
  }

  // ----- the pair that is read back -----

  lemma {:induction false} CountConcat(a: seq<string>, b: seq<string>, x: string)
    ensures Count(a + b, x) == Count(a, x) + Count(b, x)
  {
    if a == [] {
      assert a + b == b;
    } else {
      assert (a + b)[1..] == a[1..] + b;
      CountConcat(a[1..], b, x);
    }
  }

  lemma {:induction false} CountAbsent(lines: seq<string>, x: string)
    requires x !in lines
    ensures Count(lines, x) == 0
  {
    if lines != [] {
      CountAbsent(lines[1..], x);
    }
  }

  lemma {:induction false} IndexAfter(a: seq<string>, x: string, b: seq<string>)
    requires x !in a
    ensures IndexOf(a + [x] + b, x) == |a|
  {
    var s := a + [x] + b;
    if a != [] {
      assert s[1..] == a[1..] + [x] + b;
      IndexAfter(a[1..], x, b);
    }
  }

  lemma InsideOfLayout(comment: string, fields: seq<string>)
    requires comment != OPENING && CLOSING !in fields
    ensures Inside([HEADING, "", comment, "", OPENING] + fields + [CLOSING]) == fields
  {
    var before := [HEADING, "", comment, ""];
    var after := [HEADING, "", comment, "", OPENING] + fields + [CLOSING];
    assert after == before + [OPENING] + (fields + [CLOSING]);
    IndexAfter(before, OPENING, fields + [CLOSING]);
    var inside := after[5..];
    assert inside == fields + [CLOSING] + [];
    IndexAfter(fields, CLOSING, []);
    assert inside[..|fields|] == fields;
  }

  lemma OneHeading(head: seq<string>, tail: seq<string>)
    requires HEADING !in head && HEADING !in tail
    ensures Count(head + [HEADING] + tail, HEADING) == 1
    ensures IndexOf(head + [HEADING] + tail, HEADING) == |head|
  {
    CountAbsent(head, HEADING);
    CountAbsent(tail, HEADING);
    CountConcat(head + [HEADING], tail, HEADING);
    CountConcat(head, [HEADING], HEADING);
    IndexAfter(head, HEADING, tail);
  }

  /** The block of lines laid out as a brief's are: everything between the fences. */
  lemma BlockOfLayout(head: seq<string>, comment: string, fields: seq<string>)
    requires AllInert(head) && Inert(comment) && comment != OPENING
    requires AllInert(fields) && CLOSING !in fields
    ensures Block(head + ([HEADING, "", comment, "", OPENING] + fields + [CLOSING])) == fields
  {
    var tail := ["", comment, "", OPENING] + fields + [CLOSING];
    var lines := head + ([HEADING, "", comment, "", OPENING] + fields + [CLOSING]);
    assert lines == head + [HEADING] + tail;
    OneHeading(head, tail);
    assert lines[|head|..] == [HEADING, "", comment, "", OPENING] + fields + [CLOSING];
    InsideOfLayout(comment, fields);
  }

  /** No line of the list is the name and a digest. */
  predicate NoneMatch(name: string, lines: seq<string>) {
    forall i :: 0 <= i < |lines| ==> Published(name, lines[i]).None?
  }

  lemma {:induction false} ValuesOfNone(name: string, lines: seq<string>)
    requires NoneMatch(name, lines)
    ensures Values(name, lines) == []
  {
    if lines != [] {
      ValuesOfNone(name, lines[1..]);
    }
  }

  /** One matching line among others that do not match is the single value. */
  lemma {:induction false} OneValue(name: string, before: seq<string>, digest: string, after: seq<string>)
    requires NoneMatch(name, before) && NoneMatch(name, after) && IsDigest(digest)
    ensures Values(name, before + [name + digest] + after) == [digest]
  {
    var lines := before + [name + digest] + after;
    if before == [] {
      assert lines[1..] == after;
      ValuesOfNone(name, after);
      assert (name + digest)[|name|..] == digest;
    } else {
      assert lines[1..] == before[1..] + [name + digest] + after;
      OneValue(name, before[1..], digest, after);
    }
  }

  /** A field line: it stays on its line, is no fence, and belongs to no name with another first letter. */
  lemma FieldLine(lead: string, value: string)
    requires lead != "" && lead[0] != '#' && lead[0] != '`' && SingleLine(lead) && SingleLine(value)
    ensures Inert(lead + value) && lead + value != CLOSING
    ensures lead[0] != EVIDENCE[0] ==> Published(EVIDENCE, lead + value).None?
    ensures lead[0] != REVIEWED[0] ==> Published(REVIEWED, lead + value).None?
  {
    Labelled(lead, value);
    assert (lead + value)[0] == lead[0];
    assert CLOSING[0] == '`';
  }

  lemma DigestIsSingleLine(s: string)
    requires IsDigest(s)
    ensures SingleLine(s)
  {
    forall i | 0 <= i < |s| ensures !IsLineBreak(s[i]) {
      assert IsHexDigit(s[i]);
    }
  }

  lemma DigestsAreSingleLines(b: Brief)
    requires Publishable(b)
    ensures SingleLine(b.key) && SingleLine(b.marker) && SingleLine(b.identity) && SingleLine(b.evidenceDigest)
    ensures SingleLine(b.manifestDigest) && SingleLine(b.version) && SingleLine(b.reviewedVersion)
  {
    DigestIsSingleLine(b.key);
    DigestIsSingleLine(b.marker);
    DigestIsSingleLine(b.identity);
    DigestIsSingleLine(b.evidenceDigest);
    DigestIsSingleLine(b.manifestDigest);
    DigestIsSingleLine(b.version);
    DigestIsSingleLine(b.reviewedVersion);
  }

  predicate PlainFields(lines: seq<string>) {
    AllInert(lines) && CLOSING !in lines && NoneMatch(EVIDENCE, lines) && NoneMatch(REVIEWED, lines)
  }

  lemma PlainConcat(a: seq<string>, b: seq<string>)
    requires PlainFields(a) && PlainFields(b)
    ensures PlainFields(a + b)
  {
  }

  lemma PlainField(lead: string, value: string)
    requires lead != "" && lead[0] != '#' && lead[0] != '`' && SingleLine(lead) && SingleLine(value)
    requires lead[0] != 'e' && lead[0] != 'r'
    ensures PlainFields([lead + value])
  {
    FieldLine(lead, value);
  }

  lemma LastFieldsArePlain(b: Brief)
    requires Publishable(b)
    ensures PlainFields(LastFields(b))
  {
    DigestsAreSingleLines(b);
    PlainField("manifest-digest: ", b.manifestDigest);
    PlainField("source-revision: ", b.revision);
    PlainField("brief-version: ", b.version);
    PlainThree("manifest-digest: " + b.manifestDigest, "source-revision: " + b.revision, "brief-version: " + b.version);
  }

  lemma SchemaIsPlain(b: Brief)
    ensures PlainFields([SchemaField(b)])
  {
    PlainField("schema: ", if b.proposal then "desloppify-proposal-brief:v1" else "desloppify-repair-brief:v1");
  }

  lemma FirstFieldsOfProposal(b: Brief)
    requires Publishable(b) && b.proposal
    ensures PlainFields(FirstFields(b))
  {
    DigestsAreSingleLines(b);
    SchemaIsPlain(b);
    PlainField("proposal-key: ", b.marker);
    PlainConcat([SchemaField(b)], ["proposal-key: " + b.marker]);
  }

  lemma RouteField(route: Route, suffix: string, value: string)
    requires SingleLine(suffix) && SingleLine(value)
    ensures PlainFields([RouteName(route) + suffix + value])
  {
    SingleConcat(RouteName(route), suffix);
    PlainField(RouteName(route) + suffix, value);
  }

  lemma PlainThree(a: string, b: string, c: string)
    requires PlainFields([a]) && PlainFields([b]) && PlainFields([c])
    ensures PlainFields([a, b, c])
  {
    PlainConcat([a], [b]);
    PlainConcat([a] + [b], [c]);
    assert [a, b, c] == [a] + [b] + [c];
  }

  lemma FirstFieldsOfRepair(b: Brief)
    requires Publishable(b) && !b.proposal
    ensures PlainFields(FirstFields(b))
  {
    DigestsAreSingleLines(b);
    SchemaIsPlain(b);
    RouteField(b.route, "-key: ", b.key);
    RouteField(b.route, "-identity: ", b.identity);
    PlainThree(SchemaField(b), RouteName(b.route) + "-key: " + b.key,
               RouteName(b.route) + "-identity: " + b.identity);
  }

  /** The pair among the fields of a layout. */
  lemma PairAmong(first: seq<string>, digest: string, middle: seq<string>, last: seq<string>)
    requires PlainFields(first) && PlainFields(last) && IsDigest(digest)
    requires AllInert(middle) && CLOSING !in middle && NoneMatch(EVIDENCE, middle)
    ensures
      var fields := first + [EVIDENCE + digest] + (middle + last);
      AllInert(fields) && CLOSING !in fields && Values(EVIDENCE, fields) == [digest]
  {
    DigestIsSingleLine(digest);
    FieldLine(EVIDENCE, digest);
    OneValue(EVIDENCE, first, digest, middle + last);
  }

  /** The pair among the fields. */
  lemma FieldsHoldThePair(b: Brief)
    requires Publishable(b)
    ensures AllInert(Fields(b)) && CLOSING !in Fields(b)
    ensures Values(EVIDENCE, Fields(b)) == [b.evidenceDigest]
    ensures Values(REVIEWED, Fields(b)) == if b.proposal then [] else [b.reviewedVersion]
  {
    LastFieldsArePlain(b);
    if b.proposal {
      FirstFieldsOfProposal(b);
      ProposalPair(b);
    } else {
      FirstFieldsOfRepair(b);
      RepairPair(b);
    }
  }

  lemma ProposalPair(b: Brief)
    requires Publishable(b) && b.proposal && PlainFields(FirstFields(b)) && PlainFields(LastFields(b))
    ensures AllInert(Fields(b)) && CLOSING !in Fields(b)
    ensures Values(EVIDENCE, Fields(b)) == [b.evidenceDigest] && Values(REVIEWED, Fields(b)) == []
  {
    var first, last := FirstFields(b), LastFields(b);
    DigestIsSingleLine(b.evidenceDigest);
    FieldLine(EVIDENCE, b.evidenceDigest);
    PairAmong(first, b.evidenceDigest, [], last);
    assert Fields(b) == first + [EVIDENCE + b.evidenceDigest] + ([] + last);
    ValuesOfNone(REVIEWED, Fields(b));
  }

  lemma ReviewedAmong(first: seq<string>, digest: string, reviewed: string, last: seq<string>)
    requires PlainFields(first) && PlainFields(last) && IsDigest(digest) && IsDigest(reviewed)
    ensures Values(REVIEWED, first + [EVIDENCE + digest] + [REVIEWED + reviewed] + last) == [reviewed]
  {
    DigestIsSingleLine(digest);
    FieldLine(EVIDENCE, digest);
    OneValue(REVIEWED, first + [EVIDENCE + digest], reviewed, last);
  }

  lemma RepairPair(b: Brief)
    requires Publishable(b) && !b.proposal && PlainFields(FirstFields(b)) && PlainFields(LastFields(b))
    ensures AllInert(Fields(b)) && CLOSING !in Fields(b)
    ensures Values(EVIDENCE, Fields(b)) == [b.evidenceDigest] && Values(REVIEWED, Fields(b)) == [b.reviewedVersion]
  {
    var first, last := FirstFields(b), LastFields(b);
    var evidence, reviewed := [EVIDENCE + b.evidenceDigest], [REVIEWED + b.reviewedVersion];
    DigestIsSingleLine(b.reviewedVersion);
    FieldLine(REVIEWED, b.reviewedVersion);
    PairAmong(first, b.evidenceDigest, reviewed, last);
    ReviewedAmong(first, b.evidenceDigest, b.reviewedVersion, last);
    assert Fields(b) == first + evidence + (reviewed + last);
    assert Fields(b) == first + evidence + reviewed + last;
  }

  lemma CommentNamed(name: string, value: string)
    requires SingleLine(name) && SingleLine(value)
    ensures
      var comment := "<!-- desloppify-" + name + "-key: " + value + " -->";
      Inert(comment) && comment != OPENING
  {
    SingleConcat("<!-- desloppify-", name);
    SingleConcat("<!-- desloppify-" + name, "-key: ");
    SingleConcat("<!-- desloppify-" + name + "-key: ", value);
    var comment := "<!-- desloppify-" + name + "-key: " + value;
    Labelled(comment, " -->");
    assert (comment + " -->")[0] == '<' && OPENING[0] == '`';
  }

  lemma CommentIsInert(b: Brief)
    requires Publishable(b)
    ensures Inert(MarkerComment(b)) && MarkerComment(b) != OPENING
  {
    DigestIsSingleLine(if b.proposal then b.marker else b.key);
    CommentNamed(if b.proposal then "proposal" else RouteName(b.route), if b.proposal then b.marker else b.key);
  }

  lemma BodyHasTheseLines(w: Wording, b: Brief)
    requires Fixed(w) && Publishable(b)
    ensures Lines(Body(w, b)) == BodyLines(w, b)
    ensures Block(BodyLines(w, b)) == Fields(b)
  {
    var head := if b.proposal then ProposalLines(w, b) else RepairLines(w, b);
    if b.proposal {
      ProposalLinesAreInert(w, b);
    } else {
      RepairLinesAreInert(w, b);
    }
    CommentIsInert(b);
    FieldsHoldThePair(b);
    BlockOfLayout(head, MarkerComment(b), Fields(b));
    LayoutSplits(head, MarkerComment(b), Fields(b));
  }

  lemma LayoutSplits(head: seq<string>, comment: string, fields: seq<string>)
    requires AllInert(head) && Inert(comment) && AllInert(fields)
    ensures
      var lines := head + ([HEADING, "", comment, "", OPENING] + fields + [CLOSING]);
      Lines(JoinLines(lines)) == lines
  {
    var lines := head + ([HEADING, "", comment, "", OPENING] + fields + [CLOSING]);
    assert AllSingleLine([HEADING, "", comment, "", OPENING]);
    assert lines[|lines| - 1] == CLOSING;
    LinesOfJoin(lines);
  }

  /** The published body gives back exactly the brief's evidence digest and reviewed version, and for a proposal the
      digest alone, whatever its fields say and however the fixed text is worded. */
  lemma PublishedPairOfBody(w: Wording, b: Brief)
    requires Fixed(w) && Publishable(b)
    ensures PublishedPair(Body(w, b))
         == Pair(Some(b.evidenceDigest), if b.proposal then None else Some(b.reviewedVersion))
  {
    BodyHasTheseLines(w, b);
    FieldsHoldThePair(b);
  }
}
