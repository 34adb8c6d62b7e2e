/** The headings of the two brief layouts (engine/repair_brief.py), which meet what the layout laws ask of them. */
module BriefWording {
  import opened Text
  import opened RepairBrief

  // Long headings are written in parts: each part is then seen to be a single line by itself.
  const SOURCE := "## Source-bound"
  const FINDING := "## Detector finding" + " (anchors checked against" + " source; guidance is fixed" + " text)"
  const ASSERTIONS := "## Reviewer assertions" + " (not verified against" + " source)"
  const RISK := "## Risk and uncertainty"
  const COMPLETION := "## Completion criterion"
  const PROPOSAL := "## Architecture proposal:" + " human decision required"
  const ALTERNATIVES := "## Alternatives and" + " trade-offs"
  const OWNERSHIP := "## Expected ownership and" + " contracts"
  const QUESTIONS := "## Open questions"
  const DECISION := "## Decision needed"

  /** A sentence of the layouts: any line that does not begin like a heading. */
  predicate IsSentence(s: string) {
    SingleLine(s) && (s != "" ==> s[0] != '#')
  }

  /** The sentences, whatever they say. */
  datatype Sentences = Sentences(
    scope: string, excluded: string, risk: string, completion: string, proposal: string, affected: string,
    suggestion: string, split: string, keep: string, decision: string)

  predicate AreSentences(s: Sentences) {
    && IsSentence(s.scope) && IsSentence(s.excluded) && IsSentence(s.risk) && IsSentence(s.completion)
    && IsSentence(s.proposal) && IsSentence(s.affected) && IsSentence(s.suggestion) && IsSentence(s.split)
    && IsSentence(s.keep) && IsSentence(s.decision)
  }

  /** The layouts as they are written: these headings around the sentences. */
  function Worded(s: Sentences): Wording {
    Wording(SOURCE, s.scope, s.excluded, FINDING, ASSERTIONS, RISK, s.risk, COMPLETION, s.completion,
            PROPOSAL, s.proposal, s.affected, ALTERNATIVES, s.suggestion, s.split, s.keep, OWNERSHIP,
            QUESTIONS, DECISION, s.decision)
  }

  lemma SentenceIsInert(s: string)
    requires IsSentence(s)
    ensures Inert(s)
  {
    assert HEADING[0] == '#';
  }

  /** A heading that differs from the provenance heading in its first word. */
  lemma HeadingIsInert(first: string, rest: string)
    requires SingleLine(first) && SingleLine(rest) && |first| > 3 && first[3] != 'P'
    ensures Inert(first + rest)
  {
    SingleConcat(first, rest);
    assert (first + rest)[3] == first[3] && HEADING[3] == 'P';
  }

  lemma SourceIsInert()
    ensures Inert(SOURCE)
  {
    HeadingIsInert(SOURCE, "");
    assert SOURCE + "" == SOURCE;
  }

  lemma FindingBegins()
    ensures SingleLine("## Detector finding" + " (anchors checked against")
  {
    SingleConcat("## Detector finding", " (anchors checked against");
  }

  lemma FindingIsInert()
    ensures Inert(FINDING)
  {
    FindingBegins();
    SingleConcat("## Detector finding" + " (anchors checked against", " source; guidance is fixed");
    HeadingIsInert("## Detector finding" + " (anchors checked against" + " source; guidance is fixed", " text)");
  }

  lemma AssertionsIsInert()
    ensures Inert(ASSERTIONS)
  {
    SingleConcat("## Reviewer assertions", " (not verified against");
    HeadingIsInert("## Reviewer assertions" + " (not verified against", " source)");
  }

  lemma RiskIsInert()
    ensures Inert(RISK)
  {
    HeadingIsInert(RISK, "");
    assert RISK + "" == RISK;
  }

  lemma CompletionIsInert()
    ensures Inert(COMPLETION)
  {
    HeadingIsInert(COMPLETION, "");
    assert COMPLETION + "" == COMPLETION;
  }

  lemma ProposalIsInert()
    ensures Inert(PROPOSAL)
  {
    HeadingIsInert("## Architecture proposal:", " human decision required");
  }

  lemma AlternativesIsInert()
    ensures Inert(ALTERNATIVES)
  {
    HeadingIsInert("## Alternatives and", " trade-offs");
  }

  lemma OwnershipIsInert()
    ensures Inert(OWNERSHIP)
  {
    HeadingIsInert("## Expected ownership and", " contracts");
  }

  lemma QuestionsIsInert()
    ensures Inert(QUESTIONS)
  {
    HeadingIsInert(QUESTIONS, "");
    assert QUESTIONS + "" == QUESTIONS;
  }

  lemma DecisionIsInert()
    ensures Inert(DECISION)
  {
    HeadingIsInert(DECISION, "");
    assert DECISION + "" == DECISION;
  }

  /** The actual headings with any sentences make a wording the layout laws apply to. */
  lemma WordedIsFixed(s: Sentences)
    requires AreSentences(s)
    ensures Fixed(Worded(s))
  {
    SourceIsInert();
    FindingIsInert();
    AssertionsIsInert();
    RiskIsInert();
    CompletionIsInert();
    ProposalIsInert();
    AlternativesIsInert();
    OwnershipIsInert();
    QuestionsIsInert();
    DecisionIsInert();
    SentenceIsInert(s.scope);
    SentenceIsInert(s.excluded);
    SentenceIsInert(s.completion);
    SentenceIsInert(s.proposal);
    SentenceIsInert(s.affected);
    SentenceIsInert(s.split);
    SentenceIsInert(s.keep);
  }
}
