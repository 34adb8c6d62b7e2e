/** Inline code spans: how the brief writes them and how CommonMark 0.31.2, section 6.1, reads them back. */
module CodeSpan {
  import opened Wrappers

  // ----- backtick runs -----

  function LeadRun(s: string): (n: nat)
    ensures n <= |s| && forall i :: 0 <= i < n ==> s[i] == '`'
    ensures n < |s| ==> s[n] != '`'
    ensures s != "" && s[0] == '`' ==> n > 0
  {
    if s != "" && s[0] == '`' then
      var k := LeadRun(s[1..]);
      assert forall i :: 1 <= i < k + 1 ==> s[i] == s[1..][i - 1];
      1 + k
    else 0
  }

  /** The length of the longest run of backticks. */
  function Longest(s: string): nat
    decreases |s|
  {
    if s == "" then 0
    else if s[0] == '`' then
      var k := LeadRun(s);
      var rest := Longest(s[k..]);
      if k > rest then k else rest
    else Longest(s[1..])
  }

  function Shift(k: nat, r: Option<nat>): Option<nat> {
    if r.Some? then Some(k + r.value) else None
  }

  /** How far to the end of the run, or past the one character, that begins the text. */
  function Step(s: string): (k: nat)
    requires s != ""
    ensures 1 <= k <= |s|
  {
    if LeadRun(s) > 0 then LeadRun(s) else 1
  }

  /** Where the first run of exactly `n` backticks begins. */
  function FindRun(s: string, n: nat): Option<nat>
    decreases |s|
  {
    if s == "" then None
    else if LeadRun(s) == n && n > 0 then Some(0)
    else Shift(Step(s), FindRun(s[Step(s)..], n))
  }

  // ----- reading a span -----

  /** Line endings become spaces; CR LF is one ending. */
  function Unbroken(s: string): (r: string)
    ensures |r| <= |s|
    decreases |s|
  {
    if s == "" then ""
    else if s[0] == '\r' && |s| > 1 && s[1] == '\n' then " " + Unbroken(s[2..])
    else [if s[0] == '\r' || s[0] == '\n' then ' ' else s[0]] + Unbroken(s[1..])
  }

  predicate AllSpaces(s: string) {
    forall i :: 0 <= i < |s| ==> s[i] == ' '
  }

  /** One space is stripped from each end when both ends are spaces and something else is between them. */
  function Stripped(s: string): string {
    if |s| >= 2 && s[0] == ' ' && s[|s| - 1] == ' ' && !AllSpaces(s) then s[1..|s| - 1] else s
  }

  /** The content of the code span that begins the text, and what follows it. */
  function ReadSpan(s: string): Option<(string, string)> {
    var n := LeadRun(s);
    if n == 0 then None
    else
      var close := FindRun(s[n..], n);
      if close.None? || n + close.value + n > |s| then None
      else Some((Stripped(Unbroken(s[n..][..close.value])), s[n + close.value + n..]))
  }

  // ----- writing one -----

  function Fence(n: nat): (f: string)
    ensures |f| == n && forall i :: 0 <= i < n ==> f[i] == '`'
  {
    seq(n, i => '`')
  }

  /** A code span whose fence outruns every run of backticks in the text. */
  function Code(text: string): string {
    var fence := Fence(Longest(text) + 1);
    fence + " " + text + " " + fence
  }

  // ----- what is read is what was written -----

  lemma {:induction false} LeadRunOfFence(n: nat, rest: string)
    requires rest == "" || rest[0] != '`'
    ensures LeadRun(Fence(n) + rest) == n
  {
    if n == 0 {
      assert Fence(0) + rest == rest;
    } else {
      assert (Fence(n) + rest)[1..] == Fence(n - 1) + rest;
      LeadRunOfFence(n - 1, rest);
    }
  }

  lemma {:induction false} LeadRunOfPrefix(t: string, u: string)
    requires LeadRun(t) < |t|
    ensures LeadRun(t + u) == LeadRun(t)
  {
    if t[0] == '`' {
      LeadRunOfPrefix(t[1..], u);
      assert (t + u)[1..] == t[1..] + u;
    }
  }

  lemma LongestBounds(t: string)
    requires t != ""
    ensures LeadRun(t) <= Longest(t) && Longest(t[Step(t)..]) <= Longest(t)
  {
  }

  lemma FindRunPast(s: string, n: nat)
    requires s != "" && LeadRun(s) != n
    ensures FindRun(s, n) == Shift(Step(s), FindRun(s[Step(s)..], n))
  {
  }

  lemma StepOfPrefix(t: string, u: string)
    requires t != "" && t[|t| - 1] != '`'
    ensures LeadRun(t + u) == LeadRun(t) && Step(t + u) == Step(t) && (t + u)[Step(t)..] == t[Step(t)..] + u
  {
    assert LeadRun(t) < |t|;
    LeadRunOfPrefix(t, u);
  }

  lemma ShiftTwice(j: nat, k: nat, r: Option<nat>)
    ensures Shift(j, Shift(k, r)) == Shift(j + k, r)
  {
  }

  lemma AfterStep(t: string)
    requires t != "" && t[|t| - 1] != '`'
    ensures
      var v := t[Step(t)..];
      |t| == Step(t) + |v| && (v == "" || v[|v| - 1] != '`')
  {
  }

  /** Shorter runs are passed over. */
  lemma {:induction false} FindRunSkips(t: string, u: string, n: nat)
    requires Longest(t) < n && (t == "" || t[|t| - 1] != '`')
    ensures FindRun(t + u, n) == Shift(|t|, FindRun(u, n))
    decreases |t|
  {
    if t == "" {
      assert t + u == u;
    } else {
      var v := t[Step(t)..];
      AfterStep(t);
      LongestBounds(t);
      FindRunSkips(v, u, n);
      FindRunOver(t, u, n);
      ShiftTwice(Step(t), |v|, FindRun(u, n));
    }
  }

  lemma FindRunOver(t: string, u: string, n: nat)
    requires t != "" && t[|t| - 1] != '`' && LeadRun(t) != n
    ensures FindRun(t + u, n) == Shift(Step(t), FindRun(t[Step(t)..] + u, n))
  {
    StepOfPrefix(t, u);
    FindRunPast(t + u, n);
  }

  lemma {:induction false} LongestWithSpace(t: string)
    ensures Longest(t + " ") == Longest(t)
    decreases |t|
  {
    if t == "" {
      assert Longest(" ") == Longest(" "[1..]);
    } else if t[0] == '`' {
      var k := LeadRun(t);
      if k == |t| {
        assert t[k..] == "";
        assert t == Fence(k);
        LeadRunOfFence(k, " ");
        assert (t + " ")[k..] == " ";
        assert Longest(" ") == Longest(" "[1..]);
      } else {
        LeadRunOfPrefix(t, " ");
        assert (t + " ")[k..] == t[k..] + " ";
        LongestWithSpace(t[k..]);
      }
    } else {
      assert (t + " ")[1..] == t[1..] + " ";
      LongestWithSpace(t[1..]);
    }
  }

  predicate HasLineEnding(s: string) {
    exists i :: 0 <= i < |s| && (s[i] == '\n' || s[i] == '\r')
  }

  lemma {:induction false} UnbrokenIsIdentity(s: string)
    ensures Unbroken(s) == s <==> !HasLineEnding(s)
    decreases |s|
  {
    if s != "" {
      UnbrokenIsIdentity(s[1..]);
      assert s == [s[0]] + s[1..];
      assert HasLineEnding(s) <==> s[0] == '\n' || s[0] == '\r' || HasLineEnding(s[1..]) by {
        assert forall i :: 1 <= i < |s| ==> s[i] == s[1..][i - 1];
      }
      if s[0] == '\r' && |s| > 1 && s[1] == '\n' {
        assert |Unbroken(s)| < |s|;
      } else {
        assert Unbroken(s)[1..] == Unbroken(s[1..]);
      }
    }
  }

  lemma {:induction false} UnbrokenPadded(s: string)
    ensures Unbroken(s + " ") == Unbroken(s) + " "
    decreases |s|
  {
    if s == "" {
      assert " "[1..] == "";
    } else if s[0] == '\r' && |s| > 1 && s[1] == '\n' {
      assert (s + " ")[2..] == s[2..] + " ";
      UnbrokenPadded(s[2..]);
    } else {
      assert (s + " ")[1..] == s[1..] + " ";
      UnbrokenPadded(s[1..]);
    }
  }

  lemma UnbrokenBetweenSpaces(text: string)
    ensures Unbroken(" " + text + " ") == " " + Unbroken(text) + " "
  {
    var padded := " " + text + " ";
    assert padded[1..] == text + " ";
    UnbrokenPadded(text);
  }

  lemma StrippedPadding(u: string)
    ensures Stripped(" " + u + " ") == if AllSpaces(u) then " " + u + " " else u
  {
    var padded := " " + u + " ";
    assert padded[1..|padded| - 1] == u;
    assert forall i :: 0 <= i < |u| ==> padded[i + 1] == u[i];
    assert forall i :: 0 < i < |padded| - 1 ==> padded[i] == u[i - 1];
  }

  /** The content between the fences: the padding is taken off exactly when the text is not all spaces. */
  lemma PaddedContent(text: string)
    ensures Stripped(Unbroken(" " + text + " ")) == text <==> !HasLineEnding(text) && !AllSpaces(text)
  {
    UnbrokenBetweenSpaces(text);
    StrippedPadding(Unbroken(text));
    if AllSpaces(Unbroken(text)) {
      UnbrokenSpaces(text);
      SpacesOutgrow(text);
    } else {
      UnbrokenIsIdentity(text);
    }
  }

  lemma SpacesOutgrow(text: string)
    requires AllSpaces(Unbroken(text))
    ensures " " + Unbroken(text) + " " != text
  {
    var u := Unbroken(text);
    if " " + u + " " == text {
      assert AllSpaces(text) by {
        assert forall i :: 0 < i < |text| - 1 ==> text[i] == u[i - 1];
      }
      UnbrokenIsIdentity(text);
      assert false;
    }
  }

  /** Text that reads as spaces only: it is all spaces, or has a line ending. */
  lemma {:induction false} UnbrokenSpaces(s: string)
    requires AllSpaces(Unbroken(s))
    ensures AllSpaces(s) || HasLineEnding(s)
  {
    UnbrokenIsIdentity(s);
  }

  lemma PaddingHasNoRun(text: string)
    ensures Longest(" " + text + " ") == Longest(text)
  {
    LongestWithSpace(text);
    assert (" " + text + " ")[1..] == text + " ";
  }

  lemma FenceIsFound(n: nat, rest: string)
    requires n > 0 && (rest == "" || rest[0] != '`')
    ensures FindRun(Fence(n) + rest, n) == Some(0)
  {
    LeadRunOfFence(n, rest);
    assert Fence(n) + rest != "";
  }

  lemma ClosingFence(inner: string, n: nat, rest: string)
    requires Longest(inner) < n && inner != "" && inner[|inner| - 1] != '`'
    requires rest == "" || rest[0] != '`'
    ensures FindRun(inner + (Fence(n) + rest), n) == Some(|inner|)
  {
    FindRunSkips(inner, Fence(n) + rest, n);
    FenceIsFound(n, rest);
  }

  lemma Pieces(f: string, inner: string, rest: string)
    ensures
      var s := f + inner + f + rest;
      && s == f + (inner + (f + rest)) && s[|f|..] == inner + (f + rest)
      && s[|f|..][..|inner|] == inner && s[|f| + |inner| + |f|..] == rest
  {
    var s := f + inner + f + rest;
    assert s == f + (inner + (f + rest));
    assert s[|f|..] == inner + (f + rest);
  }

  /** What is read of a written span: its content between the fences, and the rest. */
  lemma ReadSpanOfCode(text: string, rest: string)
    requires rest == "" || rest[0] != '`'
    ensures ReadSpan(Code(text) + rest) == Some((Stripped(Unbroken(" " + text + " ")), rest))
  {
    var n := Longest(text) + 1;
    var inner := " " + text + " ";
    var s := Code(text) + rest;
    assert s == Fence(n) + inner + Fence(n) + rest;
    Pieces(Fence(n), inner, rest);
    LeadRunOfFence(n, inner + (Fence(n) + rest));
    PaddingHasNoRun(text);
    ClosingFence(inner, n, rest);
  }

  /** A written span reads back as its text, whatever follows it on the line, exactly when the text has no line ending
      and is not made of spaces alone. */
  lemma CodeReadsBack(text: string, rest: string)
    requires rest == "" || rest[0] != '`'
    ensures ReadSpan(Code(text) + rest) == Some((text, rest)) <==> !HasLineEnding(text) && !AllSpaces(text)
  {
    ReadSpanOfCode(text, rest);
    PaddedContent(text);
  }
}
