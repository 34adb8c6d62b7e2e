/** Reading and writing numbered step files (engine/_plan/step_parser.py). */
module StepParser {
  import opened Wrappers
  import opened Text

  /** An action step. Reading never marks a step done. */
  datatype Step = Step(title: string, detail: Option<string>, refs: Option<seq<string>>, done: bool)

  // ----- lines -----

  predicate IsDigit(c: char) {
    '0' <= c <= '9'
  }

  function Digits(s: string): (n: nat)
    ensures n <= |s| && (n < |s| ==> !IsDigit(s[n]))
  {
    if s != "" && IsDigit(s[0]) then 1 + Digits(s[1..]) else 0
  }

  /** `^(\d+)\.\s+(.+)$`: after the number and the point, white space and at least one more character. */
  function HeaderTitle(line: string): Option<string> {
    var n := Digits(line);
    if n > 0 && n < |line| && line[n] == '.' && |line| - n > 2 && IsSpace(line[n + 1]) then Some(Strip(line[n + 1..]))
    else None
  }

  predicate Same(c: char, upper: char, lower: char) {
    c == upper || c == lower
  }

  /** Case-insensitive matching of `s` also takes the long s. */
  predicate IsS(c: char) {
    c == 's' || c == 'S' || c == '\U{17f}'
  }

  /** Where the references begin on a `Ref:` or `Refs:` line without its leading white space. */
  function AfterLabel(s: string): Option<nat> {
    if |s| >= 5 && Same(s[0], 'R', 'r') && Same(s[1], 'E', 'e') && Same(s[2], 'F', 'f') then
      if s[3] == ':' then Some(4)
      else if IsS(s[3]) && s[4] == ':' && |s| > 5 then Some(5)
      else None
    else None
  }

  predicate IsRefLine(line: string) {
    AfterLabel(StripLeft(line)).Some?
  }

  function StrippedParts(parts: seq<string>): seq<string> {
    if parts == [] then []
    else (if Strip(parts[0]) != "" then [Strip(parts[0])] else []) + StrippedParts(parts[1..])
  }

  function RefsOf(line: string): seq<string>
    requires IsRefLine(line)
  {
    var s := StripLeft(line);
    StrippedParts(Split(s[AfterLabel(s).value..], ','))
  }

  // ----- reading -----

  datatype State = State(steps: seq<Step>, current: Option<Step>, details: seq<string>)

  const START := State([], None, [])

  function WithDetail(step: Step, details: seq<string>): Step {
    var detail := Strip(JoinLines(details));
    if detail != "" then step.(detail := Some(detail)) else step
  }

  function Flushed(st: State): seq<Step> {
    if st.current.None? then st.steps else st.steps + [WithDetail(st.current.value, st.details)]
  }

  predicate IsIndented(line: string) {
    line != "" && (line[0] == ' ' || line[0] == '\t')
  }

  function WithRefs(step: Step, refs: seq<string>): Step {
    step.(refs := Some((if step.refs.Some? then step.refs.value else []) + refs))
  }

  function Consumed(st: State, line: string): State {
    var title := HeaderTitle(line);
    if title.Some? then State(Flushed(st), Some(Step(title.value, None, None, false)), [])
    else if st.current.None? then st
    else if IsIndented(line) then
      if IsRefLine(line) then st.(current := Some(WithRefs(st.current.value, RefsOf(line))))
      else st.(details := st.details + [Strip(line)])
    else if Strip(line) == "" && st.details != [] then st.(details := st.details + [""])
    else st
  }

  function ConsumedAll(st: State, lines: seq<string>): State
    decreases |lines|
  {
    if lines == [] then st else ConsumedAll(Consumed(st, lines[0]), lines[1..])
  }

  function Parse(text: string): seq<Step> {
    Flushed(ConsumedAll(START, Lines(text)))
  }

  // ----- writing -----

  function Decimal(n: nat): (s: string)
    ensures s != "" && forall i :: 0 <= i < |s| ==> IsDigit(s[i])
  {
    if n < 10 then [('0' as int + n) as char] else Decimal(n / 10) + [('0' as int + n % 10) as char]
  }

  const INDENT := "   "

  function Indented(lines: seq<string>): seq<string> {
    seq(|lines|, i requires 0 <= i < |lines| => INDENT + lines[i])
  }

  function JoinRefs(refs: seq<string>): string {
    if refs == [] then "" else if |refs| == 1 then refs[0] else refs[0] + ", " + JoinRefs(refs[1..])
  }

  function TitleLine(index: nat, step: Step): string {
    Decimal(index) + ". " + (if step.done then "[x] " else "") + step.title
  }

  function RefsLine(refs: seq<string>): string {
    INDENT + "Refs: " + JoinRefs(refs)
  }

  function DetailLines(step: Step): seq<string> {
    if step.detail.Some? && step.detail.value != "" then Indented(Lines(step.detail.value)) else []
  }

  function RefLines(step: Step): seq<string> {
    if step.refs.Some? && step.refs.value != [] then [RefsLine(step.refs.value)] else []
  }

  function StepLines(index: nat, step: Step): seq<string> {
    [TitleLine(index, step)] + DetailLines(step) + RefLines(step) + [""]
  }

  /** The lines of all steps, numbered from `index`. */
  function AllLines(index: nat, steps: seq<Step>): seq<string>
    decreases |steps|
  {
    if steps == [] then [] else StepLines(index, steps[0]) + AllLines(index + 1, steps[1..])
  }

  function Format(steps: seq<Step>): string {
    JoinLines(AllLines(1, steps))
  }

  // ----- which steps can be read back -----

  predicate RefOk(ref: string) {
    Clean(ref) && SingleLine(ref) && ',' !in ref
  }

  predicate DetailLineOk(line: string) {
    Trimmed(line) && SingleLine(line) && !IsRefLine(line)
  }

  predicate DetailOk(detail: string) {
    && Clean(detail) && JoinLines(Lines(detail)) == detail
    && forall i :: 0 <= i < |Lines(detail)| ==> DetailLineOk(Lines(detail)[i])
  }

  /** What reading can produce, but for an empty title and an empty list of references. */
  predicate Shaped(s: Step) {
    && !s.done && Trimmed(s.title) && SingleLine(s.title)
    && (s.detail.Some? ==> DetailOk(s.detail.value))
    && (s.refs.Some? ==> forall i :: 0 <= i < |s.refs.value| ==> RefOk(s.refs.value[i]))
  }

  predicate Writable(s: Step) {
    Shaped(s) && s.title != "" && s.refs != Some([])
  }

  /** An empty list of references is written as none. */
  function Canonical(s: Step): Step {
    if s.refs == Some([]) then s.(refs := None) else s
  }

  // ----- reading one written block -----

  lemma {:induction false} DigitsOfPrefix(digits: string, rest: string)
    requires forall i :: 0 <= i < |digits| ==> IsDigit(digits[i])
    requires rest != "" && !IsDigit(rest[0])
    ensures Digits(digits + rest) == |digits|
  {
    if digits == "" {
      assert digits + rest == rest;
    } else {
      assert (digits + rest)[1..] == digits[1..] + rest;
      DigitsOfPrefix(digits[1..], rest);
    }
  }

  lemma StripLeftOfSpace(s: string)
    ensures StripLeft(" " + s) == StripLeft(s) && StripLeft(INDENT + s) == StripLeft(s)
  {
    assert (" " + s)[1..] == s;
    assert (INDENT + s)[1..] == "  " + s;
    assert ("  " + s)[1..] == " " + s;
  }

  lemma StripOfIndented(s: string)
    requires Trimmed(s)
    ensures Strip(INDENT + s) == s && Strip(" " + s) == s
  {
    StripLeftOfSpace(s);
  }

  /** A written title line is a header exactly when the title is not empty, and gives the title back. */
  lemma TitleLineIsHeader(index: nat, s: Step)
    requires Shaped(s)
    ensures HeaderTitle(TitleLine(index, s)) == if s.title != "" then Some(s.title) else None
  {
    var line := TitleLine(index, s);
    var n := |Decimal(index)|;
    assert line == Decimal(index) + (". " + s.title);
    DigitsOfPrefix(Decimal(index), ". " + s.title);
    assert line[n..] == ". " + s.title;
    assert line[n + 1..] == " " + s.title;
    StripOfIndented(s.title);
  }

  lemma IndentedIsNoHeader(line: string)
    requires line == "" || line[0] == ' '
    ensures HeaderTitle(line).None?
  {
  }

  lemma {:induction false} ConsumeConcat(st: State, a: seq<string>, b: seq<string>)
    ensures ConsumedAll(st, a + b) == ConsumedAll(ConsumedAll(st, a), b)
    decreases |a|
  {
    if a == [] {
      assert a + b == b;
    } else {
      assert (a + b)[1..] == a[1..] + b;
      ConsumeConcat(Consumed(st, a[0]), a[1..], b);
    }
  }

  /** Indented detail lines are collected as they were. */
  lemma {:induction false} ConsumeDetails(st: State, lines: seq<string>)
    requires st.current.Some? && forall i :: 0 <= i < |lines| ==> DetailLineOk(lines[i])
    ensures ConsumedAll(st, Indented(lines)) == st.(details := st.details + lines)
    decreases |lines|
  {
    if lines == [] {
      assert st.details + [] == st.details;
    } else {
      assert DetailLineOk(lines[0]);
      DetailIsConsumed(st, lines[0]);
      IndentedTail(lines);
      ConsumeDetails(st.(details := st.details + [lines[0]]), lines[1..]);
      assert st.details + [lines[0]] + lines[1..] == st.details + lines;
    }
  }

  lemma DetailIsConsumed(st: State, detail: string)
    requires st.current.Some? && DetailLineOk(detail)
    ensures Consumed(st, INDENT + detail) == st.(details := st.details + [detail])
  {
    StripOfIndented(detail);
    StripLeftOfSpace(detail);
  }

  lemma IndentedTail(lines: seq<string>)
    requires lines != []
    ensures Indented(lines) != [] && Indented(lines)[0] == INDENT + lines[0]
    ensures Indented(lines)[1..] == Indented(lines[1..])
  {
  }

  /** Joined references split into the references. */
  lemma {:induction false} PartsOfJoinedRefs(refs: seq<string>)
    requires refs != [] && forall i :: 0 <= i < |refs| ==> RefOk(refs[i])
    ensures StrippedParts(Split(" " + JoinRefs(refs), ',')) == refs
  {
    var first := " " + refs[0];
    assert RefOk(refs[0]);
    StripOfIndented(refs[0]);
    if |refs| == 1 {
      SplitWithout(first, ',');
      assert StrippedParts([]) == [];
      assert StrippedParts([first]) == [refs[0]] + [];
      assert refs == [refs[0]];
    } else {
      var tail := " " + JoinRefs(refs[1..]);
      assert " " + JoinRefs(refs) == first + [','] + tail;
      SplitAtSeparator(first, tail, ',');
      PartsOfJoinedRefs(refs[1..]);
      assert ([first] + Split(tail, ','))[1..] == Split(tail, ',');
      assert refs == [refs[0]] + refs[1..];
    }
  }

  lemma LabelIsFound(rest: string)
    requires rest != ""
    ensures AfterLabel("Refs: " + rest) == Some(5) && ("Refs: " + rest)[5..] == " " + rest
    ensures StripLeft("Refs: " + rest) == "Refs: " + rest
  {
    var s := "Refs: " + rest;
    assert s[0] == 'R' && s[1] == 'e' && s[2] == 'f' && s[3] == 's' && s[4] == ':';
  }

  lemma RefsLineIsRead(refs: seq<string>)
    requires refs != [] && forall i :: 0 <= i < |refs| ==> RefOk(refs[i])
    ensures IsRefLine(RefsLine(refs)) && RefsOf(RefsLine(refs)) == refs
  {
    var s := "Refs: " + JoinRefs(refs);
    assert RefsLine(refs) == INDENT + s;
    StripLeftOfSpace(s);
    assert RefOk(refs[0]) && refs[0] != "";
    LabelIsFound(JoinRefs(refs));
    PartsOfJoinedRefs(refs);
  }

  // ----- trailing blank lines change nothing -----

  lemma {:induction false} StripLeftTrailing(x: string, c: char)
    requires IsSpace(c)
    ensures StripLeft(x + [c]) == if StripLeft(x) == "" then "" else StripLeft(x) + [c]
  {
    if x == "" {
      assert x + [c] == [c];
      assert [c][1..] == "";
    } else if IsSpace(x[0]) {
      assert (x + [c])[1..] == x[1..] + [c];
      StripLeftTrailing(x[1..], c);
    }
  }

  lemma StripTrailing(x: string, c: char)
    requires IsSpace(c)
    ensures Strip(x + [c]) == Strip(x)
  {
    StripLeftTrailing(x, c);
    var left := StripLeft(x);
    assert (left + [c])[..|left|] == left;
  }

  lemma {:induction false} JoinTrailingBlank(lines: seq<string>)
    requires lines != []
    ensures JoinLines(lines + [""]) == JoinLines(lines) + "\n"
  {
    if |lines| > 1 {
      JoinTrailingBlank(lines[1..]);
      assert (lines + [""])[1..] == lines[1..] + [""];
      assert lines[0] + "\n" + (JoinLines(lines[1..]) + "\n") == lines[0] + "\n" + JoinLines(lines[1..]) + "\n";
    } else {
      assert (lines + [""])[1..] == [""];
      assert lines[0] + "\n" + "" == lines[0] + "\n";
    }
  }

  lemma BlankKeepsFlushed(st: State)
    ensures Flushed(Consumed(st, "")) == Flushed(st)
  {
    if st.current.Some? && st.details != [] {
      JoinTrailingBlank(st.details);
      StripTrailing(JoinLines(st.details), '\n');
    }
  }

  // ----- reading a written list -----

  /** A written block with a title is read as its step, after whatever was read before. */
  lemma ConsumeBlock(st: State, index: nat, s: Step)
    requires Shaped(s) && s.title != ""
    ensures Flushed(ConsumedAll(st, StepLines(index, s))) == Flushed(st) + [Canonical(s)]
  {
    var title := TitleLine(index, s);
    var begun := State(Flushed(st), Some(Step(s.title, None, None, false)), []);
    var details := if s.detail.Some? then Lines(s.detail.value) else [];
    var detailed := begun.(details := details);
    var closed := if RefLines(s) == [] then detailed
                  else detailed.(current := Some(Step(s.title, None, Some(s.refs.value), false)));
    TitleLineIsHeader(index, s);
    assert ConsumedAll(st, [title]) == ConsumedAll(begun, [title][1..]) == begun;
    DetailsAreRead(begun, s);
    RefsAreRead(detailed, s);
    BlockIsRead(st, [title], DetailLines(s), RefLines(s), begun, detailed, closed);
    BlankKeepsFlushed(closed);
    ConsumeBlank(closed);
    assert WithDetail(closed.current.value, details) == Canonical(s);
  }

  lemma DetailsAreRead(begun: State, s: Step)
    requires Shaped(s) && begun.current.Some? && begun.details == []
    ensures ConsumedAll(begun, DetailLines(s))
         == begun.(details := if s.detail.Some? then Lines(s.detail.value) else [])
  {
    if s.detail.Some? {
      ConsumeDetails(begun, Lines(s.detail.value));
      assert [] + Lines(s.detail.value) == Lines(s.detail.value);
    }
  }

  lemma RefsAreRead(st: State, s: Step)
    requires Shaped(s) && st.current == Some(Step(s.title, None, None, false))
    ensures ConsumedAll(st, RefLines(s))
         == if RefLines(s) == [] then st else st.(current := Some(Step(s.title, None, Some(s.refs.value), false)))
  {
    if RefLines(s) != [] {
      var line := RefsLine(s.refs.value);
      RefsLineIsRead(s.refs.value);
      assert line[0] == ' ';
      IndentedIsNoHeader(line);
      assert [line][1..] == [];
      assert [] + s.refs.value == s.refs.value;
      assert ConsumedAll(st, [line]) == Consumed(st, line);
    }
  }

  lemma BlockIsRead(st: State, title: seq<string>, details: seq<string>, refs: seq<string>, a: State, b: State,
                    c: State)
    requires ConsumedAll(st, title) == a && ConsumedAll(a, details) == b && ConsumedAll(b, refs) == c
    ensures ConsumedAll(st, title + details + refs + [""]) == ConsumedAll(c, [""])
  {
    ConsumeConcat(st, title, details);
    ConsumeConcat(st, title + details, refs);
    ConsumeConcat(st, title + details + refs, [""]);
  }

  function AllCanonical(steps: seq<Step>): seq<Step> {
    if steps == [] then [] else [Canonical(steps[0])] + AllCanonical(steps[1..])
  }

  /** The first block of a list is read as its step, and the rest as it would be from there. */
  lemma ReadBlock(st: State, index: nat, steps: seq<Step>, lines: seq<string>) returns (mid: State, rest: seq<string>)
    requires steps != [] && Shaped(steps[0]) && steps[0].title != "" && lines == AllLines(index, steps)
    ensures rest == AllLines(index + 1, steps[1..])
    ensures Flushed(mid) == Flushed(st) + [Canonical(steps[0])]
    ensures ConsumedAll(st, lines) == ConsumedAll(mid, rest)
  {
    rest := AllLines(index + 1, steps[1..]);
    mid := ConsumedAll(st, StepLines(index, steps[0]));
    ConsumeBlock(st, index, steps[0]);
    ConsumeConcat(st, StepLines(index, steps[0]), rest);
  }

  lemma {:induction false} ConsumeAll(st: State, index: nat, steps: seq<Step>, lines: seq<string>)
    requires forall i :: 0 <= i < |steps| ==> Shaped(steps[i]) && steps[i].title != ""
    requires lines == AllLines(index, steps)
    ensures Flushed(ConsumedAll(st, lines)) == Flushed(st) + AllCanonical(steps)
    decreases |steps|
  {
    if steps == [] {
      assert Flushed(st) + [] == Flushed(st);
    } else {
      var mid, rest := ReadBlock(st, index, steps, lines);
      ConsumeAll(mid, index + 1, steps[1..], rest);
      AppendFirst(Flushed(st), Canonical(steps[0]), AllCanonical(steps[1..]));
    }
  }

  lemma AppendFirst(before: seq<Step>, first: Step, rest: seq<Step>)
    ensures before + [first] + rest == before + ([first] + rest)
  {
  }

  // ----- the round trip -----

  lemma {:induction false} JoinedRefsAreSingle(refs: seq<string>)
    requires forall i :: 0 <= i < |refs| ==> RefOk(refs[i])
    ensures SingleLine(JoinRefs(refs))
  {
    if refs != [] {
      assert RefOk(refs[0]);
      if |refs| > 1 {
        JoinedRefsAreSingle(refs[1..]);
      }
    }
  }

  lemma TitleLineIsSingle(index: nat, s: Step)
    requires Shaped(s)
    ensures SingleLine(TitleLine(index, s))
  {
    assert forall i :: 0 <= i < |Decimal(index)| ==> IsDigit(Decimal(index)[i]);
    SingleConcat(Decimal(index), ". ");
    SingleConcat(Decimal(index) + ". ", s.title);
    assert TitleLine(index, s) == Decimal(index) + ". " + s.title;
  }

  lemma DetailLinesAreSingle(s: Step)
    requires Shaped(s)
    ensures AllSingleLine(DetailLines(s))
  {
    if s.detail.Some? {
      var lines := Lines(s.detail.value);
      forall i | 0 <= i < |lines| ensures SingleLine(INDENT + lines[i]) {
        assert DetailLineOk(lines[i]);
        SingleConcat(INDENT, lines[i]);
      }
    }
  }

  lemma RefLinesAreSingle(s: Step)
    requires Shaped(s)
    ensures AllSingleLine(RefLines(s))
  {
    if RefLines(s) != [] {
      JoinedRefsAreSingle(s.refs.value);
      SingleConcat(INDENT + "Refs: ", JoinRefs(s.refs.value));
    }
  }

  lemma AllSingleConcat(a: seq<string>, b: seq<string>)
    requires AllSingleLine(a) && AllSingleLine(b)
    ensures AllSingleLine(a + b)
  {
  }

  lemma StepLinesAreSingle(index: nat, s: Step)
    requires Shaped(s)
    ensures AllSingleLine(StepLines(index, s))
  {
    TitleLineIsSingle(index, s);
    DetailLinesAreSingle(s);
    RefLinesAreSingle(s);
    AllSingleConcat([TitleLine(index, s)], DetailLines(s));
    AllSingleConcat([TitleLine(index, s)] + DetailLines(s), RefLines(s));
    AllSingleConcat([TitleLine(index, s)] + DetailLines(s) + RefLines(s), [""]);
  }

  lemma {:induction false} AllLinesAreSingle(index: nat, steps: seq<Step>)
    requires forall i :: 0 <= i < |steps| ==> Shaped(steps[i])
    ensures AllSingleLine(AllLines(index, steps))
    ensures steps != [] ==> AllLines(index, steps) != [] && AllLines(index, steps)[|AllLines(index, steps)| - 1] == ""
    decreases |steps|
  {
    if steps != [] {
      StepLinesAreSingle(index, steps[0]);
      AllLinesAreSingle(index + 1, steps[1..]);
    }
  }

  lemma LastBlank(lines: seq<string>)
    requires lines != [] && lines[|lines| - 1] == ""
    ensures Flushed(ConsumedAll(START, lines[..|lines| - 1])) == Flushed(ConsumedAll(START, lines))
  {
    var init := lines[..|lines| - 1];
    assert lines == init + [""];
    ConsumeConcat(START, init, [""]);
    ConsumeBlank(ConsumedAll(START, init));
  }

  lemma ConsumeBlank(st: State)
    ensures Flushed(ConsumedAll(st, [""])) == Flushed(st)
  {
    BlankKeepsFlushed(st);
    assert [""][1..] == [];
    assert ConsumedAll(st, [""]) == Consumed(st, "");
  }

  /** Reading the joined lines is reading the lines: the last, empty one makes no difference. */
  lemma ParseOfFormat(steps: seq<Step>)
    requires forall i :: 0 <= i < |steps| ==> Shaped(steps[i])
    ensures Parse(Format(steps)) == Flushed(ConsumedAll(START, AllLines(1, steps)))
  {
    var lines := AllLines(1, steps);
    AllLinesAreSingle(1, steps);
    JoinedLinesAreRead(lines);
  }

  lemma JoinedLinesAreRead(lines: seq<string>)
    requires AllSingleLine(lines) && (lines != [] ==> lines[|lines| - 1] == "")
    ensures Parse(JoinLines(lines)) == Flushed(ConsumedAll(START, lines))
  {
    LinesOfJoin(lines);
    if lines != [] {
      LastBlank(lines);
    }
  }

  /** Steps with titles are read back as they were written. */
  lemma RoundTrip(steps: seq<Step>)
    requires forall i :: 0 <= i < |steps| ==> Shaped(steps[i]) && steps[i].title != ""
    ensures Parse(Format(steps)) == AllCanonical(steps)
  {
    ParseOfFormat(steps);
    ConsumeAll(START, 1, steps, AllLines(1, steps));
    assert [] + AllCanonical(steps) == AllCanonical(steps);
  }

  // ----- every step read has this shape -----

  predicate StateOk(st: State) {
    && (forall i :: 0 <= i < |st.steps| ==> Shaped(st.steps[i]))
    && (st.current.Some? ==> Shaped(st.current.value) && st.current.value.detail.None?)
    && (forall i :: 0 <= i < |st.details| ==> DetailLineOk(st.details[i]))
  }

  lemma StripIsSingle(s: string)
    requires SingleLine(s)
    ensures SingleLine(Strip(s))
  {
    var lo, hi := StripBounds(s);
  }

  lemma {:induction false} StrippedPartsAreRefs(parts: seq<string>)
    requires forall p :: p in parts ==> SingleLine(p) && ',' !in p
    ensures forall i :: 0 <= i < |StrippedParts(parts)| ==> RefOk(StrippedParts(parts)[i])
  {
    if parts != [] {
      assert parts[0] in parts && forall p :: p in parts[1..] ==> p in parts;
      StrippedPartsAreRefs(parts[1..]);
      StripIsSingle(parts[0]);
      var lo, hi := StripBounds(parts[0]);
      assert ',' !in Strip(parts[0]);
    }
  }

  lemma {:induction false} SplitIsSingle(s: string, sep: char)
    requires SingleLine(s)
    ensures forall p :: p in Split(s, sep) ==> SingleLine(p)
  {
    if s != "" {
      assert forall i :: 0 <= i < |s[1..]| ==> s[1..][i] == s[i + 1];
      SplitIsSingle(s[1..], sep);
      var rest := Split(s[1..], sep);
      assert rest[0] in rest && forall p :: p in rest[1..] ==> p in rest;
    }
  }

  lemma RefsOfAreRefs(line: string)
    requires SingleLine(line) && IsRefLine(line)
    ensures forall i :: 0 <= i < |RefsOf(line)| ==> RefOk(RefsOf(line)[i])
  {
    var lo := StripLeftDrops(line);
    var s := StripLeft(line);
    var rest := s[AfterLabel(s).value..];
    SplitIsSingle(rest, ',');
    StrippedPartsAreRefs(Split(rest, ','));
  }

  lemma StrippedIsNoRefLine(line: string)
    requires !IsRefLine(line)
    ensures !IsRefLine(Strip(line))
  {
    var left := StripLeft(line);
    var n := StripRightDrops(left);
    assert Strip(line) == left[..n];
    assert StripLeft(left[..n]) == left[..n];
  }

  lemma {:induction false} JoinEnds(lines: seq<string>)
    requires lines != [] && lines[|lines| - 1] != ""
    ensures JoinLines(lines) != ""
    ensures JoinLines(lines)[|JoinLines(lines)| - 1] == lines[|lines| - 1][|lines[|lines| - 1]| - 1]
    ensures lines[0] != "" ==> JoinLines(lines)[0] == lines[0][0]
  {
    if |lines| > 1 {
      JoinEnds(lines[1..]);
    }
  }

  lemma StripLeading(s: string)
    ensures Strip("\n" + s) == Strip(s)
  {
    assert ("\n" + s)[1..] == s;
  }

  /** Collected lines, once stripped of blank lines at both ends, are the lines of the detail they make. */
  lemma {:induction false} DetailOfLines(details: seq<string>)
    requires forall i :: 0 <= i < |details| ==> DetailLineOk(details[i])
    ensures Strip(JoinLines(details)) == "" || DetailOk(Strip(JoinLines(details)))
    decreases |details|
  {
    if details != [] {
      var n := |details| - 1;
      assert details == details[..n] + [details[n]] && details == [details[0]] + details[1..];
      if details[n] == "" {
        if n > 0 {
          JoinTrailingBlank(details[..n]);
          StripTrailing(JoinLines(details[..n]), '\n');
          DetailOfLines(details[..n]);
        }
      } else if details[0] == "" {
        StripLeading(JoinLines(details[1..]));
        assert "" + "\n" + JoinLines(details[1..]) == "\n" + JoinLines(details[1..]);
        DetailOfLines(details[1..]);
      } else {
        WholeDetail(details);
      }
    }
  }

  lemma WholeDetail(details: seq<string>)
    requires forall i :: 0 <= i < |details| ==> DetailLineOk(details[i])
    requires details != [] && details[0] != "" && details[|details| - 1] != ""
    ensures DetailOk(Strip(JoinLines(details)))
  {
    assert DetailLineOk(details[0]) && DetailLineOk(details[|details| - 1]);
    JoinEnds(details);
    LinesOfJoin(details);
  }

  lemma HeaderTitleIsSingle(line: string)
    requires SingleLine(line) && HeaderTitle(line).Some?
    ensures SingleLine(HeaderTitle(line).value) && Trimmed(HeaderTitle(line).value)
  {
    StripIsSingle(line[Digits(line) + 1..]);
  }

  lemma FlushedAreShaped(st: State)
    requires StateOk(st)
    ensures forall i :: 0 <= i < |Flushed(st)| ==> Shaped(Flushed(st)[i])
  {
    DetailOfLines(st.details);
  }

  lemma ConsumedIsOk(st: State, line: string)
    requires StateOk(st) && SingleLine(line)
    ensures StateOk(Consumed(st, line))
  {
    if HeaderTitle(line).Some? {
      HeaderTitleIsSingle(line);
      FlushedAreShaped(st);
    } else if st.current.Some? && IsIndented(line) {
      if IsRefLine(line) {
        RefsOfAreRefs(line);
      } else {
        StrippedIsNoRefLine(line);
        StripIsSingle(line);
      }
    }
  }

  lemma {:induction false} ConsumedAllIsOk(st: State, lines: seq<string>)
    requires StateOk(st) && AllSingleLine(lines)
    ensures StateOk(ConsumedAll(st, lines))
    decreases |lines|
  {
    if lines != [] {
      ConsumedIsOk(st, lines[0]);
      ConsumedAllIsOk(Consumed(st, lines[0]), lines[1..]);
    }
  }

  lemma ParsedAreShaped(text: string)
    ensures forall i :: 0 <= i < |Parse(text)| ==> Shaped(Parse(text)[i])
  {
    var lines := Lines(text);
    assert forall i :: 0 <= i < |lines| ==> lines[i] in lines;
    ConsumedAllIsOk(START, lines);
    FlushedAreShaped(ConsumedAll(START, lines));
  }

  // ----- exactly the writable lists survive -----

  function Headers(lines: seq<string>): nat {
    if lines == [] then 0 else (if HeaderTitle(lines[0]).Some? then 1 else 0) + Headers(lines[1..])
  }

  /** One step is read for each header line. */
  lemma {:induction false} StepsAreHeaders(st: State, lines: seq<string>)
    ensures |Flushed(ConsumedAll(st, lines))| == |Flushed(st)| + Headers(lines)
    decreases |lines|
  {
    if lines != [] {
      StepsAreHeaders(Consumed(st, lines[0]), lines[1..]);
    }
  }

  lemma {:induction false} HeadersConcat(a: seq<string>, b: seq<string>)
    ensures Headers(a + b) == Headers(a) + Headers(b)
  {
    if a == [] {
      assert a + b == b;
    } else {
      assert (a + b)[1..] == a[1..] + b;
      HeadersConcat(a[1..], b);
    }
  }

  lemma {:induction false} NoHeaders(lines: seq<string>)
    requires forall i :: 0 <= i < |lines| ==> lines[i] == "" || lines[i][0] == ' '
    ensures Headers(lines) == 0
  {
    if lines != [] {
      IndentedIsNoHeader(lines[0]);
      NoHeaders(lines[1..]);
    }
  }

  function Titled(steps: seq<Step>): nat {
    if steps == [] then 0 else (if steps[0].title != "" then 1 else 0) + Titled(steps[1..])
  }

  lemma HeadersOfStep(index: nat, s: Step)
    requires Shaped(s)
    ensures Headers(StepLines(index, s)) == if s.title != "" then 1 else 0
  {
    var rest := DetailLines(s) + RefLines(s) + [""];
    assert StepLines(index, s) == [TitleLine(index, s)] + rest;
    TitleLineIsHeader(index, s);
    NoHeaders(rest);
    assert StepLines(index, s)[1..] == rest;
  }

  lemma {:induction false} HeadersOfAll(index: nat, steps: seq<Step>)
    requires forall i :: 0 <= i < |steps| ==> Shaped(steps[i])
    ensures Headers(AllLines(index, steps)) == Titled(steps)
    decreases |steps|
  {
    if steps != [] {
      HeadersOfStep(index, steps[0]);
      HeadersOfAll(index + 1, steps[1..]);
      HeadersConcat(StepLines(index, steps[0]), AllLines(index + 1, steps[1..]));
    }
  }

  lemma {:induction false} TitledIsAtMost(steps: seq<Step>)
    ensures Titled(steps) <= |steps|
    ensures Titled(steps) == |steps| ==> forall i :: 0 <= i < |steps| ==> steps[i].title != ""
  {
    if steps != [] {
      TitledIsAtMost(steps[1..]);
      assert forall i :: 1 <= i < |steps| ==> steps[i] == steps[1..][i - 1];
    }
  }

  lemma {:induction false} CanonicalIsSame(steps: seq<Step>)
    ensures AllCanonical(steps) == steps <==> forall i :: 0 <= i < |steps| ==> steps[i].refs != Some([])
  {
    if steps != [] {
      CanonicalIsSame(steps[1..]);
      assert steps == [steps[0]] + steps[1..];
      assert forall i :: 1 <= i < |steps| ==> steps[i] == steps[1..][i - 1];
      assert AllCanonical(steps)[0] == Canonical(steps[0]) && AllCanonical(steps)[1..] == AllCanonical(steps[1..]);
    }
  }

  /** Writing and reading gives a list of steps back exactly when every step is not done, has a trimmed one-line title,
      a detail of trimmed lines none of which is a reference line, and, if any, references that are trimmed, comma-free
      lines. */
  lemma RoundTripsExactly(steps: seq<Step>)
    ensures Parse(Format(steps)) == steps <==> forall i :: 0 <= i < |steps| ==> Writable(steps[i])
  {
    CanonicalIsSame(steps);
    if forall i :: 0 <= i < |steps| ==> Writable(steps[i]) {
      RoundTrip(steps);
    } else if Parse(Format(steps)) == steps {
      ParsedAreShaped(Format(steps));
      ReadBackIsTitled(steps);
      RoundTrip(steps);
    }
  }

  lemma ReadBackIsTitled(steps: seq<Step>)
    requires forall i :: 0 <= i < |steps| ==> Shaped(steps[i])
    requires Parse(Format(steps)) == steps
    ensures forall i :: 0 <= i < |steps| ==> steps[i].title != ""
  {
    ParseOfFormat(steps);
    StepsAreHeaders(START, AllLines(1, steps));
    HeadersOfAll(1, steps);
    TitledIsAtMost(steps);
  }

  /** From any text: what was read, if no title is empty, is written and read again the same, except that an empty
      reference list comes back as none. */
  lemma ReadWriteRead(text: string)
    requires forall i :: 0 <= i < |Parse(text)| ==> Parse(text)[i].title != ""
    ensures Parse(Format(Parse(text))) == AllCanonical(Parse(text))
  {
    ParsedAreShaped(text);
    RoundTrip(Parse(text));
  }

  // ----- the loops -----

  /** `parse_steps_file`. */
  method ParseStepsFile(text: string) returns (steps: seq<Step>)
    ensures steps == Parse(text)
  {
    steps := [];
    var current: Option<Step>, details: seq<string> := None, [];
    var lines := Lines(text);
    for i := 0 to |lines|
      invariant ConsumedAll(START, lines) == ConsumedAll(State(steps, current, details), lines[i..])
    {
      var line := lines[i];
      assert lines[i..][1..] == lines[i + 1..];
      var title := HeaderTitle(line);
      if title.Some? {
        steps := FlushStep(steps, current, details);
        current, details := Some(Step(title.value, None, None, false)), [];
        continue;
      }
      if current.None? {
        continue;
      }
      if IsIndented(line) {
        if IsRefLine(line) {
          current := Some(WithRefs(current.value, RefsOf(line)));
        } else {
          details := details + [Strip(line)];
        }
      } else if Strip(line) == "" && details != [] {
        details := details + [""];
      }
    }
    steps := FlushStep(steps, current, details);
  }

  /** `_flush_step`. */
  method FlushStep(steps: seq<Step>, current: Option<Step>, details: seq<string>) returns (after: seq<Step>)
    ensures after == Flushed(State(steps, current, details))
  {
    if current.None? {
      return steps;
    }
    var step := current.value;
    var detail := Strip(JoinLines(details));
    if detail != "" {
      step := step.(detail := Some(detail));
    }
    after := steps + [step];
  }

  /** `format_steps`. */
  method FormatSteps(steps: seq<Step>) returns (text: string)
    ensures text == Format(steps)
  {
    var lines: seq<string> := [];
    for i := 0 to |steps|
      invariant lines + AllLines(i + 1, steps[i..]) == AllLines(1, steps)
    {
      var block := FormatStepLines(i + 1, steps[i]);
      assert steps[i..][1..] == steps[i + 1..];
      assert lines + (block + AllLines(i + 2, steps[i + 1..])) == lines + block + AllLines(i + 2, steps[i + 1..]);
      lines := lines + block;
    }
    assert lines + [] == lines;
    text := JoinLines(lines);
  }

  /** `_format_step_lines`. */
  method FormatStepLines(index: nat, step: Step) returns (lines: seq<string>)
    ensures lines == StepLines(index, step)
  {
    lines := [TitleLine(index, step)];
    if step.detail.Some? && step.detail.value != "" {
      var details := Lines(step.detail.value);
      for i := 0 to |details|
        invariant lines == [TitleLine(index, step)] + Indented(details[..i])
      {
        lines := lines + [INDENT + details[i]];
      }
      assert details[..|details|] == details;
    }
    if step.refs.Some? && step.refs.value != [] {
      lines := lines + [RefsLine(step.refs.value)];
    }
    lines := lines + [""];
  }
}
