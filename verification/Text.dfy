/** The string operations every text-handling module relies on: strip, splitlines, split and join. */
module Text {
  /** Characters that `str.isspace`, `str.strip`, `str.split` and the regex class `\s` treat as white space. */
  predicate IsSpace(c: char) {
    || '\t' <= c <= '\r'
    || '\U{1c}' <= c <= ' '
    || c == '\U{85}' || c == '\U{a0}' || c == '\U{1680}'
    || '\U{2000}' <= c <= '\U{200a}'
    || c == '\U{2028}' || c == '\U{2029}' || c == '\U{202f}' || c == '\U{205f}' || c == '\U{3000}'
  }

  /** Characters at which `str.splitlines` ends a line. */
  predicate IsLineBreak(c: char) {
    || '\n' <= c <= '\r'
    || '\U{1c}' <= c <= '\U{1e}'
    || c == '\U{85}' || c == '\U{2028}' || c == '\U{2029}'
  }

  predicate SingleLine(s: string) {
    forall i :: 0 <= i < |s| ==> !IsLineBreak(s[i])
  }

  lemma SingleConcat(a: string, b: string)
    requires SingleLine(a) && SingleLine(b)
    ensures SingleLine(a + b)
  {
  }

  function StripLeft(s: string): (r: string)
    ensures r == "" || !IsSpace(r[0])
  {
    if s != "" && IsSpace(s[0]) then StripLeft(s[1..]) else s
  }

  function StripRight(s: string): (r: string)
    ensures |r| <= |s|
    ensures r != "" ==> s != "" && r[0] == s[0] && !IsSpace(r[|r| - 1])
  {
    if s != "" && IsSpace(s[|s| - 1]) then StripRight(s[..|s| - 1]) else s
  }

  function Strip(s: string): (r: string)
    ensures Trimmed(r)
    ensures r == s <==> Trimmed(s)
  {
    StripRight(StripLeft(s))
  }

  predicate Trimmed(s: string) {
    s == "" || (!IsSpace(s[0]) && !IsSpace(s[|s| - 1]))
  }

  /** A text field the decoders accept and return unchanged. */
  predicate Clean(s: string) {
    s != "" && Trimmed(s)
  }

  lemma {:induction false} StripLeftDrops(s: string) returns (lo: nat)
    ensures lo <= |s| && StripLeft(s) == s[lo..]
    ensures forall i :: 0 <= i < lo ==> IsSpace(s[i])
  {
    if s != "" && IsSpace(s[0]) {
      var k := StripLeftDrops(s[1..]);
      lo := k + 1;
      assert forall i :: 0 < i < lo ==> s[i] == s[1..][i - 1];
    } else {
      lo := 0;
    }
  }

  lemma {:induction false} StripRightDrops(s: string) returns (hi: nat)
    ensures hi <= |s| && StripRight(s) == s[..hi]
    ensures forall i :: hi <= i < |s| ==> IsSpace(s[i])
  {
    if s != "" && IsSpace(s[|s| - 1]) {
      hi := StripRightDrops(s[..|s| - 1]);
    } else {
      hi := |s|;
    }
  }

  /** Stripping drops white space from the two ends and nothing else. */
  lemma StripBounds(s: string) returns (lo: nat, hi: nat)
    ensures lo <= hi <= |s| && Strip(s) == s[lo..hi]
    ensures forall i :: (0 <= i < lo || hi <= i < |s|) ==> IsSpace(s[i])
  {
    lo := StripLeftDrops(s);
    var left := s[lo..];
    var n := StripRightDrops(left);
    hi := lo + n;
    forall i | hi <= i < |s| ensures IsSpace(s[i]) {
      assert s[i] == left[i - lo];
    }
  }

  /** Length of the line terminator at the head of `s`: CR LF counts as one. */
  function BreakLength(s: string): (n: nat)
    requires s != "" && IsLineBreak(s[0])
    ensures 1 <= n <= |s|
  {
    if |s| >= 2 && s[0] == '\r' && s[1] == '\n' then 2 else 1
  }

  /** Index of the first line break, or the length when there is none. */
  function FirstBreak(s: string): (k: nat)
    ensures k <= |s| && SingleLine(s[..k])
    ensures k < |s| ==> IsLineBreak(s[k])
  {
    if s == "" || IsLineBreak(s[0]) then 0
    else
      var k := 1 + FirstBreak(s[1..]);
      assert s[..k] == [s[0]] + s[1..][..k - 1];
      k
  }

  /** `str.splitlines`: no empty line after a final terminator. */
  function Lines(s: string): (lines: seq<string>)
    ensures forall l :: l in lines ==> SingleLine(l)
    decreases |s|
  {
    if s == "" then []
    else
      var k := FirstBreak(s);
      if k == |s| then [s[..k]]
      else [s[..k]] + Lines(s[k + BreakLength(s[k..])..])
  }

  /** `"\n".join(lines)`. */
  function JoinLines(lines: seq<string>): string {
    if lines == [] then ""
    else if |lines| == 1 then lines[0]
    else lines[0] + "\n" + JoinLines(lines[1..])
  }

  predicate AllSingleLine(lines: seq<string>) {
    forall i :: 0 <= i < |lines| ==> SingleLine(lines[i])
  }

  lemma FirstBreakOfLine(line: string, rest: string)
    requires SingleLine(line) && (rest != "" ==> IsLineBreak(rest[0]))
    ensures FirstBreak(line + rest) == |line|
  {
    if line == "" {
      assert line + rest == rest;
    } else {
      assert (line + rest)[1..] == line[1..] + rest;
      FirstBreakOfLine(line[1..], rest);
    }
  }

  /** A line followed by a newline is split off, whatever follows. */
  lemma LinesOfNewline(line: string, rest: string)
    requires SingleLine(line)
    ensures Lines(line + "\n" + rest) == [line] + Lines(rest)
  {
    var s := line + "\n" + rest;
    assert s == line + ("\n" + rest);
    FirstBreakOfLine(line, "\n" + rest);
    assert s[..|line|] == line;
    assert s[|line|..] == "\n" + rest;
    assert s[|line| + 1..] == rest;
  }

  /** Joining breakless lines and splitting again loses nothing but a final empty line. */
  lemma {:induction false} LinesOfJoin(lines: seq<string>)
    requires AllSingleLine(lines)
    ensures lines != [] && lines[|lines| - 1] == "" ==> Lines(JoinLines(lines)) == lines[..|lines| - 1]
    ensures lines == [] || lines[|lines| - 1] != "" ==> Lines(JoinLines(lines)) == lines
  {
    if |lines| == 1 {
      FirstBreakOfLine(lines[0], "");
      assert lines[0] + "" == lines[0];
      assert lines[0] != "" ==> Lines(lines[0]) == [lines[0]];
    } else if |lines| > 1 {
      var rest := lines[1..];
      LinesOfJoin(rest);
      LinesOfNewline(lines[0], JoinLines(rest));
      assert lines[0] + "\n" + JoinLines(rest) == JoinLines(lines);
      assert lines == [lines[0]] + rest;
      if lines[|lines| - 1] == "" {
        assert lines[..|lines| - 1] == [lines[0]] + rest[..|rest| - 1];
      }
    }
  }

  /** `s.split(sep)` for a one-character separator. */
  function Split(s: string, sep: char): (parts: seq<string>)
    ensures |parts| >= 1
    ensures forall p :: p in parts ==> sep !in p
  {
    if s == "" then [""]
    else
      var rest := Split(s[1..], sep);
      if s[0] == sep then [""] + rest else [[s[0]] + rest[0]] + rest[1..]
  }

  lemma {:induction false} SplitAtSeparator(head: string, tail: string, sep: char)
    requires sep !in head
    ensures Split(head + [sep] + tail, sep) == [head] + Split(tail, sep)
  {
    var s := head + [sep] + tail;
    if head == "" {
      assert s == [sep] + tail && s[1..] == tail;
    } else {
      SplitAtSeparator(head[1..], tail, sep);
      assert s[1..] == head[1..] + [sep] + tail;
      assert [s[0]] + head[1..] == head;
    }
  }

  lemma {:induction false} SplitWithout(s: string, sep: char)
    requires sep !in s
    ensures Split(s, sep) == [s]
  {
    if s != "" {
      SplitWithout(s[1..], sep);
      assert [s[0]] + s[1..] == s;
    }
  }
}
