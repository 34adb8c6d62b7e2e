/** Removing C-style comments outside string literals (base/text_utils.py). */
module CommentStripper {
  import opened Wrappers

  datatype Mode = Code | Literal(quote: char)

  predicate IsQuote(c: char) {
    c == '"' || c == '\'' || c == '`'
  }

  predicate Opens(s: string) {
    |s| > 1 && s[0] == '/' && (s[1] == '/' || s[1] == '*')
  }

  // ----- where a comment ends -----

  function Newline(s: string): (k: nat)
    ensures k <= |s| && (k < |s| ==> s[k] == '\n') && '\n' !in s[..k]
  {
    if s == "" || s[0] == '\n' then 0
    else
      var k := Newline(s[1..]);
      assert s[..k + 1] == [s[0]] + s[1..][..k];
      k + 1
  }

  /** Length up to and including the first star and slash; the whole length when there is none. */
  function StarSlash(s: string): (k: nat)
    ensures k <= |s|
  {
    if |s| < 2 then |s| else if s[0] == '*' && s[1] == '/' then 2 else 1 + StarSlash(s[1..])
  }

  /** How much of the text the comment that opens it takes: a line comment leaves its newline. */
  function CommentLength(s: string): (k: nat)
    requires Opens(s)
    ensures 2 <= k <= |s|
  {
    if s[1] == '/' then
      assert s[0] != '\n' && s[1] != '\n';
      assert Newline(s) == 1 + Newline(s[1..]) && Newline(s[1..]) == 1 + Newline(s[1..][1..]);
      Newline(s)
    else 2 + StarSlash(s[2..])
  }

  // ----- what is left -----

  /** The text without its comments, read from inside a literal or outside. */
  function Stripped(s: string, m: Mode): string
    decreases |s|
  {
    if s == "" then ""
    else if m.Literal? then
      if s[0] == '\\' && |s| > 1 then s[..2] + Stripped(s[2..], m)
      else [s[0]] + Stripped(s[1..], if s[0] == m.quote then Code else m)
    else if IsQuote(s[0]) then [s[0]] + Stripped(s[1..], Literal(s[0]))
    else if Opens(s) then Stripped(s[CommentLength(s)..], Code)
    else [s[0]] + Stripped(s[1..], Code)
  }

  /** No comment opens outside a literal. */
  predicate Commentless(s: string, m: Mode)
    decreases |s|
  {
    if s == "" then true
    else if m.Literal? then
      if s[0] == '\\' && |s| > 1 then Commentless(s[2..], m)
      else Commentless(s[1..], if s[0] == m.quote then Code else m)
    else if IsQuote(s[0]) then Commentless(s[1..], Literal(s[0]))
    else !Opens(s) && Commentless(s[1..], Code)
  }

  /** The literals outside comments, quotes and escapes included; `begun` is what was read so far of one begun
      before. */
  function Literals(s: string, m: Mode, begun: string): seq<string>
    decreases |s|
  {
    if s == "" then if m.Literal? then [begun] else []
    else if m.Literal? then
      if s[0] == '\\' && |s| > 1 then Literals(s[2..], m, begun + s[..2])
      else if s[0] == m.quote then [begun + [s[0]]] + Literals(s[1..], Code, "")
      else Literals(s[1..], m, begun + [s[0]])
    else if IsQuote(s[0]) then Literals(s[1..], Literal(s[0]), [s[0]])
    else if Opens(s) then Literals(s[CommentLength(s)..], Code, "")
    else Literals(s[1..], Code, "")
  }

  predicate Subsequence(a: string, b: string)
    decreases |b|
  {
    a == "" || (b != "" && if a[0] == b[0] then Subsequence(a[1..], b[1..]) else Subsequence(a, b[1..]))
  }

  // ----- the laws -----

  /** A character kept outside literals is followed by what it was followed by, unless a comment was there; so a slash
      that opened nothing still opens nothing. */
  lemma KeptOpensNothing(s: string)
    requires s != "" && !IsQuote(s[0]) && !Opens(s)
    ensures !Opens([s[0]] + Stripped(s[1..], Code))
  {
    if s[0] == '/' && |s| > 1 {
      assert s[1..][0] == s[1];
      assert !Opens(s[1..]);
    }
  }

  /** No comment opener is left outside a literal. */
  lemma {:induction false} StrippedIsCommentless(s: string, m: Mode)
    ensures Commentless(Stripped(s, m), m)
    decreases |s|
  {
    if s != "" {
      if m.Literal? {
        if s[0] == '\\' && |s| > 1 {
          StrippedIsCommentless(s[2..], m);
          var r := s[..2] + Stripped(s[2..], m);
          assert r[0] == '\\' && r[2..] == Stripped(s[2..], m);
        } else {
          var next := if s[0] == m.quote then Code else m;
          StrippedIsCommentless(s[1..], next);
          LiteralCharIsKept(s, m);
        }
      } else if IsQuote(s[0]) {
        StrippedIsCommentless(s[1..], Literal(s[0]));
        assert ([s[0]] + Stripped(s[1..], Literal(s[0])))[1..] == Stripped(s[1..], Literal(s[0]));
      } else if Opens(s) {
        StrippedIsCommentless(s[CommentLength(s)..], Code);
      } else {
        StrippedIsCommentless(s[1..], Code);
        KeptOpensNothing(s);
        assert ([s[0]] + Stripped(s[1..], Code))[1..] == Stripped(s[1..], Code);
      }
    }
  }

  /** A lone final backslash stays final, so it escapes nothing afterwards either. */
  lemma LiteralCharIsKept(s: string, m: Mode)
    requires s != "" && m.Literal? && !(s[0] == '\\' && |s| > 1)
    requires Commentless(Stripped(s[1..], if s[0] == m.quote then Code else m), if s[0] == m.quote then Code else m)
    ensures Commentless(Stripped(s, m), m)
  {
    var next := if s[0] == m.quote then Code else m;
    var r := [s[0]] + Stripped(s[1..], next);
    assert r[1..] == Stripped(s[1..], next);
    if s[0] == '\\' {
      assert s[1..] == "";
      assert r == [s[0]];
    }
  }

  /** A text is left as it is exactly when it has no comment outside its literals. */
  lemma {:induction false} FixedPoints(s: string, m: Mode)
    ensures Stripped(s, m) == s <==> Commentless(s, m)
    ensures |Stripped(s, m)| <= |s|
    decreases |s|
  {
    if s != "" {
      assert s == [s[0]] + s[1..];
      if m.Literal? {
        if s[0] == '\\' && |s| > 1 {
          FixedPoints(s[2..], m);
          assert s == s[..2] + s[2..];
          assert (s[..2] + Stripped(s[2..], m))[2..] == Stripped(s[2..], m);
        } else {
          var next := if s[0] == m.quote then Code else m;
          FixedPoints(s[1..], next);
          assert ([s[0]] + Stripped(s[1..], next))[1..] == Stripped(s[1..], next);
        }
      } else if IsQuote(s[0]) {
        FixedPoints(s[1..], Literal(s[0]));
        assert ([s[0]] + Stripped(s[1..], Literal(s[0])))[1..] == Stripped(s[1..], Literal(s[0]));
      } else if Opens(s) {
        FixedPoints(s[CommentLength(s)..], Code);
      } else {
        FixedPoints(s[1..], Code);
        assert ([s[0]] + Stripped(s[1..], Code))[1..] == Stripped(s[1..], Code);
      }
    }
  }

  /** Stripping twice is stripping once. */
  lemma {:induction false} Idempotent(s: string, m: Mode)
    ensures Stripped(Stripped(s, m), m) == Stripped(s, m)
  {
    StrippedIsCommentless(s, m);
    FixedPoints(Stripped(s, m), m);
  }

  lemma {:induction false} SubsequenceLater(a: string, b: string, k: nat)
    requires k <= |b| && Subsequence(a, b[k..])
    ensures Subsequence(a, b)
    decreases k
  {
    if k > 0 {
      SubsequenceLater(a, b[1..], k - 1) by {
        assert b[1..][k - 1..] == b[k..];
      }
      if a != "" && a[0] == b[0] {
        SubsequenceTail(a, b[1..]);
      }
    }
  }

  lemma {:induction false} SubsequenceTail(a: string, b: string)
    requires a != "" && Subsequence(a, b)
    ensures Subsequence(a[1..], b)
    decreases |b|
  {
    if a[0] == b[0] {
      if a[1..] != "" {
        if a[1] == b[0] {
          SubsequenceTail(a[1..], b[1..]);
        }
      }
    } else {
      SubsequenceTail(a, b[1..]);
      if a[1..] != "" && a[1] == b[0] {
        SubsequenceTail(a[1..], b[1..]);
      }
    }
  }

  /** The result is what is left of the text when some characters are dropped. */
  lemma {:induction false} StrippedIsSubsequence(s: string, m: Mode)
    ensures Subsequence(Stripped(s, m), s)
    decreases |s|
  {
    if s != "" {
      if m.Literal? {
        if s[0] == '\\' && |s| > 1 {
          StrippedIsSubsequence(s[2..], m);
          var r := s[..2] + Stripped(s[2..], m);
          assert r[1..][1..] == Stripped(s[2..], m) && s[1..][1..] == s[2..];
        } else {
          var next := if s[0] == m.quote then Code else m;
          StrippedIsSubsequence(s[1..], next);
          assert ([s[0]] + Stripped(s[1..], next))[1..] == Stripped(s[1..], next);
        }
      } else if IsQuote(s[0]) {
        StrippedIsSubsequence(s[1..], Literal(s[0]));
        assert ([s[0]] + Stripped(s[1..], Literal(s[0])))[1..] == Stripped(s[1..], Literal(s[0]));
      } else if Opens(s) {
        StrippedIsSubsequence(s[CommentLength(s)..], Code);
        SubsequenceLater(Stripped(s, Code), s, CommentLength(s));
      } else {
        StrippedIsSubsequence(s[1..], Code);
        assert ([s[0]] + Stripped(s[1..], Code))[1..] == Stripped(s[1..], Code);
      }
    }
  }

  /** Every literal outside a comment survives, character for character, and no other appears. */
  lemma {:induction false} LiteralsSurvive(s: string, m: Mode, begun: string)
    ensures Literals(Stripped(s, m), m, begun) == Literals(s, m, begun)
    decreases |s|
  {
    if s != "" {
      if m.Literal? {
        if s[0] == '\\' && |s| > 1 {
          LiteralsSurvive(s[2..], m, begun + s[..2]);
          var r := s[..2] + Stripped(s[2..], m);
          assert r[..2] == s[..2] && r[2..] == Stripped(s[2..], m);
        } else {
          var next := if s[0] == m.quote then Code else m;
          LiteralsSurvive(s[1..], next, if s[0] == m.quote then "" else begun + [s[0]]);
          var r := [s[0]] + Stripped(s[1..], next);
          assert r[1..] == Stripped(s[1..], next);
          if s[0] == '\\' {
            assert s[1..] == "" && r == [s[0]];
          }
        }
      } else if IsQuote(s[0]) {
        LiteralsSurvive(s[1..], Literal(s[0]), [s[0]]);
        assert ([s[0]] + Stripped(s[1..], Literal(s[0])))[1..] == Stripped(s[1..], Literal(s[0]));
      } else if Opens(s) {
        LiteralsSurvive(s[CommentLength(s)..], Code, "");
        CodeIgnoresBegun(Stripped(s, Code), begun);
      } else {
        LiteralsSurvive(s[1..], Code, "");
        KeptOpensNothing(s);
        assert ([s[0]] + Stripped(s[1..], Code))[1..] == Stripped(s[1..], Code);
      }
    }
  }

  lemma CodeIgnoresBegun(s: string, begun: string)
    ensures Literals(s, Code, begun) == Literals(s, Code, "")
  {
  }

  // ----- the loop -----

  /** Where a comment that begins at the index ends; the end of the text when it is not closed. */
  function SkipComment(text: string, index: nat): (k: Option<nat>)
    requires index < |text|
    ensures k.Some? <==> Opens(text[index..])
    ensures k.Some? ==> index < k.value <= |text|
  {
    if Opens(text[index..]) then Some(index + CommentLength(text[index..])) else None
  }

  /** `strip_c_style_comments`: one pass with the literal it is in, if any. */
  method StripCStyleComments(text: string) returns (result: string)
    ensures result == Stripped(text, Code)
  {
    result := "";
    var i, mode := 0, Code;
    while i < |text|
      invariant i <= |text|
      invariant result + Stripped(text[i..], mode) == Stripped(text, Code)
      decreases |text| - i
    {
      var c := text[i];
      ghost var rest, mode0 := text[i..], mode;
      assert rest[1..] == text[i + 1..];
      if mode.Literal? {
        if c == '\\' && i + 1 < |text| {
          assert rest[2..] == text[i + 2..] && rest[..2] == text[i..i + 2];
          AppendAssoc(result, text[i..i + 2], Stripped(text[i + 2..], mode));
          result, i := result + text[i..i + 2], i + 2;
          continue;
        }
        if c == mode.quote {
          mode := Code;
        }
        AppendAssoc(result, [c], Stripped(text[i + 1..], mode));
        result, i := result + [c], i + 1;
        continue;
      }
      if IsQuote(c) {
        mode := Literal(c);
        AppendAssoc(result, [c], Stripped(text[i + 1..], mode));
        result, i := result + [c], i + 1;
        continue;
      }
      var skipped := SkipComment(text, i);
      if skipped.Some? {
        assert rest[CommentLength(rest)..] == text[skipped.value..];
        if skipped.value == |text| {
          break;
        }
        i := skipped.value;
        continue;
      }
      AppendAssoc(result, [c], Stripped(text[i + 1..], mode));
      result, i := result + [c], i + 1;
    }
  }

  lemma AppendAssoc(a: string, b: string, c: string)
    ensures a + b + c == a + (b + c)
  {
  }
}
