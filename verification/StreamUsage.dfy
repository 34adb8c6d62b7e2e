/** Counting a host's streamed responses however its output is cut (app/commands/repair_cycle_host.py). */
module StreamUsage {
  import opened Wrappers
  import opened Sets
  import opened Text

  datatype Amount = Finite(value: real) | NotFinite | NotANumber

  datatype Result = Result(subtype: string, cost: Amount)

  /** What one line of the stream decodes to. An assistant message without an identifier has the ID "". */
  datatype Event = Ignored | ResultEvent(result: Result) | Assistant(id: string)

  type Decoder = string -> Event

  datatype Usage = Usage(pending: string, ids: set<string>, unidentified: nat, result: Option<Result>)

  const START := Usage("", {}, 0, None)

  // ----- one line, one feed -----

  function Counted(u: Usage, e: Event): Usage {
    match e
    case Ignored => u
    case ResultEvent(r) => u.(result := Some(r))
    case Assistant(id) => if id != "" then u.(ids := u.ids + {id}) else u.(unidentified := u.unidentified + 1)
  }

  function CountedAll(u: Usage, decode: Decoder, lines: seq<string>): Usage
    decreases |lines|
  {
    if lines == [] then u else Counted(CountedAll(u, decode, lines[..|lines| - 1]), decode(lines[|lines| - 1]))
  }

  /** A feed that is not the last, by its lines. */
  function FedLines(u: Usage, decode: Decoder, lines: seq<string>): Usage
    requires lines != []
  {
    CountedAll(u, decode, lines[..|lines| - 1]).(pending := lines[|lines| - 1])
  }

  function Fed(u: Usage, decode: Decoder, data: string, final: bool): Usage {
    var lines := Split(u.pending + data, '\n');
    if final then CountedAll(u, decode, lines).(pending := "") else FedLines(u, decode, lines)
  }

  function FedAll(u: Usage, decode: Decoder, chunks: seq<string>): Usage
    decreases |chunks|
  {
    if chunks == [] then u else Fed(FedAll(u, decode, chunks[..|chunks| - 1]), decode, chunks[|chunks| - 1], false)
  }

  function Concat(chunks: seq<string>): string {
    if chunks == [] then "" else Concat(chunks[..|chunks| - 1]) + chunks[|chunks| - 1]
  }

  function Calls(u: Usage): nat {
    |u.ids| + u.unidentified
  }

  /** The host-measured cost; a crashed run's result measures nothing. */
  function Cost(u: Usage): Option<real> {
    if u.result.None? || u.result.value.subtype == "error_during_execution" then None
    else if u.result.value.cost.Finite? && u.result.value.cost.value >= 0.0 then Some(u.result.value.cost.value)
    else None
  }

  // ----- chunking independence -----

  /** The lines with more text put onto the last of them. */
  function Joined(lines: seq<string>, b: string): seq<string>
    requires lines != []
  {
    lines[..|lines| - 1] + Split(lines[|lines| - 1] + b, '\n')
  }

  lemma SplitStep(c: char, s: string)
    ensures Split([c] + s, '\n')
         == if c == '\n' then [""] + Split(s, '\n') else [[c] + Split(s, '\n')[0]] + Split(s, '\n')[1..]
  {
    assert ([c] + s)[1..] == s;
  }

  /** An empty line put before both sides of the law keeps it. */
  lemma JoinedAfterLine(rest: seq<string>, b: string)
    requires rest != []
    ensures Joined([""] + rest, b) == [""] + Joined(rest, b)
  {
    var n := |rest| - 1;
    assert ([""] + rest)[..n + 1] == [""] + rest[..n];
  }

  /** A character put before the first of several lines keeps it. */
  lemma JoinedAfterCharacter(c: char, rest: seq<string>, b: string)
    requires |rest| > 1
    ensures Joined([[c] + rest[0]] + rest[1..], b) == [[c] + Joined(rest, b)[0]] + Joined(rest, b)[1..]
  {
    var n := |rest| - 1;
    var tail := Split(rest[n] + b, '\n');
    var longer := [[c] + rest[0]] + rest[1..];
    assert longer[..n] == [[c] + rest[0]] + rest[1..n] && longer[n] == rest[n];
    assert (rest[..n] + tail)[0] == rest[0];
    assert (rest[..n] + tail)[1..] == rest[1..n] + tail;
  }

  /** A character put before a single line keeps it. */
  lemma JoinedAfterOnly(c: char, line: string, b: string)
    requires c != '\n'
    ensures Joined([[c] + line], b) == [[c] + Joined([line], b)[0]] + Joined([line], b)[1..]
  {
    SplitStep(c, line + b);
    assert [c] + line + b == [c] + (line + b);
    assert Joined([line], b) == Split(line + b, '\n');
  }

  lemma JoinedStep(c: char, rest: seq<string>, b: string)
    requires rest != []
    ensures c == '\n' ==> Joined([""] + rest, b) == [""] + Joined(rest, b)
    ensures c != '\n' ==> Joined([[c] + rest[0]] + rest[1..], b) == [[c] + Joined(rest, b)[0]] + Joined(rest, b)[1..]
  {
    if c == '\n' {
      JoinedAfterLine(rest, b);
    } else if |rest| > 1 {
      JoinedAfterCharacter(c, rest, b);
    } else {
      JoinedAfterOnly(c, rest[0], b);
      assert rest == [rest[0]] && [[c] + rest[0]] + rest[1..] == [[c] + rest[0]];
    }
  }

  /** The lines of a concatenation: the complete lines of the first part, then those of its last line with the rest. */
  lemma {:induction false} SplitConcat(a: string, b: string)
    ensures Split(a + b, '\n') == Joined(Split(a, '\n'), b)
  {
    if a == "" {
      assert a + b == b && [""][..0] + Split("" + b, '\n') == Split("" + b, '\n');
      assert "" + b == b;
    } else {
      SplitConcat(a[1..], b);
      assert a == [a[0]] + a[1..] && a + b == [a[0]] + (a[1..] + b);
      SplitStep(a[0], a[1..]);
      SplitStep(a[0], a[1..] + b);
      JoinedStep(a[0], Split(a[1..], '\n'), b);
    }
  }

  lemma {:induction false} CountedConcat(u: Usage, decode: Decoder, a: seq<string>, b: seq<string>)
    ensures CountedAll(u, decode, a + b) == CountedAll(CountedAll(u, decode, a), decode, b)
    decreases |b|
  {
    if b == [] {
      assert a + b == a;
    } else {
      assert (a + b)[..|a + b| - 1] == a + b[..|b| - 1];
      CountedConcat(u, decode, a, b[..|b| - 1]);
    }
  }

  /** Counting lines does not look at what is pending. */
  lemma {:induction false} CountedIgnoresPending(u: Usage, decode: Decoder, lines: seq<string>, pending: string)
    ensures CountedAll(u.(pending := pending), decode, lines) == CountedAll(u, decode, lines).(pending := pending)
    ensures CountedAll(u, decode, lines).pending == u.pending
    decreases |lines|
  {
    if lines != [] {
      CountedIgnoresPending(u, decode, lines[..|lines| - 1], pending);
    }
  }

  /** Counting goes on from where it was, whatever is pending. */
  lemma CountedAfter(u: Usage, decode: Decoder, a: seq<string>, b: seq<string>, pending: string)
    ensures CountedAll(CountedAll(u, decode, a).(pending := pending), decode, b)
         == CountedAll(u, decode, a + b).(pending := pending)
  {
    CountedConcat(u, decode, a, b);
    CountedIgnoresPending(CountedAll(u, decode, a), decode, b, pending);
  }

  lemma LinesOfTwo(pending: string, a: string, b: string)
    ensures Split(pending + (a + b), '\n') == Joined(Split(pending + a, '\n'), b)
  {
    SplitConcat(pending + a, b);
    assert pending + (a + b) == pending + a + b;
  }

  lemma FedTwiceFinal(u: Usage, decode: Decoder, a: string, b: string)
    ensures Fed(Fed(u, decode, a, false), decode, b, true) == Fed(u, decode, a + b, true)
  {
    var first := Split(u.pending + a, '\n');
    var n := |first| - 1;
    LinesOfTwo(u.pending, a, b);
    CountedAfter(u, decode, first[..n], Split(first[n] + b, '\n'), first[n]);
  }

  lemma FedLinesTwice(u: Usage, decode: Decoder, a: seq<string>, pending: string, b: seq<string>)
    requires b != []
    ensures FedLines(CountedAll(u, decode, a).(pending := pending), decode, b) == FedLines(u, decode, a + b)
  {
    CountedAfter(u, decode, a, b[..|b| - 1], pending);
    AllButLast(a, b);
  }

  lemma FedTwiceMore(u: Usage, decode: Decoder, a: string, b: string)
    ensures Fed(Fed(u, decode, a, false), decode, b, false) == Fed(u, decode, a + b, false)
  {
    var first := Split(u.pending + a, '\n');
    var n := |first| - 1;
    LinesOfTwo(u.pending, a, b);
    FedLinesTwice(u, decode, first[..n], first[n], Split(first[n] + b, '\n'));
  }

  lemma AllButLast(a: seq<string>, b: seq<string>)
    requires b != []
    ensures (a + b)[..|a + b| - 1] == a + b[..|b| - 1] && (a + b)[|a + b| - 1] == b[|b| - 1]
  {
  }

  /** Two feeds are one feed of the joined data. */
  lemma FedTwice(u: Usage, decode: Decoder, a: string, b: string, final: bool)
    ensures Fed(Fed(u, decode, a, false), decode, b, final) == Fed(u, decode, a + b, final)
  {
    if final {
      FedTwiceFinal(u, decode, a, b);
    } else {
      FedTwiceMore(u, decode, a, b);
    }
  }

  lemma ConcatLast(chunks: seq<string>, last: string)
    requires chunks != []
    ensures Concat(chunks) + last == Concat(chunks[..|chunks| - 1]) + (chunks[|chunks| - 1] + last)
  {
  }

  /** However the output is cut, feeding the chunks and closing with the last is feeding the whole output at once: the
      same calls, the same result and the same cost. */
  lemma {:induction false} ChunkingIsIrrelevant(u: Usage, decode: Decoder, chunks: seq<string>, last: string)
    ensures Fed(FedAll(u, decode, chunks), decode, last, true) == Fed(u, decode, Concat(chunks) + last, true)
    decreases |chunks|
  {
    if chunks == [] {
      assert Concat(chunks) + last == last;
    } else {
      var n := |chunks| - 1;
      FedTwice(FedAll(u, decode, chunks[..n]), decode, chunks[n], last, true);
      ChunkingIsIrrelevant(u, decode, chunks[..n], chunks[n] + last);
      ConcatLast(chunks, last);
    }
  }

  // ----- what is counted -----

  function Ids(decode: Decoder, lines: seq<string>): set<string> {
    set i | 0 <= i < |lines| && decode(lines[i]).Assistant? && decode(lines[i]).id != "" :: decode(lines[i]).id
  }

  function Anonymous(decode: Decoder, lines: seq<string>): set<int> {
    set i | 0 <= i < |lines| && decode(lines[i]) == Assistant("")
  }

  /** The result is the last result event, if there is one. */
  predicate LastResult(decode: Decoder, lines: seq<string>, result: Option<Result>) {
    if result.None? then forall i :: 0 <= i < |lines| ==> !decode(lines[i]).ResultEvent?
    else exists i :: 0 <= i < |lines| && decode(lines[i]) == ResultEvent(result.value)
                     && forall j :: i < j < |lines| ==> !decode(lines[j]).ResultEvent?
  }

  /** Calls are the distinct identified responses plus the unidentified ones. */
  lemma {:induction false} CountsOfLines(decode: Decoder, lines: seq<string>)
    ensures
      var u := CountedAll(START, decode, lines);
      && u.ids == Ids(decode, lines)
      && u.unidentified == |Anonymous(decode, lines)|
      && LastResult(decode, lines, u.result)
  {
    if lines != [] {
      var n := |lines| - 1;
      var before := lines[..n];
      CountsOfLines(decode, before);
      var e := decode(lines[n]);
      assert forall i :: 0 <= i < n ==> before[i] == lines[i];
      LastIds(decode, lines);
      LastAnonymous(decode, lines);
      LastResultOfLast(decode, lines, CountedAll(START, decode, before).result);
    }
  }

  lemma LastIds(decode: Decoder, lines: seq<string>)
    requires lines != []
    ensures
      var n := |lines| - 1;
      var e := decode(lines[n]);
      Ids(decode, lines) == Ids(decode, lines[..n]) + if e.Assistant? && e.id != "" then {e.id} else {}
  {
    var n := |lines| - 1;
    var before := lines[..n];
    assert forall i :: 0 <= i < n ==> before[i] == lines[i];
    forall id | id in Ids(decode, before) ensures id in Ids(decode, lines) {
      var i :| 0 <= i < n && decode(before[i]).Assistant? && decode(before[i]).id == id && id != "";
      assert decode(lines[i]).id == id;
    }
  }

  lemma LastAnonymous(decode: Decoder, lines: seq<string>)
    requires lines != []
    ensures
      var n := |lines| - 1;
      |Anonymous(decode, lines)| == |Anonymous(decode, lines[..n])| + if decode(lines[n]) == Assistant("") then 1 else 0
  {
    var n := |lines| - 1;
    var before := lines[..n];
    forall i | 0 <= i < n ensures i in Anonymous(decode, lines) <==> i in Anonymous(decode, before) {
      assert before[i] == lines[i];
    }
    assert Anonymous(decode, lines)
        == Anonymous(decode, before) + if decode(lines[n]) == Assistant("") then {n} else {};
  }

  lemma LastResultOfLast(decode: Decoder, lines: seq<string>, result: Option<Result>)
    requires lines != [] && LastResult(decode, lines[..|lines| - 1], result)
    ensures
      var e := decode(lines[|lines| - 1]);
      LastResult(decode, lines, if e.ResultEvent? then Some(e.result) else result)
  {
    var n := |lines| - 1;
    if decode(lines[n]).ResultEvent? {
      assert decode(lines[n]) == ResultEvent(decode(lines[n]).result);
    } else if result.None? {
      forall i | 0 <= i < |lines| ensures !decode(lines[i]).ResultEvent? {
        assert i < n ==> lines[..n][i] == lines[i];
      }
    } else {
      var i :| 0 <= i < n && decode(lines[..n][i]) == ResultEvent(result.value)
               && forall j :: i < j < n ==> !decode(lines[..n][j]).ResultEvent?;
      assert lines[..n][i] == lines[i];
      forall j | i < j < |lines| ensures !decode(lines[j]).ResultEvent? {
        assert j < n ==> lines[..n][j] == lines[j];
      }
    }
  }

  lemma {:induction false} CountedGrows(u: Usage, decode: Decoder, lines: seq<string>)
    ensures u.ids <= CountedAll(u, decode, lines).ids && u.unidentified <= CountedAll(u, decode, lines).unidentified
    decreases |lines|
  {
    if lines != [] {
      CountedGrows(u, decode, lines[..|lines| - 1]);
    }
  }

  /** A feed never lowers the call count, so a call limit once exceeded stays exceeded. */
  lemma FeedNeverLowersCalls(u: Usage, decode: Decoder, data: string, final: bool)
    ensures Calls(u) <= Calls(Fed(u, decode, data, final))
  {
    var lines := Split(u.pending + data, '\n');
    var counted := if final then lines else lines[..|lines| - 1];
    CountedGrows(u, decode, counted);
    Within(u.ids, CountedAll(u, decode, counted).ids);
  }

  // ----- the object and its driver -----

  class Stream {
    const decode: Decoder
    var pending: string
    var ids: set<string>
    var unidentified: nat
    var result: Option<Result>

    function Value(): Usage
      reads this
    {
      Usage(pending, ids, unidentified, result)
    }

    constructor (decode: Decoder)
      ensures this.decode == decode && Value() == START
    {
      this.decode := decode;
      pending, ids, unidentified, result := "", {}, 0, None;
    }

    /** `feed`. */
    method Feed(data: string, final: bool)
      modifies this
      ensures Value() == Fed(old(Value()), decode, data, final)
    {
      ghost var before := Value();
      var lines := Split(pending + data, '\n');
      if final {
        pending := "";
      } else {
        pending, lines := lines[|lines| - 1], lines[..|lines| - 1];
      }
      ghost var started := Value();
      CountedIgnoresPending(before, decode, lines, pending);
      for i := 0 to |lines|
        invariant Value() == CountedAll(started, decode, lines[..i])
      {
        assert lines[..i + 1][..i] == lines[..i];
        Take(lines[i]);
      }
      assert lines[..|lines|] == lines;
    }

    /** `_event`. */
    method Take(line: string)
      modifies this
      ensures Value() == Counted(old(Value()), decode(line))
    {
      var e := decode(line);
      if e.ResultEvent? {
        result := Some(e.result);
      } else if e.Assistant? {
        if e.id != "" {
          ids := ids + {e.id};
        } else {
          unidentified := unidentified + 1;
        }
      }
    }
  }

  /** What one round of polling finds: whether the host has exited, what it wrote since, and whether the time is up. */
  datatype Poll = Poll(exited: bool, data: string, late: bool)

  datatype Stop = Exited | CallLimit | Timeout | StillRunning

  function Data(polls: seq<Poll>): seq<string> {
    seq(|polls|, i requires 0 <= i < |polls| => polls[i].data)
  }

  /** The usage after the first `k` polls. */
  function After(u: Usage, decode: Decoder, polls: seq<Poll>, k: nat): Usage
    requires k <= |polls|
  {
    if k == 0 then u else Fed(After(u, decode, polls, k - 1), decode, polls[k - 1].data, false)
  }

  lemma {:induction false} AfterIsFedAll(u: Usage, decode: Decoder, polls: seq<Poll>, k: nat)
    requires k <= |polls|
    ensures After(u, decode, polls, k) == FedAll(u, decode, Data(polls[..k]))
  {
    if k > 0 {
      AfterIsFedAll(u, decode, polls, k - 1);
      assert Data(polls[..k])[..k - 1] == Data(polls[..k - 1]);
    }
  }

  /** The calls counted over the first `k` polls are within the limit. */
  predicate Under(u: Usage, decode: Decoder, polls: seq<Poll>, k: nat, limit: nat)
    requires k <= |polls|
  {
    Calls(After(u, decode, polls, k)) <= limit
  }

  /** The `k`-th poll gives no reason to stop. */
  predicate Goes(u: Usage, decode: Decoder, polls: seq<Poll>, k: int, limit: nat)
    requires 1 <= k <= |polls|
  {
    !polls[k - 1].exited && !polls[k - 1].late && Under(u, decode, polls, k, limit)
  }

  /** `_watch` over the polls it makes: it stops at the first that finds the host exited, over its calls or out of time,
      and at no other, having fed every chunk up to there. */
  method Watch(stream: Stream, polls: seq<Poll>, limit: nat) returns (stop: Stop, n: nat)
    modifies stream
    ensures n <= |polls| && stream.Value() == After(old(stream.Value()), stream.decode, polls, n)
    ensures stop == StillRunning ==> n == |polls|
    ensures stop != StillRunning ==> n > 0
    ensures stop == Exited ==> polls[n - 1].exited
    ensures stop == CallLimit ==> !polls[n - 1].exited && !Under(old(stream.Value()), stream.decode, polls, n, limit)
    ensures stop == Timeout ==>
      !polls[n - 1].exited && polls[n - 1].late && Under(old(stream.Value()), stream.decode, polls, n, limit)
    ensures forall k :: 1 <= k < n ==> Goes(old(stream.Value()), stream.decode, polls, k, limit)
    ensures stop == StillRunning && n > 0 ==> Goes(old(stream.Value()), stream.decode, polls, n, limit)
  {
    n := 0;
    ghost var before := stream.Value();
    while n < |polls|
      invariant n <= |polls| && stream.Value() == After(before, stream.decode, polls, n)
      invariant forall k :: 1 <= k <= n ==> Goes(before, stream.decode, polls, k, limit)
    {
      var poll := polls[n];
      stream.Feed(poll.data, false);
      n := n + 1;
      if poll.exited {
        return Exited, n;
      }
      if |stream.ids| + stream.unidentified > limit {
        return CallLimit, n;
      }
      if poll.late {
        return Timeout, n;
      }
      assert Goes(before, stream.decode, polls, n, limit);
    }
    stop := StillRunning;
  }

  /** `_launch` from a fresh stream: whatever the polls were, the counts are those of the whole output at once. */
  method Follow(decode: Decoder, polls: seq<Poll>, limit: nat, rest: string) returns (stop: Stop, usage: Usage, n: nat)
    ensures n <= |polls|
    ensures usage == Fed(START, decode, Concat(Data(polls[..n])) + rest, true)
  {
    var stream := new Stream(decode);
    stop, n := Watch(stream, polls, limit);
    AfterIsFedAll(START, decode, polls, n);
    ChunkingIsIrrelevant(START, decode, Data(polls[..n]), rest);
    stream.Feed(rest, true);
    usage := Usage(stream.pending, stream.ids, stream.unidentified, stream.result);
  }
}
