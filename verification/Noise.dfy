/** The two-level noise budget over scan issues (engine/_state/noise.py). */
module Noise {
  import opened Sorting

  datatype Confidence = High | Medium | Low | OtherConfidence

  datatype Issue = Issue(id: string, detector: string, file: string, tier: int, confidence: Confidence)

  // ----- orders -----

  function Rank(c: Confidence): int {
    match c
    case High => 0
    case Medium => 1
    case Low => 2
    case OtherConfidence => 9
  }

  datatype Key = Key(tier: int, rank: int, id: string)

  function KeyOf(i: Issue): Key {
    Key(i.tier, Rank(i.confidence), i.id)
  }

  predicate KeyAtMost(a: Key, b: Key) {
    a.tier < b.tier || (a.tier == b.tier && (a.rank < b.rank || (a.rank == b.rank && AtMost(a.id, b.id))))
  }

  predicate PriorityAtMost(a: Issue, b: Issue) {
    KeyAtMost(KeyOf(a), KeyOf(b))
  }

  predicate DisplayAtMost(a: Issue, b: Issue) {
    AtMost(a.file, b.file) && (a.file == b.file ==> PriorityAtMost(a, b))
  }

  lemma KeyTotal(a: Key, b: Key)
    ensures KeyAtMost(a, b) || KeyAtMost(b, a)
  {
    AtMostTotal(a.id, b.id);
  }

  lemma KeyTransitive(a: Key, b: Key, c: Key)
    requires KeyAtMost(a, b) && KeyAtMost(b, c)
    ensures KeyAtMost(a, c)
  {
    if a.tier == c.tier && a.rank == c.rank {
      AtMostTransitive(a.id, b.id, c.id);
    }
  }

  lemma PriorityIsPreorder()
    ensures Preorder(PriorityAtMost)
  {
    forall x: Issue, y: Issue ensures PriorityAtMost(x, y) || PriorityAtMost(y, x) {
      KeyTotal(KeyOf(x), KeyOf(y));
    }
    forall x: Issue, y: Issue, z: Issue | PriorityAtMost(x, y) && PriorityAtMost(y, z) ensures PriorityAtMost(x, z) {
      KeyTransitive(KeyOf(x), KeyOf(y), KeyOf(z));
    }
  }

  lemma DisplayIsPreorder()
    ensures Preorder(DisplayAtMost)
  {
    forall x: Issue, y: Issue ensures DisplayAtMost(x, y) || DisplayAtMost(y, x) {
      AtMostTotal(x.file, y.file);
      KeyTotal(KeyOf(x), KeyOf(y));
    }
    forall x: Issue, y: Issue, z: Issue | DisplayAtMost(x, y) && DisplayAtMost(y, z) ensures DisplayAtMost(x, z) {
      AtMostTransitive(x.file, y.file, z.file);
      AtMostTotal(x.file, y.file);
      if x.file == z.file {
        KeyTransitive(KeyOf(x), KeyOf(y), KeyOf(z));
      }
    }
  }

  // ----- groups -----

  function Of(d: string): Issue -> bool {
    (i: Issue) => i.detector == d
  }

  function Group(issues: seq<Issue>, d: string): seq<Issue> {
    Filter(issues, Of(d))
  }

  /** The detectors in order of first appearance. */
  function Names(issues: seq<Issue>): (names: seq<string>)
    ensures Distinct(names)
    ensures forall d :: d in names <==> exists i :: i in issues && i.detector == d
  {
    if issues == [] then []
    else
      var last := issues[|issues| - 1];
      var before := Names(issues[..|issues| - 1]);
      assert forall i :: i in issues <==> i in issues[..|issues| - 1] || i == last;
      assert last in issues;
      if last.detector in before then before else before + [last.detector]
  }

  predicate Distinct(s: seq<string>) {
    forall i, j :: 0 <= i < j < |s| ==> s[i] != s[j]
  }

  function Min(a: int, b: int): int {
    if a <= b then a else b
  }

  /** A detector's issues by priority, cut to its own budget if that is positive. */
  function Capped(group: seq<Issue>, budget: int): seq<Issue> {
    var s := SortBy(group, PriorityAtMost);
    if budget <= 0 || |s| <= budget then s else s[..budget]
  }

  lemma CappedIsWithin(group: seq<Issue>, budget: int)
    ensures |Capped(group, budget)| <= |group|
    ensures forall i :: i in Capped(group, budget) ==> i in group
  {
    var s := SortBy(group, PriorityAtMost);
    assert forall i :: i in s ==> i in multiset(s);
    assert forall i :: i in group <==> i in multiset(group);
  }

  /** The priority order is one: sorted, and a permutation of the group. */
  lemma CappedIsTop(group: seq<Issue>, budget: int)
    ensures Ordered(Capped(group, budget), PriorityAtMost)
    ensures Capped(group, budget) == Capped(group, 0)[..if budget <= 0 then |group| else Min(budget, |group|)]
    ensures multiset(Capped(group, 0)) == multiset(group) && Ordered(Capped(group, 0), PriorityAtMost)
  {
    PriorityIsPreorder();
    SortOrdered(group, PriorityAtMost);
  }

  type Groups = map<string, seq<Issue>>
  type Counts = map<string, nat>

  ghost predicate Covers(order: seq<string>, m: Groups) {
    Distinct(order) && forall d :: d in order <==> d in m
  }

  /** The total of the counts over the listed detectors. */
  function Sum(order: seq<string>, m: Counts): nat
    requires forall d :: d in order ==> d in m
  {
    if order == [] then 0 else Sum(order[..|order| - 1], m) + m[order[|order| - 1]]
  }

  lemma {:induction false} SumBump(order: seq<string>, m: Counts, d: string)
    requires Distinct(order) && forall e :: e in order ==> e in m
    requires d in m
    ensures Sum(order, m[d := m[d] + 1]) == Sum(order, m) + if d in order then 1 else 0
  {
    if order != [] {
      var n := |order| - 1;
      SumBump(order[..n], m, d);
      assert order[n] !in order[..n];
      assert d in order <==> d in order[..n] || d == order[n];
    }
  }

  lemma {:induction false} SumAtMost(order: seq<string>, m: Counts, bound: Counts)
    requires forall e :: e in order ==> e in m && e in bound && m[e] <= bound[e]
    ensures Sum(order, m) <= Sum(order, bound)
    ensures Sum(order, m) == Sum(order, bound) ==> forall e :: e in order ==> m[e] == bound[e]
  {
    if order != [] {
      SumAtMost(order[..|order| - 1], m, bound);
      assert forall e :: e in order <==> e in order[..|order| - 1] || e == order[|order| - 1];
    }
  }

  lemma {:induction false} SumEqual(order: seq<string>, m: Counts, bound: Counts)
    requires forall e :: e in order ==> e in m && e in bound && m[e] == bound[e]
    ensures Sum(order, m) == Sum(order, bound)
  {
    if order != [] {
      SumEqual(order[..|order| - 1], m, bound);
      assert order[|order| - 1] in order;
    }
  }

  lemma RemoveAt(a: seq<string>, b: seq<string>, k: nat)
    requires a != [] && multiset(a) == multiset(b) && k < |b| && b[k] == a[|a| - 1]
    ensures multiset(b[..k] + b[k + 1..]) == multiset(a[..|a| - 1])
  {
    assert a == a[..|a| - 1] + [b[k]];
    assert b == b[..k] + [b[k]] + b[k + 1..];
    assert multiset(b) == multiset(b[..k] + b[k + 1..]) + multiset{b[k]};
    assert multiset(a) == multiset(a[..|a| - 1]) + multiset{b[k]};
    assert multiset(b) - multiset{b[k]} == multiset(b[..k] + b[k + 1..]);
    assert multiset(a) - multiset{b[k]} == multiset(a[..|a| - 1]);
  }

  /** The total does not depend on the order in which the detectors are listed. */
  lemma {:induction false} SumOfPermutation(a: seq<string>, b: seq<string>, m: Counts)
    requires multiset(a) == multiset(b)
    requires forall e :: e in a ==> e in m
    requires forall e :: e in b ==> e in m
    ensures Sum(a, m) == Sum(b, m)
  {
    if a == [] {
      assert b == [] by {
        assert |multiset(b)| == 0;
      }
    } else {
      var last := a[|a| - 1];
      assert last in multiset(b);
      var k :| 0 <= k < |b| && b[k] == last;
      RemoveAt(a, b, k);
      SumOfPermutation(a[..|a| - 1], b[..k] + b[k + 1..], m);
      SumWithout(b, k, m);
    }
  }

  lemma {:induction false} SumWithout(b: seq<string>, k: nat, m: Counts)
    requires k < |b| && forall e :: e in b ==> e in m
    ensures Sum(b, m) == Sum(b[..k] + b[k + 1..], m) + m[b[k]]
    decreases |b|
  {
    var n := |b| - 1;
    if k < n {
      SumWithout(b[..n], k, m);
      assert (b[..k] + b[k + 1..])[..n - 1] == b[..n][..k] + b[..n][k + 1..];
    } else {
      assert b[..k] + b[k + 1..] == b[..n];
    }
  }

  // ----- the round robin -----

  /** Every detector has had `r` turns and the first `p` of the order one more, as far as its items reach. */
  predicate Level(order: seq<string>, capped: Groups, consumed: Counts, r: nat, p: nat) {
    forall k :: 0 <= k < |order| ==>
      order[k] in capped && order[k] in consumed
      && consumed[order[k]] == Min(|capped[order[k]]|, if k < p then r + 1 else r)
  }

  predicate ShareOk(capped: Groups, consumed: Counts, surfaced: seq<Issue>, d: string) {
    && d in capped && d in consumed && consumed[d] <= |capped[d]|
    && Group(surfaced, d) == capped[d][..consumed[d]]
  }

  /** What is surfaced of each detector is the head of its list. */
  ghost predicate Shares(order: seq<string>, capped: Groups, consumed: Counts, surfaced: seq<Issue>) {
    && (forall d :: d in order ==> d in capped && d in consumed && consumed[d] <= |capped[d]|)
    && (forall d :: d in order ==> ShareOk(capped, consumed, surfaced, d))
    && (forall i :: i in surfaced ==> i.detector in order)
    && |surfaced| == Sum(order, consumed)
  }

  ghost predicate Pure(capped: Groups) {
    forall d, i :: d in capped && i in capped[d] ==> i.detector == d
  }

  function Lengths(capped: Groups): Counts {
    map d | d in capped :: |capped[d]|
  }

  lemma GroupAppend(surfaced: seq<Issue>, item: Issue, e: string)
    ensures Group(surfaced + [item], e) == Group(surfaced, e) + if item.detector == e then [item] else []
  {
    assert (surfaced + [item])[..|surfaced|] == surfaced;
  }

  /** Surfacing a detector's next item extends its share and no other. */
  lemma ShareExtends(capped: Groups, consumed: Counts, surfaced: seq<Issue>, d: string, e: string)
    requires ShareOk(capped, consumed, surfaced, d) && ShareOk(capped, consumed, surfaced, e)
    requires consumed[d] < |capped[d]| && capped[d][consumed[d]].detector == d
    ensures ShareOk(capped, consumed[d := consumed[d] + 1], surfaced + [capped[d][consumed[d]]], e)
  {
    var n := consumed[d];
    GroupAppend(surfaced, capped[d][n], e);
    assert capped[d][..n + 1] == capped[d][..n] + [capped[d][n]];
  }

  lemma SharesStep(order: seq<string>, capped: Groups, consumed: Counts, surfaced: seq<Issue>, d: string)
    requires Distinct(order) && Pure(capped) && Shares(order, capped, consumed, surfaced)
    requires d in order && d in capped && d in consumed && consumed[d] < |capped[d]|
    ensures Shares(order, capped, consumed[d := consumed[d] + 1], surfaced + [capped[d][consumed[d]]])
  {
    var item := capped[d][consumed[d]];
    assert ShareOk(capped, consumed, surfaced, d);
    assert item in capped[d] && item.detector == d;
    forall e | e in order ensures ShareOk(capped, consumed[d := consumed[d] + 1], surfaced + [item], e) {
      ShareExtends(capped, consumed, surfaced, d, e);
    }
    SumBump(order, consumed, d);
  }

  lemma LevelStep(order: seq<string>, capped: Groups, consumed: Counts, r: nat, p: nat)
    requires Distinct(order) && Level(order, capped, consumed, r, p) && p < |order|
    ensures
      var d := order[p];
      Level(order, capped, if consumed[d] < |capped[d]| then consumed[d := consumed[d] + 1] else consumed, r, p + 1)
  {
  }

  predicate LeadsAtMost(capped: Groups, d: string, e: string) {
    KeyAtMost(Leader(capped, d), Leader(capped, e)) && (Leader(capped, d) == Leader(capped, e) ==> AtMost(d, e))
  }

  function Leader(capped: Groups, d: string): Key {
    if d in capped && capped[d] != [] then KeyOf(capped[d][0]) else Key(9, 9, "")
  }

  /** The detectors by their first item, then by name. */
  function Order(names: seq<string>, capped: Groups): seq<string> {
    SortBy(names, (d, e) => LeadsAtMost(capped, d, e))
  }

  lemma OrderCovers(names: seq<string>, capped: Groups)
    requires Covers(names, capped)
    ensures Covers(Order(names, capped), capped)
  {
    SamePermutation(names, Order(names, capped));
  }

  lemma SamePermutation(a: seq<string>, b: seq<string>)
    requires multiset(a) == multiset(b) && Distinct(a)
    ensures Distinct(b) && forall d :: d in b <==> d in a
  {
    assert forall d :: d in b <==> d in multiset(b);
    assert forall d :: d in a <==> d in multiset(a);
    DistinctCounts(a);
    forall i, j | 0 <= i < j < |b| ensures b[i] != b[j] {
      EqualPair(b, i, j);
    }
  }

  lemma EqualPair(b: seq<string>, i: nat, j: nat)
    requires i < j < |b|
    ensures b[i] == b[j] ==> multiset(b)[b[i]] >= 2
  {
    assert b == b[..i] + [b[i]] + b[i + 1..j] + [b[j]] + b[j + 1..];
  }

  lemma {:induction false} DistinctCounts(a: seq<string>)
    requires Distinct(a)
    ensures forall d :: multiset(a)[d] <= 1
  {
    if a != [] {
      var n := |a| - 1;
      DistinctCounts(a[..n]);
      assert a == a[..n] + [a[n]];
      assert a[n] !in a[..n];
    }
  }

  /** A round robin on its way: the heads of the lists are surfaced, level up to the `p`-th detector of a turn. */
  ghost predicate OnTurn(order: seq<string>, capped: Groups, consumed: Counts, surfaced: seq<Issue>, r: nat, p: nat) {
    consumed.Keys == capped.Keys && Shares(order, capped, consumed, surfaced) && Level(order, capped, consumed, r, p)
  }

  lemma PassedOver(order: seq<string>, capped: Groups, consumed: Counts, surfaced: seq<Issue>, r: nat, p: nat)
    requires Distinct(order) && OnTurn(order, capped, consumed, surfaced, r, p) && p < |order|
    requires order[p] in capped && consumed[order[p]] >= |capped[order[p]]|
    ensures OnTurn(order, capped, consumed, surfaced, r, p + 1)
  {
    LevelStep(order, capped, consumed, r, p);
  }

  lemma Taken(order: seq<string>, capped: Groups, consumed: Counts, surfaced: seq<Issue>, r: nat, p: nat)
    requires Distinct(order) && Pure(capped) && OnTurn(order, capped, consumed, surfaced, r, p) && p < |order|
    requires order[p] in capped && consumed[order[p]] < |capped[order[p]]|
    ensures
      var d := order[p];
      OnTurn(order, capped, consumed[d := consumed[d] + 1], surfaced + [capped[d][consumed[d]]], r, p + 1)
  {
    LevelStep(order, capped, consumed, r, p);
    SharesStep(order, capped, consumed, surfaced, order[p]);
  }

  /** A whole turn that surfaces nothing finds every list exhausted. */
  lemma NothingLeft(order: seq<string>, capped: Groups, before: Counts, after: Counts, surfaced0: seq<Issue>,
                    surfaced: seq<Issue>, r: nat)
    requires OnTurn(order, capped, before, surfaced0, r, 0) && OnTurn(order, capped, after, surfaced, r, |order|)
    requires |surfaced| == |surfaced0|
    ensures forall d :: d in order ==> after[d] == |capped[d]|
  {
    forall d | d in order
      ensures before[d] <= after[d] && after[d] == Min(|capped[d]|, r + 1) && before[d] == Min(|capped[d]|, r)
    {
      var k :| 0 <= k < |order| && order[k] == d;
    }
    SumAtMost(order, before, after);
  }

  datatype Round = Round(surfaced: seq<Issue>, consumed: Counts)

  /** A detector's turn: its next item, if it has one left. */
  function Stepped(capped: Groups, round: Round, d: string): Round {
    if d !in capped || d !in round.consumed || round.consumed[d] >= |capped[d]| then round
    else
      Round(round.surfaced + [capped[d][round.consumed[d]]], round.consumed[d := round.consumed[d] + 1])
  }

  /** The turns of the first `p` detectors. */
  function Turns(order: seq<string>, capped: Groups, start: Round, p: nat): Round
    requires p <= |order|
  {
    if p == 0 then start else Stepped(capped, Turns(order, capped, start, p - 1), order[p - 1])
  }

  /** What every detector's turn keeps holds after any number of them. */
  lemma {:induction false} TurnsKeep(order: seq<string>, capped: Groups, start: Round, p: nat,
                                     inv: (Round, nat) -> bool)
    requires p <= |order| && inv(start, 0)
    requires forall round: Round, k: nat :: inv(round, k) && k < |order| ==>
      inv(Stepped(capped, round, order[k]), k + 1)
    ensures inv(Turns(order, capped, start, p), p)
    decreases p
  {
    if p > 0 {
      TurnsKeep(order, capped, start, p - 1, inv);
    }
  }

  lemma SteppedIsLevel(order: seq<string>, capped: Groups, round: Round, r: nat, p: nat)
    requires Covers(order, capped) && Pure(capped) && p < |order|
    requires OnTurn(order, capped, round.consumed, round.surfaced, r, p)
    ensures
      var next := Stepped(capped, round, order[p]);
      OnTurn(order, capped, next.consumed, next.surfaced, r, p + 1)
  {
    assert order[p] in order;
    if round.consumed[order[p]] >= |capped[order[p]]| {
      PassedOver(order, capped, round.consumed, round.surfaced, r, p);
    } else {
      Taken(order, capped, round.consumed, round.surfaced, r, p);
    }
  }

  ghost function LevelAt(order: seq<string>, capped: Groups, r: nat): (Round, nat) -> bool {
    (round: Round, k: nat) => OnTurn(order, capped, round.consumed, round.surfaced, r, k)
  }

  lemma TurnsAreLevel(order: seq<string>, capped: Groups, start: Round, r: nat, p: nat)
    requires Covers(order, capped) && Pure(capped) && p <= |order|
    requires OnTurn(order, capped, start.consumed, start.surfaced, r, 0)
    ensures LevelAt(order, capped, r)(Turns(order, capped, start, p), p)
  {
    var inv := LevelAt(order, capped, r);
    forall round: Round, k: nat | inv(round, k) && k < |order| ensures inv(Stepped(capped, round, order[k]), k + 1) {
      SteppedIsLevel(order, capped, round, r, k);
    }
    TurnsKeep(order, capped, start, p, inv);
  }

  /** One turn of the round robin: an item of each detector that has one left, until the budget is reached. */
  method Turn(order: seq<string>, capped: Groups, budget: int, surfaced0: seq<Issue>, consumed0: Counts)
    returns (surfaced: seq<Issue>, consumed: Counts, progressed: bool, ghost p: nat)
    requires |surfaced0| < budget
    ensures p <= |order| && Round(surfaced, consumed) == Turns(order, capped, Round(surfaced0, consumed0), p)
    ensures |surfaced0| <= |surfaced| <= budget && (|surfaced| < budget ==> p == |order|)
    ensures progressed <==> |surfaced| > |surfaced0|
  {
    surfaced, consumed, progressed, p := surfaced0, consumed0, false, 0;
    for k := 0 to |order|
      invariant Round(surfaced, consumed) == Turns(order, capped, Round(surfaced0, consumed0), k) && p == k
      invariant |surfaced0| <= |surfaced| < budget && (progressed <==> |surfaced| > |surfaced0|)
    {
      var d := order[k];
      p := p + 1;
      if d !in capped || d !in consumed || consumed[d] >= |capped[d]| {
        continue;
      }
      surfaced := surfaced + [capped[d][consumed[d]]];
      consumed := consumed[d := consumed[d] + 1];
      progressed := true;
      if |surfaced| >= budget {
        break;
      }
    }
  }

  /** `_round_robin_global_budget`: it surfaces as much as the budget and the lists allow, the turns going in order. */
  method RoundRobin(names: seq<string>, capped: Groups, budget: int)
    returns (surfaced: seq<Issue>, consumed: Counts)
    requires Covers(names, capped) && Pure(capped)
    ensures consumed.Keys == capped.Keys && Shares(Order(names, capped), capped, consumed, surfaced)
    ensures |surfaced| == if budget <= 0 then 0 else Min(budget, Sum(names, Lengths(capped)))
    ensures exists r: nat, p: nat :: Level(Order(names, capped), capped, consumed, r, p)
  {
    var order := Order(names, capped);
    OrderCovers(names, capped);
    surfaced := [];
    consumed := map d | d in capped :: 0;
    NothingShared(order, capped, consumed);
    ghost var r: nat, p: nat := 0, 0;
    while |surfaced| < budget
      invariant |surfaced| <= (if budget <= 0 then 0 else budget)
      invariant p <= |order| && OnTurn(order, capped, consumed, surfaced, r, p)
      invariant |surfaced| < budget ==> p == 0
      decreases budget - |surfaced|
    {
      ghost var start := Round(surfaced, consumed);
      var progressed;
      surfaced, consumed, progressed, p := Turn(order, capped, budget, surfaced, consumed);
      TurnsAreLevel(order, capped, start, r, p);
      assert LevelAt(order, capped, r)(Round(surfaced, consumed), p);
      if !progressed {
        NothingLeft(order, capped, start.consumed, consumed, start.surfaced, surfaced, r);
        break;
      }
      if |surfaced| < budget {
        r, p := r + 1, 0;
      }
    }
    TotalOf(names, capped, consumed, surfaced);
  }

  /** No more is surfaced than the lists hold. */
  lemma TotalOf(names: seq<string>, capped: Groups, consumed: Counts, surfaced: seq<Issue>)
    requires Covers(names, capped) && consumed.Keys == capped.Keys
    requires Shares(Order(names, capped), capped, consumed, surfaced)
    ensures |surfaced| <= Sum(names, Lengths(capped))
    ensures (forall d :: d in capped ==> consumed[d] == |capped[d]|) ==> |surfaced| == Sum(names, Lengths(capped))
  {
    var order := Order(names, capped);
    OrderCovers(names, capped);
    SumOfPermutation(names, order, Lengths(capped));
    SumAtMost(order, consumed, Lengths(capped));
    if forall d :: d in capped ==> consumed[d] == |capped[d]| {
      SumEqual(order, consumed, Lengths(capped));
    }
  }

  lemma NothingShared(order: seq<string>, capped: Groups, consumed: Counts)
    requires Covers(order, capped) && consumed.Keys == capped.Keys && forall d :: d in consumed ==> consumed[d] == 0
    ensures Shares(order, capped, consumed, []) && Level(order, capped, consumed, 0, 0)
  {
    SumOfZeros(order, consumed);
  }

  lemma {:induction false} SumOfZeros(order: seq<string>, m: Counts)
    requires forall d :: d in order ==> d in m && m[d] == 0
    ensures Sum(order, m) == 0
  {
    if order != [] {
      SumOfZeros(order[..|order| - 1], m);
      assert order[|order| - 1] in order;
    }
  }

  /** Fairness: two detectors' shares differ by more than one only when the smaller one's list is exhausted. */
  lemma LevelIsFair(order: seq<string>, capped: Groups, consumed: Counts, r: nat, p: nat, d: string, e: string)
    requires Level(order, capped, consumed, r, p) && d in order && e in order
    requires consumed[d] + 1 < consumed[e]
    ensures consumed[d] == |capped[d]|
  {
    var i :| 0 <= i < |order| && order[i] == d;
    var j :| 0 <= j < |order| && order[j] == e;
  }

  // ----- the whole budget -----

  /** The detectors in order of first appearance, each with its issues. */
  function Grouped(issues: seq<Issue>): (seq<string>, Groups) {
    if issues == [] then ([], map[])
    else
      var issue := issues[|issues| - 1];
      Placed(Grouped(issues[..|issues| - 1]), issue)
  }

  function Placed(before: (seq<string>, Groups), issue: Issue): (seq<string>, Groups) {
    var d := issue.detector;
    if d in before.1 then (before.0, before.1[d := before.1[d] + [issue]])
    else (before.0 + [d], before.1[d := [issue]])
  }

  /** The names and groups are those of the issues. */
  ghost predicate GroupsOf(issues: seq<Issue>, names: seq<string>, groups: Groups) {
    && names == Names(issues)
    && (forall d :: d in groups <==> d in names)
    && (forall d :: d in groups ==> groups[d] == Group(issues, d))
  }

  lemma PlacedIs(issues: seq<Issue>, names: seq<string>, groups: Groups, issue: Issue)
    requires GroupsOf(issues, names, groups)
    ensures
      var (names', groups') := Placed((names, groups), issue);
      GroupsOf(issues + [issue], names', groups')
  {
    var d := issue.detector;
    assert (issues + [issue])[..|issues|] == issues;
    if d !in names {
      NoneOf(issues, d);
    }
    var (names', groups') := Placed((names, groups), issue);
    forall e | e in groups' ensures groups'[e] == Group(issues + [issue], e) {
      GroupAppend(issues, issue, e);
    }
  }

  lemma {:induction false} GroupedIs(issues: seq<Issue>)
    ensures GroupsOf(issues, Grouped(issues).0, Grouped(issues).1)
  {
    if issues != [] {
      var n := |issues| - 1;
      GroupedIs(issues[..n]);
      assert issues == issues[..n] + [issues[n]];
      PlacedIs(issues[..n], Grouped(issues[..n]).0, Grouped(issues[..n]).1, issues[n]);
    }
  }

  /** `_group_issues_by_detector`. */
  method GroupByDetector(issues: seq<Issue>) returns (names: seq<string>, grouped: Groups)
    ensures names == Names(issues) && Covers(names, grouped)
    ensures forall d :: d in grouped ==> grouped[d] == Group(issues, d)
  {
    names, grouped := [], map[];
    for k := 0 to |issues|
      invariant (names, grouped) == Grouped(issues[..k])
    {
      var d := issues[k].detector;
      assert issues[..k + 1][..k] == issues[..k];
      if d in grouped {
        grouped := grouped[d := grouped[d] + [issues[k]]];
      } else {
        names, grouped := names + [d], grouped[d := [issues[k]]];
      }
    }
    assert issues[..|issues|] == issues;
    GroupedIs(issues);
  }

  lemma {:induction false} NoneOf(issues: seq<Issue>, d: string)
    requires d !in Names(issues)
    ensures Group(issues, d) == []
  {
    if issues != [] {
      NoneOf(issues[..|issues| - 1], d);
      assert issues[|issues| - 1] in issues;
    }
  }

  predicate Hides(hidden: Counts, d: string, n: int) {
    if n > 0 then d in hidden && hidden[d] == n else d !in hidden
  }

  /** The named detectors' lists are cut to the given ones, and what was cut off is counted. */
  ghost predicate CapsUpTo(done: set<string>, grouped: Groups, lists: Groups, capped: Groups, hidden: Counts) {
    && done <= grouped.Keys && capped.Keys == done && hidden.Keys <= done && grouped.Keys == lists.Keys
    && forall d :: d in done ==> capped[d] == lists[d] && Hides(hidden, d, |grouped[d]| - |lists[d]|)
  }

  lemma CapStep(done: set<string>, grouped: Groups, lists: Groups, capped: Groups, hidden: Counts, d: string)
    requires CapsUpTo(done, grouped, lists, capped, hidden) && d in grouped && d !in done
    ensures CapsUpTo(done + {d}, grouped, lists, capped[d := lists[d]], Counted(hidden, d, |grouped[d]| - |lists[d]|))
  {
  }

  function Counted(hidden: Counts, d: string, excess: int): Counts {
    if excess > 0 then hidden[d := excess] else hidden
  }

  /** The lists and counts after the first detectors. */
  function CappedUpTo(names: seq<string>, grouped: Groups, lists: Groups): (r: (Groups, Counts))
    requires forall d :: d in names ==> d in grouped && d in lists
  {
    if names == [] then (map[], map[])
    else
      var d := names[|names| - 1];
      assert forall e :: e in names[..|names| - 1] ==> e in names;
      var (capped, hidden) := CappedUpTo(names[..|names| - 1], grouped, lists);
      (capped[d := lists[d]], Counted(hidden, d, |grouped[d]| - |lists[d]|))
  }

  function NameSet(names: seq<string>): set<string> {
    set d | d in names
  }

  lemma {:induction false} CapsUpToNames(names: seq<string>, grouped: Groups, lists: Groups)
    requires Distinct(names) && grouped.Keys == lists.Keys && forall d :: d in names ==> d in grouped
    ensures
      var (capped, hidden) := CappedUpTo(names, grouped, lists);
      CapsUpTo(NameSet(names), grouped, lists, capped, hidden)
  {
    if names == [] {
      assert NameSet(names) == {};
    } else {
      var n := |names| - 1;
      var (capped, hidden) := CappedUpTo(names[..n], grouped, lists);
      assert forall d :: d in names <==> d in names[..n] || d == names[n];
      CapsUpToNames(names[..n], grouped, lists);
      CapStep(NameSet(names[..n]), grouped, lists, capped, hidden, names[n]);
      assert NameSet(names) == NameSet(names[..n]) + {names[n]};
    }
  }

  /** `_cap_detector_groups`. */
  method CapGroups(names: seq<string>, grouped: Groups, budget: int, ghost lists: Groups)
    returns (capped: Groups, hidden: Counts)
    requires Covers(names, grouped) && lists.Keys == grouped.Keys
    requires forall d {:trigger Capped(grouped[d], budget)} :: d in grouped ==> lists[d] == Capped(grouped[d], budget)
    ensures CapsUpTo(grouped.Keys, grouped, lists, capped, hidden)
  {
    capped, hidden := map[], map[];
    for k := 0 to |names|
      invariant (capped, hidden) == CappedUpTo(names[..k], grouped, lists)
    {
      var d := names[k];
      assert names[..k + 1][..k] == names[..k];
      var list, excess := CapGroup(grouped[d], budget);
      capped := capped[d := list];
      if excess > 0 {
        hidden := hidden[d := excess];
      }
    }
    assert names[..|names|] == names;
    CapsUpToNames(names, grouped, lists);
    assert NameSet(names) == grouped.Keys;
  }

  method CapGroup(group: seq<Issue>, budget: int) returns (list: seq<Issue>, excess: int)
    ensures list == Capped(group, budget) && excess == |group| - |list|
  {
    list := Capped(group, budget);
    excess := |group| - |list|;
  }

  /** What the round robin left over is added to what the detector's own budget hid. */
  method AddDropped(names: seq<string>, capped: Groups, consumed: Counts, hidden0: Counts) returns (hidden: Counts)
    requires Covers(names, capped) && consumed.Keys == capped.Keys && hidden0.Keys <= capped.Keys
    requires forall d :: d in capped ==> consumed[d] <= |capped[d]|
    ensures hidden.Keys <= capped.Keys
    ensures forall d :: d in capped ==> Hidden(hidden, d) == Hidden(hidden0, d) + (|capped[d]| - consumed[d])
    ensures (forall d :: d in hidden0 ==> hidden0[d] > 0) ==> forall d :: d in hidden ==> hidden[d] > 0
  {
    hidden := hidden0;
    ghost var done: set<string> := {};
    for k := 0 to |names|
      invariant done == set j | 0 <= j < k :: names[j]
      invariant done <= capped.Keys && hidden.Keys <= capped.Keys
      invariant forall d :: d in capped ==>
        Hidden(hidden, d) == Hidden(hidden0, d) + if d in done then |capped[d]| - consumed[d] else 0
      invariant (forall d :: d in hidden0 ==> hidden0[d] > 0) ==> forall d :: d in hidden ==> hidden[d] > 0
    {
      var d := names[k];
      assert d in names;
      assert d !in done;
      var dropped := |capped[d]| - consumed[d];
      if dropped > 0 {
        hidden := hidden[d := Hidden(hidden, d) + dropped];
      }
      done := done + {d};
    }
  }

  function Hidden(hidden: Counts, d: string): nat {
    if d in hidden then hidden[d] else 0
  }

  function CappedGroups(issues: seq<Issue>, budget: int): Groups {
    map d | d in Names(issues) :: Capped(Group(issues, d), budget)
  }

  /** How many issues the two budgets together let through. */
  function Allowed(issues: seq<Issue>, budget: int, global: int): int {
    var total := Sum(Names(issues), Lengths(CappedGroups(issues, budget)));
    if global > 0 then Min(global, total) else total
  }

  /** A detector's surfaced issues are the head of its capped list, and the hidden ones are all its others. */
  ghost predicate Budgeted(issues: seq<Issue>, budget: int, surfaced: seq<Issue>, hidden: Counts, d: string) {
    var share := |Group(surfaced, d)|;
    var capped := Capped(Group(issues, d), budget);
    && share <= |capped|
    && multiset(Group(surfaced, d)) == multiset(capped[..share])
    && share + Hidden(hidden, d) == |Group(issues, d)|
  }

  /** Each detector's consumed head is surfaced and the rest is counted as hidden. */
  ghost predicate Settles(issues: seq<Issue>, capped: Groups, order: seq<string>, consumed: Counts,
                          surfaced: seq<Issue>, hidden: Counts)
  {
    && Covers(order, capped) && consumed.Keys == capped.Keys && Shares(order, capped, consumed, surfaced)
    && hidden.Keys <= capped.Keys
    && (forall d :: d in capped ==> Hidden(hidden, d) == |Group(issues, d)| - consumed[d])
  }

  lemma SameElements<T>(a: seq<T>, b: seq<T>)
    requires multiset(a) == multiset(b)
    ensures |a| == |b|
  {
    assert |multiset(a)| == |a| && |multiset(b)| == |b|;
  }

  lemma Unlisted(surfaced: seq<Issue>, order: seq<string>, d: string)
    requires (forall i :: i in surfaced ==> i.detector in order) && d !in order
    ensures Group(surfaced, d) == []
  {
    NoneOf(surfaced, d);
  }

  /** Sorting for display changes neither a detector's share nor which issues it consists of. */
  lemma DisplayKeepsGroups(surfaced: seq<Issue>, d: string)
    ensures |Group(SortBy(surfaced, DisplayAtMost), d)| == |Group(surfaced, d)|
    ensures multiset(Group(SortBy(surfaced, DisplayAtMost), d)) == multiset(Group(surfaced, d))
  {
    FilterOfSort(surfaced, DisplayAtMost, Of(d));
    SameElements(Group(SortBy(surfaced, DisplayAtMost), d), Group(surfaced, d));
  }

  lemma SettledShare(issues: seq<Issue>, budget: int, capped: Groups, order: seq<string>, consumed: Counts,
                     surfaced: seq<Issue>, hidden: Counts, d: string)
    requires capped == CappedGroups(issues, budget) && Settles(issues, capped, order, consumed, surfaced, hidden)
    ensures |Group(surfaced, d)| == if d in consumed then consumed[d] else 0
    ensures Budgeted(issues, budget, surfaced, hidden, d)
  {
    if d in capped {
      assert d in order;
      assert Group(surfaced, d) == capped[d][..consumed[d]];
    } else {
      NoneOf(issues, d);
      Unlisted(surfaced, order, d);
    }
  }

  lemma DisplayedShare(issues: seq<Issue>, budget: int, capped: Groups, order: seq<string>, consumed: Counts,
                       surfaced: seq<Issue>, hidden: Counts, d: string)
    requires capped == CappedGroups(issues, budget) && Settles(issues, capped, order, consumed, surfaced, hidden)
    ensures |Group(SortBy(surfaced, DisplayAtMost), d)| == if d in consumed then consumed[d] else 0
    ensures Budgeted(issues, budget, SortBy(surfaced, DisplayAtMost), hidden, d)
  {
    SettledShare(issues, budget, capped, order, consumed, surfaced, hidden, d);
    DisplayKeepsGroups(surfaced, d);
  }

  /** Without a global budget, everything the detectors' own budgets let through. */
  method Concatenate(names: seq<string>, capped: Groups) returns (surfaced: seq<Issue>)
    requires Covers(names, capped) && Pure(capped)
    ensures Shares(names, capped, Lengths(capped), surfaced)
  {
    surfaced := [];
    ghost var taken: Counts := map d | d in capped :: 0;
    NothingShared(names, capped, taken);
    for k := 0 to |names|
      invariant taken.Keys == capped.Keys && Shares(names, capped, taken, surfaced)
      invariant forall d :: d in taken ==> taken[d] == if d in names[..k] then |capped[d]| else 0
    {
      assert names[k] in names && names[k] !in names[..k];
      assert forall d :: d in names[..k + 1] <==> d in names[..k] || d == names[k];
      surfaced, taken := TakeAll(names, capped, names[k], surfaced, taken);
    }
    assert names[..|names|] == names;
    AllTaken(names, capped, taken);
  }

  lemma AllTaken(names: seq<string>, capped: Groups, taken: Counts)
    requires Covers(names, capped) && taken.Keys == capped.Keys
    requires forall d :: d in taken ==> taken[d] == if d in names then |capped[d]| else 0
    ensures taken == Lengths(capped)
  {
    forall d | d in capped ensures taken[d] == |capped[d]| {
      assert d in names;
    }
  }

  method TakeAll(names: seq<string>, capped: Groups, d: string, before: seq<Issue>, ghost taken0: Counts)
    returns (surfaced: seq<Issue>, ghost taken: Counts)
    requires Covers(names, capped) && Pure(capped) && d in names && taken0.Keys == capped.Keys && taken0[d] == 0
    requires Shares(names, capped, taken0, before)
    ensures taken.Keys == capped.Keys && Shares(names, capped, taken, surfaced)
    ensures forall e :: e in taken ==> taken[e] == if e == d then |capped[d]| else taken0[e]
  {
    surfaced, taken := before, taken0;
    var items := capped[d];
    for i := 0 to |items|
      invariant taken.Keys == capped.Keys && Shares(names, capped, taken, surfaced)
      invariant forall e :: e in taken ==> taken[e] == if e == d then i else taken0[e]
    {
      SharesStep(names, capped, taken, surfaced, d);
      surfaced, taken := surfaced + [items[i]], taken[d := taken[d] + 1];
    }
  }

  /** The detectors' own budgets, applied: the lists, and what each list left out. */
  ghost predicate OwnHides(issues: seq<Issue>, names: seq<string>, capped: Groups, own: Counts) {
    && Covers(names, capped) && Pure(capped) && own.Keys <= capped.Keys
    && forall d :: d in capped ==>
         |capped[d]| <= |Group(issues, d)| && Hides(own, d, |Group(issues, d)| - |capped[d]|)
  }

  lemma CapsAre(issues: seq<Issue>, names: seq<string>, grouped: Groups, lists: Groups, capped: Groups, own: Counts)
    requires Covers(names, grouped) && forall d :: d in grouped ==> grouped[d] == Group(issues, d)
    requires CapsUpTo(grouped.Keys, grouped, lists, capped, own) && Pure(lists)
    requires forall d :: d in lists ==> |lists[d]| <= |grouped[d]|
    ensures capped == lists && OwnHides(issues, names, capped, own)
    ensures forall d :: d in own ==> own[d] > 0
  {
    forall d | d in own ensures own[d] > 0 {
      assert Hides(own, d, |grouped[d]| - |lists[d]|);
    }
  }

  /** The lists the budget leaves hold each detector's own issues, and no more than it has. */
  lemma ListsOf(issues: seq<Issue>, budget: int, d: string)
    requires d in Names(issues)
    ensures
      var lists := CappedGroups(issues, budget);
      && d in lists && lists[d] == Capped(Group(issues, d), budget)
      && |lists[d]| <= |Group(issues, d)| && forall i :: i in lists[d] ==> i.detector == d
  {
    CappedIsWithin(Group(issues, d), budget);
    FilterMembers(issues, Of(d));
  }

  lemma ListsAreOwn(issues: seq<Issue>, budget: int)
    ensures CappedGroups(issues, budget).Keys == NameSet(Names(issues)) && Pure(CappedGroups(issues, budget))
    ensures forall d :: d in CappedGroups(issues, budget) ==>
      && CappedGroups(issues, budget)[d] == Capped(Group(issues, d), budget)
      && |CappedGroups(issues, budget)[d]| <= |Group(issues, d)|
  {
    forall d | d in Names(issues)
      ensures |CappedGroups(issues, budget)[d]| <= |Group(issues, d)|
      ensures forall i :: i in CappedGroups(issues, budget)[d] ==> i.detector == d
    {
      ListsOf(issues, budget, d);
    }
  }

  /** A detector's hidden count is its own budget's plus what the round robin left over. */
  ghost predicate SharedOut(order: seq<string>, capped: Groups, own: Counts, consumed: Counts, surfaced: seq<Issue>,
                            hidden: Counts)
  {
    && Shares(order, capped, consumed, surfaced) && consumed.Keys == capped.Keys && hidden.Keys <= capped.Keys
    && (forall d :: d in capped ==> Hidden(hidden, d) == Hidden(own, d) + (|capped[d]| - consumed[d]))
  }

  method ShareOut(global: int, names: seq<string>, capped: Groups, own: Counts)
    returns (surfaced: seq<Issue>, hidden: Counts, ghost consumed: Counts)
    requires global > 0 && Covers(names, capped) && Pure(capped) && own.Keys <= capped.Keys
    requires forall d :: d in own ==> own[d] > 0
    ensures SharedOut(Order(names, capped), capped, own, consumed, surfaced, hidden)
    ensures forall d :: d in hidden ==> hidden[d] > 0
    ensures |surfaced| == Min(global, Sum(names, Lengths(capped)))
    ensures exists r: nat, p: nat :: Level(Order(names, capped), capped, consumed, r, p)
  {
    var taken;
    surfaced, taken := RoundRobin(names, capped, global);
    OrderCovers(names, capped);
    hidden := AddDropped(names, capped, taken, own);
    consumed := taken;
  }

  lemma SharedOutSettles(issues: seq<Issue>, names: seq<string>, capped: Groups, order: seq<string>, consumed: Counts,
                         surfaced: seq<Issue>, own: Counts, hidden: Counts)
    requires OwnHides(issues, names, capped, own) && Covers(order, capped)
    requires SharedOut(order, capped, own, consumed, surfaced, hidden)
    ensures Settles(issues, capped, order, consumed, surfaced, hidden)
  {
    forall d | d in capped ensures Hidden(hidden, d) == |Group(issues, d)| - consumed[d] {
      assert Hides(own, d, |Group(issues, d)| - |capped[d]|);
    }
  }

  lemma SettlesForDisplay(issues: seq<Issue>, budget: int, capped: Groups, order: seq<string>, consumed: Counts,
                          surfaced: seq<Issue>, hidden: Counts)
    requires capped == CappedGroups(issues, budget) && Settles(issues, capped, order, consumed, surfaced, hidden)
    ensures Ordered(SortBy(surfaced, DisplayAtMost), DisplayAtMost)
    ensures forall d :: Budgeted(issues, budget, SortBy(surfaced, DisplayAtMost), hidden, d)
  {
    forall d ensures Budgeted(issues, budget, SortBy(surfaced, DisplayAtMost), hidden, d) {
      DisplayedShare(issues, budget, capped, order, consumed, surfaced, hidden, d);
    }
    DisplayIsPreorder();
    SortOrdered(surfaced, DisplayAtMost);
  }

  lemma LevelsDisplayFairly(issues: seq<Issue>, budget: int, capped: Groups, order: seq<string>, consumed: Counts,
                            surfaced: seq<Issue>, hidden: Counts, r: nat, p: nat)
    requires capped == CappedGroups(issues, budget) && Settles(issues, capped, order, consumed, surfaced, hidden)
    requires Level(order, capped, consumed, r, p)
    ensures Fair(issues, budget, SortBy(surfaced, DisplayAtMost))
  {
    var shown := SortBy(surfaced, DisplayAtMost);
    forall d, e | |Group(shown, d)| + 1 < |Group(shown, e)|
      ensures |Group(shown, d)| == |Capped(Group(issues, d), budget)|
    {
      DisplayedShare(issues, budget, capped, order, consumed, surfaced, hidden, d);
      DisplayedShare(issues, budget, capped, order, consumed, surfaced, hidden, e);
      if d in consumed {
        LevelIsFair(order, capped, consumed, r, p, d, e);
      } else {
        NoneOf(issues, d);
      }
    }
  }

  /** Shares that differ by more than one: the smaller detector has no more to show. */
  ghost predicate Fair(issues: seq<Issue>, budget: int, surfaced: seq<Issue>) {
    forall d, e :: |Group(surfaced, d)| + 1 < |Group(surfaced, e)| ==>
      |Group(surfaced, d)| == |Capped(Group(issues, d), budget)|
  }

  /** `apply_issue_noise_budget`. */
  method Apply(issues: seq<Issue>, budget: int, global: int) returns (surfaced: seq<Issue>, hidden: Counts)
    ensures budget <= 0 && global <= 0 ==> surfaced == issues && hidden == map[]
    ensures budget > 0 || global > 0 ==>
      && |surfaced| == Allowed(issues, budget, global)
      && Ordered(surfaced, DisplayAtMost)
      && (forall d :: d in hidden ==> hidden[d] > 0)
      && (forall d :: Budgeted(issues, budget, surfaced, hidden, d))
    ensures global > 0 ==> Fair(issues, budget, surfaced)
  {
    if budget <= 0 && global <= 0 {
      return issues, map[];
    }
    ghost var capped, order, consumed;
    surfaced, hidden, capped, order, consumed := Surface(issues, budget, global);
    SettlesForDisplay(issues, budget, capped, order, consumed, surfaced, hidden);
    if global > 0 {
      ghost var r: nat, p: nat :| Level(order, capped, consumed, r, p);
      LevelsDisplayFairly(issues, budget, capped, order, consumed, surfaced, hidden, r, p);
    }
    surfaced := SortBy(surfaced, DisplayAtMost);
  }

  /** The budget before the surfaced issues are sorted for display. */
  method Surface(issues: seq<Issue>, budget: int, global: int)
    returns (surfaced: seq<Issue>, hidden: Counts, ghost capped: Groups, ghost order: seq<string>,
             ghost consumed: Counts)
    ensures capped == CappedGroups(issues, budget) && Settles(issues, capped, order, consumed, surfaced, hidden)
    ensures |surfaced| == Allowed(issues, budget, global)
    ensures forall d :: d in hidden ==> hidden[d] > 0
    ensures global > 0 ==> exists r: nat, p: nat :: Level(order, capped, consumed, r, p)
  {
    var names, grouped := GroupByDetector(issues);
    capped := CappedGroups(issues, budget);
    ListsAreOwn(issues, budget);
    var lists, own := CapGroups(names, grouped, budget, capped);
    CapsAre(issues, names, grouped, capped, lists, own);
    surfaced, hidden, order, consumed := SurfaceLists(issues, global, names, lists, own);
  }

  /** Through the round robin if there is a global budget, otherwise all of the lists. */
  method SurfaceLists(issues: seq<Issue>, global: int, names: seq<string>, capped: Groups, own: Counts)
    returns (surfaced: seq<Issue>, hidden: Counts, ghost order: seq<string>, ghost consumed: Counts)
    requires OwnHides(issues, names, capped, own) && forall d :: d in own ==> own[d] > 0
    ensures Settles(issues, capped, order, consumed, surfaced, hidden)
    ensures |surfaced| == (if global > 0 then Min(global, Sum(names, Lengths(capped))) else Sum(names, Lengths(capped)))
    ensures forall d :: d in hidden ==> hidden[d] > 0
    ensures global > 0 ==> exists r: nat, p: nat :: Level(order, capped, consumed, r, p)
  {
    if global > 0 {
      surfaced, hidden, consumed := ShareOut(global, names, capped, own);
      order := Order(names, capped);
      OrderCovers(names, capped);
      SharedOutSettles(issues, names, capped, order, consumed, surfaced, own, hidden);
    } else {
      surfaced := Concatenate(names, capped);
      hidden, order, consumed := own, names, Lengths(capped);
      ConcatenatedSettles(issues, names, capped, surfaced, own);
    }
  }

  lemma ConcatenatedSettles(issues: seq<Issue>, names: seq<string>, capped: Groups, surfaced: seq<Issue>, own: Counts)
    requires OwnHides(issues, names, capped, own) && Shares(names, capped, Lengths(capped), surfaced)
    ensures Settles(issues, capped, names, Lengths(capped), surfaced, own)
  {
    forall d | d in capped ensures Hidden(own, d) == |Group(issues, d)| - Lengths(capped)[d] {
      assert Hides(own, d, |Group(issues, d)| - |capped[d]|);
    }
  }
}
