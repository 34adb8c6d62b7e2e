/** Merging the same scan a second time: exactly when it changes nothing, and an input for which it does. */
module MergeTwice {
  import opened Wrappers
  import opened Sets
  import opened RepairQueueRecords
  import opened WorkItems
  import opened MergeIssues
  import opened MergeLaws

  /** A scanned issue whose stored item is resolved, is not exempt, and is no longer matched by an ignore pattern. */
  predicate Reappears(items: Items, opts: Options, known: Metadata, f: Found) {
    f.id in items && Reopens(items[f.id]) && Match(opts, known, f).None?
  }

  /** Every scanned issue whose stored item is resolved is either exempt or still suppressed by the state as it
      stands. */
  predicate Settled(items: Items, found: seq<Found>, opts: Options) {
    NoneReappears(items, opts, MetadataOf(items, opts.metadata), found)
  }

  /** The second round of upserts, item by item: reopened if it reappeared, otherwise as it was. */
  predicate Second(before: WorkItem, after: WorkItem, reappeared: bool) {
    && SameSource(before, after)
    && if reappeared then after.status == Open
       else after.status == before.status && after.agentImported == before.agentImported
  }

  predicate ReappearedAmong(items: Items, opts: Options, known: Metadata, found: seq<Found>, id: string) {
    exists i :: 0 <= i < |found| && found[i].id == id && Reappears(items, opts, known, found[i])
  }

  predicate NoneReappears(items: Items, opts: Options, known: Metadata, found: seq<Found>) {
    forall i :: 0 <= i < |found| ==> !Reappears(items, opts, known, found[i])
  }

  ghost predicate Replayed(items: Items, opts: Options, known: Metadata, found: seq<Found>, p: Progress) {
    && p.items.Keys == items.Keys && p.added == 0
    && (forall id :: id in items ==> Second(items[id], p.items[id], ReappearedAmong(items, opts, known, found, id)))
    && (p.reopened == 0 <==> NoneReappears(items, opts, known, found))
  }

  lemma ReappearedExtend(items: Items, opts: Options, known: Metadata, found: seq<Found>, id: string)
    requires found != []
    ensures ReappearedAmong(items, opts, known, found, id)
       <==> ReappearedAmong(items, opts, known, found[..|found| - 1], id)
            || (found[|found| - 1].id == id && Reappears(items, opts, known, found[|found| - 1]))
  {
    var n := |found| - 1;
    assert forall i :: 0 <= i < n ==> found[..n][i] == found[i];
    if ReappearedAmong(items, opts, known, found[..n], id) {
      var i :| 0 <= i < n && found[..n][i].id == id && Reappears(items, opts, known, found[..n][i]);
      assert found[i].id == id;
    }
  }

  lemma PlacedSecond(items: Items, opts: Options, f: Found, matched: Option<string>)
    requires f.id in items
    ensures Second(items[f.id], Placed(items, opts, f, matched), matched.None? && Reopens(items[f.id]))
  {
  }

  lemma PrefixReappears(items: Items, opts: Options, known: Metadata, found: seq<Found>)
    requires found != []
    ensures NoneReappears(items, opts, known, found)
       <==> && NoneReappears(items, opts, known, found[..|found| - 1])
            && !Reappears(items, opts, known, found[|found| - 1])
  {
    assert forall i :: 0 <= i < |found| - 1 ==> found[..|found| - 1][i] == found[i];
  }

  lemma SecondStep(items: Items, opts: Options, known: Metadata, found: seq<Found>, p: Progress, id: string)
    requires found != [] && found[|found| - 1].id in items && id in items
    requires Replayed(items, opts, known, found[..|found| - 1], p)
    ensures Second(items[id], Upserted(p, opts, known, found[|found| - 1]).items[id],
                   ReappearedAmong(items, opts, known, found, id))
  {
    var f := found[|found| - 1];
    PlacedSecond(p.items, opts, f, Match(opts, known, f));
    ReappearedExtend(items, opts, known, found, id);
    assert Second(items[id], p.items[id], ReappearedAmong(items, opts, known, found[..|found| - 1], id));
  }

  lemma ReplayedStep(items: Items, opts: Options, known: Metadata, found: seq<Found>, p: Progress)
    requires found != [] && found[|found| - 1].id in items
    requires Replayed(items, opts, known, found[..|found| - 1], p)
    ensures Replayed(items, opts, known, found, Upserted(p, opts, known, found[|found| - 1]))
  {
    UpsertedAdds(p, opts, known, found[|found| - 1]);
    ReopenedStep(items, opts, known, found, p);
    forall id | id in items
      ensures Second(items[id], Upserted(p, opts, known, found[|found| - 1]).items[id],
                     ReappearedAmong(items, opts, known, found, id))
    {
      SecondStep(items, opts, known, found, p, id);
    }
  }

  lemma UpsertedAdds(p: Progress, opts: Options, known: Metadata, f: Found)
    requires f.id in p.items
    ensures Upserted(p, opts, known, f).items.Keys == p.items.Keys && Upserted(p, opts, known, f).added == p.added
  {
  }

  /** Something is reopened exactly when something reappears. */
  lemma ReopenedStep(items: Items, opts: Options, known: Metadata, found: seq<Found>, p: Progress)
    requires found != [] && found[|found| - 1].id in items
    requires Replayed(items, opts, known, found[..|found| - 1], p)
    ensures Upserted(p, opts, known, found[|found| - 1]).reopened == 0 <==> NoneReappears(items, opts, known, found)
  {
    var f := found[|found| - 1];
    PrefixReappears(items, opts, known, found);
    assert Second(items[f.id], p.items[f.id], ReappearedAmong(items, opts, known, found[..|found| - 1], f.id));
  }

  lemma {:induction false} UpsertAgain(items: Items, opts: Options, known: Metadata, found: seq<Found>)
    requires Ids(found) <= items.Keys
    ensures Replayed(items, opts, known, found, UpsertAll(Start(items), opts, known, found))
    decreases |found|
  {
    if found == [] {
      assert forall id :: id in items ==> Second(items[id], items[id], false);
    } else {
      IdsOfLast(found);
      var before := found[..|found| - 1];
      UpsertAgain(items, opts, known, before);
      ReplayedStep(items, opts, known, found, UpsertAll(Start(items), opts, known, before));
    }
  }

  // ----- the suspect detectors and the absent items -----

  /** What the second round of upserts has to work with when nothing reappeared. */
  ghost predicate SameStatuses(a: Items, b: Items) {
    a.Keys == b.Keys && forall id :: id in a ==> SameSource(a[id], b[id]) && b[id].status == a[id].status
  }

  /** A merge keeps what an item is, and leaves the open items of a suspect detector open. */
  lemma SuspectStaysOpen(id: string, item: WorkItem, cx: Context)
    ensures SameSource(item, Judged(item, Judge(id, item, cx)))
    ensures item.detector in cx.suspects ==> Judged(item, Judge(id, item, cx)).status == item.status
  {
  }

  /** A suspect detector's open items stay open, so it is suspect again. */
  lemma SuspectAgain(items: Items, cx: Context, q: Progress, counts: map<string, nat>, d: string)
    requires SameStatuses(Verified(items, cx), q.items) && q.counts == counts
    requires d in cx.suspects && Suspect(items, counts, cx.opts, d)
    ensures Suspect(q.items, q.counts, cx.opts, d)
  {
    forall id | id in items
      ensures SameSource(items[id], q.items[id])
      ensures items[id].detector == d && items[id].status == Open ==> q.items[id].status == Open
    {
      SuspectStaysOpen(id, items[id], cx);
      assert SameSource(Verified(items, cx)[id], q.items[id]);
    }
    StillSuspect(items, q.items, counts, cx.opts, d);
  }

  lemma StillSuspect(items: Items, later: Items, counts: map<string, nat>, opts: Options, d: string)
    requires items.Keys <= later.Keys && Suspect(items, counts, opts, d)
    requires forall id :: id in items ==> SameSource(items[id], later[id])
    requires forall id :: id in items && items[id].detector == d && items[id].status == Open ==>
      later[id].status == Open
    ensures Suspect(later, counts, opts, d)
  {
    if d in ImportOnlyDetectors(items) {
      var id :| id in items && items[id].importOnly && items[id].detector == d;
      assert SameSource(items[id], later[id]);
      assert later[id].detector in ImportOnlyDetectors(later);
    } else {
      assert OpenOf(items, d) <= OpenOf(later, d);
      Within(OpenOf(items, d), OpenOf(later, d));
    }
  }

  /** An item resolved only by the second of two merges of one scan belonged to a detector that was suspect in the
      first. */
  lemma ResolvedOnlyLater(id: string, item: WorkItem, cx: Context, cx': Context)
    requires cx.ids == cx'.ids && cx.confirmed == cx'.confirmed && cx.opts == cx'.opts
    requires Judge(id, Judged(item, Judge(id, item, cx)), cx') == Resolved
    ensures item.detector in cx.suspects && item.detector !in cx'.suspects
  {
  }

  /** An item the first merge left open is left open by the second. */
  lemma JudgedAgain(p: Progress, q: Progress, opts: Options, id: string)
    requires SameStatuses(MergedFrom(p, opts), q.items) && q.counts == p.counts && q.ids == p.ids
    requires id in q.items && (id !in p.ids ==> q.items[id] == MergedFrom(p, opts)[id])
    ensures MergedFrom(q, opts)[id].status == q.items[id].status
  {
    var cx, cx' := ContextOf(p, opts), ContextOf(q, opts);
    JudgedStatus(q.items[id], Judge(id, q.items[id], cx'));
    if Judge(id, q.items[id], cx') == Resolved {
      ResolvedOnlyLater(id, p.items[id], cx, cx');
      SuspectAgain(p.items, cx, q, p.counts, p.items[id].detector);
    }
  }

  lemma JudgedStatus(item: WorkItem, v: Verdict)
    ensures Judged(item, v).status == if v == Resolved then AutoResolved else item.status
  {
  }

  // ----- the law -----

  lemma QuietSecond(items: Items, p: Progress, opts: Options, q: Progress)
    requires items == MergedFrom(p, opts)
    requires q.items.Keys == items.Keys && q.counts == p.counts && q.ids == p.ids
    requires forall id :: id in items ==> Second(items[id], q.items[id], false)
    requires forall id :: id in items && id !in q.ids ==> q.items[id] == items[id]
    ensures forall id :: id in items ==> MergedFrom(q, opts)[id].status == items[id].status
  {
    forall id | id in items ensures MergedFrom(q, opts)[id].status == items[id].status {
      JudgedAgain(p, q, opts, id);
    }
  }

  lemma LoudSecond(items: Items, opts: Options, q: Progress, id: string)
    requires id in items && Reopens(items[id]) && id in q.items && q.items[id].status == Open && id in q.ids
    ensures MergedFrom(q, opts)[id].status != items[id].status
  {
  }

  /** The second round of upserts works on what the first merge left. */
  ghost predicate SecondRound(p: Progress, opts: Options, found: seq<Found>, q: Progress) {
    var first := MergedFrom(p, opts);
    && Replayed(first, opts, MetadataOf(first, opts.metadata), found, q)
    && Keeps(first, q.items, q.ids)
    && q.counts == p.counts && q.ids == p.ids == Ids(found)
  }

  /** No item is lost and every status stays. */
  predicate StatusesStay(before: Items, after: Items) {
    forall id :: id in before ==> id in after && after[id].status == before[id].status
  }

  lemma AgainQuiet(p: Progress, opts: Options, found: seq<Found>, q: Progress)
    requires SecondRound(p, opts, found, q) && Settled(MergedFrom(p, opts), found, opts)
    ensures StatusesStay(MergedFrom(p, opts), MergedFrom(q, opts))
  {
    var first := MergedFrom(p, opts);
    forall id | id in first ensures Second(first[id], q.items[id], false) {
      assert !ReappearedAmong(first, opts, MetadataOf(first, opts.metadata), found, id);
    }
    QuietSecond(first, p, opts, q);
  }

  lemma AgainLoud(p: Progress, opts: Options, found: seq<Found>, q: Progress, i: nat)
    requires SecondRound(p, opts, found, q) && i < |found|
    requires Reappears(MergedFrom(p, opts), opts, MetadataOf(MergedFrom(p, opts), opts.metadata), found[i])
    ensures !StatusesStay(MergedFrom(p, opts), MergedFrom(q, opts))
  {
    var first := MergedFrom(p, opts);
    var id := found[i].id;
    assert id in q.ids && id in first && Reopens(first[id]);
    assert ReappearedAmong(first, opts, MetadataOf(first, opts.metadata), found, id);
    LoudSecond(first, opts, q, id);
  }

  lemma AgainFrom(p: Progress, opts: Options, found: seq<Found>, q: Progress)
    requires SecondRound(p, opts, found, q)
    ensures StatusesStay(MergedFrom(p, opts), MergedFrom(q, opts)) <==> Settled(MergedFrom(p, opts), found, opts)
  {
    if Settled(MergedFrom(p, opts), found, opts) {
      AgainQuiet(p, opts, found, q);
    } else {
      var i :| 0 <= i < |found|
               && Reappears(MergedFrom(p, opts), opts, MetadataOf(MergedFrom(p, opts), opts.metadata), found[i]);
      AgainLoud(p, opts, found, q, i);
    }
  }

  /** Merging the same scan again with the same options adds nothing; it reopens nothing, and changes no status, exactly
      when every resolved item it reports is exempt or still suppressed by what the first merge left. */
  lemma MergeAgain(items: Items, found: seq<Found>, opts: Options)
    ensures
      var first := Merged(items, found, opts);
      var again := AfterUpsert(first, found, opts);
      && again.added == 0
      && (again.reopened == 0 <==> Settled(first, found, opts))
      && Merged(first, found, opts).Keys == first.Keys
      && (StatusesStay(first, Merged(first, found, opts)) <==> Settled(first, found, opts))
  {
    MergeStatusLaw(items, found, opts);
    MergeStatusLaw(Merged(items, found, opts), found, opts);
    AgainStatuses(items, found, opts);
    AgainCounts(Merged(items, found, opts), found, opts);
  }

  lemma AgainCounts(first: Items, found: seq<Found>, opts: Options)
    requires Ids(found) <= first.Keys
    ensures
      var again := AfterUpsert(first, found, opts);
      again.added == 0 && (again.reopened == 0 <==> Settled(first, found, opts))
  {
    UpsertAgain(first, opts, MetadataOf(first, opts.metadata), found);
  }

  lemma AgainStatuses(items: Items, found: seq<Found>, opts: Options)
    ensures
      var first := Merged(items, found, opts);
      StatusesStay(first, Merged(first, found, opts)) <==> Settled(first, found, opts)
  {
    IsSecondRound(items, found, opts);
    var p := AfterUpsert(items, found, opts);
    AgainFrom(p, opts, found, AfterUpsert(MergedFrom(p, opts), found, opts));
  }

  lemma IsSecondRound(items: Items, found: seq<Found>, opts: Options)
    ensures
      var p := AfterUpsert(items, found, opts);
      SecondRound(p, opts, found, AfterUpsert(MergedFrom(p, opts), found, opts))
  {
    var first := Merged(items, found, opts);
    KeptByUpsert(items, found, opts);
    KeptByUpsert(first, found, opts);
    UpsertAgain(first, opts, MetadataOf(first, opts.metadata), found);
    SameCounts(items, first, found, opts);
  }

  lemma KeptByUpsert(items: Items, found: seq<Found>, opts: Options)
    ensures Keeps(items, AfterUpsert(items, found, opts).items, AfterUpsert(items, found, opts).ids)
    ensures AfterUpsert(items, found, opts).ids == Ids(found)
  {
    UpsertKeeps(Start(items), opts, MetadataOf(items, opts.metadata), found);
  }

  lemma SameCounts(items: Items, later: Items, found: seq<Found>, opts: Options)
    ensures AfterUpsert(items, found, opts).counts == AfterUpsert(later, found, opts).counts
  {
    CountsOfScan(Start(items), Start(later), opts, MetadataOf(items, opts.metadata), MetadataOf(later, opts.metadata),
                 found);
  }

  // ----- when the condition holds -----

  /** After the first merge a reported item that could still be reopened was suppressed by it. */
  ghost predicate Hidden(items: Items, opts: Options, known: Metadata, found: seq<Found>) {
    forall i :: 0 <= i < |found| ==> found[i].id in items && !Reappears(items, opts, known, found[i])
  }

  lemma HiddenStep(p: Progress, opts: Options, known: Metadata, found: seq<Found>)
    requires found != [] && Hidden(p.items, opts, known, found[..|found| - 1])
    ensures Hidden(Upserted(p, opts, known, found[|found| - 1]).items, opts, known, found)
  {
    var n := |found| - 1;
    var f := found[n];
    var matched := Match(opts, known, f);
    if f.id in p.items {
      PlacedSecond(p.items, opts, f, matched);
      PlacedIsUpdated(p.items, opts, f, matched);
    }
    forall i | 0 <= i < |found|
      ensures found[i].id in Upserted(p, opts, known, f).items
      ensures !Reappears(Upserted(p, opts, known, f).items, opts, known, found[i])
    {
      if i < n {
        assert found[..n][i] == found[i];
        assert !Reappears(p.items, opts, known, found[i]);
      }
    }
  }

  lemma {:induction false} FirstMergeHides(p: Progress, opts: Options, known: Metadata, found: seq<Found>)
    ensures Hidden(UpsertAll(p, opts, known, found).items, opts, known, found)
    decreases |found|
  {
    if found != [] {
      var before := found[..|found| - 1];
      FirstMergeHides(p, opts, known, before);
      HiddenStep(UpsertAll(p, opts, known, before), opts, known, found);
    }
  }

  /** Without ID-prefix patterns, what is suppressed does not depend on the state. */
  lemma {:induction false} MatchWithoutExact(opts: Options, known: Metadata, known': Metadata, f: Found,
                                             patterns: seq<string>)
    requires forall k :: 0 <= k < |patterns| ==> !IsExact(patterns[k])
    ensures MatchFrom(opts, known, f, patterns) == MatchFrom(opts, known', f, patterns)
  {
    if patterns != [] {
      MatchWithoutExact(opts, known, known', f, patterns[1..]);
    }
  }

  lemma PresentStays(p: Progress, opts: Options, id: string)
    requires id in p.ids && id in p.items
    ensures id in MergedFrom(p, opts) && MergedFrom(p, opts)[id] == p.items[id]
  {
  }

  /** With globs and paths as the only ignore patterns, merging the same scan again changes no status and reopens
      nothing. */
  lemma SettledWithoutExact(items: Items, found: seq<Found>, opts: Options)
    requires forall k :: 0 <= k < |opts.ignore| ==> !IsExact(opts.ignore[k])
    ensures Settled(Merged(items, found, opts), found, opts)
  {
    var known := MetadataOf(items, opts.metadata);
    var p := AfterUpsert(items, found, opts);
    var first := MergedFrom(p, opts);
    var known' := MetadataOf(first, opts.metadata);
    UpsertKeeps(Start(items), opts, known, found);
    FirstMergeHides(Start(items), opts, known, found);
    forall i | 0 <= i < |found| ensures !Reappears(first, opts, known', found[i]) {
      assert found[i].id in Ids(found);
      PresentStays(p, opts, found[i].id);
      assert !Reappears(p.items, opts, known, found[i]);
      MatchWithoutExact(opts, known, known', found[i], opts.ignore);
    }
  }

  // ----- the condition on what the first merge is given -----

  /** Every report of the item in the scan is suppressed by the state as it stands. */
  predicate AllSuppressed(opts: Options, known: Metadata, found: seq<Found>, id: string) {
    forall i :: 0 <= i < |found| && found[i].id == id ==> Match(opts, known, found[i]).Some?
  }

  /** The item is resolved, not exempt, and stays resolved through the first merge. */
  predicate StaysResolved(items: Items, opts: Options, known: Metadata, found: seq<Found>, id: string) {
    id in items && Reopens(items[id]) && AllSuppressed(opts, known, found, id)
  }

  lemma AllSuppressedExtend(opts: Options, known: Metadata, found: seq<Found>, id: string)
    requires found != []
    ensures AllSuppressed(opts, known, found, id)
       <==> AllSuppressed(opts, known, found[..|found| - 1], id)
            && (found[|found| - 1].id == id ==> Match(opts, known, found[|found| - 1]).Some?)
  {
    assert forall i :: 0 <= i < |found| - 1 ==> found[..|found| - 1][i] == found[i];
  }

  lemma PlacedReopens(items: Items, opts: Options, f: Found, matched: Option<string>)
    ensures Reopens(Placed(items, opts, f, matched)) <==> f.id in items && Reopens(items[f.id]) && matched.Some?
  {
  }

  /** After the upserts an item could still be reopened exactly when it could before and every report of it was
      suppressed. */
  lemma {:induction false} StillReopens(items: Items, opts: Options, known: Metadata, found: seq<Found>, id: string)
    ensures
      var after := UpsertAll(Start(items), opts, known, found).items;
      id in after && Reopens(after[id]) <==> StaysResolved(items, opts, known, found, id)
    decreases |found|
  {
    if found != [] {
      var n := |found| - 1;
      var before := UpsertAll(Start(items), opts, known, found[..n]);
      StillReopens(items, opts, known, found[..n], id);
      AllSuppressedExtend(opts, known, found, id);
      if found[n].id == id {
        PlacedReopens(before.items, opts, found[n], Match(opts, known, found[n]));
      }
    }
  }

  /** The first merge ends the suppression of an absent item. */
  predicate Withdraws(items: Items, found: seq<Found>, opts: Options, id: string)
    requires id in items
  {
    Judge(id, items[id], ContextOf(AfterUpsert(items, found, opts), opts)) in {OutOfScope, Corroborated}
  }

  /** The fingerprints the first merge leaves: the configured ones, those of absent items whose suppression it does not
      withdraw, and those of the reported items it suppresses, as it stores them. */
  function Lasting(items: Items, found: seq<Found>, opts: Options): Metadata {
    var stored := AfterUpsert(items, found, opts).items;
    opts.metadata
    + (set id | id in items && id !in Ids(found) && Lends(items[id]) && !Withdraws(items, found, opts, id)
         :: (items[id].suppressedBy.value, StoredFingerprint(items[id])))
    + (set id | id in Ids(found) && id in stored && Lends(stored[id])
         :: (stored[id].suppressedBy.value, StoredFingerprint(stored[id])))
  }

  lemma JudgedLends(item: WorkItem, v: Verdict)
    ensures Lends(Judged(item, v)) <==> Lends(item) && v !in {OutOfScope, Corroborated}
    ensures v !in {OutOfScope, Corroborated} ==>
      Judged(item, v).suppressedBy == item.suppressedBy && StoredFingerprint(Judged(item, v)) == StoredFingerprint(item)
  {
  }

  /** What an item of the merged state lends is what it lends in `Lasting`. */
  lemma LendsAfterMerge(items: Items, found: seq<Found>, opts: Options, id: string)
    requires id in items || id in Ids(found)
    ensures
      var p := AfterUpsert(items, found, opts);
      var first := MergedFrom(p, opts);
      && id in p.items && id in first
      && (id in Ids(found) ==> first[id] == p.items[id])
      && (id !in Ids(found) ==>
            && p.items[id] == items[id]
            && (Lends(first[id]) <==> Lends(items[id]) && !Withdraws(items, found, opts, id))
            && (Lends(first[id]) ==>
                  && first[id].suppressedBy == items[id].suppressedBy
                  && StoredFingerprint(first[id]) == StoredFingerprint(items[id])))
  {
    var p := AfterUpsert(items, found, opts);
    KeptByUpsert(items, found, opts);
    if id in Ids(found) {
      PresentStays(p, opts, id);
    } else {
      assert MergedFrom(p, opts)[id] == Judged(items[id], Judge(id, items[id], ContextOf(p, opts)));
      JudgedLends(items[id], Judge(id, items[id], ContextOf(p, opts)));
    }
  }

  lemma MergedKeys(items: Items, found: seq<Found>, opts: Options)
    ensures AfterUpsert(items, found, opts).items.Keys == Merged(items, found, opts).Keys == items.Keys + Ids(found)
  {
    KeptByUpsert(items, found, opts);
    MergeStatusLaw(items, found, opts);
  }

  lemma KnownAfterMerge(items: Items, found: seq<Found>, opts: Options)
    ensures MetadataOf(Merged(items, found, opts), opts.metadata) == Lasting(items, found, opts)
  {
    var first := Merged(items, found, opts);
    MergedKeys(items, found, opts);
    forall id | id in first {
      LendsAfterMerge(items, found, opts, id);
    }
    forall m | m in MetadataOf(first, opts.metadata) ensures m in Lasting(items, found, opts) {
      if m !in opts.metadata {
        var id :| id in first && Lends(first[id]) && m == (first[id].suppressedBy.value, StoredFingerprint(first[id]));
        LendsAfterMerge(items, found, opts, id);
      }
    }
    forall m | m in Lasting(items, found, opts) ensures m in MetadataOf(first, opts.metadata) {
      LastingIsKnown(items, found, opts, m);
    }
  }

  lemma LastingIsKnown(items: Items, found: seq<Found>, opts: Options, m: (string, Fingerprint))
    requires m in Lasting(items, found, opts)
    ensures m in MetadataOf(Merged(items, found, opts), opts.metadata)
  {
    var stored := AfterUpsert(items, found, opts).items;
    var first := Merged(items, found, opts);
    if m !in opts.metadata {
      if id :| id in items && id !in Ids(found) && Lends(items[id]) && !Withdraws(items, found, opts, id)
               && m == (items[id].suppressedBy.value, StoredFingerprint(items[id])) {
        LendsAfterMerge(items, found, opts, id);
        assert Lends(first[id]) && m == (first[id].suppressedBy.value, StoredFingerprint(first[id]));
      } else {
        var id :| id in Ids(found) && id in stored && Lends(stored[id])
                  && m == (stored[id].suppressedBy.value, StoredFingerprint(stored[id]));
        LendsAfterMerge(items, found, opts, id);
        assert Lends(first[id]) && m == (first[id].suppressedBy.value, StoredFingerprint(first[id]));
      }
    }
  }

  /** The condition on the items, the scan and the options: every report of an item that stays resolved is matched by
      the fingerprints that last, without those whose suppression the first merge withdraws. */
  predicate Lasts(items: Items, found: seq<Found>, opts: Options) {
    forall i :: 0 <= i < |found| && StaysResolved(items, opts, MetadataOf(items, opts.metadata), found, found[i].id) ==>
      Match(opts, Lasting(items, found, opts), found[i]).Some?
  }

  lemma SettledIsLasting(items: Items, found: seq<Found>, opts: Options)
    ensures Settled(Merged(items, found, opts), found, opts) <==> Lasts(items, found, opts)
  {
    var known := MetadataOf(items, opts.metadata);
    var first := Merged(items, found, opts);
    KnownAfterMerge(items, found, opts);
    forall i | 0 <= i < |found|
      ensures found[i].id in first
      ensures Reopens(first[found[i].id]) <==> StaysResolved(items, opts, known, found, found[i].id)
    {
      var id := found[i].id;
      assert id in Ids(found);
      LendsAfterMerge(items, found, opts, id);
      StillReopens(items, opts, known, found, id);
    }
  }

  /** Merging the same scan again with the same options, stated on what the first merge is given: it adds nothing, and
      it reopens nothing and changes no status exactly when the fingerprints that last still suppress what was
      suppressed. */
  lemma MergeTwiceLaw(items: Items, found: seq<Found>, opts: Options)
    ensures
      var first := Merged(items, found, opts);
      var again := AfterUpsert(first, found, opts);
      && again.added == 0
      && (again.reopened == 0 <==> Lasts(items, found, opts))
      && (StatusesStay(first, Merged(first, found, opts)) <==> Lasts(items, found, opts))
  {
    MergeAgain(items, found, opts);
    SettledIsLasting(items, found, opts);
  }

  // ----- an input for which it does not -----

  function ExampleDetail(records: map<Kind, Stored>): Detail {
    Detail("body", "", Some((Finding, Digest("identity"), Digest("evidence"))), records, None, None, None)
  }

  function ExampleItem(file: string, status: WorkStatus, records: map<Kind, Stored>,
                       suppressedBy: Option<string>): WorkItem
  {
    WorkItem("dupes", file, "n", "", None, 3, "low", "", ExampleDetail(records), false, false, status, 0, false, false,
             suppressedBy)
  }

  const LINKED: map<Kind, Stored> := map[RepairLink := Garbage]
  const PATTERN := "dupes::a"

  /** A wontfix item suppressed by an ID, and a fixed one that holds a repair record. */
  const EXAMPLE_ITEMS: Items :=
    map["dupes::a" := ExampleItem("a", Wontfix, map[], Some(PATTERN)),
        "dupes::b" := ExampleItem("b", Fixed, LINKED, None)]

  /** The second item is found again, with the fingerprint of the first. */
  const EXAMPLE_SCAN: seq<Found> :=
    [Found("dupes::b", "dupes", "b", "n", "", None, 3, "low", "", ExampleDetail(map[]), false, false)]

  const EXAMPLE_OPTIONS: Options :=
    Options("", "", false, None, [PATTERN], {}, (p, i, f) => false, f => false, (f, d) => false, f => false)

  lemma OneFound(items: Items, f: Found, opts: Options)
    ensures AfterUpsert(items, [f], opts) == Upserted(Start(items), opts, MetadataOf(items, opts.metadata), f)
  {
    assert [f][..|[f]| - 1] == [];
    assert UpsertAll(Start(items), opts, MetadataOf(items, opts.metadata), []) == Start(items);
  }

  lemma PatternIsExact()
    ensures IsExact(PATTERN)
  {
    assert PATTERN[5] == ':' && PATTERN[6] == ':';
  }

  /** The scan's only issue is suppressed exactly when its fingerprint is known for the pattern. */
  lemma ExampleMatch(known: Metadata)
    ensures Match(EXAMPLE_OPTIONS, known, EXAMPLE_SCAN[0])
         == if (PATTERN, FoundFingerprint(EXAMPLE_SCAN[0])) in known then Some(PATTERN) else None
  {
    PatternIsExact();
    assert PATTERN[7] != EXAMPLE_SCAN[0].id[7];
  }

  /** The first merge lets the fixed item be suppressed and keeps its repair record. */
  lemma ExampleFirst()
    ensures
      var p := AfterUpsert(EXAMPLE_ITEMS, EXAMPLE_SCAN, EXAMPLE_OPTIONS);
      && p.items == EXAMPLE_ITEMS["dupes::b" := ExampleItem("b", Fixed, LINKED, Some(PATTERN))]
      && p.ids == {"dupes::b"} && p.counts == map["dupes" := 1]
  {
    var f := EXAMPLE_SCAN[0];
    var known := MetadataOf(EXAMPLE_ITEMS, {});
    assert EXAMPLE_SCAN == [f];
    OneFound(EXAMPLE_ITEMS, f, EXAMPLE_OPTIONS);
    PatternIsExact();
    assert Lends(EXAMPLE_ITEMS["dupes::a"]);
    assert (PATTERN, FoundFingerprint(f)) in known;
    ExampleMatch(known);
    var detail := ExampleDetail(LINKED);
    assert Preserved(RepairLink, Garbage, Finding, Digest("identity"), Digest("evidence")) == Garbage;
    assert NewDetail(detail, f).records == LINKED;
    assert NewDetail(detail, f) == detail;
  }

  lemma ExampleVerified()
    ensures Merged(EXAMPLE_ITEMS, EXAMPLE_SCAN, EXAMPLE_OPTIONS)
         == map["dupes::a" := ExampleItem("a", Wontfix, map[], None).(verified := true),
                "dupes::b" := ExampleItem("b", Fixed, LINKED, Some(PATTERN))]
  {
    ExampleFirst();
    var p := AfterUpsert(EXAMPLE_ITEMS, EXAMPLE_SCAN, EXAMPLE_OPTIONS);
    AbsentIsCorroborated(p, EXAMPLE_OPTIONS, "dupes::a", "dupes::b");
  }

  /** Of two items of one detector, the one that was not reported, and is resolved, is corroborated. */
  lemma AbsentIsCorroborated(p: Progress, opts: Options, absent: string, present: string)
    requires p.items.Keys == {absent, present} && p.ids == {present} && absent != present
    requires p.items[absent].status == Wontfix && p.items[absent].detector == p.items[present].detector
    requires !p.items[absent].importOnly && !p.items[present].importOnly
    requires p.items[absent].detector in p.counts && p.counts[p.items[absent].detector] > 0
    requires opts.lang == "" && opts.scanPath == "" && !opts.excluded(p.items[absent].file)
    ensures MergedFrom(p, opts)
         == map[absent := p.items[absent].(suppressedBy := None, verified := true), present := p.items[present]]
  {
    var cx := ContextOf(p, opts);
    assert !Suspect(p.items, p.counts, opts, p.items[absent].detector);
    assert Judge(absent, p.items[absent], cx) == Corroborated;
    assert Judge(present, p.items[present], cx) == Untouched;
  }

  /** The first merge suppresses the fixed item by the wontfix item's fingerprint and corroborates the wontfix item,
      which ends its suppression; the second merge has lost that fingerprint, and reopens the fixed item. */
  lemma SecondMergeReopens()
    ensures
      var first := Merged(EXAMPLE_ITEMS, EXAMPLE_SCAN, EXAMPLE_OPTIONS);
      && !Settled(first, EXAMPLE_SCAN, EXAMPLE_OPTIONS)
      && AfterUpsert(first, EXAMPLE_SCAN, EXAMPLE_OPTIONS).reopened > 0
  {
    MergeAgain(EXAMPLE_ITEMS, EXAMPLE_SCAN, EXAMPLE_OPTIONS);
    ExampleVerified();
    ExampleReappears(Merged(EXAMPLE_ITEMS, EXAMPLE_SCAN, EXAMPLE_OPTIONS));
  }

  /** What the first merge leaves no longer holds the fingerprint that suppressed the fixed item. */
  lemma ExampleForgotten(first: Items)
    requires first == map["dupes::a" := ExampleItem("a", Wontfix, map[], None).(verified := true),
                          "dupes::b" := ExampleItem("b", Fixed, LINKED, Some(PATTERN))]
    ensures (PATTERN, FoundFingerprint(EXAMPLE_SCAN[0])) !in MetadataOf(first, {})
  {
    assert FoundFingerprint(EXAMPLE_SCAN[0]).records == map[];
    assert StoredFingerprint(first["dupes::b"]).records == LINKED;
    assert RepairLink in LINKED;
    assert !Lends(first["dupes::a"]);
  }

  lemma ExampleReappears(first: Items)
    requires first == map["dupes::a" := ExampleItem("a", Wontfix, map[], None).(verified := true),
                          "dupes::b" := ExampleItem("b", Fixed, LINKED, Some(PATTERN))]
    ensures !Settled(first, EXAMPLE_SCAN, EXAMPLE_OPTIONS)
  {
    var known := MetadataOf(first, {});
    ExampleForgotten(first);
    ExampleMatch(known);
    assert Reappears(first, EXAMPLE_OPTIONS, known, EXAMPLE_SCAN[0]);
  }
}
