/** What every scan merge keeps, and when merging the same scan again changes nothing. */
module MergeLaws {
  import opened Wrappers
  import opened WorkItems
  import opened MergeIssues

  // ----- what inserting and updating keeps -----

  predicate SameSource(a: WorkItem, b: WorkItem) {
    && a.detector == b.detector && a.file == b.file && a.name == b.name
    && a.importOnly == b.importOnly && a.assessmentRequest == b.assessmentRequest
  }

  predicate MayReopen(status: WorkStatus) {
    status in {Fixed, AutoResolved, FalsePositive}
  }

  /** An update keeps what an item is and its status, except that a resolved item may be reopened. */
  predicate Updated(before: WorkItem, after: WorkItem) {
    && SameSource(before, after)
    && (|| (after.status == before.status && after.agentImported == before.agentImported)
        || (MayReopen(before.status) && Reopens(before) && after.status == Open))
  }

  lemma UpdatedTransitive(a: WorkItem, b: WorkItem, c: WorkItem)
    requires Updated(a, b) && Updated(b, c)
    ensures Updated(a, c)
  {
  }

  lemma PlacedIsUpdated(items: Items, opts: Options, f: Found, matched: Option<string>)
    requires f.id in items
    ensures Updated(items[f.id], Placed(items, opts, f, matched))
  {
  }

  /** Every stored item is kept; one the scan does not report is left exactly as it was. */
  ghost predicate Keeps(before: Items, after: Items, ids: set<string>) {
    && after.Keys == before.Keys + ids
    && (forall id :: id in before ==> Updated(before[id], after[id]))
    && (forall id :: id in before && id !in ids ==> after[id] == before[id])
  }

  lemma UpsertedKeeps(start: Items, ids: set<string>, p: Progress, opts: Options, known: Metadata, f: Found)
    requires Keeps(start, p.items, ids)
    ensures Keeps(start, Upserted(p, opts, known, f).items, ids + {f.id})
  {
    var matched := Match(opts, known, f);
    if f.id in start {
      PlacedIsUpdated(p.items, opts, f, matched);
      UpdatedTransitive(start[f.id], p.items[f.id], Placed(p.items, opts, f, matched));
    }
  }

  lemma IdsOfLast(found: seq<Found>)
    requires found != []
    ensures Ids(found) == Ids(found[..|found| - 1]) + {found[|found| - 1].id}
  {
    var n := |found| - 1;
    assert forall i :: 0 <= i < n ==> found[i] == found[..n][i];
    assert forall id :: id in Ids(found[..n]) ==> id in Ids(found);
    assert found[n].id in Ids(found);
  }

  lemma {:induction false} UpsertKeeps(p: Progress, opts: Options, known: Metadata, found: seq<Found>)
    ensures Keeps(p.items, UpsertAll(p, opts, known, found).items, Ids(found))
    ensures UpsertAll(p, opts, known, found).ids == p.ids + Ids(found)
    decreases |found|
  {
    if found == [] {
      assert Ids(found) == {};
    } else {
      var before := found[..|found| - 1];
      UpsertKeeps(p, opts, known, before);
      UpsertedKeeps(p.items, Ids(before), UpsertAll(p, opts, known, before), opts, known, found[|found| - 1]);
      IdsOfLast(found);
    }
  }

  /** The counts depend on the scan alone. */
  lemma {:induction false} CountsOfScan(p: Progress, q: Progress, opts: Options, known: Metadata, known': Metadata,
                                        found: seq<Found>)
    requires p.counts == q.counts
    ensures UpsertAll(p, opts, known, found).counts == UpsertAll(q, opts, known', found).counts
    decreases |found|
  {
    if found != [] {
      CountsOfScan(p, q, opts, known, known', found[..|found| - 1]);
    }
  }

  /** The item shows what the report says of it, and is suppressed exactly by the pattern that matched the report. */
  predicate Shows(item: WorkItem, f: Found, matched: Option<string>) {
    && item.tier == f.tier && item.confidence == f.confidence && item.summary == f.summary
    && item.detail.stable == f.detail.stable && item.detail.concern == f.detail.concern
    && item.suppressedBy == matched
    && (f.zone.Some? ==> item.zone == f.zone)
  }

  lemma PlacedShows(items: Items, opts: Options, f: Found, matched: Option<string>)
    ensures Shows(Placed(items, opts, f, matched), f, matched)
  {
  }

  /** Of several reports of one item in a scan, the last is the one it shows afterwards. */
  lemma {:induction false} LastReportShows(p: Progress, opts: Options, known: Metadata, found: seq<Found>, i: nat)
    requires i < |found| && forall j :: i < j < |found| ==> found[j].id != found[i].id
    ensures found[i].id in UpsertAll(p, opts, known, found).items
    ensures Shows(UpsertAll(p, opts, known, found).items[found[i].id], found[i], Match(opts, known, found[i]))
    decreases |found|
  {
    var n := |found| - 1;
    var before := UpsertAll(p, opts, known, found[..n]);
    if i == n {
      PlacedShows(before.items, opts, found[n], Match(opts, known, found[n]));
    } else {
      assert found[..n][i] == found[i] && forall j :: i < j < n ==> found[..n][j] == found[j];
      LastReportShows(p, opts, known, found[..n], i);
    }
  }

  // ----- the status law -----

  /** The only changes of status: a resolved item that reappears is reopened, an open item that is absent is
      resolved. */
  predicate LawfulStatus(before: WorkItem, after: WorkItem, scanned: bool) {
    || after.status == before.status
    || (scanned && Reopens(before) && after.status == Open)
    || (!scanned && before.status == Open && after.status == AutoResolved)
  }

  lemma VerifiedIsLawful(items: Items, p: Progress, opts: Options)
    requires Keeps(items, p.items, p.ids)
    ensures MergedFrom(p, opts).Keys == items.Keys + p.ids
    ensures forall id :: id in items ==> LawfulStatus(items[id], MergedFrom(p, opts)[id], id in p.ids)
  {
    forall id | id in items ensures LawfulStatus(items[id], MergedFrom(p, opts)[id], id in p.ids) {
      OneIsLawful(items, p, ContextOf(p, opts), id);
    }
  }

  lemma OneIsLawful(items: Items, p: Progress, cx: Context, id: string)
    requires Keeps(items, p.items, p.ids) && id in items && cx.ids == p.ids
    ensures id in p.items && LawfulStatus(items[id], Judged(p.items[id], Judge(id, p.items[id], cx)), id in p.ids)
  {
    assert Updated(items[id], p.items[id]);
  }

  /** No item is deleted, and only a reappearing resolved item or an absent open one changes status. */
  lemma MergeStatusLaw(items: Items, found: seq<Found>, opts: Options)
    ensures Merged(items, found, opts).Keys == items.Keys + Ids(found)
    ensures forall id :: id in items ==> LawfulStatus(items[id], Merged(items, found, opts)[id], id in Ids(found))
  {
    UpsertKeeps(Start(items), opts, MetadataOf(items, opts.metadata), found);
    VerifiedIsLawful(items, AfterUpsert(items, found, opts), opts);
  }

  lemma UserDispositionsStay(items: Items, found: seq<Found>, opts: Options, id: string)
    requires id in items && items[id].status in {Wontfix, Deferred, TriagedOut}
    ensures id in Merged(items, found, opts) && Merged(items, found, opts)[id].status == items[id].status
  {
    MergeStatusLaw(items, found, opts);
  }

  /** Without force_resolve, an absent item of a detector that imports reviews is left exactly as it was. */
  lemma ImportOnlyUntouched(items: Items, found: seq<Found>, opts: Options, id: string, other: string)
    requires !opts.forceResolve && id in items && id !in Ids(found)
    requires other in items && items[other].importOnly && items[other].detector == items[id].detector
    ensures id in Merged(items, found, opts) && Merged(items, found, opts)[id] == items[id]
  {
    UpsertKeeps(Start(items), opts, MetadataOf(items, opts.metadata), found);
    ImportOnlyIsSuspect(items, AfterUpsert(items, found, opts), opts, id, other);
  }

  lemma ImportOnlyIsSuspect(items: Items, p: Progress, opts: Options, id: string, other: string)
    requires Keeps(items, p.items, p.ids) && !opts.forceResolve && id in items && id !in p.ids
    requires other in items && items[other].importOnly && items[other].detector == items[id].detector
    ensures id in MergedFrom(p, opts) && MergedFrom(p, opts)[id] == items[id]
  {
    assert Updated(items[other], p.items[other]);
    assert p.items[other].detector in ImportOnlyDetectors(p.items);
  }
}
