/** A scan merge is one of the rewrites the publication protocol allows while work items keep their identity. */
module ScanKeepsRecords {
  import opened Wrappers
  import opened RepairQueueRecords
  import opened WorkItems
  import opened MergeIssues
  import RepairQueue
  import RepairQueueRuns

  /** What the repair queue reads of a stored work item; the rest of it plays no part in keeping records. */
  function QueueItem(w: WorkItem): Item {
    Item(if w.status == Open then IsOpen else NotOpen, w.detail.hashes, false, false, None, false, w.detail.records)
  }

  function QueueItems(items: Items): RepairQueue.Items {
    map id | id in items :: QueueItem(items[id])
  }

  /** Scans bring no records of their own, and find an item again with the identity it had. */
  predicate KeepsIdentity(items: Items, f: Found) {
    && f.detail.records == map[]
    && (f.id in items ==>
          || SameIdentity(items[f.id].detail, f.detail)
          || (items[f.id].detail.hashes.None? && f.detail.hashes.None? && items[f.id].detail.records == map[]))
  }

  /** Updating one item keeps every link and pending record: in its stable-key shape, or verbatim if unrecognized. */
  lemma UpsertIsARewrite(p: Progress, opts: Options, known: Metadata, f: Found)
    requires KeepsIdentity(p.items, f)
    ensures RepairQueueRuns.KeepsRecords(QueueItems(p.items), QueueItems(Upserted(p, opts, known, f).items))
  {
    var after := Upserted(p, opts, known, f).items;
    forall id | id in p.items ensures RepairQueueRuns.KeepsItem(QueueItem(p.items[id]), QueueItem(after[id])) {
      if id == f.id && SameIdentity(p.items[id].detail, f.detail) {
        DetailKeepsRecords(p.items[id].detail, f);
      }
    }
  }

  lemma DetailKeepsRecords(previous: Detail, f: Found)
    requires SameIdentity(previous, f.detail) && f.detail.records == map[]
    ensures NewDetail(previous, f).records.Keys == previous.records.Keys
    ensures forall kind :: kind in previous.records ==>
      var h := previous.hashes.value;
      NewDetail(previous, f).records[kind] == Preserved(kind, previous.records[kind], h.0, h.1, h.2)
    ensures NewDetail(previous, f).hashes == f.detail.hashes
  {
  }

  /** Judging the absent items touches no record. */
  lemma VerifyIsARewrite(items: Items, cx: Context)
    ensures RepairQueueRuns.KeepsRecords(QueueItems(items), QueueItems(Verified(items, cx)))
  {
    var after := Verified(items, cx);
    forall id | id in items ensures RepairQueueRuns.KeepsItem(QueueItem(items[id]), QueueItem(after[id])) {
      JudgedKeepsDetail(items[id], Judge(id, items[id], cx));
    }
  }

  lemma JudgedKeepsDetail(w: WorkItem, v: Verdict)
    ensures RepairQueueRuns.KeepsItem(QueueItem(w), QueueItem(Judged(w, v)))
  {
    assert Judged(w, v).detail == w.detail;
    forall kind | kind in w.detail.records
      ensures RepairQueueRuns.KeepsRecord(kind, QueueItem(w), QueueItem(Judged(w, v)).records[kind])
    {
    }
  }
}
