/** Where linked issue numbers come from, over whole runs of the publication protocol. */
module RepairQueueLinks {
  import opened Wrappers
  import opened Sets
  import opened RepairQueueRecords
  import opened RepairQueue
  import opened RepairQueueRuns

  /** Some item's record, recognized for the key under some evidence, links the number. */
  ghost predicate Bears(items: Items, key: Hash, number: int) {
    exists id, kind :: id in items && kind in items[id].records
      && RecordBears(items[id], kind, items[id].records[kind], key, number)
  }

  ghost predicate RecordBears(item: Item, kind: Kind, s: Stored, key: Hash, number: int) {
    && item.hashes.Some? && s.Stored? && s.repository.Some?
    && RecordKey(item.hashes.value.0, s.repository.value, item.hashes.value.1) == key
    && exists evidence :: Links(kind, s, s.repository.value, item.hashes.value.0, item.hashes.value.1, evidence, number)
  }

  predicate Links(kind: Kind, s: Stored, repository: string, route: Route, identity: Hash, evidence: Hash, number: int)
  {
    var r := Normalize(kind, s, repository, route, identity, evidence);
    r.Ok? && r.value.link.Some? && r.value.link.value.number == number
  }

  /** The number was linked for the key at the start, or a search returned it with the key's own marker line. */
  ghost predicate Origin(initial: Items, hits: set<(Hash, int)>, key: Hash, number: int) {
    (key, number) in hits || Bears(initial, key, number)
  }

  ghost predicate Grounded(initial: Items, hits: set<(Hash, int)>, items: Items) {
    forall key, number :: Bears(items, key, number) ==> Origin(initial, hits, key, number)
  }

  ghost predicate ProcGrounded(initial: Items, hits: set<(Hash, int)>, p: Proc) {
    && Grounded(initial, hits, p.snapshot)
    && (forall c :: c in p.todo ==> CandidateById(p.snapshot, c.issueId, c.repository) == Some(c))
    && (p.doing.Linking? ==> Origin(initial, hits, p.doing.c.key, p.doing.issue.number))
  }

  ghost predicate AllGrounded(initial: Items, s: Sys) {
    && Grounded(initial, s.hits, s.items)
    && (forall pid :: pid in s.procs ==> ProcGrounded(initial, s.hits, s.procs[pid]))
    && ByNumber(s.remote)
  }

  // ----- what each locked section may add -----

  /** A record that was there before, on the same item. */
  ghost predicate WasThere(items: Items, after: Items, id: string, kind: Kind)
    requires id in after && kind in after[id].records
  {
    && id in items && kind in items[id].records
    && items[id].hashes == after[id].hashes && items[id].records[kind] == after[id].records[kind]
  }

  lemma BornBefore(items: Items, after: Items, id: string, kind: Kind, key: Hash, number: int)
    requires id in after && kind in after[id].records && WasThere(items, after, id, kind)
    requires RecordBears(after[id], kind, after[id].records[kind], key, number)
    ensures Bears(items, key, number)
  {
    assert RecordBears(items[id], kind, items[id].records[kind], key, number);
  }

  /** A reservation adds one record only, a pending one. */
  lemma ReservedRecord(items: Items, c: Candidate, recheck: Recheck, id: string, kind: Kind)
    requires
      var after := Reserved(items, c, recheck);
      id in after && kind in after[id].records
    ensures IsPending(kind) || WasThere(items, Reserved(items, c, recheck), id, kind)
  {
  }

  lemma ReservedBears(items: Items, c: Candidate, recheck: Recheck, key: Hash, number: int)
    requires Bears(Reserved(items, c, recheck), key, number)
    ensures Bears(items, key, number)
  {
    var after := Reserved(items, c, recheck);
    var id, kind :| id in after && kind in after[id].records
                    && RecordBears(after[id], kind, after[id].records[kind], key, number);
    ReservedRecord(items, c, recheck, id, kind);
    BornBefore(items, after, id, kind, key, number);
  }

  /** A link writes one record only, to the candidate's own item. */
  lemma LinkedItem(items: Items, c: Candidate, issue: Issue, expected: Option<Kind>, recheck: Recheck,
                   version: Option<Hash>, id: string, kind: Kind)
    requires
      var after := Linked(items, c, issue, expected, recheck, version);
      id in after && kind in after[id].records
    ensures
      var after := Linked(items, c, issue, expected, recheck, version);
      || WasThere(items, after, id, kind)
      || (after[id].records[kind] == LinkRecord(c, issue, version) && after[id].hashes == items[id].hashes
          && CandidateById(items, id, c.repository) == Some(c))
  {
  }

  lemma LinkRecordBears(item: Item, kind: Kind, c: Candidate, issue: Issue, version: Option<Hash>, key: Hash,
                        number: int)
    requires item.hashes.Some? && c.key == RecordKey(item.hashes.value.0, c.repository, item.hashes.value.1)
    requires RecordBears(item, kind, LinkRecord(c, issue, version), key, number)
    ensures key == c.key && number == issue.number
  {
    var s, h := LinkRecord(c, issue, version), item.hashes.value;
    var evidence :| Links(kind, s, s.repository.value, h.0, h.1, evidence, number);
  }

  lemma LinkedBears(items: Items, c: Candidate, issue: Issue, expected: Option<Kind>, recheck: Recheck,
                    version: Option<Hash>, key: Hash, number: int)
    requires Bears(Linked(items, c, issue, expected, recheck, version), key, number)
    ensures Bears(items, key, number) || (key == c.key && number == issue.number)
  {
    var after := Linked(items, c, issue, expected, recheck, version);
    var id, kind :| id in after && kind in after[id].records
                    && RecordBears(after[id], kind, after[id].records[kind], key, number);
    LinkedItem(items, c, issue, expected, recheck, version, id, kind);
    if WasThere(items, after, id, kind) {
      BornBefore(items, after, id, kind, key, number);
    } else {
      LinkRecordBears(after[id], kind, c, issue, version, key, number);
    }
  }

  /** A preserved record links what the record it came from links. */
  lemma PreservedLinks(kind: Kind, s: Stored, route: Route, identity: Hash, before: Hash, evidence: Hash, number: int)
    requires s.Stored? && s.repository.Some?
    requires Links(kind, Preserved(kind, s, route, identity, before), s.repository.value, route, identity, evidence,
                   number)
    ensures exists e :: Links(kind, s, s.repository.value, route, identity, e, number)
  {
    var r := Normalize(kind, s, s.repository.value, route, identity, before);
    if r.Ok? {
      NormalizeOnce(kind, s, s.repository.value, route, identity, before, evidence);
      assert Links(kind, s, s.repository.value, route, identity, before, number);
    } else {
      assert Links(kind, s, s.repository.value, route, identity, evidence, number);
    }
  }

  lemma RewrittenBears(items: Items, after: Items, key: Hash, number: int)
    requires KeepsRecords(items, after) && Bears(after, key, number)
    ensures Bears(items, key, number)
  {
    var id, kind :| id in after && kind in after[id].records
                    && RecordBears(after[id], kind, after[id].records[kind], key, number);
    assert HoldsAny(after[id]);
    assert KeepsItem(items[id], after[id]);
    KeptBears(items[id], after[id], kind, key, number);
  }

  lemma KeptBears(before: Item, after: Item, kind: Kind, key: Hash, number: int)
    requires KeepsItem(before, after) && kind in after.records
    requires RecordBears(after, kind, after.records[kind], key, number)
    ensures RecordBears(before, kind, before.records[kind], key, number)
  {
    assert KeepsRecord(kind, before, after.records[kind]);
    var h, s := before.hashes.value, before.records[kind];
    var evidence :| Links(kind, after.records[kind], s.repository.value, h.0, h.1, evidence, number);
    if after.records[kind] != s {
      PreservedLinks(kind, s, h.0, h.1, h.2, evidence, number);
    } else {
      assert Links(kind, s, s.repository.value, h.0, h.1, evidence, number);
    }
  }

  lemma RecoveredBears(items: Items, repository: string, marker: Hash, key: Hash, number: int)
    requires Bears(Recovered(items, repository, marker), key, number)
    ensures Bears(items, key, number)
  {
    var after := Recovered(items, repository, marker);
    var id, kind :| id in after && kind in after[id].records
                    && RecordBears(after[id], kind, after[id].records[kind], key, number);
    assert RecordBears(items[id], kind, items[id].records[kind], key, number);
  }

  /** A number sync reads or adopts for a candidate already has an origin for the candidate's key. */
  lemma ExaminedOrigin(initial: Items, hits: set<(Hash, int)>, p: Proc, c: Candidate, found: Option<Hits>,
                       viewed: Option<Issue>)
    requires ProcGrounded(initial, hits, p) && c in p.todo && c.issueId in p.snapshot && p.doing == Idle
    requires found.Some? ==> ByNumber(found.value)
    requires found.Some? ==> forall n :: n in Verified(c, found.value) ==> (c.key, n) in hits
    requires viewed.Some? ==>
      Decide(p.snapshot, c, found).ReadLink? && viewed.value.number == Decide(p.snapshot, c, found).number
    ensures ProcGrounded(initial, hits, Examined(p, c, found, viewed))
  {
    DecisionsAreGrounded(p.snapshot, c, found);
    var d := Decide(p.snapshot, c, found);
    if d.ReadLink? {
      var id, kind :| id in p.snapshot && kind in p.snapshot[id].records
                      && BoundLink(p.snapshot[id], kind, c, d.number);
      BoundLinkBears(p.snapshot[id], kind, c, d.number);
      assert Bears(p.snapshot, c.key, d.number);
    } else if d.Adopt? {
      assert d.issue.number in Verified(c, found.value);
    }
  }

  lemma BoundLinkBears(item: Item, kind: Kind, c: Candidate, number: int)
    requires kind in item.records && BoundLink(item, kind, c, number)
    ensures RecordBears(item, kind, item.records[kind], c.key, number)
  {
    var h := item.hashes.value;
    assert Links(kind, item.records[kind], c.repository, h.0, h.1, h.2, number);
  }

  // ----- every step -----

  /** More search hits ground no less. */
  lemma MoreHits(initial: Items, hits: set<(Hash, int)>, more: set<(Hash, int)>, p: Proc)
    requires hits <= more && ProcGrounded(initial, hits, p)
    ensures ProcGrounded(initial, more, p)
  {
  }

  /** A step of one process that keeps the ground of the state file and of its own next act grounds everything. */
  lemma GroundedMover(initial: Items, s: Sys, t: Sys, pid: nat)
    requires AllGrounded(initial, s) && s.hits <= t.hits && ByNumber(t.remote)
    requires Grounded(initial, t.hits, t.items)
    requires forall other :: other in t.procs && other != pid ==> other in s.procs && t.procs[other] == s.procs[other]
    requires pid in t.procs ==> ProcGrounded(initial, t.hits, t.procs[pid])
    ensures AllGrounded(initial, t)
  {
    forall other | other in t.procs ensures ProcGrounded(initial, t.hits, t.procs[other]) {
      if other != pid {
        MoreHits(initial, s.hits, t.hits, s.procs[other]);
      }
    }
  }

  lemma GroundedExamine(initial: Items, s: Sys, pid: nat, c: Candidate, found: Option<Hits>, viewed: Option<Issue>)
    requires Enabled(s, Examine(pid, c, found, viewed)) && AllGrounded(initial, s)
    ensures AllGrounded(initial, After(s, Examine(pid, c, found, viewed)))
  {
    var t := After(s, Examine(pid, c, found, viewed));
    MoreHits(initial, s.hits, t.hits, s.procs[pid]);
    ExaminedOrigin(initial, t.hits, s.procs[pid], c, found, viewed);
    GroundedMover(initial, s, t, pid);
  }

  lemma GroundedSearchAfter(initial: Items, s: Sys, pid: nat, found: Option<Hits>)
    requires Enabled(s, SearchAfter(pid, found)) && AllGrounded(initial, s)
    ensures AllGrounded(initial, After(s, SearchAfter(pid, found)))
  {
    var t := After(s, SearchAfter(pid, found));
    var c := s.procs[pid].doing.c;
    MoreHits(initial, s.hits, t.hits, s.procs[pid]);
    if t.procs[pid].doing.Linking? {
      var matches := Verified(c, found.value);
      var n := Only(matches.Keys);
      assert n in matches.Keys && n in found.value && found.value[n] == s.remote[n];
      assert t.procs[pid].doing.issue.number in matches;
    }
    GroundedMover(initial, s, t, pid);
  }

  lemma GroundedLink(initial: Items, s: Sys, pid: nat, recheck: Recheck, version: Option<Hash>)
    requires Enabled(s, Link(pid, recheck, version)) && AllGrounded(initial, s)
    ensures AllGrounded(initial, After(s, Link(pid, recheck, version)))
  {
    var t := After(s, Link(pid, recheck, version));
    var d := s.procs[pid].doing;
    assert ProcGrounded(initial, s.hits, s.procs[pid]);
    forall key, number | Bears(t.items, key, number) ensures Origin(initial, t.hits, key, number) {
      LinkedBears(s.items, d.c, d.issue, d.expected, recheck, version, key, number);
    }
    GroundedMover(initial, s, t, pid);
  }

  lemma GroundedReserve(initial: Items, s: Sys, pid: nat, recheck: Recheck)
    requires Enabled(s, Reserve(pid, recheck)) && AllGrounded(initial, s)
    ensures AllGrounded(initial, After(s, Reserve(pid, recheck)))
  {
    var t := After(s, Reserve(pid, recheck));
    assert ProcGrounded(initial, s.hits, s.procs[pid]);
    forall key, number | Bears(t.items, key, number) ensures Origin(initial, t.hits, key, number) {
      ReservedBears(s.items, s.procs[pid].doing.c, recheck, key, number);
    }
    GroundedMover(initial, s, t, pid);
  }

  lemma UnvalidatedBears(items: Items, id: string, key: Hash, number: int)
    requires id in items && Bears(Unvalidated(items, id), key, number)
    ensures Bears(items, key, number)
  {
    var after := Unvalidated(items, id);
    var other, kind :| other in after && kind in after[other].records
                       && RecordBears(after[other], kind, after[other].records[kind], key, number);
    BornBefore(items, after, other, kind, key, number);
  }

  lemma GroundedRefute(initial: Items, s: Sys, pid: nat, c: Candidate, recheck: Recheck)
    requires Enabled(s, Refute(pid, c, recheck)) && AllGrounded(initial, s)
    ensures AllGrounded(initial, After(s, Refute(pid, c, recheck)))
  {
    var t := After(s, Refute(pid, c, recheck));
    assert ProcGrounded(initial, s.hits, s.procs[pid]);
    if t.items != s.items {
      forall key, number | Bears(t.items, key, number) ensures Origin(initial, t.hits, key, number) {
        UnvalidatedBears(s.items, c.issueId, key, number);
      }
    }
    GroundedMover(initial, s, t, pid);
  }

  lemma GroundedStart(initial: Items, s: Sys, repository: string)
    requires AllGrounded(initial, s)
    ensures AllGrounded(initial, After(s, StartSync(repository)))
  {
    GroundedMover(initial, s, After(s, StartSync(repository)), s.started);
  }

  lemma GroundedChoose(initial: Items, s: Sys, pid: nat, choice: Option<Candidate>)
    requires Enabled(s, Choose(pid, choice)) && AllGrounded(initial, s)
    ensures AllGrounded(initial, After(s, Choose(pid, choice)))
  {
    assert ProcGrounded(initial, s.hits, s.procs[pid]);
    GroundedMover(initial, s, After(s, Choose(pid, choice)), pid);
  }

  lemma GroundedCreate(initial: Items, s: Sys, pid: nat, landed: Option<Issue>, certain: bool)
    requires Enabled(s, Create(pid, landed, certain)) && AllGrounded(initial, s)
    ensures AllGrounded(initial, After(s, Create(pid, landed, certain)))
  {
    assert ProcGrounded(initial, s.hits, s.procs[pid]);
    GroundedMover(initial, s, After(s, Create(pid, landed, certain)), pid);
  }

  lemma GroundedRewrites(initial: Items, s: Sys, e: Event)
    requires e.Recover? || e.Rewrite?
    requires Enabled(s, e) && AllGrounded(initial, s)
    ensures AllGrounded(initial, After(s, e))
  {
    var t := After(s, e);
    forall key, number | Bears(t.items, key, number) ensures Origin(initial, t.hits, key, number) {
      if e.Recover? {
        RecoveredBears(s.items, e.repository, e.marker, key, number);
      } else {
        RewrittenBears(s.items, e.items, key, number);
      }
    }
  }

  lemma GroundedStep(initial: Items, s: Sys, e: Event)
    requires Enabled(s, e) && AllGrounded(initial, s)
    ensures AllGrounded(initial, After(s, e))
  {
    match e
    case StartSync(repository) => GroundedStart(initial, s, repository);
    case Refute(pid, c, recheck) => GroundedRefute(initial, s, pid, c, recheck);
    case Examine(pid, c, found, viewed) => GroundedExamine(initial, s, pid, c, found, viewed);
    case SearchAfter(pid, found) => GroundedSearchAfter(initial, s, pid, found);
    case Link(pid, recheck, version) => GroundedLink(initial, s, pid, recheck, version);
    case Reserve(pid, recheck) => GroundedReserve(initial, s, pid, recheck);
    case Choose(pid, choice) => GroundedChoose(initial, s, pid, choice);
    case Create(pid, landed, certain) => GroundedCreate(initial, s, pid, landed, certain);
    case Recover(_, _) => GroundedRewrites(initial, s, e);
    case Rewrite(_) => GroundedRewrites(initial, s, e);
    case _ =>
  }

  lemma {:induction false} GroundedRun(initial: Items, s: Sys, events: seq<Event>, t: Sys)
    requires Run(s, events, t) && AllGrounded(initial, s)
    ensures AllGrounded(initial, t)
    decreases |events|
  {
    if events != [] {
      GroundedStep(initial, s, events[0]);
      GroundedRun(initial, After(s, events[0]), events[1..], t);
    }
  }

  /** Every issue number a recognized record links to a key was linked to it by a recognized record at the start of the
      run, or a search returned that issue with the key's own marker line on some candidate's behalf. */
  lemma LinksAreGrounded(initial: Items, remote: Hits, events: seq<Event>, t: Sys, key: Hash, number: int)
    requires ByNumber(remote) && Run(Initial(initial, remote), events, t)
    requires Bears(t.items, key, number)
    ensures (key, number) in t.hits || Bears(initial, key, number)
  {
    GroundedRun(initial, Initial(initial, remote), events, t);
  }
}
