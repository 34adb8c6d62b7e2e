/** Whole runs of concurrent repair-queue syncs, recovers, scans and crashes (app/commands/repair_queue.py). */
module RepairQueueRuns {
  import opened Wrappers
  import opened Sets
  import opened RepairQueueRecords
  import opened RepairQueue

  // ----- the system -----

  /** What a sync process is in the middle of, outside the lock. */
  datatype Doing =
    | Idle
    | Linking(c: Candidate, issue: Issue, expected: Option<Kind>)
    | Reserving(c: Candidate)
    | Creating(c: Candidate, ticket: nat)
    | Searching(c: Candidate)

  /** One sync: the state it read at its start, the candidates left to examine, and the small repairs it may create. */
  datatype Proc = Proc(
    repository: string,
    snapshot: Items,
    todo: set<Candidate>,
    selectable: set<Candidate>,
    chosen: bool,
    doing: Doing)

  datatype Entry = Created(pid: nat, c: Candidate) | Cleared(keys: set<Hash>)

  /** `items` is the state file and `remote` is GitHub. The rest remembers the past: how many syncs started, the keys
      reserved in order, which reservations were spent on a create call, what was created and cleared, and the issue
      numbers that a search returned with the marker line of a key. */
  datatype Sys = Sys(
    items: Items,
    remote: Hits,
    procs: map<nat, Proc>,
    started: nat,
    reserved: seq<Hash>,
    spent: set<nat>,
    log: seq<Entry>,
    hits: set<(Hash, int)>)

  datatype Event =
    | StartSync(repository: string)
    | Refute(pid: nat, c: Candidate, recheck: Recheck)
    | Examine(pid: nat, c: Candidate, found: Option<Hits>, viewed: Option<Issue>)
    | Choose(pid: nat, choice: Option<Candidate>)
    | Reserve(pid: nat, recheck: Recheck)
    | Create(pid: nat, landed: Option<Issue>, certain: bool)
    | SearchAfter(pid: nat, found: Option<Hits>)
    | Link(pid: nat, recheck: Recheck, version: Option<Hash>)
    | Recover(repository: string, marker: Hash)
    | Rewrite(items: Items)
    | Outsider(issue: Issue)
    | Crash(pid: nat)

  function Candidates(items: Items, repository: string): set<Candidate> {
    set id | id in items && Classify(id, items[id], repository).Some? :: Classify(id, items[id], repository).value
  }

  /** The candidates whose key no other candidate shares. */
  function Unambiguous(items: Items, repository: string): set<Candidate> {
    set c | c in Candidates(items, repository)
            && forall d :: d in Candidates(items, repository) && d.key == c.key ==> d == c
  }

  /** A search may lag: it returns issues that exist, and perhaps not all of them. */
  predicate Answers(found: Option<Hits>, remote: Hits) {
    found.Some? ==> forall n :: n in found.value ==> n in remote && found.value[n] == remote[n]
  }

  /** A rescan, a revalidation or triage: work items stay and keep their identity, and records stay or are migrated. */
  predicate KeepsRecords(before: Items, after: Items) {
    && before.Keys <= after.Keys
    && (forall id :: id in after && id !in before ==> !HoldsAny(after[id]))
    && (forall id :: id in before ==> KeepsItem(before[id], after[id]))
  }

  predicate KeepsItem(before: Item, after: Item) {
    && after.hashes.Some? == before.hashes.Some?
    && (before.hashes.Some? ==>
          after.hashes.value.0 == before.hashes.value.0 && after.hashes.value.1 == before.hashes.value.1)
    && after.records.Keys == before.records.Keys
    && forall kind :: kind in before.records ==> KeepsRecord(kind, before, after.records[kind])
  }

  predicate KeepsRecord(kind: Kind, before: Item, s: Stored)
    requires kind in before.records
  {
    || s == before.records[kind]
    || (before.hashes.Some?
        && var h := before.hashes.value;
           s == Preserved(kind, before.records[kind], h.0, h.1, h.2))
  }

  predicate Runs(s: Sys, pid: nat) {
    pid in s.procs
  }

  predicate Safe(items: Items, c: Candidate) {
    CandidateById(items, c.issueId, c.repository) == Some(c) && !items[c.issueId].briefParks
  }

  predicate Enabled(s: Sys, e: Event) {
    match e
    case StartSync(_) => true
    case Refute(pid, c, recheck) =>
      Runs(s, pid) && s.procs[pid].doing == Idle && c in s.procs[pid].todo && recheck != SourceCurrent
    case Examine(pid, c, found, viewed) =>
      && Runs(s, pid) && s.procs[pid].doing == Idle && c in s.procs[pid].todo && c.issueId in s.procs[pid].snapshot
      && Answers(found, s.remote)
      && (viewed.Some? ==> Decide(s.procs[pid].snapshot, c, found).ReadLink?
                           && viewed.value.number == Decide(s.procs[pid].snapshot, c, found).number)
    case Choose(pid, choice) =>
      && Runs(s, pid) && s.procs[pid].doing == Idle && s.procs[pid].todo == {} && !s.procs[pid].chosen
      && (if PendingRepairs(s.items, s.procs[pid].repository) != {} then choice.None?
          else if choice.Some? then choice.value in s.procs[pid].selectable && Safe(s.items, choice.value)
          else forall c :: c in s.procs[pid].selectable ==> !Safe(s.items, c))
    case Reserve(pid, _) => Runs(s, pid) && s.procs[pid].doing.Reserving?
    case Create(pid, landed, certain) =>
      && Runs(s, pid) && s.procs[pid].doing.Creating?
      && (certain ==> landed.Some?)
      && (landed.Some? ==> landed.value.number !in s.remote && MarkerLine(s.procs[pid].doing.c) in landed.value.body)
    case SearchAfter(pid, found) => Runs(s, pid) && s.procs[pid].doing.Searching? && Answers(found, s.remote)
    case Link(pid, _, _) => Runs(s, pid) && s.procs[pid].doing.Linking?
    case Recover(_, _) => true
    case Rewrite(items) => KeepsRecords(s.items, items)
    case Outsider(_) => true
    case Crash(pid) => Runs(s, pid)
  }

  function WithProc(s: Sys, pid: nat, p: Proc): Sys {
    s.(procs := s.procs[pid := p])
  }

  function WithHits(s: Sys, c: Candidate, found: Option<Hits>): Sys {
    if found.None? then s else s.(hits := s.hits + set n | n in Verified(c, found.value) :: (c.key, n))
  }

  function Examined(p: Proc, c: Candidate, found: Option<Hits>, viewed: Option<Issue>): Proc
    requires c.issueId in p.snapshot
  {
    var q := p.(todo := p.todo - {c});
    match Decide(p.snapshot, c, found)
    case Skip => q
    case ReadLink(_, expected) => if viewed.Some? then q.(doing := Linking(c, viewed.value, expected)) else q
    case Adopt(issue, expected) => q.(doing := Linking(c, issue, expected))
    case Select => q.(selectable := q.selectable + {c})
    case CreateProposal => q.(doing := Reserving(c))
  }

  /** After the create returned: link the issue only if it is the one hit with the marker. */
  function Searched(p: Proc, c: Candidate, found: Option<Hits>): Proc {
    if found.Some? && |Verified(c, found.value)| == 1 then
      var matches := Verified(c, found.value);
      p.(doing := Linking(c, matches[Only(matches.Keys)], Some(LaneFor(c.kind).pending)))
    else p.(doing := Idle)
  }

  /** The keys whose pending record a recover call clears. */
  function ClearedKeys(items: Items, repository: string, marker: Hash): set<Hash> {
    set id | id in items && items[id].hashes.Some? && !NothingMatches(items[id], repository, marker)
      :: RecordKey(items[id].hashes.value.0, repository, items[id].hashes.value.1)
  }

  function After(s: Sys, e: Event): Sys
    requires Enabled(s, e)
  {
    match e
    case StartSync(repository) =>
      s.(started := s.started + 1,
         procs := s.procs[s.started := Proc(repository, s.items, Unambiguous(s.items, repository), {}, false, Idle)])
    case Refute(pid, c, recheck) =>
      var p := s.procs[pid];
      var stale := CandidateById(s.items, c.issueId, c.repository) == Some(c) && recheck == SourceStale;
      WithProc(s, pid, p.(todo := p.todo - {c})).(items := if stale then Unvalidated(s.items, c.issueId) else s.items)
    case Examine(pid, c, found, viewed) =>
      WithHits(WithProc(s, pid, Examined(s.procs[pid], c, found, viewed)), c, found)
    case Choose(pid, choice) =>
      WithProc(s, pid, s.procs[pid].(chosen := true, doing := if choice.Some? then Reserving(choice.value) else Idle))
    case Reserve(pid, recheck) =>
      var p := s.procs[pid];
      var c := p.doing.c;
      var t := s.(items := Reserved(s.items, c, recheck));
      if MayReserve(s.items, c, recheck) then
        WithProc(t, pid, p.(doing := Creating(c, |s.reserved|))).(reserved := s.reserved + [c.key])
      else WithProc(t, pid, p.(doing := Idle))
    case Create(pid, landed, certain) =>
      var p := s.procs[pid];
      var c := p.doing.c;
      WithProc(s, pid, p.(doing := if certain then Searching(c) else Idle))
      .(remote := if landed.Some? then s.remote[landed.value.number := landed.value] else s.remote,
        spent := s.spent + {p.doing.ticket},
        log := s.log + [Created(pid, c)])
    case SearchAfter(pid, found) =>
      var c := s.procs[pid].doing.c;
      WithHits(WithProc(s, pid, Searched(s.procs[pid], c, found)), c, found)
    case Link(pid, recheck, version) =>
      var d := s.procs[pid].doing;
      WithProc(s, pid, s.procs[pid].(doing := Idle))
      .(items := Linked(s.items, d.c, d.issue, d.expected, recheck, version))
    case Recover(repository, marker) =>
      s.(items := Recovered(s.items, repository, marker),
         log := s.log + [Cleared(ClearedKeys(s.items, repository, marker))])
    case Rewrite(items) => s.(items := items)
    case Outsider(issue) => s.(remote := s.remote[issue.number := issue])
    case Crash(pid) => s.(procs := s.procs - {pid})
  }

  function Initial(items: Items, remote: Hits): Sys {
    Sys(items, remote, map[], 0, [], {}, [], {})
  }

  /** Some run leads from one state to another. */
  ghost predicate Run(s: Sys, events: seq<Event>, t: Sys)
    decreases |events|
  {
    if events == [] then t == s else Enabled(s, events[0]) && Run(After(s, events[0]), events[1..], t)
  }

  // ----- counting -----

  function Creates(log: seq<Entry>, key: Hash): nat {
    if log == [] then 0
    else Creates(log[..|log| - 1], key) + if log[|log| - 1].Created? && log[|log| - 1].c.key == key then 1 else 0
  }

  /** How many recover calls cleared the key's pending record. */
  function Clears(log: seq<Entry>, key: Hash): nat {
    if log == [] then 0
    else Clears(log[..|log| - 1], key) + if log[|log| - 1].Cleared? && key in log[|log| - 1].keys then 1 else 0
  }

  function SmallCreates(log: seq<Entry>, pid: nat): nat {
    if log == [] then 0
    else
      SmallCreates(log[..|log| - 1], pid)
      + if log[|log| - 1].Created? && log[|log| - 1].pid == pid && log[|log| - 1].c.kind == SmallRepair then 1 else 0
  }

  /** The reservations made for a key. */
  function Tickets(reserved: seq<Hash>, key: Hash): set<nat> {
    set t: nat | t < |reserved| && reserved[t] == key
  }

  lemma OneMoreTicket(reserved: seq<Hash>, key: Hash, other: Hash)
    ensures |Tickets(reserved + [key], other)| == |Tickets(reserved, other)| + if key == other then 1 else 0
    ensures Tickets(reserved, other) <= Tickets(reserved + [key], other)
  {
    var more := Tickets(reserved + [key], other);
    assert forall t :: t in Tickets(reserved, other) ==> t in more;
    if key == other {
      assert more == Tickets(reserved, other) + {|reserved|};
    } else {
      assert more == Tickets(reserved, other);
    }
  }

  // ----- publish once -----

  /** An item of this identity holds a link, or a pending record for the repository. */
  ghost predicate Anchored(items: Items, route: Route, repository: string, identity: Hash) {
    exists id :: id in items && Identified(items[id], route, identity) && Anchors(items[id], repository)
  }

  ghost predicate Anchors(item: Item, repository: string) {
    exists kind :: kind in item.records && AnchorRecord(kind, item.records[kind], repository)
  }

  predicate AnchorRecord(kind: Kind, s: Stored, repository: string) {
    !IsPending(kind) || (s.Stored? && s.repository == Some(repository))
  }

  /** Only a record that forbids another reservation, or a recover call, accounts for a reservation. */
  ghost predicate Accounted(s: Sys, route: Route, repository: string, identity: Hash) {
    var key := RecordKey(route, repository, identity);
    var tickets := |Tickets(s.reserved, key)|;
    || tickets <= Clears(s.log, key)
    || (tickets == Clears(s.log, key) + 1 && Anchored(s.items, route, repository, identity))
  }

  /** Every reservation excludes the items of its identity from holding any record at all. */
  lemma ReservationNeedsNoAnchor(items: Items, c: Candidate, recheck: Recheck)
    requires MayReserve(items, c, recheck)
    ensures c.key == RecordKey(c.route, c.repository, c.identity)
    ensures !Claimed(items, c.route, c.identity) && forall other :: !Anchored(items, c.route, other, c.identity)
    ensures Anchored(Reserved(items, c, recheck), c.route, c.repository, c.identity)
  {
    forall id | id in items && Identified(items[id], c.route, c.identity) ensures !HoldsAny(items[id]) {
      assert id != c.issueId && HoldsAny(items[id]) ==> id in Peers(items, c);
    }
    var after := Reserved(items, c, recheck)[c.issueId];
    var pending := LaneFor(c.kind).pending;
    assert pending in after.records && AnchorRecord(pending, after.records[pending], c.repository);
    assert Anchors(after, c.repository);
  }

  /** A step that keeps every item's identity and its anchoring records keeps the anchor. */
  lemma AnchorKept(before: Items, after: Items, route: Route, repository: string, identity: Hash)
    requires Anchored(before, route, repository, identity)
    requires before.Keys <= after.Keys
    requires forall id :: id in before && Identified(before[id], route, identity) ==>
      Identified(after[id], route, identity)
    requires forall id :: id in before && Identified(before[id], route, identity) && Anchors(before[id], repository) ==>
                            Anchors(after[id], repository)
    ensures Anchored(after, route, repository, identity)
  {
    var id :| id in before && Identified(before[id], route, identity) && Anchors(before[id], repository);
    assert id in after && Identified(after[id], route, identity) && Anchors(after[id], repository);
  }

  lemma ReservedKeepsAnchor(items: Items, c: Candidate, recheck: Recheck, route: Route, repository: string,
                            identity: Hash)
    requires Anchored(items, route, repository, identity)
    ensures Anchored(Reserved(items, c, recheck), route, repository, identity)
  {
    var after := Reserved(items, c, recheck);
    forall id | id in items && Anchors(items[id], repository) ensures Anchors(after[id], repository) {
      var kind :| kind in items[id].records && AnchorRecord(kind, items[id].records[kind], repository);
      assert kind in after[id].records && AnchorRecord(kind, after[id].records[kind], repository);
    }
    AnchorKept(items, after, route, repository, identity);
  }

  lemma LinkedKeepsAnchor(items: Items, c: Candidate, issue: Issue, expected: Option<Kind>, recheck: Recheck,
                          version: Option<Hash>, route: Route, repository: string, identity: Hash)
    requires Anchored(items, route, repository, identity)
    ensures Anchored(Linked(items, c, issue, expected, recheck, version), route, repository, identity)
  {
    var after := Linked(items, c, issue, expected, recheck, version);
    forall id | id in items && Anchors(items[id], repository) ensures Anchors(after[id], repository) {
      var kind :| kind in items[id].records && AnchorRecord(kind, items[id].records[kind], repository);
      if id == c.issueId && MayLink(items, c, expected, recheck) {
        var link := LaneFor(c.kind).link;
        assert link in after[id].records && AnchorRecord(link, after[id].records[link], repository);
      } else {
        assert kind in after[id].records && AnchorRecord(kind, after[id].records[kind], repository);
      }
    }
    AnchorKept(items, after, route, repository, identity);
  }

  lemma RewriteKeepsAnchor(items: Items, after: Items, route: Route, repository: string, identity: Hash)
    requires KeepsRecords(items, after) && Anchored(items, route, repository, identity)
    ensures Anchored(after, route, repository, identity)
  {
    forall id | id in items && Anchors(items[id], repository) ensures Anchors(after[id], repository) {
      assert KeepsItem(items[id], after[id]);
      var kind :| kind in items[id].records && AnchorRecord(kind, items[id].records[kind], repository);
      assert KeepsRecord(kind, items[id], after[id].records[kind]);
      assert AnchorRecord(kind, after[id].records[kind], repository);
    }
    AnchorKept(items, after, route, repository, identity);
  }

  /** A recover call that does not clear the key leaves its anchor. */
  lemma RecoverKeepsAnchor(items: Items, from: string, marker: Hash, route: Route, repository: string, identity: Hash)
    requires Anchored(items, route, repository, identity)
    requires RecordKey(route, repository, identity) !in ClearedKeys(items, from, marker)
    ensures Anchored(Recovered(items, from, marker), route, repository, identity)
  {
    var after := Recovered(items, from, marker);
    forall id | id in items && Identified(items[id], route, identity) && Anchors(items[id], repository)
      ensures Anchors(after[id], repository)
    {
      var kind :| kind in items[id].records && AnchorRecord(kind, items[id].records[kind], repository);
      assert from == repository ==> NothingMatches(items[id], from, marker);
      assert kind !in Matched(items[id], from, marker);
      assert kind in after[id].records && AnchorRecord(kind, after[id].records[kind], repository);
    }
    AnchorKept(items, after, route, repository, identity);
  }

  lemma AccountedReserve(s: Sys, pid: nat, recheck: Recheck, route: Route, repository: string, identity: Hash)
    requires Enabled(s, Reserve(pid, recheck)) && Accounted(s, route, repository, identity)
    ensures Accounted(After(s, Reserve(pid, recheck)), route, repository, identity)
  {
    var c := s.procs[pid].doing.c;
    if MayReserve(s.items, c, recheck) {
      ReservationNeedsNoAnchor(s.items, c, recheck);
      OneMoreTicket(s.reserved, c.key, RecordKey(route, repository, identity));
    }
    if Anchored(s.items, route, repository, identity) {
      ReservedKeepsAnchor(s.items, c, recheck, route, repository, identity);
    }
  }

  lemma AccountedRecover(s: Sys, from: string, marker: Hash, route: Route, repository: string, identity: Hash)
    requires Accounted(s, route, repository, identity)
    ensures Accounted(After(s, Recover(from, marker)), route, repository, identity)
  {
    var t := After(s, Recover(from, marker));
    assert t.log[..|t.log| - 1] == s.log;
    if Anchored(s.items, route, repository, identity)
       && RecordKey(route, repository, identity) !in ClearedKeys(s.items, from, marker) {
      RecoverKeepsAnchor(s.items, from, marker, route, repository, identity);
    }
  }

  /** The steps that write the state file. */
  predicate Writes(e: Event) {
    e.Refute? || e.Reserve? || e.Link? || e.Recover? || e.Rewrite?
  }

  lemma ItemsStay(s: Sys, e: Event)
    requires Enabled(s, e) && !Writes(e)
    ensures After(s, e).items == s.items
  {
  }

  lemma RefuteKeepsAnchor(items: Items, id: string, route: Route, repository: string, identity: Hash)
    requires id in items && Anchored(items, route, repository, identity)
    ensures Anchored(Unvalidated(items, id), route, repository, identity)
  {
    AnchorKept(items, Unvalidated(items, id), route, repository, identity);
  }

  lemma AnchorStep(s: Sys, e: Event, route: Route, repository: string, identity: Hash)
    requires Enabled(s, e) && !e.Reserve? && !e.Recover?
    requires Anchored(s.items, route, repository, identity)
    ensures Anchored(After(s, e).items, route, repository, identity)
  {
    match e
    case Link(pid, recheck, version) =>
      var d := s.procs[pid].doing;
      LinkedKeepsAnchor(s.items, d.c, d.issue, d.expected, recheck, version, route, repository, identity);
    case Rewrite(items) => RewriteKeepsAnchor(s.items, items, route, repository, identity);
    case Refute(pid, c, recheck) =>
      if After(s, e).items != s.items {
        RefuteKeepsAnchor(s.items, c.issueId, route, repository, identity);
      }
    case _ => ItemsStay(s, e);
  }

  lemma NothingCleared(s: Sys, e: Event, key: Hash)
    requires Enabled(s, e) && !e.Reserve? && !e.Recover?
    ensures After(s, e).reserved == s.reserved && Clears(After(s, e).log, key) == Clears(s.log, key)
  {
    if e.Create? {
      assert After(s, e).log[..|After(s, e).log| - 1] == s.log;
    }
  }

  lemma AccountedStep(s: Sys, e: Event, route: Route, repository: string, identity: Hash)
    requires Enabled(s, e) && Accounted(s, route, repository, identity)
    ensures Accounted(After(s, e), route, repository, identity)
  {
    if e.Reserve? {
      AccountedReserve(s, e.pid, e.recheck, route, repository, identity);
    } else if e.Recover? {
      AccountedRecover(s, e.repository, e.marker, route, repository, identity);
    } else {
      NothingCleared(s, e, RecordKey(route, repository, identity));
      if Anchored(s.items, route, repository, identity) {
        AnchorStep(s, e, route, repository, identity);
      }
    }
  }

  /** Each create call spends a reservation of its own: a process about to create holds an unspent one. */
  ghost predicate TicketsOk(s: Sys) {
    && (forall pid :: pid in s.procs ==> TicketOk(s, s.procs[pid].doing))
    && (forall p, q :: p in s.procs && q in s.procs && SameTicket(s.procs[p].doing, s.procs[q].doing) ==> p == q)
    && (forall t :: t in s.spent ==> t < |s.reserved|)
  }

  predicate SameTicket(d: Doing, e: Doing) {
    d.Creating? && e.Creating? && d.ticket == e.ticket
  }

  predicate TicketOk(s: Sys, d: Doing) {
    d.Creating? ==> d.ticket < |s.reserved| && s.reserved[d.ticket] == d.c.key && d.ticket !in s.spent
  }

  /** The create calls for a key are the spent reservations of the key. */
  ghost predicate CreatesAreSpent(s: Sys, key: Hash) {
    Creates(s.log, key) == |Tickets(s.reserved, key) * s.spent|
  }

  /** A step other than a reservation or a create call leaves the reservations alone. */
  lemma OtherStepsSpendNothing(s: Sys, e: Event)
    requires Enabled(s, e) && !e.Reserve? && !e.Create?
    ensures After(s, e).reserved == s.reserved && After(s, e).spent == s.spent
  {
  }

  lemma OtherStepsStartNoCreate(s: Sys, e: Event, pid: nat)
    requires Enabled(s, e) && !e.Reserve?
    requires pid in After(s, e).procs && After(s, e).procs[pid].doing.Creating?
    ensures pid in s.procs && After(s, e).procs[pid].doing == s.procs[pid].doing
  {
    match e
    case Examine(p, c, found, viewed) =>
      if p == pid {
        ExaminedStartsNoCreate(s.procs[pid], c, found, viewed);
      }
    case _ =>
  }

  lemma ExaminedStartsNoCreate(p: Proc, c: Candidate, found: Option<Hits>, viewed: Option<Issue>)
    requires c.issueId in p.snapshot && p.doing.Idle?
    ensures !Examined(p, c, found, viewed).doing.Creating?
  {
  }

  lemma TicketsOther(s: Sys, e: Event)
    requires Enabled(s, e) && !e.Reserve? && !e.Create? && TicketsOk(s)
    ensures TicketsOk(After(s, e))
  {
    var t := After(s, e);
    OtherStepsSpendNothing(s, e);
    forall pid | pid in t.procs && t.procs[pid].doing.Creating?
      ensures pid in s.procs && t.procs[pid].doing == s.procs[pid].doing
    {
      OtherStepsStartNoCreate(s, e, pid);
    }
  }

  lemma TicketsStep(s: Sys, e: Event)
    requires Enabled(s, e) && TicketsOk(s)
    ensures TicketsOk(After(s, e))
  {
    if e.Reserve? {
      TicketsReserve(s, e.pid, e.recheck);
    } else if e.Create? {
      TicketsCreate(s, e.pid, e.landed, e.certain);
    } else {
      TicketsOther(s, e);
    }
  }

  lemma TicketsReserve(s: Sys, pid: nat, recheck: Recheck)
    requires Enabled(s, Reserve(pid, recheck)) && TicketsOk(s)
    ensures TicketsOk(After(s, Reserve(pid, recheck)))
  {
    var t := After(s, Reserve(pid, recheck));
    forall other | other in t.procs ensures TicketOk(t, t.procs[other].doing) {
      assert TicketOk(s, s.procs[other].doing);
    }
  }

  lemma TicketsCreate(s: Sys, pid: nat, landed: Option<Issue>, certain: bool)
    requires Enabled(s, Create(pid, landed, certain)) && TicketsOk(s)
    ensures TicketsOk(After(s, Create(pid, landed, certain)))
  {
    var t := After(s, Create(pid, landed, certain));
    assert TicketOk(s, s.procs[pid].doing);
    forall other | other in t.procs ensures TicketOk(t, t.procs[other].doing) {
      assert TicketOk(s, s.procs[other].doing);
    }
  }

  lemma CreatesStep(s: Sys, e: Event, key: Hash)
    requires Enabled(s, e) && TicketsOk(s) && CreatesAreSpent(s, key)
    ensures CreatesAreSpent(After(s, e), key)
  {
    if e.Reserve? {
      CreatesReserve(s, e.pid, e.recheck, key);
    } else if e.Create? {
      CreatesCreate(s, e.pid, e.landed, e.certain, key);
    } else {
      OtherStepsSpendNothing(s, e);
      OtherStepsCreateNothing(s, e, key);
    }
  }

  lemma OtherStepsCreateNothing(s: Sys, e: Event, key: Hash)
    requires Enabled(s, e) && !e.Create?
    ensures Creates(After(s, e).log, key) == Creates(s.log, key)
    ensures forall pid :: SmallCreates(After(s, e).log, pid) == SmallCreates(s.log, pid)
  {
    if e.Recover? {
      assert After(s, e).log[..|After(s, e).log| - 1] == s.log;
    }
  }

  lemma CreatesReserve(s: Sys, pid: nat, recheck: Recheck, key: Hash)
    requires Enabled(s, Reserve(pid, recheck)) && TicketsOk(s) && CreatesAreSpent(s, key)
    ensures CreatesAreSpent(After(s, Reserve(pid, recheck)), key)
  {
    var t := After(s, Reserve(pid, recheck));
    var c := s.procs[pid].doing.c;
    OneMoreTicket(s.reserved, c.key, key);
    assert Tickets(t.reserved, key) * t.spent == Tickets(s.reserved, key) * s.spent;
  }

  lemma CreatesCreate(s: Sys, pid: nat, landed: Option<Issue>, certain: bool, key: Hash)
    requires Enabled(s, Create(pid, landed, certain)) && TicketsOk(s) && CreatesAreSpent(s, key)
    ensures CreatesAreSpent(After(s, Create(pid, landed, certain)), key)
  {
    var t := After(s, Create(pid, landed, certain));
    var d := s.procs[pid].doing;
    assert t.log[..|t.log| - 1] == s.log;
    assert TicketOk(s, d);
    OneMoreSpent(s.reserved, s.spent, d.ticket, key);
  }

  lemma OneMoreSpent(reserved: seq<Hash>, spent: set<nat>, ticket: nat, key: Hash)
    requires ticket < |reserved| && ticket !in spent
    ensures |Tickets(reserved, key) * (spent + {ticket})|
         == |Tickets(reserved, key) * spent| + if reserved[ticket] == key then 1 else 0
  {
    var before := Tickets(reserved, key) * spent;
    assert Tickets(reserved, key) * (spent + {ticket}) == if reserved[ticket] == key then before + {ticket} else before;
  }

  lemma {:induction false} PublishOnceFrom(s: Sys, events: seq<Event>, t: Sys, route: Route, repository: string,
                                           identity: Hash)
    requires Run(s, events, t) && TicketsOk(s)
    requires CreatesAreSpent(s, RecordKey(route, repository, identity)) && Accounted(s, route, repository, identity)
    ensures TicketsOk(t)
    ensures CreatesAreSpent(t, RecordKey(route, repository, identity)) && Accounted(t, route, repository, identity)
    decreases |events|
  {
    if events != [] {
      TicketsStep(s, events[0]);
      CreatesStep(s, events[0], RecordKey(route, repository, identity));
      AccountedStep(s, events[0], route, repository, identity);
      PublishOnceFrom(After(s, events[0]), events[1..], t, route, repository, identity);
    }
  }

  /** Publish once: in every run, from any state file, the create calls made for a key in either lane exceed the recover
      calls that cleared the key's pending record by at most one. */
  lemma PublishOnce(items: Items, remote: Hits, events: seq<Event>, t: Sys, route: Route, repository: string,
                    identity: Hash)
    requires Run(Initial(items, remote), events, t)
    ensures Creates(t.log, RecordKey(route, repository, identity))
         <= 1 + Clears(t.log, RecordKey(route, repository, identity))
  {
    var key := RecordKey(route, repository, identity);
    var s := Initial(items, remote);
    assert Tickets(s.reserved, key) == {};
    PublishOnceFrom(s, events, t, route, repository, identity);
    Within(Tickets(t.reserved, key) * t.spent, Tickets(t.reserved, key));
  }

  // ----- one unresolved repair per repository -----

  ghost predicate OnePending(items: Items) {
    forall repository, a, b :: a in PendingRepairs(items, repository) && b in PendingRepairs(items, repository) ==>
      a == b
  }

  lemma OnePendingReserved(items: Items, c: Candidate, recheck: Recheck)
    requires OnePending(items)
    ensures OnePending(Reserved(items, c, recheck))
  {
    var after := Reserved(items, c, recheck);
    if MayReserve(items, c, recheck) && c.kind == SmallRepair {
      forall repository, id | id in PendingRepairs(after, repository)
        ensures if repository == c.repository then id == c.issueId else id in PendingRepairs(items, repository)
      {
        assert id != c.issueId ==> id in PendingRepairs(items, repository);
      }
    } else {
      OnePendingShrinks(items, after);
    }
  }

  /** Writing no small-repair pending record keeps every repository at one. */
  lemma OnePendingShrinks(before: Items, after: Items)
    requires OnePending(before)
    requires forall id :: id in after && RepairPending in after[id].records ==>
               && id in before && RepairPending in before[id].records
               && (after[id].records[RepairPending].Garbage? <==> before[id].records[RepairPending].Garbage?)
               && (after[id].records[RepairPending].Stored? ==>
                     after[id].records[RepairPending].repository == before[id].records[RepairPending].repository)
    ensures OnePending(after)
  {
    forall repository ensures PendingRepairs(after, repository) <= PendingRepairs(before, repository) {
    }
  }

  lemma OnePendingRewritten(before: Items, after: Items)
    requires OnePending(before) && KeepsRecords(before, after)
    ensures OnePending(after)
  {
    forall id | id in after && RepairPending in after[id].records
      ensures id in before && RepairPending in before[id].records
      ensures after[id].records[RepairPending].Garbage? <==> before[id].records[RepairPending].Garbage?
      ensures after[id].records[RepairPending].Stored? ==>
                after[id].records[RepairPending].repository == before[id].records[RepairPending].repository
    {
      assert HoldsAny(after[id]);
      assert KeepsItem(before[id], after[id]);
      assert KeepsRecord(RepairPending, before[id], after[id].records[RepairPending]);
    }
    OnePendingShrinks(before, after);
  }

  lemma OnePendingRecovered(items: Items, repository: string, marker: Hash)
    requires OnePending(items)
    ensures OnePending(Recovered(items, repository, marker))
  {
    OnePendingShrinks(items, Recovered(items, repository, marker));
  }

  lemma OnePendingLinked(items: Items, c: Candidate, issue: Issue, expected: Option<Kind>, recheck: Recheck,
                         version: Option<Hash>)
    requires OnePending(items)
    ensures OnePending(Linked(items, c, issue, expected, recheck, version))
  {
    OnePendingShrinks(items, Linked(items, c, issue, expected, recheck, version));
  }

  lemma OnePendingUnvalidated(items: Items, id: string)
    requires id in items && OnePending(items)
    ensures OnePending(Unvalidated(items, id))
  {
    OnePendingShrinks(items, Unvalidated(items, id));
  }

  lemma OnePendingStep(s: Sys, e: Event)
    requires Enabled(s, e) && OnePending(s.items)
    ensures OnePending(After(s, e).items)
  {
    match e
    case Reserve(pid, recheck) => OnePendingReserved(s.items, s.procs[pid].doing.c, recheck);
    case Rewrite(items) => OnePendingRewritten(s.items, items);
    case Recover(repository, marker) => OnePendingRecovered(s.items, repository, marker);
    case Link(pid, recheck, version) =>
      var d := s.procs[pid].doing;
      OnePendingLinked(s.items, d.c, d.issue, d.expected, recheck, version);
    case Refute(_, c, _) =>
      if After(s, e).items != s.items {
        OnePendingUnvalidated(s.items, c.issueId);
      }
    case _ => ItemsStay(s, e);
  }

  /** One unresolved repair: no run, however syncs interleave, leaves a repository with two pending small repairs. */
  lemma {:induction false} OneUnresolvedRepair(s: Sys, events: seq<Event>, t: Sys)
    requires Run(s, events, t) && OnePending(s.items)
    ensures OnePending(t.items)
    decreases |events|
  {
    if events != [] {
      OnePendingStep(s, events[0]);
      OneUnresolvedRepair(After(s, events[0]), events[1..], t);
    }
  }

  // ----- each sync creates at most one small repair -----

  /** A sync has created no small repair before it chose one, nor while the chosen one is still to be created. */
  predicate SmallOk(s: Sys, pid: nat, p: Proc) {
    && pid < s.started
    && (forall c :: c in p.selectable ==> c.kind == SmallRepair)
    && ((p.doing.Reserving? || p.doing.Creating?) && p.doing.c.kind == SmallRepair ==>
          p.chosen && SmallCreates(s.log, pid) == 0)
    && (!p.chosen ==> SmallCreates(s.log, pid) == 0)
    && (forall c :: c in p.todo ==> CandidateById(p.snapshot, c.issueId, c.repository) == Some(c))
  }

  ghost predicate OneSmall(s: Sys) {
    && (forall pid :: pid in s.procs ==> SmallOk(s, pid, s.procs[pid]))
    && (forall pid :: pid >= s.started ==> SmallCreates(s.log, pid) == 0)
    && (forall pid :: SmallCreates(s.log, pid) <= 1)
    && ByNumber(s.remote)
  }

  lemma ExaminedSmallOk(p: Proc, c: Candidate, found: Option<Hits>, viewed: Option<Issue>)
    requires c in p.todo && c.issueId in p.snapshot && CandidateById(p.snapshot, c.issueId, c.repository) == Some(c)
    requires found.Some? ==> ByNumber(found.value)
    requires forall d :: d in p.selectable ==> d.kind == SmallRepair
    ensures
      var q := Examined(p, c, found, viewed);
      && (forall d :: d in q.selectable ==> d.kind == SmallRepair)
      && (q.doing.Reserving? && q.doing != p.doing ==> q.doing.c.kind == Proposal)
      && (q.doing.Creating? ==> q.doing == p.doing)
      && q.todo <= p.todo && q.snapshot == p.snapshot && q.chosen == p.chosen
  {
    DecisionsAreGrounded(p.snapshot, c, found);
  }

  /** A step of one process touches no other process. */
  lemma OneMover(s: Sys, t: Sys, pid: nat)
    requires OneSmall(s) && s.started <= t.started && ByNumber(t.remote)
    requires forall other :: other in t.procs && other != pid ==> other in s.procs && t.procs[other] == s.procs[other]
    requires forall other :: other != pid ==> SmallCreates(t.log, other) == SmallCreates(s.log, other)
    requires pid in t.procs ==> SmallOk(t, pid, t.procs[pid])
    requires SmallCreates(t.log, pid) == 0 || (pid < t.started && SmallCreates(t.log, pid) == 1)
    ensures OneSmall(t)
  {
    forall other | other in t.procs ensures SmallOk(t, other, t.procs[other]) {
      assert other != pid ==> SmallOk(s, other, s.procs[other]);
    }
  }

  lemma OneSmallStep(s: Sys, e: Event)
    requires Enabled(s, e) && OneSmall(s)
    ensures OneSmall(After(s, e))
  {
    match e
    case Create(pid, landed, certain) => OneSmallCreate(s, pid, landed, certain);
    case Examine(pid, c, found, viewed) => OneSmallExamine(s, pid, c, found, viewed);
    case StartSync(repository) => OneSmallStart(s, repository);
    case Choose(pid, choice) => OneSmallChoose(s, pid, choice);
    case Refute(pid, c, recheck) => OneSmallRefute(s, pid, c, recheck);
    case Reserve(pid, recheck) => OneSmallReserve(s, pid, recheck);
    case SearchAfter(pid, found) => OneSmallSearch(s, pid, found);
    case Link(pid, recheck, version) => OneSmallLink(s, pid, recheck, version);
    case _ => OneSmallOfOthers(s, e);
  }

  lemma OneSmallReserve(s: Sys, pid: nat, recheck: Recheck)
    requires Enabled(s, Reserve(pid, recheck)) && OneSmall(s)
    ensures OneSmall(After(s, Reserve(pid, recheck)))
  {
    assert SmallOk(s, pid, s.procs[pid]);
    OneMover(s, After(s, Reserve(pid, recheck)), pid);
  }

  lemma OneSmallSearch(s: Sys, pid: nat, found: Option<Hits>)
    requires Enabled(s, SearchAfter(pid, found)) && OneSmall(s)
    ensures OneSmall(After(s, SearchAfter(pid, found)))
  {
    assert SmallOk(s, pid, s.procs[pid]);
    OneMover(s, After(s, SearchAfter(pid, found)), pid);
  }

  lemma OneSmallLink(s: Sys, pid: nat, recheck: Recheck, version: Option<Hash>)
    requires Enabled(s, Link(pid, recheck, version)) && OneSmall(s)
    ensures OneSmall(After(s, Link(pid, recheck, version)))
  {
    assert SmallOk(s, pid, s.procs[pid]);
    OneMover(s, After(s, Link(pid, recheck, version)), pid);
  }

  lemma OneSmallOfOthers(s: Sys, e: Event)
    requires e.Recover? || e.Rewrite? || e.Outsider? || e.Crash?
    requires Enabled(s, e) && OneSmall(s)
    ensures OneSmall(After(s, e))
  {
    OtherStepsCreateNothing(s, e, Digest(""));
    OneMover(s, After(s, e), s.started);
  }

  lemma OneSmallChoose(s: Sys, pid: nat, choice: Option<Candidate>)
    requires Enabled(s, Choose(pid, choice)) && OneSmall(s)
    ensures OneSmall(After(s, Choose(pid, choice)))
  {
    assert SmallOk(s, pid, s.procs[pid]);
    OneMover(s, After(s, Choose(pid, choice)), pid);
  }

  lemma OneSmallRefute(s: Sys, pid: nat, c: Candidate, recheck: Recheck)
    requires Enabled(s, Refute(pid, c, recheck)) && OneSmall(s)
    ensures OneSmall(After(s, Refute(pid, c, recheck)))
  {
    assert SmallOk(s, pid, s.procs[pid]);
    OneMover(s, After(s, Refute(pid, c, recheck)), pid);
  }

  lemma OneSmallStart(s: Sys, repository: string)
    requires OneSmall(s)
    ensures OneSmall(After(s, StartSync(repository)))
  {
    OneMover(s, After(s, StartSync(repository)), s.started);
  }

  lemma OneSmallExamine(s: Sys, pid: nat, c: Candidate, found: Option<Hits>, viewed: Option<Issue>)
    requires Enabled(s, Examine(pid, c, found, viewed)) && OneSmall(s)
    ensures OneSmall(After(s, Examine(pid, c, found, viewed)))
  {
    var p := s.procs[pid];
    assert SmallOk(s, pid, p);
    ExaminedSmallOk(p, c, found, viewed);
    OneMover(s, After(s, Examine(pid, c, found, viewed)), pid);
  }

  lemma OneSmallCreate(s: Sys, pid: nat, landed: Option<Issue>, certain: bool)
    requires Enabled(s, Create(pid, landed, certain)) && OneSmall(s)
    ensures OneSmall(After(s, Create(pid, landed, certain)))
  {
    var t := After(s, Create(pid, landed, certain));
    assert t.log[..|t.log| - 1] == s.log;
    assert SmallOk(s, pid, s.procs[pid]);
    OneMover(s, t, pid);
  }

  lemma {:induction false} OneSmallRun(s: Sys, events: seq<Event>, t: Sys)
    requires Run(s, events, t) && OneSmall(s)
    ensures OneSmall(t)
    decreases |events|
  {
    if events != [] {
      OneSmallStep(s, events[0]);
      OneSmallRun(After(s, events[0]), events[1..], t);
    }
  }

  /** Each sync creates at most one small repair, whatever runs beside it. */
  lemma OneSmallRepairPerSync(items: Items, remote: Hits, events: seq<Event>, t: Sys, pid: nat)
    requires ByNumber(remote) && Run(Initial(items, remote), events, t)
    ensures SmallCreates(t.log, pid) <= 1
  {
    OneSmallRun(Initial(items, remote), events, t);
  }
}
