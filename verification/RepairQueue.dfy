/** The locked transactions and the decisions of repair-queue sync and recover (app/commands/repair_queue.py). */
module RepairQueue {
  import opened Wrappers
  import opened Sets
  import opened RepairQueueRecords

  type Items = map<string, Item>

  /** A GitHub issue as a search or a view returns it. */
  datatype Issue = Issue(number: int, url: string, state: LinkState, body: seq<Line>)

  /** What re-reading the source says under the lock. */
  datatype Recheck = SourceCurrent | SourceKept | SourceStale

  // ----- reading the state -----

  function CandidateById(items: Items, id: string, repository: string): Option<Candidate> {
    if id in items then Classify(id, items[id], repository) else None
  }

  predicate HoldsAny(item: Item) {
    item.records != map[]
  }

  /** Some item of this route and identity holds a link or pending record, recognized or not. */
  ghost predicate Claimed(items: Items, route: Route, identity: Hash) {
    exists id :: id in items && Identified(items[id], route, identity) && HoldsAny(items[id])
  }

  predicate Identified(item: Item, route: Route, identity: Hash) {
    item.hashes.Some? && item.hashes.value.0 == route && item.hashes.value.1 == identity
  }

  /** Other items that hold a record for the candidate's key. */
  function Peers(items: Items, c: Candidate): set<string> {
    set id | id in items && id != c.issueId && HoldsAny(items[id])
             && items[id].hashes.Some?
             && RecordKey(items[id].hashes.value.0, c.repository, items[id].hashes.value.1) == c.key
  }

  function Holders(items: Items, c: Candidate): set<string> {
    set id | id in items && Classify(id, items[id], c.repository).Some?
             && Classify(id, items[id], c.repository).value.key == c.key
  }

  predicate KeyClaimedElsewhere(items: Items, c: Candidate) {
    |Holders(items, c)| > 1 || Peers(items, c) != {}
  }

  /** Items whose pending repair for the repository is unresolved, or unrecognized. */
  function PendingRepairs(items: Items, repository: string): set<string> {
    set id | id in items && RepairPending in items[id].records
             && (items[id].records[RepairPending].Garbage?
                 || items[id].records[RepairPending].repository == Some(repository))
  }

  function PendingBase(c: Candidate): Stored {
    Stored(Some(c.repository), Some(c.key), None, Some(c.evidence), None, None, NoState, None)
  }

  // ----- what each locked section does -----

  predicate MayReserve(items: Items, c: Candidate, recheck: Recheck) {
    && c.issueId in items
    && CandidateById(items, c.issueId, c.repository) == Some(c)
    && !HoldsAny(items[c.issueId])
    && !KeyClaimedElsewhere(items, c)
    && (c.kind == SmallRepair ==> PendingRepairs(items, c.repository) == {})
    && recheck == SourceCurrent
    && !items[c.issueId].briefParks
  }

  function WithRecord(items: Items, id: string, kind: Kind, s: Stored): Items
    requires id in items
  {
    items[id := items[id].(records := items[id].records[kind := s])]
  }

  function Unvalidated(items: Items, id: string): Items
    requires id in items
  {
    items[id := items[id].(revalidated := None)]
  }

  /** The candidate passed every check that comes before the source recheck. */
  predicate ReachesRecheck(items: Items, c: Candidate) {
    && c.issueId in items
    && CandidateById(items, c.issueId, c.repository) == Some(c)
    && !HoldsAny(items[c.issueId])
    && !KeyClaimedElsewhere(items, c)
    && (c.kind == SmallRepair ==> PendingRepairs(items, c.repository) == {})
  }

  function Reserved(items: Items, c: Candidate, recheck: Recheck): Items {
    if MayReserve(items, c, recheck) then WithRecord(items, c.issueId, LaneFor(c.kind).pending, PendingBase(c))
    else if ReachesRecheck(items, c) && recheck == SourceStale then Unvalidated(items, c.issueId)
    else items
  }

  function LinkRecord(c: Candidate, issue: Issue, version: Option<Hash>): Stored {
    Stored(Some(c.repository), Some(c.key), None, Some(c.evidence), Some(issue.number), Some(issue.url), issue.state,
           if version.Some? then Some(version) else None)
  }

  predicate MayLink(items: Items, c: Candidate, expected: Option<Kind>, recheck: Recheck) {
    && c.issueId in items
    && CandidateById(items, c.issueId, c.repository) == Some(c)
    && recheck == SourceCurrent
    && (expected.Some? ==> Recognized(items, c, expected.value).Some?)
  }

  /** The candidate's own record of a kind, when it is present and bound to the candidate. */
  function Recognized(items: Items, c: Candidate, kind: Kind): Option<Record>
    requires c.issueId in items
  {
    var records := items[c.issueId].records;
    if kind !in records then None
    else
      var r := Normalize(kind, records[kind], c.repository, c.route, c.identity, c.evidence);
      if r.Ok? then Some(r.value) else None
  }

  function Linked(items: Items, c: Candidate, issue: Issue, expected: Option<Kind>, recheck: Recheck,
                  version: Option<Hash>)
    : Items
  {
    if MayLink(items, c, expected, recheck) then
      var lane := LaneFor(c.kind);
      var records := items[c.issueId].records;
      var linked := records[lane.link := LinkRecord(c, issue, version)] - {lane.pending};
      items[c.issueId := items[c.issueId].(records := linked)]
    else if c.issueId in items && CandidateById(items, c.issueId, c.repository) == Some(c) && recheck == SourceStale
    then Unvalidated(items, c.issueId)
    else items
  }

  /** A pending record matches by its literal key or marker, or by its normalized key or proposal marker. */
  predicate PendingMatches(item: Item, kind: Kind, repository: string, marker: Hash) {
    && IsPending(kind) && kind in item.records
    && var s := item.records[kind];
       && s.Stored? && s.repository == Some(repository)
       && (|| s.key == Some(marker) || s.marker == Some(marker)
           || (&& item.hashes.Some?
               && var h := item.hashes.value;
                  var r := Normalize(kind, s, repository, h.0, h.1, h.2);
                  && r.Ok?
                  && (|| marker == r.value.key
                      || (kind == ProposalPending && marker == ProposalMarker(r.value.key)))))
  }

  /** The item's pending records a recover call clears. */
  function Matched(item: Item, repository: string, marker: Hash): set<Kind> {
    set kind | kind in item.records && PendingMatches(item, kind, repository, marker)
  }

  predicate NothingMatches(item: Item, repository: string, marker: Hash) {
    Matched(item, repository, marker) == {}
  }

  function RecoveredItem(item: Item, repository: string, marker: Hash): Item {
    item.(records := item.records - Matched(item, repository, marker))
  }

  /** An item is left as it was exactly when none of its records matches. */
  lemma RecoveredUnchanged(item: Item, repository: string, marker: Hash)
    ensures RecoveredItem(item, repository, marker) == item <==> Matched(item, repository, marker) == {}
  {
    var matched := Matched(item, repository, marker);
    assert matched == {} ==> item.records - matched == item.records;
    assert forall kind :: kind in matched ==> kind in item.records && kind !in item.records - matched;
  }

  function Recovered(items: Items, repository: string, marker: Hash): Items {
    map id | id in items :: RecoveredItem(items[id], repository, marker)
  }

  /** The records a recover call clears among the listed items. */
  function ClearedRecords(items: Items, ids: set<string>, repository: string, marker: Hash): set<(string, Kind)> {
    set id, kind | id in ids && id in items && kind in Matched(items[id], repository, marker) :: (id, kind)
  }

  function Tagged(id: string, kinds: set<Kind>): set<(string, Kind)> {
    set kind | kind in kinds :: (id, kind)
  }

  lemma ClearedSplits(items: Items, done: set<string>, id: string, repository: string, marker: Hash)
    requires id in items
    ensures ClearedRecords(items, done + {id}, repository, marker)
         == ClearedRecords(items, done, repository, marker) + Tagged(id, Matched(items[id], repository, marker))
  {
  }

  lemma ClearedOneMore(items: Items, done: set<string>, id: string, repository: string, marker: Hash)
    requires id in items && id !in done
    ensures |ClearedRecords(items, done + {id}, repository, marker)|
         == |ClearedRecords(items, done, repository, marker)| + |Matched(items[id], repository, marker)|
  {
    var matched := Matched(items[id], repository, marker);
    var before := ClearedRecords(items, done, repository, marker);
    ClearedSplits(items, done, id, repository, marker);
    TagCount(id, matched);
    assert before !! Tagged(id, matched);
  }

  lemma {:induction false} TagCount(id: string, kinds: set<Kind>)
    ensures |Tagged(id, kinds)| == |kinds|
  {
    if kinds != {} {
      var k :| k in kinds;
      TagCount(id, kinds - {k});
      assert Tagged(id, kinds) == Tagged(id, kinds - {k}) + {(id, k)};
    }
  }

  /** The items once those of `ids` are as in `goal`. */
  function Towards(items: Items, goal: Items, ids: set<string>): Items {
    map id | id in items :: if id in ids && id in goal then goal[id] else items[id]
  }

  lemma TowardsStep(items: Items, goal: Items, todo: set<string>, id: string)
    requires todo <= items.Keys == goal.Keys && id in todo
    ensures
      var before := Towards(items, goal, items.Keys - todo);
      && id in before && before[id] == items[id]
      && Towards(items, goal, items.Keys - (todo - {id})) == before[id := goal[id]]
  {
  }

  lemma TowardsEnds(items: Items, goal: Items)
    requires goal.Keys == items.Keys
    ensures Towards(items, goal, items.Keys - items.Keys) == items
    ensures Towards(items, goal, items.Keys - {}) == goal
  {
  }

  lemma ClearedStep(items: Items, todo: set<string>, id: string, repository: string, marker: Hash)
    requires todo <= items.Keys && id in todo
    ensures |ClearedRecords(items, items.Keys - (todo - {id}), repository, marker)|
         == |ClearedRecords(items, items.Keys - todo, repository, marker)| + |Matched(items[id], repository, marker)|
  {
    assert items.Keys - (todo - {id}) == items.Keys - todo + {id};
    ClearedOneMore(items, items.Keys - todo, id, repository, marker);
  }

  lemma ClearedEnds(items: Items, repository: string, marker: Hash)
    ensures |ClearedRecords(items, items.Keys - items.Keys, repository, marker)| == 0
    ensures items.Keys - {} == items.Keys
  {
    assert items.Keys - items.Keys == {};
    assert ClearedRecords(items, {}, repository, marker) == {};
  }

  /** The state file, changed only inside these locked sections. */
  class StateFile {
    var items: Items

    constructor (initial: Items)
      ensures items == initial
    {
      items := initial;
    }

    /** `_create_once` under the lock: write the pending record, or refuse. */
    method Reserve(c: Candidate, recheck: Recheck) returns (reserved: bool)
      modifies this
      ensures reserved == MayReserve(old(items), c, recheck)
      ensures items == Reserved(old(items), c, recheck)
    {
      var current := CandidateById(items, c.issueId, c.repository);
      if current != Some(c) || HoldsAny(items[c.issueId]) || KeyClaimedElsewhere(items, c) {
        return false;
      }
      if c.kind == SmallRepair && PendingRepairs(items, c.repository) != {} {
        return false;
      }
      var proceed := RecheckLocked(c.issueId, recheck);
      if !proceed {
        return false;
      }
      if items[c.issueId].briefParks {
        return false;
      }
      var item := items[c.issueId];
      items := items[c.issueId := item.(records := item.records[LaneFor(c.kind).pending := PendingBase(c)])];
      reserved := true;
    }

    /** Proceed only on current source evidence; evidence that changed loses its revalidation. */
    method RecheckLocked(id: string, recheck: Recheck) returns (current: bool)
      requires id in items
      modifies this
      ensures current == (recheck == SourceCurrent)
      ensures items == if recheck == SourceStale then Unvalidated(old(items), id) else old(items)
    {
      if recheck == SourceStale {
        items := items[id := items[id].(revalidated := None)];
      }
      current := recheck == SourceCurrent;
    }

    /** `_write_link` under the lock: record the issue and drop the lane's pending record, unless the result is
        stale. */
    method WriteLink(c: Candidate, issue: Issue, expected: Option<Kind>, recheck: Recheck, version: Option<Hash>)
      returns (linked: bool)
      modifies this
      ensures linked == MayLink(old(items), c, expected, recheck)
      ensures items == Linked(old(items), c, issue, expected, recheck, version)
    {
      if CandidateById(items, c.issueId, c.repository) != Some(c) {
        return false;
      }
      var proceed := RecheckLocked(c.issueId, recheck);
      if !proceed {
        return false;
      }
      if expected.Some? && Recognized(items, c, expected.value).None? {
        return false;
      }
      var lane := LaneFor(c.kind);
      var item := items[c.issueId];
      var records := item.records[lane.link := LinkRecord(c, issue, version)] - {lane.pending};
      items := items[c.issueId := item.(records := records)];
      linked := true;
    }

    /** `_recover`: clear every pending record of the repository that matches the marker, and count them. */
    method Recover(repository: string, marker: Hash) returns (cleared: nat)
      modifies this
      ensures items == Recovered(old(items), repository, marker)
      ensures cleared == |ClearedRecords(old(items), old(items).Keys, repository, marker)|
    {
      ghost var goal := Recovered(items, repository, marker);
      cleared := ClearEach(repository, marker, goal);
    }

    method ClearEach(repository: string, marker: Hash, ghost goal: Items) returns (cleared: nat)
      requires goal.Keys == items.Keys
      requires forall id :: id in items ==> goal[id] == RecoveredItem(items[id], repository, marker)
      modifies this
      ensures items == goal
      ensures cleared == |ClearedRecords(old(items), old(items).Keys, repository, marker)|
    {
      ghost var before := items;
      var todo := items.Keys;
      TowardsEnds(before, goal);
      ClearedEnds(before, repository, marker);
      cleared := 0;
      while todo != {}
        invariant todo <= before.Keys
        invariant items == Towards(before, goal, before.Keys - todo)
        invariant cleared == |ClearedRecords(before, before.Keys - todo, repository, marker)|
        decreases |todo|
      {
        var id :| id in todo;
        TowardsStep(before, goal, todo, id);
        ClearedStep(before, todo, id, repository, marker);
        todo := todo - {id};
        var n := ClearItem(id, repository, marker);
        cleared := cleared + n;
      }
    }

    method ClearItem(id: string, repository: string, marker: Hash) returns (cleared: nat)
      requires id in items
      modifies this
      ensures items == old(items)[id := RecoveredItem(old(items)[id], repository, marker)]
      ensures cleared == |Matched(old(items)[id], repository, marker)|
    {
      var matched := Matched(items[id], repository, marker);
      items := items[id := items[id].(records := items[id].records - matched)];
      cleared := |matched|;
    }
  }

  // ----- what sync decides about one candidate -----

  datatype Decision =
    | Skip
    | ReadLink(number: int, expected: Option<Kind>)
    | Adopt(issue: Issue, expected: Option<Kind>)
    | Select
    | CreateProposal

  type Hits = map<int, Issue>

  predicate ByNumber(found: Hits) {
    forall n :: n in found ==> found[n].number == n
  }

  function Verified(c: Candidate, found: Hits): Hits {
    map n | n in found && CarriesMarker(found[n].body, c) :: found[n]
  }

  /** The numbers other items' links for the key record; None when some peer record is unresolved or unrecognized. */
  function PeerLinks(items: Items, c: Candidate): Option<set<int>> {
    var peers := Peers(items, c);
    if exists id :: id in peers && !(items[id].records.Keys <= {LaneFor(c.kind).link} && PeerNumber(items, id, c).Some?)
    then None
    else Some(set id | id in peers && PeerNumber(items, id, c).Some? :: PeerNumber(items, id, c).value)
  }

  function PeerNumber(items: Items, id: string, c: Candidate): Option<int>
    requires id in items
  {
    var link := LaneFor(c.kind).link;
    if link !in items[id].records || items[id].hashes.None? then None
    else
      var h := items[id].hashes.value;
      var r := Normalize(link, items[id].records[link], c.repository, h.0, h.1, h.2);
      if r.Ok? && r.value.link.Some? then Some(r.value.link.value.number) else None
  }

  /** `_sync_one` after the source was found current: what the candidate's records, its peers' and the search call
      for. */
  function Decide(items: Items, c: Candidate, found: Option<Hits>): Decision
    requires c.issueId in items
  {
    var records := items[c.issueId].records;
    var lane := LaneFor(c.kind);
    if exists kind :: kind in records && kind !in {lane.link, lane.pending} then Skip
    else if (lane.link in records && Recognized(items, c, lane.link).None?)
            || (lane.pending in records && Recognized(items, c, lane.pending).None?) then Skip
    else if lane.link in records then
      var link := Recognized(items, c, lane.link).value.link;
      if link.Some? then ReadLink(link.value.number, Some(lane.link)) else Skip
    else if lane.pending !in records && Peers(items, c) != {} then
      var numbers := PeerLinks(items, c);
      if numbers.None? || |numbers.value| != 1 then Skip
      else ReadLink(Only(numbers.value), None)
    else if found.None? then Skip
    else DecideByHits(c, lane.pending in records, found.value)
  }

  /** The search half of the decision. A hit that carries no marker line of the candidate's own never counts. */
  function DecideByHits(c: Candidate, pending: bool, found: Hits): Decision {
    var matches := Verified(c, found);
    if found != map[] && matches == map[] then Skip
    else if pending then
      if |matches| == 1 then Adopt(matches[Only(matches.Keys)], Some(LaneFor(c.kind).pending)) else Skip
    else if matches != map[] && c.route == Finding then Skip
    else if |matches| == 1 then Adopt(matches[Only(matches.Keys)], None)
    else if matches != map[] then Skip
    else if c.kind != Proposal then Select
    else CreateProposal
  }

  // ----- where an adopted number can come from -----

  /** A record for the candidate's key, on this or another item, that carries the number. */
  predicate RecordedUnderKey(items: Items, c: Candidate, number: int) {
    exists id, kind :: id in items && kind in items[id].records && BoundLink(items[id], kind, c, number)
  }

  predicate BoundLink(item: Item, kind: Kind, c: Candidate, number: int)
    requires kind in item.records
  {
    && item.hashes.Some?
    && RecordKey(item.hashes.value.0, c.repository, item.hashes.value.1) == c.key
    && var h := item.hashes.value;
       var r := Normalize(kind, item.records[kind], c.repository, h.0, h.1, h.2);
       r.Ok? && r.value.key == c.key && r.value.link.Some? && r.value.link.value.number == number
  }

  lemma PeerNumberIsBound(items: Items, c: Candidate, id: string, number: int)
    requires id in Peers(items, c) && PeerNumber(items, id, c) == Some(number)
    ensures RecordedUnderKey(items, c, number)
  {
    assert BoundLink(items[id], LaneFor(c.kind).link, c, number);
  }

  /** What sync decides: only an issue that is the single hit with the candidate's own marker line is adopted, only a
      number already recorded under the key is read, and a create is proposed only with no record and no hit at all. */
  lemma DecisionsAreGrounded(items: Items, c: Candidate, found: Option<Hits>)
    requires c.issueId in items && CandidateById(items, c.issueId, c.repository) == Some(c)
    requires found.Some? ==> ByNumber(found.value)
    ensures
      match Decide(items, c, found)
      case Skip => true
      case ReadLink(n, expected) =>
        RecordedUnderKey(items, c, n) && (expected.Some? ==> Recognized(items, c, expected.value).Some?)
      case Adopt(issue, expected) =>
        && found.Some? && issue.number in found.value && found.value[issue.number] == issue
        && CarriesMarker(issue.body, c)
        && (forall n :: n in found.value && CarriesMarker(found.value[n].body, c) ==> n == issue.number)
        && (expected.None? ==> c.route == Concern)
      case Select =>
        c.kind == SmallRepair && found == Some(map[]) && !HoldsAny(items[c.issueId]) && Peers(items, c) == {}
      case CreateProposal =>
        c.kind == Proposal && found == Some(map[]) && !HoldsAny(items[c.issueId]) && Peers(items, c) == {}
  {
    var d := Decide(items, c, found);
    var lane := LaneFor(c.kind);
    if d.ReadLink? {
      if d.expected.Some? {
        assert BoundLink(items[c.issueId], lane.link, c, d.number);
      } else {
        var numbers := PeerLinks(items, c).value;
        assert d.number in numbers;
        var id :| id in Peers(items, c) && PeerNumber(items, id, c) == Some(d.number);
        PeerNumberIsBound(items, c, id, d.number);
      }
    } else if d.Adopt? {
      var matches := Verified(c, found.value);
      var n := Only(matches.Keys);
      assert n in matches.Keys && d.issue == found.value[n] && n == d.issue.number;
      forall n | n in found.value && CarriesMarker(found.value[n].body, c) ensures n == d.issue.number {
        assert n in matches.Keys;
      }
    } else if d.Select? || d.CreateProposal? {
      assert items[c.issueId].records.Keys == {};
    }
  }
}
