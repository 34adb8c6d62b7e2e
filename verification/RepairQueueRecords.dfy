/** Keys, stored repair records and routing of work items (engine/repair_queue.py). */
module RepairQueueRecords {
  import opened Wrappers

  datatype Route = Concern | Finding

  /** SHA-256 taken as injective: a digest is the labelled input it was computed from. */
  datatype Hash =
    | ConcernKey(repository: string, identity: Hash)
    | FindingKey(repository: string, identity: Hash)
    | ProposalMarker(key: Hash)
    | LegacyMarker(identity: Hash, evidence: Hash)
    | Digest(s: string)

  datatype Kind = RepairLink | RepairPending | ProposalLink | ProposalPending

  predicate IsPending(kind: Kind) {
    kind == RepairPending || kind == ProposalPending
  }

  datatype LinkState = IssueOpen | IssueClosed | NoState | BadState

  /** A record as found in the state file: not an object, or an object with any members. A member is None when it is
      absent or of the wrong type; `reviewed` tells an absent version from an invalid one. */
  datatype Stored =
    | Garbage
    | Stored(
        repository: Option<string>,
        key: Option<Hash>,
        marker: Option<Hash>,
        evidence: Option<Hash>,
        number: Option<int>,
        url: Option<string>,
        state: LinkState,
        reviewed: Option<Option<Hash>>)

  datatype LinkFields = LinkFields(number: int, url: string, state: LinkState, reviewed: Option<Hash>)

  /** A record in the stable-key shape. */
  datatype Record = Record(key: Hash, repository: string, evidence: Hash, link: Option<LinkFields>)

  function RecordKey(route: Route, repository: string, identity: Hash): Hash {
    if route == Finding then FindingKey(repository, identity) else ConcernKey(repository, identity)
  }

  function DecodeLink(s: Stored): Result<LinkFields>
    requires s.Stored?
  {
    if s.number.None? || s.number.value < 1 then Err("invalid issue number")
    else if s.url.None? || s.url.value == "" || s.state == BadState then Err("invalid url or state")
    else if s.reviewed == Some(None) then Err("invalid reviewed brief version")
    else Ok(LinkFields(s.number.value, s.url.value, s.state, if s.reviewed.Some? then s.reviewed.value else None))
  }

  /** A stored record in the stable-key shape, or why it is not bound to this concern. */
  function Normalize(kind: Kind, s: Stored, repository: string, route: Route, identity: Hash, evidence: Hash)
    : Result<Record>
  {
    var key := RecordKey(route, repository, identity);
    if s.Garbage? || s.repository != Some(repository) then Err("not bound to the requested repository")
    else if s.key.Some? == s.marker.Some? then Err("must carry exactly one of key or marker")
    else if s.key.Some? && (s.key.value != key || s.evidence.None?) then Err("key does not match")
    else if s.marker.Some? && !(route == Concern && s.marker.value == LegacyMarker(identity, evidence))
    then Err("legacy marker does not match")
    else
      var version := if s.key.Some? then s.evidence.value else evidence;
      if IsPending(kind) then Ok(Record(key, repository, version, None))
      else
        var link :- DecodeLink(s);
        Ok(Record(key, repository, version, Some(link)))
  }

  /** The record as it is written back. */
  function Written(r: Record): Stored {
    Stored(Some(r.repository), Some(r.key), None, Some(r.evidence),
           if r.link.Some? then Some(r.link.value.number) else None,
           if r.link.Some? then Some(r.link.value.url) else None,
           if r.link.Some? then r.link.value.state else NoState,
           if r.link.Some? && r.link.value.reviewed.Some? then Some(r.link.value.reviewed) else None)
  }

  /** Normalizing migrates: what it writes back is read as the same record whatever the evidence has become. */
  lemma NormalizeOnce(kind: Kind, s: Stored, repository: string, route: Route, identity: Hash, evidence: Hash,
                      later: Hash)
    requires Normalize(kind, s, repository, route, identity, evidence).Ok?
    ensures
      var r := Normalize(kind, s, repository, route, identity, evidence).value;
      && r.key == RecordKey(route, repository, identity) && r.repository == repository
      && Normalize(kind, Written(r), repository, route, identity, later) == Ok(r)
  {
  }

  /** A record is recognized for at most one repository, route and identity, once it carries its key. */
  lemma RecognizedForOneConcern(kind: Kind, s: Stored, repository: string, route: Route, identity: Hash, evidence: Hash,
                                repository': string, route': Route, identity': Hash, evidence': Hash)
    requires s.Stored? && s.key.Some?
    requires Normalize(kind, s, repository, route, identity, evidence).Ok?
    requires Normalize(kind, s, repository', route', identity', evidence').Ok?
    ensures repository == repository' && route == route' && identity == identity'
  {
  }

  /** What a rescan keeps of a record while the item's identity is unchanged: the stable-key shape, or the record
      verbatim. */
  function Preserved(kind: Kind, s: Stored, route: Route, identity: Hash, evidence: Hash): (p: Stored)
    ensures s.Garbage? ==> p == s
    ensures s.Stored? ==> p.Stored? && p.repository == s.repository
    ensures s.Stored? && s.key.Some? ==> p.key == s.key
    ensures s.Stored? && s.key.None? && p != s ==>
      s.repository.Some? && p.key == Some(RecordKey(route, s.repository.value, identity))
  {
    if s.Garbage? || s.repository.None? then s
    else
      var r := Normalize(kind, s, s.repository.value, route, identity, evidence);
      if r.Ok? then Written(r.value) else s
  }

  // ----- work items and their routing -----

  datatype Status = IsOpen | NotOpen

  /** What routing reads of a work item. `hashes` is None when the item is not routed or its hashes are malformed. */
  datatype Item = Item(
    status: Status,
    hashes: Option<(Route, Hash, Hash)>,
    changedSinceScan: bool,
    withinBound: bool,
    revalidated: Option<(Hash, Hash)>,
    briefParks: bool,
    records: map<Kind, Stored>)

  datatype CandidateKind = SmallRepair | Proposal

  datatype Candidate = Candidate(
    issueId: string,
    identity: Hash,
    evidence: Hash,
    key: Hash,
    repository: string,
    route: Route,
    kind: CandidateKind)

  /** The candidate an open, revalidated work item makes for a repository: a concern outside the small-repair bound is
      a proposal, a finding outside it is nothing. */
  function Classify(id: string, item: Item, repository: string): (c: Option<Candidate>)
    ensures c.Some? ==>
      && item.hashes == Some((c.value.route, c.value.identity, c.value.evidence))
      && c.value.key == RecordKey(c.value.route, repository, c.value.identity)
      && c.value.issueId == id && c.value.repository == repository
  {
    if item.status != IsOpen || item.hashes.None? then None
    else
      var (route, identity, evidence) := item.hashes.value;
      var key := RecordKey(route, repository, identity);
      if route == Concern && item.changedSinceScan then None
      else if route == Finding && !item.withinBound then None
      else if item.revalidated != Some((key, evidence)) then None
      else Some(Candidate(id, identity, evidence, key, repository, route,
                          if route == Concern && !item.withinBound then Proposal else SmallRepair))
  }

  datatype Lane = Lane(link: Kind, pending: Kind)

  function LaneFor(kind: CandidateKind): Lane {
    if kind == Proposal then Lane(ProposalLink, ProposalPending) else Lane(RepairLink, RepairPending)
  }

  // ----- issue bodies -----

  /** A line of an issue body: one of the marker comments, or anything else. */
  datatype Line = KeyLine(h: Hash) | FindingLine(h: Hash) | ProposalLine(h: Hash) | LegacyLine(h: Hash) | Other

  function MarkerLine(c: Candidate): Line {
    if c.kind == Proposal then ProposalLine(ProposalMarker(c.key))
    else if c.route == Finding then FindingLine(c.key)
    else KeyLine(c.key)
  }

  /** The body carries the candidate's own lane line, or its current legacy line. */
  predicate CarriesMarker(body: seq<Line>, c: Candidate) {
    || MarkerLine(c) in body
    || (c.route == Concern && c.kind == SmallRepair && LegacyLine(LegacyMarker(c.identity, c.evidence)) in body)
  }

  /** A marker line identifies the key and the lane: two candidates that share one share both. */
  lemma MarkerLineIdentifies(a: Candidate, b: Candidate)
    requires a.key == RecordKey(a.route, a.repository, a.identity)
    requires b.key == RecordKey(b.route, b.repository, b.identity)
    requires MarkerLine(a) == MarkerLine(b)
    ensures a.key == b.key && a.kind == b.kind && a.repository == b.repository && a.identity == b.identity
  {
  }
}
