/** The scheduler's persisted facts and their JSON form (engine/repair_cycle.py). */
module CycleRecords {
  import opened Wrappers
  import Text

  /** A JSON value. `Amount`, `Minute` and `Instant` stand for the strings `str(Decimal)` and
      `isoformat` write: each is a string to the decoders, and each format is injective. */
  datatype Json =
    | Null
    | Flag(b: bool)
    | Int(n: int)
    | Amount(x: real)
    | Minute(minute: int)
    | Instant(time: int)
    | Text(s: string)
    | List(items: seq<Json>)
    | Obj(fields: map<Key, Json>)

  /** The member names of the persisted objects. */
  datatype Key =
    | AttemptIdKey
    | WindowStartKey
    | DeadlineKey
    | CallLimitKey
    | CostCapUsdKey
    | PhaseKey
    | SessionIdKey
    | RepositoryKey
    | RepoRootKey
    | PriorWorktreesKey
    | OutcomeKey
    | PullRequestsKey
    | IssuesKey
    | WorktreesKey
    | IssueIdKey
    | KeyKey
    | RevisionKey
    | CurrentLeaseKey
    | ParkedReasonKey
    | ObservationCallsKey
    | AttemptFailureKey
    | DisposedAttemptKey
    | ConsumedCostUsdKey
    | ConsumedCallsKey
    | ReservedCostUsdKey
    | ReservedCallsKey
    | DispatchKey
    | AuthorityKey
    | AttemptHistoryKey
    | LeaseKey
    | DisposedKey

  datatype Lease = Lease(attemptId: string, window: int, deadline: int, callLimit: int, costCap: real)

  datatype Phase = Intent | Returned | Unknown | Settled

  datatype Dispatch = Dispatch(
    attemptId: string,
    phase: Phase,
    sessionId: Option<string>,
    repository: Option<string>,
    repoRoot: Option<string>,
    priorWorktrees: seq<string>,
    outcome: Option<string>,
    pullRequests: seq<string>,
    issues: seq<string>,
    worktrees: seq<string>)

  /** The work item, key and configuration revision an attempt was authorized for. */
  datatype Bound = Bound(issueId: string, key: string, revision: string)

  datatype Cycle = Cycle(
    lease: Option<Lease>,
    parked: Option<string>,
    observationCalls: int,
    failure: Option<string>,
    disposedAttempt: Option<string>,
    consumedCost: real,
    consumedCalls: int,
    reservedCost: real,
    reservedCalls: int,
    dispatch: Option<Dispatch>,
    authority: Option<Bound>,
    history: seq<Json>)

  const EMPTY := Cycle(None, None, 0, None, None, 0.0, 0, 0.0, 0, None, None, [])

  // ----- encoding -----

  function OptText(t: Option<string>): Json {
    if t.Some? then Text(t.value) else Null
  }

  function Texts(ts: seq<string>): Json {
    List(seq(|ts|, i requires 0 <= i < |ts| => Text(ts[i])))
  }

  function PhaseName(p: Phase): string {
    match p
    case Intent => "intent"
    case Returned => "returned"
    case Unknown => "unknown"
    case Settled => "settled"
  }

  function EncodeLease(l: Lease): Json {
    Obj(map[
      AttemptIdKey := Text(l.attemptId),
      WindowStartKey := Minute(l.window),
      DeadlineKey := Instant(l.deadline),
      CallLimitKey := Int(l.callLimit),
      CostCapUsdKey := Amount(l.costCap)])
  }

  const DISPATCH_KEYS := {
    AttemptIdKey, PhaseKey, SessionIdKey, RepositoryKey, RepoRootKey, PriorWorktreesKey, OutcomeKey,
    PullRequestsKey, IssuesKey, WorktreesKey}

  function DispatchMember(d: Dispatch, key: Key): Json {
    match key
    case AttemptIdKey => Text(d.attemptId)
    case PhaseKey => Text(PhaseName(d.phase))
    case SessionIdKey => OptText(d.sessionId)
    case RepositoryKey => OptText(d.repository)
    case RepoRootKey => OptText(d.repoRoot)
    case PriorWorktreesKey => Texts(d.priorWorktrees)
    case OutcomeKey => OptText(d.outcome)
    case PullRequestsKey => Texts(d.pullRequests)
    case IssuesKey => Texts(d.issues)
    case WorktreesKey => Texts(d.worktrees)
    case _ => Null
  }

  function EncodeDispatch(d: Dispatch): Json {
    Obj(map key | key in DISPATCH_KEYS :: DispatchMember(d, key))
  }

  function EncodeBound(b: Bound): Json {
    Obj(map[IssueIdKey := Text(b.issueId), KeyKey := Text(b.key), RevisionKey := Text(b.revision)])
  }

  function EncodeOptLease(l: Option<Lease>): Json {
    if l.Some? then EncodeLease(l.value) else Null
  }

  function EncodeOptDispatch(d: Option<Dispatch>): Json {
    if d.Some? then EncodeDispatch(d.value) else Null
  }

  function EncodeOptBound(b: Option<Bound>): Json {
    if b.Some? then EncodeBound(b.value) else Null
  }

  const CYCLE_KEYS := {
    CurrentLeaseKey, ParkedReasonKey, ObservationCallsKey, AttemptFailureKey, DisposedAttemptKey,
    ConsumedCostUsdKey, ConsumedCallsKey, ReservedCostUsdKey, ReservedCallsKey, DispatchKey, AuthorityKey,
    AttemptHistoryKey}

  function CycleMember(c: Cycle, key: Key): Json {
    match key
    case CurrentLeaseKey => EncodeOptLease(c.lease)
    case ParkedReasonKey => OptText(c.parked)
    case ObservationCallsKey => Int(c.observationCalls)
    case AttemptFailureKey => OptText(c.failure)
    case DisposedAttemptKey => OptText(c.disposedAttempt)
    case ConsumedCostUsdKey => Amount(c.consumedCost)
    case ConsumedCallsKey => Int(c.consumedCalls)
    case ReservedCostUsdKey => Amount(c.reservedCost)
    case ReservedCallsKey => Int(c.reservedCalls)
    case DispatchKey => EncodeOptDispatch(c.dispatch)
    case AuthorityKey => EncodeOptBound(c.authority)
    case AttemptHistoryKey => List(c.history)
    case _ => Null
  }

  function ToMapping(c: Cycle): Fields {
    map key | key in CYCLE_KEYS :: CycleMember(c, key)
  }

  // ----- decoding -----

  type Fields = map<Key, Json>

  function Get(m: Fields, key: Key, default: Json): Json {
    if key in m then m[key] else default
  }

  function RequiredText(m: Fields, key: Key): Result<string> {
    var v := Get(m, key, Null);
    if v.Text? && Text.Strip(v.s) != "" then Ok(Text.Strip(v.s)) else Err("invalid field")
  }

  function OptionalText(m: Fields, key: Key): Result<Option<string>> {
    var v := Get(m, key, Null);
    if v.Null? then Ok(None)
    else if v.Text? && Text.Strip(v.s) != "" then Ok(Some(Text.Strip(v.s)))
    else Err("invalid field")
  }

  function TextList(m: Fields, key: Key): Result<seq<string>> {
    var v := Get(m, key, List([]));
    if v.List? && (forall i :: 0 <= i < |v.items| ==> v.items[i].Text? && v.items[i].s != "")
    then Ok(seq(|v.items|, i requires 0 <= i < |v.items| && v.items[i].Text? => v.items[i].s))
    else Err("invalid field")
  }

  function Count(m: Fields, key: Key): Result<int> {
    var v := Get(m, key, Int(0));
    if v.Int? && v.n >= 0 then Ok(v.n) else Err("invalid field")
  }

  function PositiveInt(m: Fields, key: Key): Result<int> {
    var v := Get(m, key, Null);
    if v.Int? && v.n >= 1 then Ok(v.n) else Err("invalid field")
  }

  function Decimal(j: Json): Option<real> {
    if j.Int? then Some(j.n as real) else if j.Amount? then Some(j.x) else None
  }

  function Cost(m: Fields, key: Key): Result<real> {
    var v := Decimal(Get(m, key, Amount(0.0)));
    if v.Some? && v.value >= 0.0 then Ok(v.value) else Err("invalid field")
  }

  function DecodeLease(m: Fields): Result<Lease> {
    var cap := Decimal(Get(m, CostCapUsdKey, Null));
    var deadline := Get(m, DeadlineKey, Null);
    var window := Get(m, WindowStartKey, Null);
    if cap.None? || cap.value <= 0.0 then Err("USD cost cap")
    else if !deadline.Instant? then Err("deadline is required")
    else if !window.Minute? then Err("window start")
    else
      var id :- RequiredText(m, AttemptIdKey);
      var calls :- PositiveInt(m, CallLimitKey);
      Ok(Lease(id, window.minute, deadline.time, calls, cap.value))
  }

  function DecodePhase(m: Fields): Result<Phase> {
    var name :- RequiredText(m, PhaseKey);
    if name == "intent" then Ok(Intent)
    else if name == "returned" then Ok(Returned)
    else if name == "unknown" then Ok(Unknown)
    else if name == "settled" then Ok(Settled)
    else Err("dispatch phase is invalid")
  }

  /** A dispatch record, once every member decoded. */
  function Assembled(
    id: Result<string>, phase: Result<Phase>, session: Result<Option<string>>,
    repository: Result<Option<string>>, root: Result<Option<string>>, prior: Result<seq<string>>,
    outcome: Result<Option<string>>, prs: Result<seq<string>>, issues: Result<seq<string>>,
    worktrees: Result<seq<string>>): Result<Dispatch>
  {
    if id.Ok? && phase.Ok? && session.Ok? && repository.Ok? && root.Ok? && prior.Ok? && outcome.Ok?
       && prs.Ok? && issues.Ok? && worktrees.Ok?
    then Ok(Dispatch(id.value, phase.value, session.value, repository.value, root.value, prior.value,
                     outcome.value, prs.value, issues.value, worktrees.value))
    else Err("dispatch record is invalid")
  }

  function DecodeDispatchFields(m: Fields): Result<Dispatch> {
    Assembled(
      RequiredText(m, AttemptIdKey), DecodePhase(m), OptionalText(m, SessionIdKey),
      OptionalText(m, RepositoryKey), OptionalText(m, RepoRootKey), TextList(m, PriorWorktreesKey),
      OptionalText(m, OutcomeKey), TextList(m, PullRequestsKey), TextList(m, IssuesKey),
      TextList(m, WorktreesKey))
  }

  /** A missing record reads as an unknown dispatch; a recorded one must match the current lease. */
  function DecodeDispatch(m: Fields, lease: Option<Lease>): Result<Option<Dispatch>> {
    if DispatchKey !in m then
      Ok(if lease.None? then None
         else Some(Dispatch(lease.value.attemptId, Unknown, None, None, None, [], None, [], [], [])))
    else if m[DispatchKey].Null? then Ok(None)
    else if !m[DispatchKey].Obj? then Err("dispatch record is invalid")
    else
      var d :- DecodeDispatchFields(m[DispatchKey].fields);
      if lease.Some? && d.attemptId == lease.value.attemptId then Ok(Some(d))
      else Err("dispatch record does not match the current lease")
  }

  /** A malformed authority record reads as unbound instead of failing the decoder. */
  function DecodeBound(v: Json): Option<Bound> {
    if v.Obj? && v.fields.Keys == {IssueIdKey, KeyKey, RevisionKey}
       && (forall k :: k in v.fields ==> v.fields[k].Text? && v.fields[k].s != "")
    then Some(Bound(v.fields[IssueIdKey].s, v.fields[KeyKey].s, v.fields[RevisionKey].s))
    else None
  }

  predicate ValidEntry(e: Json) {
    && e.Obj?
    && Get(e.fields, LeaseKey, Null).Obj?
    && DecodeLease(Get(e.fields, LeaseKey, Null).fields).Ok?
    && var d := Get(e.fields, DispatchKey, Null);
       d.Null? || (d.Obj? && DecodeDispatchFields(d.fields).Ok?)
  }

  function DecodeHistory(m: Fields): Result<seq<Json>> {
    var v := Get(m, AttemptHistoryKey, List([]));
    if v.List? && (forall i :: 0 <= i < |v.items| ==> ValidEntry(v.items[i])) then Ok(v.items)
    else Err("attempt history")
  }

  function DecodeCurrentLease(v: Json): Result<Option<Lease>> {
    if v.Null? then Ok(None)
    else if !v.Obj? then Err("current lease is invalid")
    else if v.fields == map[] then Ok(None)
    else
      var l :- DecodeLease(v.fields);
      Ok(Some(l))
  }

  function DecodeParked(m: Fields): Result<Option<string>> {
    var v := Get(m, ParkedReasonKey, Null);
    if v.Null? then Ok(None) else if v.Text? then Ok(Some(v.s)) else Err("parked reason is invalid")
  }

  /** Scheduler state, once every member decoded. */
  function AssembledCycle(
    lease: Option<Lease>, parked: Result<Option<string>>, observations: Result<int>,
    failure: Result<Option<string>>, disposed: Result<Option<string>>, consumedCost: Result<real>,
    consumedCalls: Result<int>, reservedCost: Result<real>, reservedCalls: Result<int>,
    dispatch: Result<Option<Dispatch>>, authority: Option<Bound>, history: Result<seq<Json>>): Result<Cycle>
  {
    if parked.Ok? && observations.Ok? && failure.Ok? && disposed.Ok? && consumedCost.Ok?
       && consumedCalls.Ok? && reservedCost.Ok? && reservedCalls.Ok? && dispatch.Ok? && history.Ok?
    then Ok(Cycle(lease, parked.value, observations.value, failure.value, disposed.value,
                  consumedCost.value, consumedCalls.value, reservedCost.value, reservedCalls.value,
                  dispatch.value, authority, history.value))
    else Err("cycle state is invalid")
  }

  function FromMapping(m: Fields): Result<Cycle> {
    var lease :- DecodeCurrentLease(Get(m, CurrentLeaseKey, Null));
    AssembledCycle(
      lease, DecodeParked(m), Count(m, ObservationCallsKey), OptionalText(m, AttemptFailureKey),
      OptionalText(m, DisposedAttemptKey), Cost(m, ConsumedCostUsdKey), Count(m, ConsumedCallsKey),
      Cost(m, ReservedCostUsdKey), Count(m, ReservedCallsKey), DecodeDispatch(m, lease),
      DecodeBound(Get(m, AuthorityKey, Null)), DecodeHistory(m))
  }

  // ----- when nothing is lost -----

  predicate CleanOpt(t: Option<string>) {
    t.Some? ==> Text.Clean(t.value)
  }

  predicate NonEmptyTexts(ts: seq<string>) {
    forall i :: 0 <= i < |ts| ==> ts[i] != ""
  }

  predicate StorableLease(l: Lease) {
    Text.Clean(l.attemptId) && l.callLimit >= 1 && l.costCap > 0.0
  }

  predicate StorableDispatch(d: Dispatch) {
    && Text.Clean(d.attemptId)
    && CleanOpt(d.sessionId) && CleanOpt(d.repository) && CleanOpt(d.repoRoot) && CleanOpt(d.outcome)
    && NonEmptyTexts(d.priorWorktrees) && NonEmptyTexts(d.pullRequests)
    && NonEmptyTexts(d.issues) && NonEmptyTexts(d.worktrees)
  }

  predicate StorableBound(b: Bound) {
    b.issueId != "" && b.key != "" && b.revision != ""
  }

  predicate StorableFacts(c: Cycle) {
    && c.observationCalls >= 0
    && CleanOpt(c.failure) && CleanOpt(c.disposedAttempt)
    && c.consumedCost >= 0.0 && c.consumedCalls >= 0
    && c.reservedCost >= 0.0 && c.reservedCalls >= 0
  }

  predicate StorableRecords(c: Cycle) {
    && (c.lease.Some? ==> StorableLease(c.lease.value))
    && (c.dispatch.Some? ==>
          && StorableDispatch(c.dispatch.value)
          && c.lease.Some?
          && c.dispatch.value.attemptId == c.lease.value.attemptId)
    && (c.authority.Some? ==> StorableBound(c.authority.value))
    && (forall i :: 0 <= i < |c.history| ==> ValidEntry(c.history[i]))
  }

  predicate Storable(c: Cycle) {
    StorableFacts(c) && StorableRecords(c)
  }

  /** A text as a decoder returns it. */
  function StrippedOpt(t: Option<string>): Option<string> {
    if t.Some? then Some(Text.Strip(t.value)) else None
  }

  /** The record with its checkout path stripped. */
  function DispatchAsRead(d: Dispatch): Dispatch {
    d.(repoRoot := StrippedOpt(d.repoRoot))
  }

  /** What is read back of `c`: the checkout path is the one text the cycle does not write stripped. */
  function AsRead(c: Cycle): Cycle {
    if c.dispatch.Some? then c.(dispatch := Some(DispatchAsRead(c.dispatch.value))) else c
  }

  predicate Member(m: Fields, key: Key, v: Json) {
    key in m && m[key] == v
  }

  lemma OptTextRoundTrip(m: Fields, key: Key, t: Option<string>)
    requires Member(m, key, OptText(t))
    ensures OptionalText(m, key) == Ok(t) <==> CleanOpt(t)
  {
  }

  lemma OptTextReadsBack(m: Fields, key: Key, t: Option<string>)
    requires Member(m, key, OptText(t))
    ensures OptionalText(m, key) == Ok(StrippedOpt(t)) <==> CleanOpt(StrippedOpt(t))
  {
  }

  lemma TextsRoundTrip(m: Fields, key: Key, ts: seq<string>)
    requires Member(m, key, Texts(ts))
    ensures TextList(m, key) == Ok(ts) <==> NonEmptyTexts(ts)
  {
    var items := m[key].items;
    assert forall i :: 0 <= i < |ts| ==> items[i] == Text(ts[i]);
    if NonEmptyTexts(ts) {
      assert TextList(m, key).value == ts;
    } else {
      var i :| 0 <= i < |ts| && ts[i] == "";
      assert items[i].s == "";
    }
  }

  lemma LeaseRoundTrip(l: Lease)
    ensures DecodeLease(EncodeLease(l).fields) == Ok(l) <==> StorableLease(l)
  {
  }

  lemma PhaseRoundTrip(m: Fields, p: Phase)
    requires Member(m, PhaseKey, Text(PhaseName(p)))
    ensures DecodePhase(m) == Ok(p)
  {
    assert PhaseName(p) != "" && Text.Trimmed(PhaseName(p));
  }

  lemma TextRoundTrip(m: Fields, key: Key, t: string)
    requires Member(m, key, Text(t))
    ensures RequiredText(m, key) == Ok(t) <==> Text.Clean(t)
  {
  }

  /** `m` holds the encoded members of `d`. */
  predicate Holds(m: Fields, d: Dispatch) {
    && Member(m, AttemptIdKey, Text(d.attemptId))
    && Member(m, PhaseKey, Text(PhaseName(d.phase)))
    && Member(m, SessionIdKey, OptText(d.sessionId))
    && Member(m, RepositoryKey, OptText(d.repository))
    && Member(m, RepoRootKey, OptText(d.repoRoot))
    && Member(m, PriorWorktreesKey, Texts(d.priorWorktrees))
    && Member(m, OutcomeKey, OptText(d.outcome))
    && Member(m, PullRequestsKey, Texts(d.pullRequests))
    && Member(m, IssuesKey, Texts(d.issues))
    && Member(m, WorktreesKey, Texts(d.worktrees))
  }

  lemma EncodedHolds(d: Dispatch)
    ensures Holds(EncodeDispatch(d).fields, d)
  {
  }

  lemma TextMembersRoundTrip(m: Fields, d: Dispatch)
    requires Holds(m, d)
    ensures RequiredText(m, AttemptIdKey) == Ok(d.attemptId) <==> Text.Clean(d.attemptId)
    ensures OptionalText(m, SessionIdKey) == Ok(d.sessionId) <==> CleanOpt(d.sessionId)
    ensures OptionalText(m, RepositoryKey) == Ok(d.repository) <==> CleanOpt(d.repository)
    ensures OptionalText(m, OutcomeKey) == Ok(d.outcome) <==> CleanOpt(d.outcome)
  {
    TextRoundTrip(m, AttemptIdKey, d.attemptId);
    OptTextRoundTrip(m, SessionIdKey, d.sessionId);
    OptTextRoundTrip(m, RepositoryKey, d.repository);
    OptTextRoundTrip(m, OutcomeKey, d.outcome);
  }

  lemma ListMembersRoundTrip(m: Fields, d: Dispatch)
    requires Holds(m, d)
    ensures TextList(m, PriorWorktreesKey) == Ok(d.priorWorktrees) <==> NonEmptyTexts(d.priorWorktrees)
    ensures TextList(m, PullRequestsKey) == Ok(d.pullRequests) <==> NonEmptyTexts(d.pullRequests)
    ensures TextList(m, IssuesKey) == Ok(d.issues) <==> NonEmptyTexts(d.issues)
    ensures TextList(m, WorktreesKey) == Ok(d.worktrees) <==> NonEmptyTexts(d.worktrees)
  {
    TextsRoundTrip(m, PriorWorktreesKey, d.priorWorktrees);
    TextsRoundTrip(m, PullRequestsKey, d.pullRequests);
    TextsRoundTrip(m, IssuesKey, d.issues);
    TextsRoundTrip(m, WorktreesKey, d.worktrees);
  }

  lemma AssembledIs(
    id: Result<string>, phase: Result<Phase>, session: Result<Option<string>>,
    repository: Result<Option<string>>, root: Result<Option<string>>, prior: Result<seq<string>>,
    outcome: Result<Option<string>>, prs: Result<seq<string>>, issues: Result<seq<string>>,
    worktrees: Result<seq<string>>, d: Dispatch)
    ensures Assembled(id, phase, session, repository, root, prior, outcome, prs, issues, worktrees) == Ok(d)
       <==> && id == Ok(d.attemptId) && phase == Ok(d.phase) && session == Ok(d.sessionId)
            && repository == Ok(d.repository) && root == Ok(d.repoRoot) && prior == Ok(d.priorWorktrees)
            && outcome == Ok(d.outcome) && prs == Ok(d.pullRequests) && issues == Ok(d.issues)
            && worktrees == Ok(d.worktrees)
  {
  }

  lemma DecodedDispatchIs(m: Fields, d: Dispatch)
    ensures DecodeDispatchFields(m) == Ok(d)
       <==> && RequiredText(m, AttemptIdKey) == Ok(d.attemptId) && DecodePhase(m) == Ok(d.phase)
            && OptionalText(m, SessionIdKey) == Ok(d.sessionId) && OptionalText(m, RepositoryKey) == Ok(d.repository)
            && OptionalText(m, RepoRootKey) == Ok(d.repoRoot) && TextList(m, PriorWorktreesKey) == Ok(d.priorWorktrees)
            && OptionalText(m, OutcomeKey) == Ok(d.outcome) && TextList(m, PullRequestsKey) == Ok(d.pullRequests)
            && TextList(m, IssuesKey) == Ok(d.issues) && TextList(m, WorktreesKey) == Ok(d.worktrees)
  {
    AssembledIs(
      RequiredText(m, AttemptIdKey), DecodePhase(m), OptionalText(m, SessionIdKey),
      OptionalText(m, RepositoryKey), OptionalText(m, RepoRootKey), TextList(m, PriorWorktreesKey),
      OptionalText(m, OutcomeKey), TextList(m, PullRequestsKey), TextList(m, IssuesKey),
      TextList(m, WorktreesKey), d);
  }

  lemma DispatchRoundTrip(d: Dispatch)
    ensures DecodeDispatchFields(EncodeDispatch(d).fields) == Ok(d) <==> StorableDispatch(d)
  {
    var m := EncodeDispatch(d).fields;
    EncodedHolds(d);
    TextMembersRoundTrip(m, d);
    OptTextRoundTrip(m, RepoRootKey, d.repoRoot);
    ListMembersRoundTrip(m, d);
    PhaseRoundTrip(m, d.phase);
    DecodedDispatchIs(m, d);
  }

  /** A dispatch record reads back with its checkout path stripped, exactly when that record is storable. */
  lemma DispatchReadsBack(d: Dispatch)
    ensures DecodeDispatchFields(EncodeDispatch(d).fields) == Ok(DispatchAsRead(d))
       <==> StorableDispatch(DispatchAsRead(d))
  {
    var m := EncodeDispatch(d).fields;
    EncodedHolds(d);
    TextMembersRoundTrip(m, d);
    OptTextReadsBack(m, RepoRootKey, d.repoRoot);
    ListMembersRoundTrip(m, d);
    PhaseRoundTrip(m, d.phase);
    DecodedDispatchIs(m, DispatchAsRead(d));
  }

  lemma BoundRoundTrip(b: Bound)
    ensures DecodeBound(EncodeBound(b)) == Some(b) <==> StorableBound(b)
  {
    var f := EncodeBound(b).fields;
    assert f.Keys == {IssueIdKey, KeyKey, RevisionKey};
    assert IssueIdKey in f && KeyKey in f && RevisionKey in f;
  }

  lemma AssembledCycleIs(
    lease: Option<Lease>, parked: Result<Option<string>>, observations: Result<int>,
    failure: Result<Option<string>>, disposed: Result<Option<string>>, consumedCost: Result<real>,
    consumedCalls: Result<int>, reservedCost: Result<real>, reservedCalls: Result<int>,
    dispatch: Result<Option<Dispatch>>, authority: Option<Bound>, history: Result<seq<Json>>, c: Cycle)
    ensures AssembledCycle(lease, parked, observations, failure, disposed, consumedCost, consumedCalls,
                           reservedCost, reservedCalls, dispatch, authority, history) == Ok(c)
       <==> && lease == c.lease && parked == Ok(c.parked) && observations == Ok(c.observationCalls)
            && failure == Ok(c.failure) && disposed == Ok(c.disposedAttempt)
            && consumedCost == Ok(c.consumedCost) && consumedCalls == Ok(c.consumedCalls)
            && reservedCost == Ok(c.reservedCost) && reservedCalls == Ok(c.reservedCalls)
            && dispatch == Ok(c.dispatch) && authority == c.authority && history == Ok(c.history)
  {
  }

  /** `m` holds the encoded facts of `c`. */
  predicate HoldsFacts(m: Fields, c: Cycle) {
    && Member(m, ParkedReasonKey, OptText(c.parked))
    && Member(m, ObservationCallsKey, Int(c.observationCalls))
    && Member(m, AttemptFailureKey, OptText(c.failure))
    && Member(m, DisposedAttemptKey, OptText(c.disposedAttempt))
    && Member(m, ConsumedCostUsdKey, Amount(c.consumedCost))
    && Member(m, ConsumedCallsKey, Int(c.consumedCalls))
    && Member(m, ReservedCostUsdKey, Amount(c.reservedCost))
    && Member(m, ReservedCallsKey, Int(c.reservedCalls))
  }

  /** `m` holds the encoded records of `c`. */
  predicate HoldsRecords(m: Fields, c: Cycle) {
    && Member(m, CurrentLeaseKey, EncodeOptLease(c.lease))
    && Member(m, DispatchKey, EncodeOptDispatch(c.dispatch))
    && Member(m, AuthorityKey, EncodeOptBound(c.authority))
    && Member(m, AttemptHistoryKey, List(c.history))
  }

  lemma EncodedFacts(c: Cycle)
    ensures HoldsFacts(ToMapping(c), c)
  {
  }

  lemma EncodedRecords(c: Cycle)
    ensures HoldsRecords(ToMapping(c), c)
  {
  }

  lemma CountRoundTrip(m: Fields, key: Key, n: int)
    requires Member(m, key, Int(n))
    ensures Count(m, key) == Ok(n) <==> n >= 0
  {
  }

  lemma CostRoundTrip(m: Fields, key: Key, x: real)
    requires Member(m, key, Amount(x))
    ensures Cost(m, key) == Ok(x) <==> x >= 0.0
  {
  }

  lemma OptLeaseRoundTrip(lease: Option<Lease>)
    ensures DecodeCurrentLease(EncodeOptLease(lease)) == Ok(lease) <==> (lease.Some? ==> StorableLease(lease.value))
  {
    if lease.Some? {
      LeaseRoundTrip(lease.value);
      assert AttemptIdKey in EncodeLease(lease.value).fields;
    }
  }

  lemma OptBoundRoundTrip(bound: Option<Bound>)
    ensures DecodeBound(EncodeOptBound(bound)) == bound <==> (bound.Some? ==> StorableBound(bound.value))
  {
    if bound.Some? {
      BoundRoundTrip(bound.value);
    }
  }

  lemma HistoryRoundTrip(m: Fields, history: seq<Json>)
    requires Member(m, AttemptHistoryKey, List(history))
    ensures DecodeHistory(m) == Ok(history) <==> (forall i :: 0 <= i < |history| ==> ValidEntry(history[i]))
  {
    assert Get(m, AttemptHistoryKey, List([])).items == history;
  }

  lemma OptDispatchRoundTrip(m: Fields, lease: Option<Lease>, dispatch: Option<Dispatch>)
    requires Member(m, DispatchKey, EncodeOptDispatch(dispatch))
    ensures DecodeDispatch(m, lease) == Ok(dispatch)
       <==> (dispatch.Some? ==>
               && StorableDispatch(dispatch.value)
               && lease.Some?
               && dispatch.value.attemptId == lease.value.attemptId)
  {
    if dispatch.Some? {
      DispatchRoundTrip(dispatch.value);
    }
  }

  lemma OptDispatchReadsBack(m: Fields, c: Cycle)
    requires Member(m, DispatchKey, EncodeOptDispatch(c.dispatch))
    ensures
      var d := AsRead(c).dispatch;
      DecodeDispatch(m, c.lease) == Ok(d)
      <==> (d.Some? ==>
              && StorableDispatch(d.value)
              && c.lease.Some?
              && d.value.attemptId == c.lease.value.attemptId)
  {
    if c.dispatch.Some? {
      DispatchReadsBack(c.dispatch.value);
    }
  }

  /** Every member of `m` that holds a fact decodes to the fact of `c`. */
  predicate FactsDecode(m: Fields, c: Cycle) {
    && DecodeParked(m) == Ok(c.parked)
    && Count(m, ObservationCallsKey) == Ok(c.observationCalls)
    && OptionalText(m, AttemptFailureKey) == Ok(c.failure)
    && OptionalText(m, DisposedAttemptKey) == Ok(c.disposedAttempt)
    && Cost(m, ConsumedCostUsdKey) == Ok(c.consumedCost)
    && Count(m, ConsumedCallsKey) == Ok(c.consumedCalls)
    && Cost(m, ReservedCostUsdKey) == Ok(c.reservedCost)
    && Count(m, ReservedCallsKey) == Ok(c.reservedCalls)
  }

  /** Every member of `m` that holds a record decodes to the record of `c`. */
  predicate RecordsDecode(m: Fields, c: Cycle) {
    && DecodeCurrentLease(Get(m, CurrentLeaseKey, Null)) == Ok(c.lease)
    && DecodeDispatch(m, c.lease) == Ok(c.dispatch)
    && DecodeBound(Get(m, AuthorityKey, Null)) == c.authority
    && DecodeHistory(m) == Ok(c.history)
  }

  /** Every member of `m` decodes to the member of `c`. */
  predicate DecodesTo(m: Fields, c: Cycle) {
    FactsDecode(m, c) && RecordsDecode(m, c)
  }

  lemma FromMappingIs(m: Fields, c: Cycle)
    ensures FromMapping(m) == Ok(c) <==> DecodesTo(m, c)
  {
    var lease := DecodeCurrentLease(Get(m, CurrentLeaseKey, Null));
    if lease.Ok? {
      AssembledCycleIs(
        lease.value, DecodeParked(m), Count(m, ObservationCallsKey), OptionalText(m, AttemptFailureKey),
        OptionalText(m, DisposedAttemptKey), Cost(m, ConsumedCostUsdKey), Count(m, ConsumedCallsKey),
        Cost(m, ReservedCostUsdKey), Count(m, ReservedCallsKey), DecodeDispatch(m, lease.value),
        DecodeBound(Get(m, AuthorityKey, Null)), DecodeHistory(m), c);
    }
  }

  lemma FactsRoundTrip(m: Fields, c: Cycle)
    requires HoldsFacts(m, c)
    ensures FactsDecode(m, c) <==> StorableFacts(c)
  {
    CountRoundTrip(m, ObservationCallsKey, c.observationCalls);
    CountRoundTrip(m, ConsumedCallsKey, c.consumedCalls);
    CountRoundTrip(m, ReservedCallsKey, c.reservedCalls);
    CostRoundTrip(m, ConsumedCostUsdKey, c.consumedCost);
    CostRoundTrip(m, ReservedCostUsdKey, c.reservedCost);
    OptTextRoundTrip(m, AttemptFailureKey, c.failure);
    OptTextRoundTrip(m, DisposedAttemptKey, c.disposedAttempt);
  }

  lemma RecordsRoundTrip(m: Fields, c: Cycle)
    requires HoldsRecords(m, c)
    ensures RecordsDecode(m, c) <==> StorableRecords(c)
  {
    OptLeaseRoundTrip(c.lease);
    OptBoundRoundTrip(c.authority);
    HistoryRoundTrip(m, c.history);
    OptDispatchRoundTrip(m, c.lease, c.dispatch);
  }

  lemma RecordsReadBack(m: Fields, c: Cycle)
    requires HoldsRecords(m, c)
    ensures RecordsDecode(m, AsRead(c)) <==> StorableRecords(AsRead(c))
  {
    OptLeaseRoundTrip(c.lease);
    OptBoundRoundTrip(c.authority);
    HistoryRoundTrip(m, c.history);
    OptDispatchReadsBack(m, c);
  }

  lemma DecodesToStorable(m: Fields, c: Cycle)
    requires HoldsFacts(m, c) && HoldsRecords(m, c)
    ensures DecodesTo(m, c) <==> Storable(c)
  {
    FactsRoundTrip(m, c);
    RecordsRoundTrip(m, c);
  }

  /** The decoder gives back exactly what was stored, for exactly the storable states. */
  lemma LosslessPersistence(c: Cycle)
    ensures FromMapping(ToMapping(c)) == Ok(c) <==> Storable(c)
  {
    FromMappingIs(ToMapping(c), c);
    EncodedFacts(c);
    EncodedRecords(c);
    DecodesToStorable(ToMapping(c), c);
  }

  /** Any state reads back with its checkout path stripped and nothing else changed, exactly when that is storable. */
  lemma ReadsBack(c: Cycle)
    ensures FromMapping(ToMapping(c)) == Ok(AsRead(c)) <==> Storable(AsRead(c))
  {
    FromMappingIs(ToMapping(c), AsRead(c));
    EncodedFacts(c);
    EncodedRecords(c);
    FactsRoundTrip(ToMapping(c), AsRead(c));
    RecordsReadBack(ToMapping(c), c);
  }

  /** A checkout path that ends in a space comes back without it: the decoder strips the path. */
  lemma PaddedRepoRootIsLost()
    ensures
      var d := Dispatch("a1", Intent, None, None, Some("/srv/repo "), [], None, [], [], []);
      var c := EMPTY.(lease := Some(Lease("a1", 0, 0, 1, 1.0)), dispatch := Some(d));
      FromMapping(ToMapping(c)) != Ok(c)
  {
    var d := Dispatch("a1", Intent, None, None, Some("/srv/repo "), [], None, [], [], []);
    var c := EMPTY.(lease := Some(Lease("a1", 0, 0, 1, 1.0)), dispatch := Some(d));
    LosslessPersistence(c);
  }
}
