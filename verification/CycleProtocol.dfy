/** Everything the cycle may do to the saved state and the host, step by step, with a crash between any two steps.
    The driver is proved to take only these steps; the whole-run claims are proved over them. */
module CycleProtocol {
  import opened Wrappers
  import opened CycleRecords
  import opened RepairCycle

  datatype PullRequest = PullRequest(url: string, isOpen: bool, files: set<string>)

  /** What was read when an attempt was settled: its pull requests, and the files its approval names. */
  datatype Evidence = Evidence(prs: seq<PullRequest>, approved: set<string>)

  /** Where the run that is in progress stands. A crash or a finished run leaves `Quiet`. */
  datatype Stage = Quiet | Fresh | Armed | Handed | Launched

  datatype Event =
    | Begin(config: Config, now: Now, id: string, bound: Bound)
    | Intend(record: Dispatch)
    | Hand(id: string)
    | Launch(id: string)
    | Save(c: Cycle, evidence: Option<Evidence>)
    | Dispose(id: string, confirmStopped: bool)
    | Crash

  /** `durable` is the saved state as it reads back; `past` holds every replaced attempt as it was when it was
      replaced. */
  datatype Sys = Sys(durable: Cycle, stage: Stage, handed: seq<string>, launched: seq<string>, past: seq<Cycle>)

  const START := Sys(EMPTY, Quiet, [], [], [])

  function AttemptId(c: Cycle): string {
    if c.lease.Some? then c.lease.value.attemptId else ""
  }

  predicate BegunBefore(s: Sys, id: string) {
    (s.durable.lease.Some? && AttemptId(s.durable) == id) || exists i :: 0 <= i < |s.past| && AttemptId(s.past[i]) == id
  }

  /** Every recorded pull request was read, closed, and within the approved files. */
  predicate Covers(e: Evidence, d: Dispatch) {
    && |e.prs| == |d.pullRequests|
    && forall i :: 0 <= i < |e.prs| ==>
         e.prs[i].url == d.pullRequests[i] && !e.prs[i].isOpen && e.prs[i].files <= e.approved
  }

  /** The saved record `r` and the record `q` to be saved name one checkout path, which a reader strips. */
  predicate SamePath(r: Dispatch, q: Dispatch) {
    r.repoRoot == StrippedOpt(q.repoRoot)
  }

  /** The same dispatch with at least the references it had. */
  predicate Grows(r: Dispatch, q: Dispatch) {
    && q == r.(phase := q.phase, repoRoot := q.repoRoot, pullRequests := q.pullRequests, issues := q.issues,
               worktrees := q.worktrees)
    && SamePath(r, q)
    && r.pullRequests <= q.pullRequests && r.issues <= q.issues && r.worktrees <= q.worktrees
    && NonEmptyTexts(q.pullRequests) && NonEmptyTexts(q.issues) && NonEmptyTexts(q.worktrees)
  }

  predicate KeepsAttempt(d: Cycle, c: Cycle) {
    && c.lease == d.lease && c.history == d.history && c.authority == d.authority
    && c.disposedAttempt == d.disposedAttempt
    && (d.failure.Some? ==> c.failure == d.failure)
    && CleanOpt(c.failure)
    && c.observationCalls >= 0
  }

  predicate SameBudget(d: Cycle, c: Cycle) {
    && c.consumedCost == d.consumedCost && c.consumedCalls == d.consumedCalls
    && c.reservedCost == d.reservedCost && c.reservedCalls == d.reservedCalls
  }

  /** Observation may add references, and may settle a returned dispatch on evidence; it never launches. */
  predicate Observes(d: Cycle, c: Cycle, evidence: Option<Evidence>) {
    && KeepsAttempt(d, c)
    && SameBudget(d, c)
    && (d.dispatch.None? ==> c.dispatch.None?)
    && (d.dispatch.Some? ==>
          && c.dispatch.Some?
          && var r, q := d.dispatch.value, c.dispatch.value;
             && Grows(r, q)
             && (|| q.phase == r.phase
                 || (r.phase == Returned && q.phase == Settled && evidence.Some? && Covers(evidence.value, q))))
  }

  /** A parked host outcome launched nothing: the intent and its reservation are withdrawn. */
  predicate Withdraws(d: Cycle, c: Cycle) {
    && KeepsAttempt(d, c)
    && c.dispatch.None?
    && c.consumedCost == 0.0 && c.consumedCalls == 0 && c.reservedCost == 0.0 && c.reservedCalls == 0
  }

  /** The record of a launched dispatch once its outcome is known. */
  predicate ReturnedOf(r: Dispatch, q: Dispatch) {
    q == r.(phase := Returned, outcome := q.outcome, repoRoot := q.repoRoot) && SamePath(r, q)
  }

  /** A launched host's outcome replaces the reservation by the charge; an overrun or any other end fails. */
  predicate Returns(d: Cycle, c: Cycle) {
    && KeepsAttempt(d, c)
    && d.dispatch.Some? && c.dispatch.Some?
    && ReturnedOf(d.dispatch.value, c.dispatch.value)
    && c.dispatch.value.outcome.Some? && Text.Clean(c.dispatch.value.outcome.value)
    && c.reservedCost == 0.0 && c.reservedCalls == 0
    && c.consumedCost >= 0.0 && c.consumedCalls >= 0
    && (BudgetExceeded(c) || c.dispatch.value.outcome != Some("completed") ==> c.failure.Some?)
  }

  predicate MaySave(s: Sys, c: Cycle, evidence: Option<Evidence>) {
    match s.stage
    case Quiet => Observes(s.durable, c, evidence)
    case Fresh => Observes(s.durable, c, evidence)
    case Armed => false
    case Handed => Withdraws(s.durable, c)
    case Launched => Returns(s.durable, c)
  }

  predicate MayBegin(s: Sys, config: Config, now: Now, id: string, bound: Bound) {
    && s.stage == Quiet
    && config.Valid() && config.costCap.Some?
    && Text.Clean(id) && !BegunBefore(s, id) && StorableBound(bound)
    && Begun(s.durable, config, now, id).Some?
  }

  predicate MayIntend(s: Sys, r: Dispatch) {
    && s.stage == Fresh
    && s.durable.lease.Some? && CanAdmit(s.durable)
    && r.attemptId == AttemptId(s.durable) && r.phase == Intent && r.outcome.None?
    && r.pullRequests == [] && r.issues == [] && r.worktrees == []
    && StorableDispatch(DispatchAsRead(r))
  }

  predicate Allowed(s: Sys, e: Event) {
    match e
    case Begin(config, now, id, bound) => MayBegin(s, config, now, id, bound)
    case Intend(r) => MayIntend(s, r)
    case Hand(id) => s.stage == Armed && id == AttemptId(s.durable)
    case Launch(id) => s.stage == Handed && id == AttemptId(s.durable)
    case Save(c, evidence) => MaySave(s, c, evidence)
    case Dispose(id, confirm) => s.stage == Quiet && MayDispose(s.durable, id, confirm)
    case Crash => true
  }

  function After(s: Sys, e: Event): Sys
    requires Allowed(s, e)
  {
    match e
    case Begin(config, now, id, bound) =>
      Sys(Begun(s.durable, config, now, id).value.(authority := Some(bound)), Fresh, s.handed, s.launched,
          if s.durable.lease.Some? then s.past + [s.durable] else s.past)
    case Intend(r) => s.(durable := Admitted(s.durable).(dispatch := Some(DispatchAsRead(r))), stage := Armed)
    case Hand(id) => s.(handed := s.handed + [id], stage := Handed)
    case Launch(id) => s.(launched := s.launched + [id], stage := Launched)
    case Save(c, _) => s.(durable := AsRead(c), stage := Quiet)
    case Dispose(id, _) => s.(durable := s.durable.(disposedAttempt := Some(id)))
    case Crash => s.(stage := Quiet)
  }

  // ----- the invariant -----

  /** A replaced attempt: nothing of it can still run or be open, and its history entry says so. */
  predicate Finished(c: Cycle, launched: bool) {
    && c.lease.Some?
    && (launched ==> Disposed(c) || (c.dispatch.Some? && c.dispatch.value.phase == Settled))
  }

  predicate PastOk(s: Sys) {
    && |s.durable.history| == |s.past|
    && (forall i :: 0 <= i < |s.past| ==>
          && s.durable.history[i] == Archive(s.past[i])
          && Finished(s.past[i], AttemptId(s.past[i]) in s.launched))
    && (s.durable.lease.None? ==> s.past == [])
  }

  predicate IdsDistinct(s: Sys) {
    && (forall i, j :: 0 <= i < j < |s.past| ==> AttemptId(s.past[i]) != AttemptId(s.past[j]))
    && (forall i :: 0 <= i < |s.past| ==> AttemptId(s.past[i]) != AttemptId(s.durable))
  }

  predicate NoRepeats(xs: seq<string>) {
    forall i, j :: 0 <= i < j < |xs| ==> xs[i] != xs[j]
  }

  predicate HandedOk(s: Sys) {
    && NoRepeats(s.handed)
    && (forall id :: id in s.handed ==> BegunBefore(s, id))
    && (forall id :: id in s.launched ==> id in s.handed)
    && (s.stage.Fresh? || s.stage.Armed? ==> AttemptId(s.durable) !in s.handed)
    && (s.stage.Handed? ==> AttemptId(s.durable) in s.handed && AttemptId(s.durable) !in s.launched)
    && (s.durable.lease.Some? && AttemptId(s.durable) in s.launched ==> s.durable.dispatch.Some?)
  }

  /** The reservation is exactly the single outstanding admission: the whole lease while the intent is open. */
  predicate BudgetOk(c: Cycle) {
    && (c.dispatch.None? ==> c.consumedCost == 0.0 && c.consumedCalls == 0)
    && (if c.dispatch.Some? && c.dispatch.value.phase == Intent
        then && c.lease.Some?
             && c.reservedCost == c.lease.value.costCap && c.reservedCalls == c.lease.value.callLimit
             && c.consumedCost == 0.0 && c.consumedCalls == 0
        else c.reservedCost == 0.0 && c.reservedCalls == 0)
    && (BudgetExceeded(c) ==> c.failure.Some?)
  }

  predicate StageOk(s: Sys) {
    && (s.stage.Fresh? ==> s.durable.lease.Some? && s.durable.dispatch.None? && s.durable.failure.None?)
    && (s.stage.Armed? || s.stage.Handed? || s.stage.Launched? ==>
          && s.durable.lease.Some? && s.durable.dispatch.Some? && s.durable.dispatch.value.phase == Intent
          && s.durable.dispatch.value.pullRequests == [] && s.durable.dispatch.value.issues == []
          && s.durable.dispatch.value.worktrees == [])
    && (s.durable.dispatch.Some? ==> s.durable.dispatch.value.phase != Unknown)
  }

  predicate Inv(s: Sys) {
    Storable(s.durable) && PastOk(s) && IdsDistinct(s) && HandedOk(s) && BudgetOk(s.durable) && StageOk(s)
  }

  lemma StartInv()
    ensures Inv(START)
  {
  }

  lemma BeginKeepsStorable(s: Sys, e: Event)
    requires Inv(s) && e.Begin? && Allowed(s, e)
    ensures Storable(After(s, e).durable)
  {
    if s.durable.lease.Some? {
      ArchiveIsValid(s.durable);
    }
  }

  /** What a begin does to the attempts: the current one, if any, joins the past. */
  lemma BeginMoves(s: Sys, e: Event)
    requires e.Begin? && Allowed(s, e)
    ensures
      var s' := After(s, e);
      && s'.durable.lease.Some? && AttemptId(s'.durable) == e.id && s'.launched == s.launched
      && (if s.durable.lease.None? then s'.past == s.past && s'.durable.history == s.durable.history
          else s'.past == s.past + [s.durable] && s'.durable.history == s.durable.history + [Archive(s.durable)])
  {
  }

  lemma ReplacedIsFinished(s: Sys, e: Event)
    requires HandedOk(s) && e.Begin? && Allowed(s, e) && s.durable.lease.Some?
    ensures Finished(s.durable, AttemptId(s.durable) in s.launched)
  {
  }

  lemma BeginKeepsPast(s: Sys, e: Event)
    requires HandedOk(s) && PastOk(s) && e.Begin? && Allowed(s, e)
    ensures PastOk(After(s, e))
  {
    BeginMoves(s, e);
    if s.durable.lease.Some? {
      ReplacedIsFinished(s, e);
    }
  }

  lemma BeginKeepsDistinct(s: Sys, e: Event)
    requires IdsDistinct(s) && e.Begin? && Allowed(s, e)
    ensures IdsDistinct(After(s, e))
  {
    BeginMoves(s, e);
    var s' := After(s, e);
    forall i | 0 <= i < |s'.past| ensures AttemptId(s'.past[i]) != e.id {
      if i < |s.past| {
        assert s'.past[i] == s.past[i];
      }
    }
  }

  lemma BeginStep(s: Sys, e: Event)
    requires Inv(s) && e.Begin? && Allowed(s, e)
    ensures Inv(After(s, e))
  {
    BeginKeepsStorable(s, e);
    BeginKeepsPast(s, e);
    BeginKeepsDistinct(s, e);
    BeginKeepsHanded(s, e);
  }

  lemma BeginKeepsHanded(s: Sys, e: Event)
    requires HandedOk(s) && e.Begin? && Allowed(s, e)
    ensures HandedOk(After(s, e))
  {
    var s' := After(s, e);
    forall id | id in s'.handed ensures BegunBefore(s', id) {
      if s.durable.lease.Some? && AttemptId(s.durable) == id {
        assert s'.past[|s.past|] == s.durable;
      } else {
        var i :| 0 <= i < |s.past| && AttemptId(s.past[i]) == id;
        assert s'.past[i] == s.past[i];
      }
    }
    assert e.id !in s.handed;
  }

  /** What may be saved, of the state alone. */
  predicate Sound(c: Cycle) {
    Storable(c) && BudgetOk(c) && (c.dispatch.Some? ==> c.dispatch.value.phase != Unknown)
  }

  lemma ObservedIsStorable(d: Cycle, c: Cycle, evidence: Option<Evidence>)
    requires Storable(d) && Observes(d, c, evidence)
    ensures Storable(AsRead(c))
  {
  }

  lemma ObservedIsSound(d: Cycle, c: Cycle, evidence: Option<Evidence>)
    requires Sound(d) && Observes(d, c, evidence)
    ensures Sound(AsRead(c))
  {
    ObservedIsStorable(d, c, evidence);
  }

  lemma WithdrawnIsSound(d: Cycle, c: Cycle)
    requires Sound(d) && Withdraws(d, c)
    ensures Sound(AsRead(c))
  {
  }

  lemma ReturnedIsSound(d: Cycle, c: Cycle)
    requires Sound(d) && Returns(d, c)
    ensures Sound(AsRead(c))
  {
  }

  lemma SaveKeepsState(s: Sys, e: Event)
    requires Inv(s) && e.Save? && Allowed(s, e)
    ensures Storable(After(s, e).durable) && BudgetOk(After(s, e).durable) && StageOk(After(s, e))
  {
    match s.stage
    case Quiet => ObservedIsSound(s.durable, e.c, e.evidence);
    case Fresh => ObservedIsSound(s.durable, e.c, e.evidence);
    case Armed =>
    case Handed => WithdrawnIsSound(s.durable, e.c);
    case Launched => ReturnedIsSound(s.durable, e.c);
  }

  lemma OtherKeepsState(s: Sys, e: Event)
    requires Inv(s) && !e.Begin? && Allowed(s, e)
    ensures Storable(After(s, e).durable) && BudgetOk(After(s, e).durable) && StageOk(After(s, e))
  {
    if e.Save? {
      SaveKeepsState(s, e);
    }
  }

  /** Only a begin replaces the attempt or adds to the past. */
  lemma OtherKeepsAttempt(s: Sys, e: Event)
    requires !e.Begin? && Allowed(s, e)
    ensures After(s, e).durable.lease == s.durable.lease && After(s, e).past == s.past
    ensures After(s, e).durable.history == s.durable.history
  {
  }

  /** Only the current attempt can be launched, so the past stays as finished as it was. */
  lemma OtherLaunchesNoPast(s: Sys, e: Event, i: nat)
    requires IdsDistinct(s) && !e.Begin? && Allowed(s, e) && i < |s.past|
    ensures AttemptId(s.past[i]) in After(s, e).launched ==> AttemptId(s.past[i]) in s.launched
  {
  }

  lemma OtherKeepsPast(s: Sys, e: Event)
    requires Inv(s) && !e.Begin? && Allowed(s, e)
    ensures PastOk(After(s, e)) && IdsDistinct(After(s, e))
  {
    OtherKeepsAttempt(s, e);
    forall i | 0 <= i < |s.past| ensures Finished(s.past[i], AttemptId(s.past[i]) in After(s, e).launched) {
      OtherLaunchesNoPast(s, e, i);
    }
  }

  lemma OtherKeepsHanded(s: Sys, e: Event)
    requires Inv(s) && !e.Begin? && Allowed(s, e)
    ensures HandedOk(After(s, e))
  {
    var s' := After(s, e);
    OtherKeepsAttempt(s, e);
    assert forall id :: BegunBefore(s, id) ==> BegunBefore(s', id);
  }

  lemma InvStep(s: Sys, e: Event)
    requires Inv(s) && Allowed(s, e)
    ensures Inv(After(s, e))
  {
    if e.Begin? {
      BeginStep(s, e);
    } else {
      OtherKeepsState(s, e);
      OtherKeepsPast(s, e);
      OtherKeepsHanded(s, e);
    }
  }

  // ----- runs -----

  /** `trace` leads from `s` to `t` by allowed steps. */
  predicate Replays(s: Sys, trace: seq<Event>, t: Sys)
    decreases |trace|
  {
    if trace == [] then s == t
    else Allowed(s, trace[0]) && Replays(After(s, trace[0]), trace[1..], t)
  }

  lemma {:induction false} ReplaysStep(s: Sys, trace: seq<Event>, t: Sys, e: Event)
    requires Replays(s, trace, t) && Allowed(t, e)
    ensures Replays(s, trace + [e], After(t, e))
    decreases |trace|
  {
    var longer := trace + [e];
    if trace == [] {
      assert longer[1..] == [];
    } else {
      ReplaysStep(After(s, trace[0]), trace[1..], t, e);
      assert longer[1..] == trace[1..] + [e];
    }
  }

  /** Every reachable state satisfies the invariant. */
  lemma {:induction false} ReplaysInv(s: Sys, trace: seq<Event>, t: Sys)
    requires Inv(s) && Replays(s, trace, t)
    ensures Inv(t)
    decreases |trace|
  {
    if trace != [] {
      InvStep(s, trace[0]);
      ReplaysInv(After(s, trace[0]), trace[1..], t);
    }
  }

  /** A history leads to one state at most. */
  lemma {:induction false} ReplaysOnce(s: Sys, trace: seq<Event>, t: Sys, u: Sys)
    requires Replays(s, trace, t) && Replays(s, trace, u)
    ensures t == u
    decreases |trace|
  {
    if trace != [] {
      ReplaysOnce(After(s, trace[0]), trace[1..], t, u);
    }
  }

  /** The history leads from the start to `s`, and to no other state. */
  ghost predicate LeadsTo(trace: seq<Event>, s: Sys) {
    forall t :: Replays(START, trace, t) <==> t == s
  }

  lemma LeadsToExactly(trace: seq<Event>, s: Sys)
    ensures LeadsTo(trace, s) <==> Replays(START, trace, s)
  {
    if Replays(START, trace, s) {
      forall t | Replays(START, trace, t) ensures t == s {
        ReplaysOnce(START, trace, s, t);
      }
    }
  }

  lemma LeadsToStep(trace: seq<Event>, s: Sys, e: Event)
    requires LeadsTo(trace, s) && Allowed(s, e)
    ensures LeadsTo(trace + [e], After(s, e))
  {
    LeadsToExactly(trace, s);
    ReplaysStep(START, trace, s, e);
    LeadsToExactly(trace + [e], After(s, e));
  }

  ghost predicate Reachable(s: Sys) {
    exists trace :: Replays(START, trace, s)
  }

  lemma LeadsToReachable(trace: seq<Event>, s: Sys)
    requires LeadsTo(trace, s)
    ensures Reachable(s)
  {
    LeadsToExactly(trace, s);
  }

  lemma ReachableInv(s: Sys)
    requires Reachable(s)
    ensures Inv(s)
  {
    var trace :| Replays(START, trace, s);
    StartInv();
    ReplaysInv(START, trace, s);
  }

  /** Whatever was saved decodes to itself. */
  lemma SavedStateDecodes(s: Sys)
    requires Reachable(s)
    ensures FromMapping(ToMapping(s.durable)) == Ok(s.durable)
  {
    ReachableInv(s);
    LosslessPersistence(s.durable);
  }

  /** The state a step writes to the file, as the run holds it. */
  function Written(s: Sys, e: Event): Cycle
    requires Allowed(s, e)
  {
    match e
    case Intend(r) => Admitted(s.durable).(dispatch := Some(r))
    case Save(c, _) => c
    case _ => After(s, e).durable
  }

  lemma CleanReadsAsItself(c: Cycle)
    requires Storable(c)
    ensures AsRead(c) == c
  {
  }

  lemma AfterIsWritten(s: Sys, e: Event)
    requires Inv(s) && Allowed(s, e)
    ensures After(s, e).durable == AsRead(Written(s, e))
  {
    InvStep(s, e);
    CleanReadsAsItself(After(s, e).durable);
  }

  /** Whatever a step writes decodes, and decodes to the state the later steps go on from. */
  lemma WrittenStateDecodes(s: Sys, e: Event)
    requires Reachable(s) && Allowed(s, e)
    ensures FromMapping(ToMapping(Written(s, e))) == Ok(After(s, e).durable)
  {
    ReachableInv(s);
    AfterIsWritten(s, e);
    InvStep(s, e);
    ReadsBack(Written(s, e));
  }

  /** What was just saved may be saved again. */
  lemma SavedIsObserved(c: Cycle)
    requires Storable(AsRead(c))
    ensures Observes(AsRead(c), c, None)
  {
  }

  /** Saving the saved state again is allowed between runs. */
  lemma SavingNothingNewIsAllowed(s: Sys)
    requires Reachable(s) && s.stage == Quiet
    ensures MaySave(s, s.durable, None)
  {
    ReachableInv(s);
  }

  /** A newly begun attempt has spent, reserved and failed nothing. */
  lemma FreshIsUnspent(s: Sys)
    requires Reachable(s) && s.stage == Fresh
    ensures Storable(s.durable) && BudgetOk(s.durable) && s.durable.dispatch.None?
    ensures s.durable.failure.None?
  {
    ReachableInv(s);
  }
}
