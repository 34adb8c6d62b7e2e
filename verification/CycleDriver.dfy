/** The one-shot driver of a repair cycle (app/commands/repair_cycle.py). Every answer of the world is an input:
    the clock, the authority check, the host and GitHub lookups, and where an alarm strikes. */
module CycleDriver {
  import opened Wrappers
  import opened CycleRecords
  import opened RepairCycle
  import opened CycleProtocol

  type Reason = s: string | Text.Clean(s) witness "x"

  /** One external lookup: its answer, a lookup error, or the observation's alarm. */
  datatype Lookup<+T> = Found(value: T) | Unavailable | TimedOut

  datatype Answer = Granted(bound: Bound) | Refused(reason: Reason) | AlarmRang

  datatype Approval = Approved(files: set<string>) | Unapproved(reason: Reason)

  datatype References = References(pullRequests: seq<string>, issues: seq<string>, worktrees: seq<string>) {
    predicate Valid() {
      NonEmptyTexts(pullRequests) && NonEmptyTexts(issues) && NonEmptyTexts(worktrees)
    }
  }

  datatype PrFacts = PrFacts(isOpen: bool, files: set<string>)

  /** Everything one observation can be told. */
  datatype View = View(
    workerAlive: Option<bool>,
    references: Lookup<References>,
    pullRequests: Lookup<string -> PrFacts>,
    approval: Approval,
    recheck: Answer)
  {
    predicate Valid() {
      references.Found? ==> references.value.Valid()
    }
  }

  datatype HostState = ParkedRun | Completed | FailedRun | Stopped | UnknownRun

  /** `ParkedRun` means nothing was launched, so no call was counted. */
  datatype Outcome = Outcome(state: HostState, reason: Option<string>, cost: Option<real>, calls: nat) {
    predicate Valid() {
      && (state == ParkedRun ==> calls == 0)
      && (cost.Some? ==> cost.value >= 0.0)
    }

    function Name(): string {
      match state
      case ParkedRun => "parked"
      case Completed => "completed"
      case FailedRun => "failed"
      case Stopped => "stopped"
      case UnknownRun => "unknown"
    }
  }

  datatype DispatchInput = DispatchInput(
    instant: int,
    recheck: Answer,
    requestBuilt: bool,
    approvalEndsFirst: bool,
    worktrees: Lookup<seq<string>>,
    sessionId: string,
    repository: string,
    repoRoot: string,
    outcome: Outcome,
    after: View)
  {
    /** No alarm is set once the host has run, so its follow-up lookups cannot time out. The checkout path is
        absolute, but may end in white space. */
    predicate Valid() {
      && Text.Clean(sessionId) && Text.Clean(repository) && Text.Strip(repoRoot) != ""
      && (worktrees.Found? ==> NonEmptyTexts(worktrees.value))
      && !worktrees.TimedOut?
      && outcome.Valid()
      && after.Valid() && !after.references.TimedOut? && !after.pullRequests.TimedOut? && !after.recheck.AlarmRang?
    }
  }

  datatype RunInput = RunInput(
    dispose: Option<(string, bool)>,
    before: Now,
    view: View,
    alarmAtEnd: bool,
    refused: Option<string>,
    after: Now,
    selection: Answer,
    freshId: string,
    dispatch: DispatchInput)
  {
    predicate Valid() {
      && view.Valid() && dispatch.Valid()
      && Text.Clean(freshId)
      && (selection.Granted? ==> StorableBound(selection.bound))
    }
  }

  // ----- pure helpers -----

  /** The found items not already recorded, in order, each once. */
  function NewItems(recorded: seq<string>, found: seq<string>): (r: seq<string>)
    ensures forall x :: x in r <==> x in found && x !in recorded
    ensures NoRepeats(r)
  {
    if found == [] then []
    else
      var rest := NewItems(recorded, found[..|found| - 1]);
      var x := found[|found| - 1];
      if x in recorded || x in rest then rest else rest + [x]
  }

  function Union(recorded: seq<string>, found: seq<string>): (r: seq<string>)
    ensures recorded <= r
    ensures forall x :: x in r <==> x in recorded || x in found
    ensures NoRepeats(recorded) ==> NoRepeats(r)
  {
    var more := NewItems(recorded, found);
    assert forall i :: 0 <= i < |more| ==> more[i] in more;
    recorded + more
  }

  function WithReferences(d: Dispatch, found: References): Dispatch {
    d.(pullRequests := Union(d.pullRequests, found.pullRequests),
       issues := Union(d.issues, found.issues),
       worktrees := Union(d.worktrees, if d.phase == Unknown then [] else found.worktrees))
  }

  lemma UnionNonEmpty(recorded: seq<string>, found: seq<string>)
    requires NonEmptyTexts(recorded) && NonEmptyTexts(found)
    ensures NonEmptyTexts(Union(recorded, found))
  {
    var r := Union(recorded, found);
    forall i | 0 <= i < |r| ensures r[i] != "" {
      assert r[i] in r;
    }
  }

  function ReadAll(urls: seq<string>, facts: string -> PrFacts): (prs: seq<PullRequest>)
    ensures |prs| == |urls|
    ensures forall i :: 0 <= i < |urls| ==> prs[i] == PullRequest(urls[i], facts(urls[i]).isOpen, facts(urls[i]).files)
  {
    seq(|urls|, i requires 0 <= i < |urls| => PullRequest(urls[i], facts(urls[i]).isOpen, facts(urls[i]).files))
  }

  /** Why the pull requests' edits are not within the bound approval, if they are not. */
  function ScopeFailure(prs: seq<PullRequest>, approval: Approval): Option<Reason> {
    if prs == [] then None
    else if approval.Unapproved? then Some(approval.reason)
    else if exists i :: 0 <= i < |prs| && !(prs[i].files <= approval.files) then Some("authority-scope-exceeded")
    else None
  }

  function OutcomeFailure(o: Outcome): Option<Reason> {
    match o.state
    case FailedRun => Some("host-failed")
    case Stopped =>
      Some(if o.reason == Some("timeout") then "runtime-exhausted"
           else if o.reason == Some("authority-expired") then "authority-expired"
           else "budget-exhausted")
    case UnknownRun => Some("dispatch-outcome-unknown")
    case _ => None
  }

  /** Why a launched run is kept as failed, if it is: an overrun, or any end but completion. */
  function ReturnFailure(c: Cycle, o: Outcome): Option<Reason> {
    if BudgetExceeded(c) then Some("budget-exhausted") else OutcomeFailure(o)
  }

  function Concluded(c: Cycle, failure: Option<Reason>): Cycle {
    if failure.Some? then Failed(c, failure.value) else c
  }

  // ----- the driver -----

  class Driver {
    /** The state file's `repair_cycle` member; None before the first save. */
    var file: Option<Fields>
    /** The copy in the loaded state, which a save writes out. */
    var staged: Cycle
    /** Every attempt ID handed to the host, in order. */
    var handed: seq<string>

    /** The state last written to the file. */
    ghost var written: Cycle
    ghost var sys: Sys
    ghost var trace: seq<Event>
    ghost var evidence: Option<Evidence>

    /** The file reads back as what the run's history says was saved, and the host saw what it says was handed over. */
    ghost predicate Recorded()
      reads this`file, this`handed, this`written, this`sys, this`trace
    {
      && (if file.None? then sys.durable == EMPTY
          else file.value == ToMapping(written) && sys.durable == AsRead(written))
      && handed == sys.handed
      && LeadsTo(trace, sys)
    }

    /** The staged copy is the working state, and observation alone can have led to it. */
    ghost predicate Ready(work: CycleState)
      reads this`staged, this`sys, this`evidence, work
    {
      staged == work.Value() && Observes(sys.durable, staged, evidence)
    }

    /** Ready, with nothing settled since the last save. */
    ghost predicate Observing(work: CycleState)
      reads this`staged, this`sys, this`evidence, work
    {
      Ready(work) && evidence == None
    }

    constructor ()
      ensures Recorded() && trace == [] && sys == START
    {
      file, staged, handed, written := None, EMPTY, [], EMPTY;
      sys, trace, evidence := START, [], None;
      new;
      LeadsToExactly([], START);
    }

    /** Record an allowed step in the run's history. */
    ghost method Emit(e: Event)
      requires LeadsTo(trace, sys) && Allowed(sys, e)
      modifies this`sys, this`trace
      ensures sys == After(old(sys), e) && trace == old(trace) + [e]
      ensures LeadsTo(trace, sys)
    {
      LeadsToStep(trace, sys, e);
      sys, trace := After(sys, e), trace + [e];
    }

    /** The process dies: memory is lost, the file and the host's knowledge stay. */
    method CrashNow()
      requires Recorded()
      modifies this
      ensures Recorded() && file == old(file) && handed == old(handed)
      ensures sys == old(sys).(stage := Quiet) && trace == old(trace) + [Event.Crash]
    {
      Emit(Event.Crash);
    }

    /** Decode the saved state: what was saved always decodes. */
    method Decode() returns (c: Cycle)
      requires Recorded()
      ensures c == sys.durable
    {
      if file.None? {
        return EMPTY;
      }
      LeadsToReachable(trace, sys);
      ReachableInv(sys);
      ReadsBack(written);
      c := FromMapping(file.value).value;
    }

    /** Take the state lock and load the saved state. */
    method Load() returns (work: CycleState)
      requires Recorded() && sys.stage == Quiet
      modifies this`staged, this`evidence
      ensures fresh(work) && work.Value() == sys.durable
      ensures Observing(work)
    {
      var c := Decode();
      LeadsToReachable(trace, sys);
      SavingNothingNewIsAllowed(sys);
      work := new CycleState(c);
      staged := c;
      evidence := None;
    }

    method Store(work: CycleState)
      modifies this`staged
      ensures staged == work.Value()
    {
      staged := work.Value();
    }

    /** Write the staged state to the file as the step `e`. */
    method SaveState(ghost e: Event)
      requires Recorded() && Allowed(sys, e) && !e.Hand?
      requires AsRead(staged) == After(sys, e).durable
      modifies this`file, this`written, this`sys, this`trace
      ensures Recorded() && file == Some(ToMapping(staged))
      ensures sys == After(old(sys), e) && trace == old(trace) + [e]
    {
      file := Some(ToMapping(staged));
      written := staged;
      Emit(e);
    }

    /** Save the staged state as one allowed step. */
    method Persist()
      requires Recorded() && MaySave(sys, staged, evidence)
      modifies this
      ensures Recorded() && staged == old(staged) && handed == old(handed)
      ensures file == Some(ToMapping(staged))
      ensures sys == old(sys).(durable := AsRead(staged), stage := Quiet)
      ensures trace == old(trace) + [Event.Save(old(staged), old(evidence))]
      ensures evidence == None && Observes(sys.durable, staged, None)
    {
      SaveState(Event.Save(staged, evidence));
      evidence := None;
      LeadsToReachable(trace, sys);
      ReachableInv(sys);
      SavedIsObserved(staged);
    }

    method Park(work: CycleState, reason: string)
      modifies this`staged, work
      ensures work.Value() == Parked(old(work.Value()), reason) && staged == work.Value()
      ensures old(Observes(sys.durable, work.Value(), evidence)) ==> Ready(work)
    {
      ParkingIsObserved(sys.durable, work.Value(), evidence, reason);
      work.Park(reason);
      Store(work);
    }

    method Fail(work: CycleState, reason: Reason)
      modifies this`staged, work
      ensures work.Value() == Failed(old(work.Value()), reason) && staged == work.Value()
      ensures old(Observes(sys.durable, work.Value(), evidence)) ==> Ready(work)
    {
      FailingIsObserved(sys.durable, work.Value(), evidence, reason);
      work.Fail(reason);
      Store(work);
    }

    // ----- observation -----

    method AddReferences(work: CycleState, view: View) returns (found: bool, alarm: bool)
      requires Observing(work) && view.Valid()
      modifies this`staged, work
      ensures Observing(work)
      ensures alarm ==> view.references.TimedOut?
      ensures found ==> old(work.dispatch).Some? && view.references.Found?
      ensures !found ==> work.Value() == old(work.Value())
      ensures found ==>
        var added := WithReferences(old(work.dispatch).value, view.references.value);
        work.Value() == old(work.Value()).(dispatch := Some(added))
    {
      found, alarm := false, false;
      if work.dispatch.None? {
        return;
      }
      match view.references
      case TimedOut => alarm := true;
      case Unavailable =>
      case Found(refs) =>
        ReferencesAreObserved(sys.durable, work.Value(), refs);
        work.dispatch := Some(WithReferences(work.dispatch.value, refs));
        Store(work);
        found := true;
    }

    /** On resume, an active attempt whose authority no longer holds fails. */
    method RecheckActive(work: CycleState, answer: Answer) returns (alarm: bool)
      requires Observing(work)
      modifies this`staged, work
      ensures Observing(work)
      ensures alarm ==> answer.AlarmRang?
    {
      alarm := false;
      match answer
      case Granted(_) =>
      case AlarmRang => alarm := true;
      case Refused(reason) =>
        if reason == "source-unreadable" {
          Park(work, reason);
        } else {
          Fail(work, reason);
        }
    }

    /** What reading the recorded pull requests decides about a returned dispatch. */
    method Judge(work: CycleState, prs: seq<PullRequest>, view: View) returns (alarm: bool)
      requires Observing(work) && work.dispatch.Some? && work.dispatch.value.phase == Returned
      requires |prs| == |work.dispatch.value.pullRequests|
      requires forall i :: 0 <= i < |prs| ==> prs[i].url == work.dispatch.value.pullRequests[i]
      modifies this`staged, this`evidence, work
      ensures Observes(sys.durable, work.Value(), evidence)
      ensures alarm ==> view.recheck.AlarmRang?
      ensures !alarm ==> Ready(work)
      ensures work.dispatch.Some? && (work.dispatch.value.phase == Settled
        <==> ScopeFailure(prs, view.approval).None? && (forall i :: 0 <= i < |prs| ==> !prs[i].isOpen)
             && (prs == [] ==> old(work.dispatch).value.outcome != Some("completed")))
      ensures ScopeFailure(prs, view.approval) == Some("authority-scope-exceeded") ==> work.failure.Some?
    {
      alarm := false;
      var record := work.dispatch.value;
      CountingIsObserved(sys.durable, work.Value(), evidence, 0);
      work.observationCalls := 0;
      Store(work);
      var scope := ScopeFailure(prs, view.approval);
      if scope == Some("authority-scope-exceeded") {
        Fail(work, "authority-scope-exceeded");
      } else if prs == [] && record.outcome == Some("completed") {
        Fail(work, "no-pull-request");
      } else if exists i :: 0 <= i < |prs| && prs[i].isOpen {
        alarm := RecheckActive(work, view.recheck);
      } else if scope.Some? {
        Fail(work, scope.value);
      } else {
        Settle(work, prs, if view.approval.Approved? then view.approval.files else {});
      }
    }

    /** Settle a returned dispatch whose pull requests are closed and within the approved files. */
    method Settle(work: CycleState, prs: seq<PullRequest>, files: set<string>)
      requires Observing(work) && work.dispatch.Some? && work.dispatch.value.phase == Returned
      requires Covers(Evidence(prs, files), work.dispatch.value)
      modifies this`staged, this`evidence, work
      ensures Ready(work)
      ensures work.Value() == old(work.Value()).(dispatch := Some(old(work.dispatch).value.(phase := Settled)))
    {
      var read := Evidence(prs, files);
      SettlingIsObserved(sys.durable, work.Value(), read);
      evidence := Some(read);
      work.dispatch := Some(work.dispatch.value.(phase := Settled));
      Store(work);
    }

    /** Settle a returned dispatch by its pull requests. */
    method CheckPullRequests(work: CycleState, view: View) returns (alarm: bool)
      requires Observing(work)
      requires work.dispatch.Some? && work.dispatch.value.phase == Returned
      modifies this`staged, this`evidence, work
      ensures Observes(sys.durable, work.Value(), evidence)
      ensures alarm ==> view.pullRequests.TimedOut? || view.recheck.AlarmRang?
      ensures !alarm ==> Ready(work)
      ensures work.dispatch.Some? && (work.dispatch.value.phase == Settled ==> view.pullRequests.Found?)
    {
      alarm := false;
      match view.pullRequests
      case TimedOut => alarm := true;
      case Unavailable => Park(work, "pull-request-lookup-unavailable");
      case Found(facts) => alarm := Judge(work, ReadAll(work.dispatch.value.pullRequests, facts), view);
    }

    /** Look at what a recorded dispatch left behind; never launch it again. */
    method ReplayDispatch(work: CycleState, view: View) returns (found: bool, alarm: bool)
      requires Observing(work) && view.Valid() && work.dispatch.Some?
      modifies this`staged, work
      ensures Observing(work) && work.dispatch.Some?
    {
      found, alarm := false, false;
      var record := work.dispatch.value;
      if view.workerAlive != Some(false) {
        Park(work, if view.workerAlive == Some(true) then "dispatch-in-flight" else "dispatch-unverified");
        return;
      }
      found, alarm := AddReferences(work, view);
      if !alarm {
        ReportReplay(work, record, found);
      }
    }

    /** Say what a replayed dispatch turned out to be. */
    method ReportReplay(work: CycleState, record: Dispatch, found: bool)
      requires Observing(work)
      modifies this`staged, work
      ensures Observing(work) && work.dispatch == old(work.dispatch)
    {
      if HoldsReservation(work.Value()) {
        Fail(work, "unsettled-reservation");
      } else if record.phase == Unknown || record.outcome == Some("unknown") {
        Fail(work, "dispatch-outcome-unknown");
      } else if !found {
        Park(work, "dispatch-lookup-unavailable");
      } else {
        Park(work, "already-dispatched");
      }
    }

    method ObserveOnce(work: CycleState, view: View) returns (alarm: bool)
      requires Observing(work) && view.Valid()
      modifies this`staged, this`evidence, work
      ensures Observes(sys.durable, work.Value(), evidence)
      ensures !alarm ==> Ready(work)
    {
      alarm := false;
      if work.dispatch.None? {
        Fail(work, if HoldsReservation(work.Value()) then "unsettled-reservation" else "dispatch-outcome-unknown");
        return;
      }
      var record := work.dispatch.value;
      var found;
      if record.phase != Returned || record.outcome == Some("unknown") {
        found, alarm := ReplayDispatch(work, view);
        if found && !alarm {
          match view.pullRequests
          case TimedOut => alarm := true;
          case Unavailable => Park(work, "pull-request-lookup-unavailable");
          case Found(facts) =>
            var scope := ScopeFailure(ReadAll(work.dispatch.value.pullRequests, facts), view.approval);
            if scope.Some? {
              Fail(work, scope.value);
            }
        }
        return;
      }
      found, alarm := AddReferences(work, view);
      if alarm {
        return;
      }
      if !found {
        Park(work, "pull-request-lookup-unavailable");
        return;
      }
      alarm := CheckPullRequests(work, view);
    }

    /** Save one more observation before it is made. */
    method CountObservation(work: CycleState)
      requires Recorded() && Observing(work) && sys.stage == Quiet
      modifies this, work
      ensures Recorded() && Observing(work) && sys.stage == Quiet
      ensures handed == old(handed) && sys.past == old(sys.past) && sys.durable.lease == old(sys.durable.lease)
      ensures old(trace) <= trace
    {
      LeadsToReachable(trace, sys);
      ReachableInv(sys);
      CountingIsObserved(sys.durable, work.Value(), None, work.observationCalls + 1);
      work.observationCalls := work.observationCalls + 1;
      Store(work);
      Persist();
    }

    /** Spend one bounded observation on an unsettled attempt; never start work. */
    method Observe(work: CycleState, config: Config, view: View, alarmAtEnd: bool)
      requires Recorded() && Observing(work) && sys.stage == Quiet && view.Valid()
      modifies this, work
      ensures Recorded() && Ready(work) && sys.stage == Quiet
      ensures handed == old(handed) && sys.past == old(sys.past) && sys.durable.lease == old(sys.durable.lease)
      ensures old(trace) <= trace
    {
      if work.observationCalls >= config.observationCallLimit {
        Fail(work, "observation-exhausted");
        return;
      }
      CountObservation(work);
      var alarm := ObserveOnce(work, view);
      if alarm || alarmAtEnd {
        Park(work, "observation-timeout");
      }
    }

    /** Park and say so when this run may not select new work. */
    method RefusedNewWork(work: CycleState, config: Config, now: Now) returns (refused: bool)
      requires Ready(work) && config.Valid()
      modifies this`staged, work
      ensures Ready(work)
      ensures refused <==>
        || config.ParkReason().Some?
        || (old(work.lease).Some? && !MayReplaceLease(old(work.Value()), WindowStart(now.local, config.windowMinutes)))
      ensures refused ==> work.Value() == old(work.Value()).(parked := work.parked)
      ensures !refused ==> work.Value() == old(work.Value())
    {
      var reason: Option<string> := None;
      if config.ParkReason().Some? {
        reason := config.ParkReason();
      } else if AwaitingDisposition(work.Value()) {
        reason := Some("disposition-required");
      } else if !IsSettled(work.Value()) {
        reason := Some("attempt-active");
      } else if work.lease.Some? && work.lease.value.window == WindowStart(now.local, config.windowMinutes) {
        reason := Some("window-attempt-complete");
      }
      if reason.Some? {
        Park(work, reason.value);
      }
      refused := reason.Some?;
    }

    // ----- dispatch -----

    /** The execution-time recheck: whether a request may be built, else why not is recorded. */
    method AuthorizedRequest(work: CycleState, input: DispatchInput) returns (ok: bool)
      requires Ready(work) && work.lease.Some?
      modifies this`staged, work
      ensures Ready(work)
      ensures ok <==>
        && !HoldsReservation(old(work.Value())) && input.instant < old(work.lease).value.deadline
        && input.recheck.Granted? && input.requestBuilt
      ensures ok ==> work.Value() == old(work.Value())
      ensures !ok ==> work.dispatch == old(work.dispatch)
    {
      ok := false;
      if HoldsReservation(work.Value()) {
        Fail(work, "unsettled-reservation");
      } else if input.instant >= work.lease.value.deadline {
        Fail(work, "runtime-exhausted");
      } else if input.recheck.AlarmRang? {
        Park(work, "timeout");
      } else if input.recheck.Refused? {
        Park(work, input.recheck.reason);
      } else if !input.requestBuilt {
        Park(work, "selected-repair-unavailable");
      } else {
        ok := true;
      }
    }

    /** Record a launched run's outcome: an overrun or any end but completion is kept as the failure. */
    method RecordReturn(work: CycleState, outcome: Outcome) returns (failed: bool)
      requires Recorded() && sys.stage == Launched && outcome.state != ParkedRun
      requires ReturnsUnlessOver(sys.durable, work.Value()) && work.dispatch.value.outcome == Some(outcome.Name())
      modifies this, work
      ensures Recorded() && Observing(work) && sys.stage == Quiet
      ensures failed <==> BudgetExceeded(old(work.Value())) || outcome.state != Completed
      ensures failed ==> work.failure.Some?
      ensures work.dispatch == old(work.dispatch) && work.dispatch.Some? && work.dispatch.value.phase == Returned
      ensures handed == old(handed) && old(trace) <= trace
    {
      var failure := ReturnFailure(work.Value(), outcome);
      ReturnIsSaved(sys.durable, work.Value(), outcome);
      Conclude(work, failure);
      Persist();
      failed := failure.Some?;
    }

    method Conclude(work: CycleState, failure: Option<Reason>)
      modifies this`staged, work
      ensures staged == work.Value()
      ensures work.Value() == Concluded(old(work.Value()), failure)
    {
      if failure.Some? {
        Fail(work, failure.value);
      } else {
        Store(work);
      }
    }

    /** Fail a run that did not complete; otherwise settle it by its pull requests. */
    method SettleRun(work: CycleState, input: DispatchInput, outcome: Outcome)
      requires Recorded() && sys.stage == Launched && input.Valid() && outcome.state != ParkedRun
      requires ReturnsUnlessOver(sys.durable, work.Value()) && work.dispatch.value.outcome == Some(outcome.Name())
      modifies this, work
      ensures Recorded() && Ready(work) && sys.stage == Quiet
      ensures outcome.state != Completed ==> work.failure.Some?
      ensures handed == old(handed) && old(trace) <= trace
    {
      var failed := RecordReturn(work, outcome);
      FollowUp(work, input.after, outcome.state == Completed && !failed);
    }

    /** Add what a returned run left behind, and settle it by its pull requests if it may settle. */
    method FollowUp(work: CycleState, view: View, maySettle: bool)
      requires Observing(work) && work.dispatch.Some? && work.dispatch.value.phase == Returned
      requires view.Valid() && !view.references.TimedOut? && !view.pullRequests.TimedOut? && !view.recheck.AlarmRang?
      modifies this`staged, this`evidence, work
      ensures Ready(work)
      ensures !maySettle ==> work.failure == old(work.failure)
    {
      var found, alarm := AddReferences(work, view);
      if !maySettle {
        return;
      }
      if found {
        alarm := CheckPullRequests(work, view);
      } else {
        Park(work, "pull-request-lookup-unavailable");
      }
    }

    /** Reserve everything that is left and record the intent, in memory. */
    method Reserve(work: CycleState, record: Dispatch) returns (a: Admission)
      requires work.lease.Some? && CanAdmit(work.Value())
      modifies this`staged, work
      ensures a == Remaining(old(work.Value())) && staged == work.Value()
      ensures work.Value() == Admitted(old(work.Value())).(dispatch := Some(record))
    {
      var admission := work.Admit();
      a := admission.value;
      work.dispatch := Some(record);
      Store(work);
    }

    /** Hand the attempt whose intent was saved to the host. */
    method Hand(id: string)
      requires Recorded() && Allowed(sys, Event.Hand(id))
      modifies this`handed, this`sys, this`trace
      ensures Recorded() && sys == After(old(sys), Event.Hand(id))
      ensures handed == old(handed) + [id] && trace == old(trace) + [Event.Hand(id)]
    {
      handed := handed + [id];
      Emit(Event.Hand(id));
    }

    /** Reserve the budget, save the intent, and hand the attempt to the host: three steps in this order. */
    method Handover(work: CycleState, record: Dispatch) returns (a: Admission)
      requires Recorded() && sys.stage == Fresh && work.Value() == sys.durable && MayIntend(sys, record)
      modifies this, work
      ensures Recorded() && sys.stage == Handed && evidence == old(evidence)
      ensures work.Value() == Admitted(old(sys.durable)).(dispatch := Some(record))
      ensures file == Some(ToMapping(work.Value())) && sys.durable == AsRead(work.Value())
      ensures a == Remaining(old(sys.durable)) && IntentWith(sys.durable, a)
      ensures handed == old(handed) + [record.attemptId]
      ensures trace == old(trace) + [Event.Intend(record)] + [Event.Hand(record.attemptId)]
    {
      a := SaveIntent(work, record);
      Hand(record.attemptId);
    }

    /** Reserve the budget and save the intent with it. */
    method SaveIntent(work: CycleState, record: Dispatch) returns (a: Admission)
      requires Recorded() && sys.stage == Fresh && work.Value() == sys.durable && MayIntend(sys, record)
      modifies this, work
      ensures Recorded() && evidence == old(evidence) && handed == old(handed)
      ensures work.Value() == Admitted(old(sys.durable)).(dispatch := Some(record))
      ensures file == Some(ToMapping(work.Value())) && sys.durable == AsRead(work.Value())
      ensures sys.stage == Armed && AttemptId(sys.durable) == record.attemptId
      ensures a == Remaining(old(sys.durable)) && IntentWith(sys.durable, a)
      ensures trace == old(trace) + [Event.Intend(record)]
    {
      LeadsToReachable(trace, sys);
      FreshIsUnspent(sys);
      IntentIsSaved(sys, record);
      a := Reserve(work, record);
      SaveState(Event.Intend(record));
    }

    /** The recheck, the worktrees before the run and the budget: whether the attempt may be launched. */
    method MayLaunch(work: CycleState, input: DispatchInput) returns (ok: bool)
      requires Ready(work) && work.lease.Some?
      modifies this`staged, work
      ensures Ready(work)
      ensures ok <==>
        && !HoldsReservation(old(work.Value())) && input.instant < old(work.lease).value.deadline
        && input.recheck.Granted? && input.requestBuilt && input.worktrees.Found?
        && CanAdmit(old(work.Value()))
      ensures ok ==> work.Value() == old(work.Value())
    {
      ok := AuthorizedRequest(work, input);
      if !ok {
        return;
      }
      if !input.worktrees.Found? {
        Park(work, "dispatch-lookup-unavailable");
        ok := false;
      } else if !CanAdmit(work.Value()) {
        Fail(work, "budget-exhausted");
        ok := false;
      }
    }

    /** Recheck, admit, save, run and settle one host dispatch. An attempt with a dispatch record is replayed,
        never launched again. */
    method DispatchHost(work: CycleState, input: DispatchInput)
      requires Recorded() && Observing(work) && input.Valid()
      requires work.lease.Some? && Text.Clean(work.lease.value.attemptId)
      requires sys.stage == Fresh || sys.stage == Quiet
      requires work.dispatch.Some? || (sys.stage == Fresh && work.Value() == sys.durable)
      modifies this, work
      ensures Recorded() && MaySave(sys, staged, evidence)
      ensures handed == if old(work.dispatch).None?
                           && !HoldsReservation(old(work.Value())) && input.instant < old(work.lease).value.deadline
                           && input.recheck.Granted? && input.requestBuilt && input.worktrees.Found?
                           && CanAdmit(old(work.Value()))
                        then old(handed) + [old(work.lease).value.attemptId] else old(handed)
      ensures old(trace) <= trace
    {
      if work.dispatch.Some? {
        var found, alarm := ReplayDispatch(work, input.after);
        return;
      }
      var ok := MayLaunch(work, input);
      if ok {
        Launch(work, input);
      }
    }

    /** Hand a newly begun attempt to the host, run it and settle what it reports. */
    method Launch(work: CycleState, input: DispatchInput)
      requires Recorded() && sys.stage == Fresh && work.Value() == sys.durable && input.Valid()
      requires work.lease.Some? && Text.Clean(work.lease.value.attemptId) && CanAdmit(work.Value())
      requires input.worktrees.Found?
      modifies this, work
      ensures Recorded() && MaySave(sys, staged, evidence)
      ensures handed == old(handed) + [old(work.lease).value.attemptId] && old(trace) <= trace
    {
      var record := Dispatch(work.lease.value.attemptId, Intent, Some(input.sessionId), Some(input.repository),
                             Some(input.repoRoot), input.worktrees.value, None, [], [], []);
      var admission := Handover(work, record);
      RunHost(work, input, admission);
    }

    /** Run the host on an attempt handed to it, and settle what it reports. */
    method RunHost(work: CycleState, input: DispatchInput, admission: Admission)
      requires Recorded() && sys.stage == Handed && input.Valid()
      requires AsRead(work.Value()) == sys.durable && IntentWith(sys.durable, admission)
      modifies this, work
      ensures Recorded() && MaySave(sys, staged, evidence)
      ensures input.outcome.state == ParkedRun ==> staged.dispatch.None? && sys.launched == old(sys.launched)
      ensures input.outcome.state != ParkedRun && input.outcome.state != Completed ==> staged.failure.Some?
      ensures handed == old(handed) && old(trace) <= trace
    {
      var outcome := input.outcome;
      if outcome.reason in {Some("timeout"), Some("runtime-exhausted")} && input.approvalEndsFirst {
        outcome := outcome.(reason := Some("authority-expired"));
      }
      if outcome.state == ParkedRun {
        Withdraw(work, admission, outcome);
        return;
      }
      Emit(Event.Launch(work.dispatch.value.attemptId));
      Charge(work, outcome, admission);
      SettleRun(work, input, outcome);
    }

    /** Nothing was launched: take back the intent and its reservation. */
    method Withdraw(work: CycleState, admission: Admission, outcome: Outcome)
      requires outcome.Valid() && outcome.state == ParkedRun
      requires AsRead(work.Value()) == sys.durable && IntentWith(sys.durable, admission)
      modifies this`staged, work
      ensures staged == work.Value() && Withdraws(sys.durable, staged)
    {
      work.dispatch := None;
      work.Settle(admission, Some(0.0), outcome.calls);
      Park(work, if outcome.reason.Some? then outcome.reason.value else "host-parked");
    }

    /** Replace the reservation by what the launched run used; work in flight may have spent anything. */
    method Charge(work: CycleState, outcome: Outcome, admission: Admission)
      requires outcome.Valid() && AsRead(work.Value()) == sys.durable && IntentWith(sys.durable, admission)
      modifies work
      ensures ReturnsUnlessOver(sys.durable, work.Value()) && work.dispatch.value.outcome == Some(outcome.Name())
      ensures work.consumedCost == if outcome.cost.Some? && outcome.state !in {Stopped, UnknownRun}
                                   then outcome.cost.value else admission.cost
      ensures outcome.state in {Stopped, UnknownRun} ==> work.consumedCalls >= admission.calls
      ensures work.consumedCalls >= outcome.calls
    {
      work.dispatch := Some(work.dispatch.value.(phase := Returned, outcome := Some(outcome.Name())));
      if outcome.state in {Stopped, UnknownRun} {
        work.Settle(admission, None, if outcome.calls >= admission.calls then outcome.calls else admission.calls);
      } else {
        work.Settle(admission, outcome.cost, outcome.calls);
      }
    }

    // ----- one run -----

    /** Authorize, begin, save the lease, then dispatch. A refusal leaves no attempt behind. */
    method BeginAndDispatch(work: CycleState, config: Config, input: RunInput)
      requires Recorded() && Observing(work) && sys.stage == Quiet && work.Value() == sys.durable
      requires config.Valid() && config.costCap.Some? && input.Valid() && !BegunBefore(sys, input.freshId)
      modifies this, work
      ensures Recorded() && MaySave(sys, staged, evidence)
      ensures handed == old(handed) || handed == old(handed) + [input.freshId]
      ensures handed != old(handed) ==>
        input.selection.Granted? && Begun(old(sys.durable), config, input.after, input.freshId).Some?
      ensures old(trace) <= trace
    {
      match input.selection
      case AlarmRang => Park(work, "timeout");
      case Refused(reason) => SkipSelection(work, reason);
      case Granted(bound) =>
        var begun := BeginBound(work, config, input.after, input.freshId, bound);
        if begun {
          DispatchHost(work, input.dispatch);
        }
    }

    /** Nothing was selected: an empty selection clears the park reason, any other refusal records its own. */
    method SkipSelection(work: CycleState, reason: Reason)
      requires Observing(work)
      modifies this`staged, work
      ensures Observing(work)
    {
      if reason in {"selected-repair-unavailable", "authority-missing"} {
        work.parked := None;
        Store(work);
      } else {
        Park(work, reason);
      }
    }

    /** Begin an attempt bound to what was authorized, and save it. */
    method BeginBound(work: CycleState, config: Config, now: Now, id: string, bound: Bound) returns (begun: bool)
      requires Recorded() && Observing(work) && sys.stage == Quiet && work.Value() == sys.durable
      requires config.Valid() && config.costCap.Some? && Text.Clean(id) && StorableBound(bound) && !BegunBefore(sys, id)
      modifies this, work
      ensures Recorded() && Observing(work) && handed == old(handed)
      ensures begun == Begun(old(sys.durable), config, now, id).Some?
      ensures sys.stage == (if begun then Fresh else Quiet)
      ensures begun ==>
        && work.Value() == sys.durable == Begun(old(sys.durable), config, now, id).value.(authority := Some(bound))
        && trace == old(trace) + [Event.Begin(config, now, id, bound)]
      ensures !begun ==> trace == old(trace)
    {
      begun := work.Begin(config, now, id);
      if !begun {
        Park(work, "window-attempt-complete");
        return;
      }
      work.authority := Some(bound);
      Store(work);
      PersistLease(config, now, id, bound);
    }

    /** Save a newly begun lease before anything else happens to it. */
    method PersistLease(config: Config, now: Now, id: string, bound: Bound)
      requires Recorded() && MayBegin(sys, config, now, id, bound)
      requires staged == Begun(sys.durable, config, now, id).value.(authority := Some(bound))
      modifies this
      ensures Recorded() && staged == old(staged) == sys.durable && sys.stage == Fresh && handed == old(handed)
      ensures evidence == None && Observes(sys.durable, staged, None)
      ensures trace == old(trace) + [Event.Begin(config, now, id, bound)]
    {
      SaveState(Event.Begin(config, now, id, bound));
      evidence := None;
      LeadsToReachable(trace, sys);
      FreshIsUnspent(sys);
    }

    /** Record an operator's disposition; refused without effect unless the attempt has failed and is stopped. */
    method DisposeAttempt(id: string, confirmStopped: bool) returns (done: bool)
      requires Recorded() && sys.stage == Quiet
      modifies this
      ensures Recorded() && sys.stage == Quiet && handed == old(handed)
      ensures done == MayDispose(old(sys.durable), id, confirmStopped)
      ensures sys.durable == if done then old(sys.durable).(disposedAttempt := Some(id)) else old(sys.durable)
      ensures trace == if done then old(trace) + [Event.Dispose(id, confirmStopped)] else old(trace)
    {
      var work := Load();
      done := work.Dispose(id, confirmStopped);
      if done {
        Store(work);
        SaveState(Event.Dispose(id, confirmStopped));
      }
    }

    /** The first locked section: observe recorded work, then decide whether new work may be selected. */
    method ObserveAndGate(config: Config, input: RunInput) returns (refused: bool)
      requires Recorded() && sys.stage == Quiet && config.Valid() && input.Valid()
      modifies this
      ensures Recorded() && sys.stage == Quiet && handed == old(handed) && old(trace) <= trace
      ensures sys.past == old(sys.past) && sys.durable.lease == old(sys.durable.lease)
      ensures !refused ==> IsSettled(sys.durable) && !AwaitingDisposition(sys.durable) && config.costCap.Some?
    {
      var work := Load();
      if !IsSettled(work.Value()) {
        Observe(work, config, input.view, input.alarmAtEnd);
        if !IsSettled(work.Value()) {
          Persist();
          return true;
        }
      }
      refused := GateNewWork(work, config, input.before);
    }

    /** Decide whether new work may be selected, and save. */
    method GateNewWork(work: CycleState, config: Config, now: Now) returns (refused: bool)
      requires Recorded() && Ready(work) && sys.stage == Quiet && config.Valid()
      modifies this, work
      ensures Recorded() && sys.stage == Quiet && handed == old(handed) && old(trace) <= trace
      ensures sys.past == old(sys.past) && sys.durable.lease == old(sys.durable.lease)
      ensures !refused ==> IsSettled(sys.durable) && !AwaitingDisposition(sys.durable) && config.costCap.Some?
    {
      refused := RefusedNewWork(work, config, now);
      Persist();
    }

    /** Observe, gate, refresh and publish, then begin and dispatch at most once. */
    method RunCycle(config: Config, input: RunInput)
      requires Recorded() && sys.stage == Quiet && config.Valid() && input.Valid()
      requires !BegunBefore(sys, input.freshId)
      modifies this
      ensures Recorded() && sys.stage == Quiet
      ensures handed == old(handed) || handed == old(handed) + [input.freshId]
      ensures old(trace) <= trace
    {
      if input.dispose.Some? {
        var done := DisposeAttempt(input.dispose.value.0, input.dispose.value.1);
        return;
      }
      var refused := ObserveAndGate(config, input);
      if refused {
        return;
      }
      GateAndDispatch(config, input);
    }

    /** The second locked section: gate again on the state as it is now, then begin and dispatch. */
    method GateAndDispatch(config: Config, input: RunInput)
      requires Recorded() && sys.stage == Quiet && config.Valid() && input.Valid()
      requires !BegunBefore(sys, input.freshId)
      modifies this
      ensures Recorded() && sys.stage == Quiet
      ensures handed == old(handed) || handed == old(handed) + [input.freshId]
      ensures old(trace) <= trace
    {
      var work := Load();
      GateOnRefresh(work, config, input);
      Persist();
    }

    /** Park if the refresh or the gate refused; otherwise begin and dispatch. */
    method GateOnRefresh(work: CycleState, config: Config, input: RunInput)
      requires Recorded() && Observing(work) && sys.stage == Quiet && work.Value() == sys.durable
      requires config.Valid() && input.Valid() && !BegunBefore(sys, input.freshId)
      modifies this, work
      ensures Recorded() && MaySave(sys, staged, evidence)
      ensures handed == old(handed) || handed == old(handed) + [input.freshId]
      ensures old(trace) <= trace
    {
      if input.refused.Some? {
        Park(work, input.refused.value);
        return;
      }
      var refused := RefusedNewWork(work, config, input.after);
      if !refused {
        BeginAndDispatch(work, config, input);
      }
    }
  }

  // ----- why observation steps may be saved -----

  lemma ReferencesAreObserved(d: Cycle, c: Cycle, found: References)
    requires Observes(d, c, None) && c.dispatch.Some? && found.Valid()
    ensures Observes(d, c.(dispatch := Some(WithReferences(c.dispatch.value, found))), None)
  {
    if d.dispatch.Some? {
      var q := c.dispatch.value;
      UnionNonEmpty(q.pullRequests, found.pullRequests);
      UnionNonEmpty(q.issues, found.issues);
      UnionNonEmpty(q.worktrees, if q.phase == Unknown then [] else found.worktrees);
    }
  }

  lemma CountingIsObserved(d: Cycle, c: Cycle, evidence: Option<Evidence>, calls: nat)
    requires Observes(d, c, evidence)
    ensures Observes(d, c.(observationCalls := calls), evidence)
  {
  }

  lemma ParkingIsObserved(d: Cycle, c: Cycle, evidence: Option<Evidence>, reason: string)
    ensures Observes(d, c, evidence) ==> Observes(d, Parked(c, reason), evidence)
  {
  }

  lemma FailingIsObserved(d: Cycle, c: Cycle, evidence: Option<Evidence>, reason: Reason)
    ensures Observes(d, c, evidence) ==> Observes(d, Failed(c, reason), evidence)
  {
  }

  lemma SettlingIsObserved(d: Cycle, c: Cycle, read: Evidence)
    requires Observes(d, c, None) && c.dispatch.Some? && c.dispatch.value.phase == Returned
    requires Covers(read, c.dispatch.value)
    ensures Observes(d, c.(dispatch := Some(c.dispatch.value.(phase := Settled))), Some(read))
  {
  }

  /** The state after a launched host's outcome was charged, before an overrun or failure is recorded. */
  ghost predicate ReturnsUnlessOver(d: Cycle, c: Cycle) {
    && KeepsAttempt(d, c)
    && d.dispatch.Some? && c.dispatch.Some?
    && ReturnedOf(d.dispatch.value, c.dispatch.value)
    && c.reservedCost == 0.0 && c.reservedCalls == 0
    && c.consumedCost >= 0.0 && c.consumedCalls >= 0
  }

  /** The saved intent and the admission it was saved with: nothing else is reserved or consumed. */
  ghost predicate IntentWith(d: Cycle, a: Admission) {
    && Storable(d) && d.lease.Some? && d.failure.None?
    && d.dispatch.Some? && d.dispatch.value.phase == Intent
    && d.dispatch.value.attemptId == d.lease.value.attemptId
    && d.consumedCost == 0.0 && d.consumedCalls == 0
    && a == Admission(d.reservedCost, d.reservedCalls)
  }

  /** What the file holds once the intent is saved. */
  lemma IntentIsSaved(s: Sys, record: Dispatch)
    requires MayIntend(s, record) && Storable(s.durable) && BudgetOk(s.durable)
    requires s.durable.dispatch.None? && s.durable.failure.None?
    ensures
      var c := Admitted(s.durable).(dispatch := Some(record));
      && AsRead(c) == After(s, Event.Intend(record)).durable
      && IntentWith(AsRead(c), Remaining(s.durable))
  {
  }

  lemma NameIsClean(o: Outcome)
    ensures Text.Clean(o.Name()) && (o.Name() == "completed" <==> o.state == Completed)
  {
  }

  lemma ReturnIsSaved(d: Cycle, c: Cycle, o: Outcome)
    requires ReturnsUnlessOver(d, c) && c.dispatch.value.outcome == Some(o.Name()) && o.state != ParkedRun
    ensures ReturnFailure(c, o).Some? <==> BudgetExceeded(c) || o.state != Completed
    ensures Returns(d, Concluded(c, ReturnFailure(c, o)))
    ensures ReturnFailure(c, o).Some? ==> Concluded(c, ReturnFailure(c, o)).failure.Some?
  {
    NameIsClean(o);
  }
}
