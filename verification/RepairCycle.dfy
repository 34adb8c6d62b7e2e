/** One scheduler attempt: its window, lease, budget, failure and disposition (engine/repair_cycle.py). */
module RepairCycle {
  import opened Wrappers
  import opened CycleRecords

  // ----- windows -----

  /** A clock reading in microseconds: the host-local wall clock since 2000-01-01T00:00, and the instant. */
  datatype Now = Now(local: int, instant: int)

  const SECOND := 1_000_000
  const MINUTE := 60_000_000

  /** The start, in minutes, of the window of `minutes` minutes that holds the wall-clock time. */
  function WindowStart(local: int, minutes: int): int
    requires minutes >= 1
  {
    local / MINUTE - local / MINUTE % minutes
  }

  /** `g` is a window start and the minute of `local` falls in its window. */
  predicate HoldsMinute(g: int, local: int, minutes: int)
    requires minutes >= 1
  {
    g % minutes == 0 && g <= local / MINUTE < g + minutes
  }

  lemma ProductAtLeast(m: int, k: int)
    requires m >= 1 && k >= 1
    ensures m * k >= m
  {
    assert m * k == m + m * (k - 1);
  }

  /** Quotient and remainder are unique. */
  lemma DivisionUnique(m: int, q: int, r: int, q': int, r': int)
    requires m >= 1 && m * q + r == m * q' + r' && 0 <= r < m && 0 <= r' < m
    ensures q == q' && r == r'
  {
    if q < q' {
      assert m * (q' - q) == m * q' - m * q;
      ProductAtLeast(m, q' - q);
    } else if q' < q {
      assert m * (q - q') == m * q - m * q';
      ProductAtLeast(m, q - q');
    }
  }

  lemma MultipleOf(x: int, m: int)
    requires m >= 1
    ensures (x - x % m) % m == 0
  {
    var q, y := x / m, x - x % m;
    assert y == m * q;
    DivisionUnique(m, y / m, y % m, q, 0);
  }

  /** Two multiples of `m` less than `m` apart are equal. */
  lemma CloseMultiples(a: int, b: int, m: int)
    requires m >= 1 && a % m == 0 && b % m == 0 && 0 <= a - b < m
    ensures a == b
  {
    var p, q := a / m, b / m;
    assert a == m * p + 0 && b == m * q + 0;
    assert m * p + 0 == m * q + (a - b);
    DivisionUnique(m, p, 0, q, a - b);
  }

  /** A window start is the only grid point whose window holds the minute. */
  lemma WindowStartIsTheGridPoint(local: int, minutes: int, g: int)
    requires minutes >= 1
    ensures HoldsMinute(g, local, minutes) <==> g == WindowStart(local, minutes)
  {
    var w := WindowStart(local, minutes);
    MultipleOf(local / MINUTE, minutes);
    assert HoldsMinute(w, local, minutes);
    if HoldsMinute(g, local, minutes) {
      if g >= w {
        CloseMultiples(g, w, minutes);
      } else {
        CloseMultiples(w, g, minutes);
      }
    }
  }

  lemma WindowStartMonotone(earlier: int, later: int, minutes: int)
    requires minutes >= 1 && earlier <= later
    ensures WindowStart(earlier, minutes) <= WindowStart(later, minutes)
  {
    var a, b := WindowStart(earlier, minutes), WindowStart(later, minutes);
    WindowStartIsTheGridPoint(earlier, minutes, a);
    WindowStartIsTheGridPoint(later, minutes, b);
    if b < a {
      assert a - b < minutes;
      CloseMultiples(a, b, minutes);
    }
  }

  // ----- decisions over one attempt -----

  datatype Config = Config(
    enabled: bool,
    hasModel: bool,
    costCap: Option<real>,
    callLimit: int,
    runtimeSeconds: int,
    observationCallLimit: int,
    windowMinutes: int)
  {
    predicate Valid() {
      && callLimit >= 1 && runtimeSeconds >= 1 && observationCallLimit >= 1 && windowMinutes >= 1
      && (costCap.Some? ==> costCap.value > 0.0)
    }

    function ParkReason(): Option<string> {
      if !enabled then Some("disabled")
      else if !hasModel then Some("missing-model")
      else if costCap.None? then Some("missing-cost-cap")
      else None
    }
  }

  datatype Admission = Admission(cost: real, calls: int)

  predicate Disposed(c: Cycle) {
    c.lease.Some? && c.disposedAttempt == Some(c.lease.value.attemptId)
  }

  predicate AwaitingDisposition(c: Cycle) {
    c.lease.Some? && c.failure.Some? && !Disposed(c)
  }

  predicate HoldsReservation(c: Cycle) {
    c.reservedCalls != 0 || c.reservedCost != 0.0
  }

  /** A worker or an open pull request may still belong to the attempt. */
  predicate ReportedActive(c: Cycle) {
    && c.dispatch.Some?
    && c.dispatch.value.phase != Settled
    && (|| c.dispatch.value.phase != Returned
        || c.dispatch.value.outcome in {Some("unknown"), Some("completed")}
        || c.dispatch.value.pullRequests != [])
  }

  /** Nothing of the current attempt can still be running or open. */
  predicate IsSettled(c: Cycle) {
    if c.lease.None? || Disposed(c) then true
    else if c.dispatch.Some? then c.dispatch.value.phase == Settled
    else !(ReportedActive(c) || HoldsReservation(c))
  }

  predicate MayReplaceLease(c: Cycle, window: int) {
    c.lease.Some? && c.lease.value.window != window && IsSettled(c) && !AwaitingDisposition(c)
  }

  predicate BudgetExceeded(c: Cycle) {
    c.lease.Some? && (c.consumedCost > c.lease.value.costCap || c.consumedCalls > c.lease.value.callLimit)
  }

  // ----- what each operation does to the state -----

  const ARCHIVE_KEYS := {
    LeaseKey, ParkedReasonKey, AttemptFailureKey, DisposedKey, ObservationCallsKey, ConsumedCostUsdKey,
    ConsumedCallsKey, ReservedCostUsdKey, ReservedCallsKey, DispatchKey, AuthorityKey}

  function ArchiveMember(c: Cycle, key: Key): Json {
    match key
    case LeaseKey => EncodeOptLease(c.lease)
    case DisposedKey => Flag(Disposed(c))
    case _ => CycleMember(c, key)
  }

  /** The history entry a replaced attempt leaves. */
  function Archive(c: Cycle): Json {
    Obj(map key | key in ARCHIVE_KEYS :: ArchiveMember(c, key))
  }

  function NewLease(config: Config, now: Now, id: string): Lease
    requires config.Valid() && config.costCap.Some?
  {
    Lease(id, WindowStart(now.local, config.windowMinutes), now.instant + config.runtimeSeconds * SECOND,
          config.callLimit, config.costCap.value)
  }

  /** The state after `begin`, or None when the current attempt may not be replaced. */
  function Begun(c: Cycle, config: Config, now: Now, id: string): Option<Cycle>
    requires config.Valid() && config.costCap.Some?
  {
    var window := WindowStart(now.local, config.windowMinutes);
    if c.lease.Some? && !MayReplaceLease(c, window) then None
    else Some(EMPTY.(lease := Some(NewLease(config, now, id)),
                     history := if c.lease.Some? then c.history + [Archive(c)] else c.history))
  }

  function Remaining(c: Cycle): Admission
    requires c.lease.Some?
  {
    Admission(c.lease.value.costCap - c.consumedCost - c.reservedCost,
              c.lease.value.callLimit - c.consumedCalls - c.reservedCalls)
  }

  predicate CanAdmit(c: Cycle)
    requires c.lease.Some?
  {
    Remaining(c).cost > 0.0 && Remaining(c).calls > 0
  }

  function Admitted(c: Cycle): Cycle
    requires c.lease.Some?
  {
    if CanAdmit(c)
    then c.(reservedCost := c.reservedCost + Remaining(c).cost, reservedCalls := c.reservedCalls + Remaining(c).calls)
    else c
  }

  function SettledUsage(c: Cycle, a: Admission, cost: Option<real>, calls: int): Cycle {
    c.(reservedCost := c.reservedCost - a.cost,
       reservedCalls := c.reservedCalls - a.calls,
       consumedCost := c.consumedCost + (if cost.Some? then cost.value else a.cost),
       consumedCalls := c.consumedCalls + calls)
  }

  function Parked(c: Cycle, reason: string): Cycle {
    c.(parked := Some(reason))
  }

  function Failed(c: Cycle, reason: string): Cycle {
    c.(parked := Some(reason), failure := if c.failure.None? then Some(reason) else c.failure)
  }

  predicate MayDispose(c: Cycle, id: string, confirmStopped: bool) {
    && c.lease.Some? && c.lease.value.attemptId == id
    && c.failure.Some?
    && (ReportedActive(c) ==> confirmStopped)
  }

  /** The scheduler's mutable record; `Value` is the state its methods are specified over. */
  class CycleState {
    var lease: Option<Lease>
    var parked: Option<string>
    var observationCalls: int
    var failure: Option<string>
    var disposedAttempt: Option<string>
    var consumedCost: real
    var consumedCalls: int
    var reservedCost: real
    var reservedCalls: int
    var dispatch: Option<Dispatch>
    var authority: Option<Bound>
    var history: seq<Json>

    function Value(): Cycle
      reads this
    {
      Cycle(lease, parked, observationCalls, failure, disposedAttempt, consumedCost, consumedCalls,
            reservedCost, reservedCalls, dispatch, authority, history)
    }

    constructor (c: Cycle)
      ensures Value() == c
    {
      lease, parked, observationCalls, failure := c.lease, c.parked, c.observationCalls, c.failure;
      disposedAttempt, consumedCost, consumedCalls := c.disposedAttempt, c.consumedCost, c.consumedCalls;
      reservedCost, reservedCalls := c.reservedCost, c.reservedCalls;
      dispatch, authority, history := c.dispatch, c.authority, c.history;
    }

    method Begin(config: Config, now: Now, id: string) returns (begun: bool)
      requires config.Valid() && config.costCap.Some?
      modifies this
      ensures begun == Begun(old(Value()), config, now, id).Some?
      ensures Value() == if begun then Begun(old(Value()), config, now, id).value else old(Value())
    {
      var before := Value();
      var window := WindowStart(now.local, config.windowMinutes);
      if lease.Some? && !MayReplaceLease(before, window) {
        return false;
      }
      if lease.Some? {
        history := history + [Archive(before)];
      }
      Renew(NewLease(config, now, id));
      begun := true;
    }

    /** Every field but the history starts over under the new lease. */
    method Renew(next: Lease)
      modifies this
      ensures Value() == EMPTY.(lease := Some(next), history := old(history))
    {
      lease := Some(next);
      parked, observationCalls, failure, disposedAttempt := None, 0, None, None;
      consumedCost, reservedCost, consumedCalls, reservedCalls := 0.0, 0.0, 0, 0;
      dispatch, authority := None, None;
    }

    method Admit() returns (admission: Option<Admission>)
      requires lease.Some?
      modifies this
      ensures admission == if CanAdmit(old(Value())) then Some(Remaining(old(Value()))) else None
      ensures Value() == Admitted(old(Value()))
    {
      var cost := lease.value.costCap - consumedCost - reservedCost;
      var calls := lease.value.callLimit - consumedCalls - reservedCalls;
      if cost <= 0.0 || calls <= 0 {
        return None;
      }
      reservedCost := reservedCost + cost;
      reservedCalls := reservedCalls + calls;
      admission := Some(Admission(cost, calls));
    }

    method Settle(a: Admission, cost: Option<real>, calls: int)
      modifies this
      ensures Value() == SettledUsage(old(Value()), a, cost, calls)
    {
      reservedCost := reservedCost - a.cost;
      reservedCalls := reservedCalls - a.calls;
      consumedCost := consumedCost + if cost.None? then a.cost else cost.value;
      consumedCalls := consumedCalls + calls;
    }

    method Park(reason: string)
      modifies this
      ensures Value() == Parked(old(Value()), reason)
    {
      parked := Some(reason);
    }

    method Fail(reason: string)
      modifies this
      ensures Value() == Failed(old(Value()), reason)
    {
      if failure.None? {
        failure := Some(reason);
      }
      Park(reason);
    }

    method Dispose(id: string, confirmStopped: bool) returns (done: bool)
      modifies this
      ensures done == MayDispose(old(Value()), id, confirmStopped)
      ensures Value() == if done then old(Value()).(disposedAttempt := Some(id)) else old(Value())
    {
      if lease.None? || lease.value.attemptId != id {
        return false;
      }
      if failure.None? {
        return false;
      }
      if ReportedActive(Value()) && !confirmStopped {
        return false;
      }
      disposedAttempt := Some(id);
      done := true;
    }
  }

  // ----- laws of one attempt -----

  /** An admission reserves everything left, so no second one fits before it settles. */
  lemma OneAdmissionAtATime(c: Cycle)
    requires c.lease.Some? && CanAdmit(c)
    ensures !CanAdmit(Admitted(c))
    ensures Remaining(Admitted(c)) == Admission(0.0, 0)
  {
  }

  /** Settling returns the reservation to what it was before the admission, and charges only what was measured. */
  lemma SettleReleasesAdmission(c: Cycle, cost: Option<real>, calls: int)
    requires c.lease.Some? && CanAdmit(c)
    ensures
      var a := Remaining(c);
      var after := SettledUsage(Admitted(c), a, cost, calls);
      && after == c.(consumedCost := after.consumedCost, consumedCalls := after.consumedCalls)
      && after.consumedCost - c.consumedCost == (if cost.Some? then cost.value else a.cost)
      && (cost.None? ==> after.consumedCost + after.reservedCost == c.lease.value.costCap)
  {
  }

  /** An archived entry keeps the attempt's identity, disposition and dispatch readable. */
  predicate ArchivedAttempt(e: Json, l: Lease) {
    e.Obj? && Get(e.fields, LeaseKey, Null) == EncodeLease(l)
  }

  /** The entry says an operator disposed the attempt, or its dispatch was settled. */
  predicate ArchivedClosed(e: Json) {
    && e.Obj?
    && (|| Get(e.fields, DisposedKey, Null) == Flag(true)
        || (&& Get(e.fields, DispatchKey, Null).Obj?
            && Get(Get(e.fields, DispatchKey, Null).fields, PhaseKey, Null) == Text("settled")))
  }

  lemma ArchiveHolds(c: Cycle)
    requires c.lease.Some?
    ensures Member(Archive(c).fields, LeaseKey, EncodeLease(c.lease.value))
    ensures Member(Archive(c).fields, DisposedKey, Flag(Disposed(c)))
    ensures Member(Archive(c).fields, DispatchKey, EncodeOptDispatch(c.dispatch))
  {
  }

  lemma ArchivedPhase(d: Dispatch)
    ensures EncodeDispatch(d).Obj?
    ensures Get(EncodeDispatch(d).fields, PhaseKey, Null) == Text(PhaseName(d.phase))
  {
    EncodedHolds(d);
  }

  lemma SettledByName(p: Phase)
    ensures Text(PhaseName(p)) == Text("settled") <==> p == Settled
  {
  }

  lemma ArchiveClosedExactly(c: Cycle)
    requires c.lease.Some?
    ensures ArchivedClosed(Archive(c))
       <==> Disposed(c) || (c.dispatch.Some? && c.dispatch.value.phase == Settled)
  {
    ArchiveHolds(c);
    if c.dispatch.Some? {
      ArchivedPhase(c.dispatch.value);
      SettledByName(c.dispatch.value.phase);
    }
  }

  lemma ArchiveIsFaithful(c: Cycle)
    requires c.lease.Some?
    ensures ArchivedAttempt(Archive(c), c.lease.value)
    ensures ArchivedClosed(Archive(c))
       <==> Disposed(c) || (c.dispatch.Some? && c.dispatch.value.phase == Settled)
    ensures Get(Archive(c).fields, DispatchKey, Null) == EncodeOptDispatch(c.dispatch)
  {
    ArchiveHolds(c);
    ArchiveClosedExactly(c);
  }

  lemma ArchiveIsValid(c: Cycle)
    requires Storable(c) && c.lease.Some?
    ensures ValidEntry(Archive(c))
  {
    ArchiveIsFaithful(c);
    LeaseRoundTrip(c.lease.value);
    if c.dispatch.Some? {
      DispatchRoundTrip(c.dispatch.value);
    }
  }

  /** A lease is replaced only when its window is over and nothing of it can still run, be open or be unexplained. */
  lemma BeginReplacesOnlyFinishedAttempts(c: Cycle, config: Config, now: Now, id: string)
    requires config.Valid() && config.costCap.Some?
    requires c.lease.Some? && Begun(c, config, now, id).Some?
    ensures Disposed(c) || (c.failure.None? && !ReportedActive(c) && (c.dispatch.None? ==> !HoldsReservation(c)))
    ensures c.dispatch.Some? ==> ArchivedClosed(Archive(c))
    ensures Begun(c, config, now, id).value.history == c.history + [Archive(c)]
    ensures c.lease.value.window != Begun(c, config, now, id).value.lease.value.window
  {
    ArchiveIsFaithful(c);
  }
}
