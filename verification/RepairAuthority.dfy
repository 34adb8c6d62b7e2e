/** Operator approvals (engine/repair_authority.py) and the one authority check made with them
    (`_authorize`, app/commands/repair_cycle.py). Instants are microseconds. */
module RepairAuthority {
  import opened Wrappers
  import RepairCycle
  import CycleRecords

  datatype Approval = Approval(
    key: string,
    reviewedVersion: string,
    evidenceDigest: string,
    files: set<string>,
    actions: set<string>,
    callLimit: int,
    costCap: real,
    runtimeMinutes: int,
    expiresAt: int,
    revoked: bool)

  datatype Authority = Authority(repository: string, revision: string, approvals: seq<Approval>)

  datatype Binding = Binding(
    repository: string,
    key: string,
    reviewedVersion: string,
    evidenceDigest: string,
    files: set<string>,
    action: string,
    callLimit: int,
    costCap: real,
    runtimeSeconds: int)

  /** The first approval of `key`; the decoder allows one per key. */
  function ApprovalFor(approvals: seq<Approval>, key: string): (a: Option<Approval>)
    ensures a.Some? ==> a.value in approvals && a.value.key == key
    ensures a.None? ==> forall x :: x in approvals ==> x.key != key
  {
    if approvals == [] then None
    else if approvals[0].key == key then Some(approvals[0])
    else ApprovalFor(approvals[1..], key)
  }

  /** Why `binding` is not authorized at `now`, or None when it is. */
  function CheckAuthority(authority: Option<Authority>, binding: Binding, now: int, bound: bool): Option<string> {
    var approval := if authority.Some? then ApprovalFor(authority.value.approvals, binding.key) else None;
    if approval.None? then Some(if bound then "authority-revoked" else "authority-missing")
    else
      var a := approval.value;
      if authority.value.repository != binding.repository || a.reviewedVersion != binding.reviewedVersion
         || a.evidenceDigest != binding.evidenceDigest then Some("authority-mismatch")
      else if a.revoked then Some("authority-revoked")
      else if now >= a.expiresAt then Some("authority-expired")
      else if binding.action !in a.actions || !(binding.files <= a.files) then Some("authority-scope-exceeded")
      else if binding.callLimit > a.callLimit || binding.costCap > a.costCap
              || binding.runtimeSeconds > a.runtimeMinutes * 60 then Some("authority-limits-exceeded")
      else None
  }

  /** What the source recheck of a work item answers. */
  datatype Source = Current | Unreadable | Changed

  /** A work item that is a small repair with a publishable brief. */
  datatype Item = Item(key: string, reviewedVersion: string, evidenceDigest: string, files: set<string>, source: Source)

  datatype Limits = Limits(calls: int, cost: real, seconds: int)

  /** Whole seconds, rounded up, from `now` to `deadline`, and never less than zero. */
  function RemainingSeconds(deadline: int, now: int): (s: int)
    ensures s >= 0
    ensures deadline - now <= s * RepairCycle.SECOND
    ensures s > 0 ==> (s - 1) * RepairCycle.SECOND < deadline - now
  {
    if deadline <= now then 0 else (deadline - now + RepairCycle.SECOND - 1) / RepairCycle.SECOND
  }

  /** The lease's limits once it exists, the configuration's before. */
  function LimitsFor(lease: Option<CycleRecords.Lease>, config: RepairCycle.Config, now: int): Option<Limits> {
    if lease.Some? then
      Some(Limits(lease.value.callLimit, lease.value.costCap, RemainingSeconds(lease.value.deadline, now)))
    else if config.costCap.None? then None
    else Some(Limits(config.callLimit, config.costCap.value, config.runtimeSeconds))
  }

  function BindingOf(repository: string, item: Item, limits: Limits): Binding {
    Binding(repository, item.key, item.reviewedVersion, item.evidenceDigest, item.files, "repair",
            limits.calls, limits.cost, limits.seconds)
  }

  /** The configuration, authority and work items a check reads. */
  datatype World = World(
    repository: string,
    config: RepairCycle.Config,
    authority: Result<Option<Authority>>,
    items: map<string, Item>)

  function CheckItem(w: World, id: string, lease: Option<CycleRecords.Lease>, now: int, bound: bool)
    : Result<(Binding, CycleRecords.Bound)>
    requires w.authority.Ok? && id in w.items
  {
    var item := w.items[id];
    var limits := LimitsFor(lease, w.config, now);
    if item.source == Unreadable then Err("source-unreadable")
    else if item.source == Changed then Err("source-not-current")
    else if limits.None? then Err("missing-cost-cap")
    else
      var binding := BindingOf(w.repository, item, limits.value);
      var reason := CheckAuthority(w.authority.value, binding, now, bound);
      if reason.Some? then Err(reason.value)
      else if w.authority.value.None? then Err("authority-missing")
      else Ok((binding, CycleRecords.Bound(id, item.key, w.authority.value.value.revision)))
  }

  /** The check at selection, of the work item selection picked. */
  function AuthorizeSelection(w: World, picked: Option<string>, now: int): Result<(Binding, CycleRecords.Bound)> {
    if w.authority.Err? then Err(w.authority.reason)
    else if picked.None? || picked.value !in w.items then Err("selected-repair-unavailable")
    else CheckItem(w, picked.value, None, now, false)
  }

  /** The check at execution and on resume, of the work item the attempt was bound to. */
  function Reauthorize(w: World, bound: Option<CycleRecords.Bound>, lease: CycleRecords.Lease, now: int)
    : Result<(Binding, CycleRecords.Bound)>
  {
    if bound.None? then Err("authority-missing")
    else if w.authority.Err? then Err(w.authority.reason)
    else if bound.value.issueId !in w.items then Err("selected-repair-unavailable")
    else if w.items[bound.value.issueId].key != bound.value.key then Err("authority-mismatch")
    else CheckItem(w, bound.value.issueId, Some(lease), now, true)
  }

  /** When the host must stop: at the lease's deadline or when the approval ends, whichever comes first. */
  function HostDeadline(lease: CycleRecords.Lease, approval: Approval): int {
    if lease.deadline <= approval.expiresAt then lease.deadline else approval.expiresAt
  }

  /** With nothing changed, the execution-time recheck of a selection made at `t0` passes exactly until the approval
      expires or the time left outgrows the approved runtime, which only a clock set back can make it do. */
  lemma AuthorizationIsStable(w: World, picked: string, t0: RepairCycle.Now, attemptId: string, t1: int)
    requires w.config.Valid() && w.config.costCap.Some?
    requires AuthorizeSelection(w, Some(picked), t0.instant).Ok?
    ensures
      var (binding, bound) := AuthorizeSelection(w, Some(picked), t0.instant).value;
      var lease := RepairCycle.NewLease(w.config, t0, attemptId);
      var approval := ApprovalFor(w.authority.value.value.approvals, binding.key).value;
      var again := Reauthorize(w, Some(bound), lease, t1);
      && (again.Ok? <==> t1 < approval.expiresAt
                         && RemainingSeconds(lease.deadline, t1) <= approval.runtimeMinutes * 60)
      && (t0.instant <= t1 ==> (again.Ok? <==> t1 < approval.expiresAt))
      && (again.Ok? && t0.instant <= t1 ==>
            && again.value.1 == bound
            && again.value.0.runtimeSeconds <= binding.runtimeSeconds
            && again.value.0 == binding.(runtimeSeconds := again.value.0.runtimeSeconds)
            && (t1 < lease.deadline ==> t1 < HostDeadline(lease, approval) <= lease.deadline)
            && HostDeadline(lease, approval) <= approval.expiresAt)
  {
    var lease := RepairCycle.NewLease(w.config, t0, attemptId);
    if t0.instant <= t1 {
      assert lease.deadline - t1 <= w.config.runtimeSeconds * RepairCycle.SECOND;
      assert RemainingSeconds(lease.deadline, t1) <= w.config.runtimeSeconds;
    }
  }

  /** Withdrawing, replacing or narrowing the approval makes every later recheck fail, whatever else holds. */
  lemma ChangedApprovalStopsTheAttempt(w: World, bound: CycleRecords.Bound, lease: CycleRecords.Lease, now: int)
    requires w.authority.Ok? && bound.issueId in w.items
    requires
      var item := w.items[bound.issueId];
      var a := if w.authority.value.Some? then ApprovalFor(w.authority.value.value.approvals, item.key) else None;
      || a.None? || a.value.revoked || now >= a.value.expiresAt
      || a.value.reviewedVersion != item.reviewedVersion || a.value.evidenceDigest != item.evidenceDigest
      || !(item.files <= a.value.files) || lease.callLimit > a.value.callLimit || lease.costCap > a.value.costCap
    ensures Reauthorize(w, Some(bound), lease, now).Err?
  {
  }
}
