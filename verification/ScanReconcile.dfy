/** Reconciling a plan with the work items after a scan (engine/_plan/scan_issue_reconcile.py). */
module ScanReconcile {
  import opened Wrappers
  import opened Sets
  import opened WorkItems
  import opened PlanReferences

  // ----- superseding one item -----

  /** Alive items of the same concern, or of the same detector and file, other than the item itself. */
  function Candidates(issues: Issues, id: string): (found: set<string>)
    ensures forall c :: c in found ==> c in issues && Alive(issues[c].status) && c != id
  {
    if id !in issues || issues[id].detector == "" then {}
    else set c | c in issues && c != id && Alive(issues[c].status) && CouldSucceed(issues[c], issues[id])
  }

  predicate CouldSucceed(c: Issue, issue: Issue) {
    && c.detector == issue.detector
    && if issue.detector == "concerns" then issue.identity != "" && c.identity == issue.identity && c.evidence != ""
       else c.file == issue.file
  }

  /** The one alive concern with the same identity and the same evidence, if there is exactly one of that identity. */
  function Successor(issues: Issues, id: string): (s: Option<string>)
    ensures s.Some? ==> s.value in issues && Alive(issues[s.value].status) && s.value != id
  {
    var found := Candidates(issues, id);
    if id in issues && issues[id].detector == "concerns" && |found| == 1 && issues[id].evidence != ""
       && issues[Only(found)].evidence == issues[id].evidence
    then Some(Only(found)) else None
  }

  function EntryFor(plan: Plan, issues: Issues, id: string, revalidate: bool): Entry {
    var found := Candidates(issues, id);
    var note := if id in plan.overrides then plan.overrides[id].note else "";
    var changed := id in issues && issues[id].detector == "concerns" && |found| == 1
                   && issues[id].evidence != "" && issues[Only(found)].evidence != ""
                   && Successor(issues, id).None?;
    if id in issues then
      Entry(issues[id].detector, issues[id].file, Successor(issues, id), note, revalidate || changed)
    else Entry("", "", None, note, revalidate)
  }

  function StepReplaced(step: Step, from: string, to: string): Step {
    if step.Step? then Step(Replace(step.refs, from, to)) else step
  }

  function ClusterReplaced(c: Cluster, from: string, to: string): Cluster {
    Cluster(Replace(c.issueIds, from, to),
            seq(|c.steps|, k requires 0 <= k < |c.steps| => StepReplaced(c.steps[k], from, to)))
  }

  /** A map entry moves to its new key unless one is there already. */
  function Moved<T>(m: map<string, T>, from: string, to: string): map<string, T> {
    if from !in m then m
    else
      var rest := m - {from};
      if to in rest then rest else rest[to := m[from]]
  }

  function Remapped(plan: Plan, from: string, to: string): Plan {
    plan.(
      queueOrder := Replace(plan.queueOrder, from, to),
      promoted := Replace(plan.promoted, from, to),
      clusters := map name | name in plan.clusters :: ClusterReplaced(plan.clusters[name], from, to),
      skipped := Moved(plan.skipped, from, to),
      overrides := Moved(plan.overrides, from, to))
  }

  function StepWithout(step: Step, ids: set<string>): Step {
    if step.Step? then Step(Without(step.refs, ids)) else step
  }

  function StepsWithout(steps: seq<Step>, ids: set<string>): (r: seq<Step>)
    ensures |r| == |steps|
  {
    seq(|steps|, k requires 0 <= k < |steps| => StepWithout(steps[k], ids))
  }

  function ClusterRemoved(c: Cluster, id: string): Cluster {
    Cluster(Remove(c.issueIds, id), StepsWithout(c.steps, {id}))
  }

  function Detached(overrides: map<string, Override>, id: string, revalidate: bool): map<string, Override> {
    if id !in overrides then overrides
    else if revalidate then overrides - {id}
    else if overrides[id].cluster != "" then overrides[id := overrides[id].(cluster := "")]
    else overrides
  }

  function Removed(plan: Plan, id: string, revalidate: bool): Plan {
    plan.(
      queueOrder := Remove(plan.queueOrder, id),
      skipped := plan.skipped - {id},
      promoted := Without(plan.promoted, {id}),
      clusters := map name | name in plan.clusters :: ClusterRemoved(plan.clusters[name], id),
      overrides := Detached(plan.overrides, id, revalidate))
  }

  function Superseded(plan: Plan, issues: Issues, id: string, revalidate: bool): Plan {
    var entry := EntryFor(plan, issues, id, revalidate);
    var next :=
      if entry.remappedTo.Some? then Remapped(plan, id, entry.remappedTo.value) else Removed(plan, id, revalidate);
    next.(superseded := plan.superseded[id := entry])
  }

  // ----- what superseding does to the references -----

  lemma RemappedClusterRefers(c: Cluster, from: string, to: string, id: string)
    ensures ClusterRefers(ClusterReplaced(c, from, to), id)
       <==> (ClusterRefers(c, id) && id != from) || (id == to && (ClusterRefers(c, from) || ClusterRefers(c, to)))
  {
    var r := ClusterReplaced(c, from, to);
    assert forall k :: 0 <= k < |c.steps| ==>
      (StepRefers(r.steps[k], id)
       <==> (StepRefers(c.steps[k], id) && id != from)
            || (id == to && (StepRefers(c.steps[k], from) || StepRefers(c.steps[k], to))));
    if ClusterRefers(c, id) && id != from && id !in c.issueIds {
      var k :| 0 <= k < |c.steps| && StepRefers(c.steps[k], id);
      assert StepRefers(r.steps[k], id);
    }
    if id == to && ClusterRefers(c, from) && from !in c.issueIds {
      var k :| 0 <= k < |c.steps| && StepRefers(c.steps[k], from);
      assert StepRefers(r.steps[k], id);
    }
    if id == to && ClusterRefers(c, to) && to !in c.issueIds {
      var k :| 0 <= k < |c.steps| && StepRefers(c.steps[k], to);
      assert StepRefers(r.steps[k], id);
    }
  }

  /** Remapping renames the references and adds none of its own. */
  lemma RemappedRefers(plan: Plan, from: string, to: string, id: string)
    requires from != to
    ensures Refers(Remapped(plan, from, to), id)
       <==> (Refers(plan, id) && id != from) || (id == to && (Refers(plan, from) || Refers(plan, to)))
  {
    var r := Remapped(plan, from, to);
    forall name, x | name in plan.clusters
      ensures ClusterRefers(r.clusters[name], x)
         <==> (ClusterRefers(plan.clusters[name], x) && x != from)
              || (x == to && (ClusterRefers(plan.clusters[name], from) || ClusterRefers(plan.clusters[name], to)))
    {
      RemappedClusterRefers(plan.clusters[name], from, to, x);
    }
  }

  lemma RemovedClusterRefers(c: Cluster, gone: string, id: string)
    ensures ClusterRefers(ClusterRemoved(c, gone), id)
       <==> (ClusterRefers(c, id) && id != gone) || (id == gone && Twice(c.issueIds, gone))
  {
    RemoveLeaves(c.issueIds, gone);
    StepsWithoutRefer(c.steps, {gone}, id);
  }

  lemma StepsWithoutRefer(steps: seq<Step>, gone: set<string>, id: string)
    ensures (exists k :: 0 <= k < |steps| && StepRefers(StepsWithout(steps, gone)[k], id))
       <==> id !in gone && exists k :: 0 <= k < |steps| && StepRefers(steps[k], id)
  {
    var r := StepsWithout(steps, gone);
    forall k | 0 <= k < |steps| ensures StepRefers(r[k], id) <==> StepRefers(steps[k], id) && id !in gone {
    }
  }

  /** Removing an item leaves the references to the others, and to the item itself exactly when a list named it
      twice. */
  lemma RemovedRefers(plan: Plan, gone: string, revalidate: bool, id: string)
    ensures Refers(Removed(plan, gone, revalidate), id)
       <==> (Refers(plan, id) && id != gone) || (id == gone && NamedTwice(plan, gone))
  {
    var r := Removed(plan, gone, revalidate);
    RemoveLeaves(plan.queueOrder, gone);
    forall name | name in plan.clusters
      ensures ClusterRefers(r.clusters[name], id)
         <==> (ClusterRefers(plan.clusters[name], id) && id != gone)
              || (id == gone && Twice(plan.clusters[name].issueIds, gone))
    {
      RemovedClusterRefers(plan.clusters[name], gone, id);
    }
  }

  lemma RemovedTwice(plan: Plan, gone: string, revalidate: bool, id: string)
    ensures NamedTwice(Removed(plan, gone, revalidate), id) ==> NamedTwice(plan, id)
    ensures id != gone ==> (NamedTwice(Removed(plan, gone, revalidate), id) <==> NamedTwice(plan, id))
  {
    var r := Removed(plan, gone, revalidate);
    RemoveTwice(plan.queueOrder, gone, id);
    forall name | name in plan.clusters
      ensures Twice(r.clusters[name].issueIds, id) ==> Twice(plan.clusters[name].issueIds, id)
      ensures id != gone ==> (Twice(r.clusters[name].issueIds, id) <==> Twice(plan.clusters[name].issueIds, id))
    {
      RemoveTwice(plan.clusters[name].issueIds, gone, id);
    }
  }

  /** Remapping leaves no list that names anything twice. */
  lemma RemappedTwice(plan: Plan, from: string, to: string, id: string)
    ensures !NamedTwice(Remapped(plan, from, to), id)
  {
    var r := Remapped(plan, from, to);
    NoneTwice(r.queueOrder);
    forall name | name in plan.clusters ensures !Twice(r.clusters[name].issueIds, id) {
      NoneTwice(r.clusters[name].issueIds);
    }
  }

  /** The item is still referenced after it is superseded: it has no successor, and a list named it twice. */
  predicate Lingers(plan: Plan, issues: Issues, id: string) {
    Successor(issues, id).None? && NamedTwice(plan, id)
  }

  /** The references after superseding an item, in any plan: the others, its successor in its place if there is one, and
      the item itself exactly when it lingers. */
  lemma SupersededRefers(plan: Plan, issues: Issues, id: string, revalidate: bool, x: string)
    ensures Refers(Superseded(plan, issues, id, revalidate), x)
       <==> (x != id && (Refers(plan, x) || (Successor(issues, id) == Some(x) && Refers(plan, id))))
            || (x == id && Lingers(plan, issues, id))
  {
    var next := Superseded(plan, issues, id, revalidate);
    var successor := Successor(issues, id);
    if successor.Some? {
      RemappedRefers(plan, id, successor.value, x);
      assert Refers(next, x) == Refers(Remapped(plan, id, successor.value), x);
    } else {
      RemovedRefers(plan, id, revalidate, x);
      assert Refers(next, x) == Refers(Removed(plan, id, revalidate), x);
    }
  }

  lemma SupersededTwice(plan: Plan, issues: Issues, id: string, revalidate: bool, x: string)
    ensures NamedTwice(Superseded(plan, issues, id, revalidate), x) ==> NamedTwice(plan, x)
    ensures x != id && Successor(issues, id).None? ==>
      (NamedTwice(Superseded(plan, issues, id, revalidate), x) <==> NamedTwice(plan, x))
  {
    var next := Superseded(plan, issues, id, revalidate);
    var successor := Successor(issues, id);
    if successor.Some? {
      RemappedTwice(plan, id, successor.value, x);
      assert NamedTwice(next, x) == NamedTwice(Remapped(plan, id, successor.value), x);
    } else {
      RemovedTwice(plan, id, revalidate, x);
      assert NamedTwice(next, x) == NamedTwice(Removed(plan, id, revalidate), x);
    }
  }

  /** What superseding changes, all IDs together. */
  lemma SupersededEffect(plan: Plan, issues: Issues, id: string, revalidate: bool)
    ensures
      var next := Superseded(plan, issues, id, revalidate);
      && next.superseded.Keys == plan.superseded.Keys + {id}
      && next.superseded[id].remappedTo == Successor(issues, id)
      && (forall x :: Refers(next, x)
           <==> (x != id && (Refers(plan, x) || (Successor(issues, id) == Some(x) && Refers(plan, id))))
                || (x == id && Lingers(plan, issues, id)))
      && (forall x :: NamedTwice(next, x) ==> NamedTwice(plan, x))
      && (Successor(issues, id).None? ==> forall x :: x != id ==> (NamedTwice(next, x) <==> NamedTwice(plan, x)))
  {
    var next := Superseded(plan, issues, id, revalidate);
    forall x
      ensures Refers(next, x)
         <==> (x != id && (Refers(plan, x) || (Successor(issues, id) == Some(x) && Refers(plan, id))))
              || (x == id && Lingers(plan, issues, id))
    {
      SupersededRefers(plan, issues, id, revalidate, x);
    }
    forall x
      ensures NamedTwice(next, x) ==> NamedTwice(plan, x)
      ensures Successor(issues, id).None? && x != id ==> (NamedTwice(next, x) <==> NamedTwice(plan, x))
    {
      SupersededTwice(plan, issues, id, revalidate, x);
    }
  }

  // ----- the passes -----

  predicate ChangedConcern(issue: Issue) {
    && issue.detector == "concerns"
    && issue.identity != "" && issue.evidence != "" && issue.previousIdentity != "" && issue.previousEvidence != ""
    && (issue.identity != issue.previousIdentity || issue.evidence != issue.previousEvidence)
  }

  function SkipStatus(kind: SkipKind): Option<WorkStatus> {
    match kind
    case Permanent => Some(Wontfix)
    case SkippedFalsePositive => Some(FalsePositive)
    case Temporary => Some(Deferred)
    case Triaged => Some(TriagedOut)
    case TriageObserveAuto => Some(FalsePositive)
    case OtherKind => None
  }

  /** The IDs the plan mentions, overrides included, that are neither superseded nor synthetic. */
  function Mentioned(plan: Plan): set<string> {
    set id | id in Referenced(plan) + plan.overrides.Keys && id !in plan.superseded && !IsSynthetic(id)
  }

  function ClusterPruned(c: Cluster, ids: set<string>): Cluster {
    Cluster(Without(c.issueIds, ids), StepsWithout(c.steps, ids))
  }

  function Pruned(plan: Plan): Plan {
    var gone := plan.superseded.Keys - {""};
    plan.(
      queueOrder := Without(plan.queueOrder, gone),
      skipped := plan.skipped - gone,
      promoted := Without(plan.promoted, gone),
      clusters := map name | name in plan.clusters :: ClusterPruned(plan.clusters[name], gone),
      overrides := map id | id in plan.overrides ::
        if id in gone then plan.overrides[id].(cluster := "") else plan.overrides[id])
  }

  lemma PrunedRefers(plan: Plan, id: string)
    ensures Refers(Pruned(plan), id) <==> Refers(plan, id) && (id == "" || id !in plan.superseded)
    ensures NamedTwice(Pruned(plan), id) <==> NamedTwice(plan, id) && (id == "" || id !in plan.superseded)
  {
    var gone := plan.superseded.Keys - {""};
    var r := Pruned(plan);
    WithoutTwice(plan.queueOrder, gone, id);
    forall name | name in plan.clusters
      ensures ClusterRefers(r.clusters[name], id) <==> ClusterRefers(plan.clusters[name], id) && id !in gone
      ensures Twice(r.clusters[name].issueIds, id) <==> Twice(plan.clusters[name].issueIds, id) && id !in gone
    {
      StepsWithoutRefer(plan.clusters[name].steps, gone, id);
      WithoutTwice(plan.clusters[name].issueIds, gone, id);
    }
  }

  // ----- what every pass keeps -----

  predicate SameConcern(a: Issue, b: Issue) {
    && a.detector == "concerns" && b.detector == "concerns"
    && a.identity == b.identity != "" && a.evidence == b.evidence != ""
  }

  /** The ID was referenced at the start, or stands for the same concern, with the same evidence, as one that was. */
  ghost predicate Descends(start: Plan, issues: Issues, id: string) {
    || Refers(start, id)
    || exists o :: Refers(start, o) && o in issues && id in issues && SameConcern(issues[o], issues[id])
  }

  /** No two concerns share an identity, so no concern has a successor. */
  predicate LoneConcerns(issues: Issues) {
    forall a, b :: a in issues && b in issues && a != b && issues[a].detector == issues[b].detector == "concerns" ==>
      issues[a].identity != issues[b].identity || issues[a].identity == ""
  }

  lemma LoneHasNoSuccessor(issues: Issues, id: string)
    requires LoneConcerns(issues)
    ensures Successor(issues, id).None?
  {
    if Successor(issues, id).Some? {
      SuccessorIsTheSameConcern(issues, id);
    }
  }

  /** Exactly what is gone is no longer referenced, but for what a list named twice. A changed concern may be superseded
      twice and is left aside. */
  ghost predicate Exact(start: Plan, plan: Plan, issues: Issues, gone: set<string>) {
    && (forall x :: !IsChanged(issues, x) ==>
          (Refers(plan, x) <==> Refers(start, x) && (x !in gone || NamedTwice(start, x))))
    && (forall x :: !IsChanged(issues, x) && x !in gone ==> (NamedTwice(plan, x) <==> NamedTwice(start, x)))
  }

  /** Nothing is lost without a superseded entry, nothing outside `gone` is lost, nothing unrelated is added, and no
      list comes to name an item twice. */
  ghost predicate Reconciling(start: Plan, plan: Plan, issues: Issues, gone: set<string>) {
    && start.superseded.Keys + gone == plan.superseded.Keys
    && (forall x :: NamedTwice(plan, x) ==> NamedTwice(start, x))
    && (forall x :: Refers(start, x) && x !in gone ==> Refers(plan, x))
    && (forall x :: Refers(plan, x) ==> Descends(start, issues, x))
    && (LoneConcerns(issues) ==> Exact(start, plan, issues, gone))
  }

  lemma SuccessorIsTheSameConcern(issues: Issues, id: string)
    requires Successor(issues, id).Some?
    ensures id in issues && SameConcern(issues[id], issues[Successor(issues, id).value])
  {
    assert Only(Candidates(issues, id)) in Candidates(issues, id);
  }

  /** A successor stands for what the item stood for. */
  lemma SuccessorDescends(start: Plan, issues: Issues, id: string, x: string)
    requires Descends(start, issues, id) && Successor(issues, id) == Some(x)
    ensures Descends(start, issues, x)
  {
    SuccessorIsTheSameConcern(issues, id);
    if Refers(start, id) {
      assert SameConcern(issues[id], issues[x]);
    } else {
      var o :| Refers(start, o) && o in issues && id in issues && SameConcern(issues[o], issues[id]);
      assert SameConcern(issues[o], issues[x]);
    }
  }

  lemma SupersedeKeepsExact(start: Plan, plan: Plan, issues: Issues, gone: set<string>, id: string, revalidate: bool)
    requires Exact(start, plan, issues, gone) && LoneConcerns(issues)
    requires id !in gone || IsChanged(issues, id)
    ensures Exact(start, Superseded(plan, issues, id, revalidate), issues, gone + {id})
  {
    var next := Superseded(plan, issues, id, revalidate);
    LoneHasNoSuccessor(issues, id);
    SupersededEffect(plan, issues, id, revalidate);
    NamedTwiceIsReferred(start, id);
    forall x | !IsChanged(issues, x)
      ensures Refers(next, x) <==> Refers(start, x) && (x !in gone + {id} || NamedTwice(start, x))
    {
    }
  }

  lemma SupersedeKeepsReconciling(start: Plan, plan: Plan, issues: Issues, gone: set<string>, id: string,
                                  revalidate: bool)
    requires Reconciling(start, plan, issues, gone)
    requires id !in gone || IsChanged(issues, id)
    ensures Reconciling(start, Superseded(plan, issues, id, revalidate), issues, gone + {id})
  {
    var next := Superseded(plan, issues, id, revalidate);
    SupersededEffect(plan, issues, id, revalidate);
    NamedTwiceIsReferred(plan, id);
    forall x | Refers(next, x) ensures Descends(start, issues, x) {
      if !Refers(plan, x) {
        SuccessorDescends(start, issues, id, x);
      }
    }
    if LoneConcerns(issues) {
      SupersedeKeepsExact(start, plan, issues, gone, id, revalidate);
    }
  }

  /** Only statuses differ. */
  predicate SameButStatus(a: Issues, b: Issues) {
    a.Keys == b.Keys && forall id :: id in a ==> b[id] == a[id].(status := b[id].status)
  }

  lemma StatusesKeepConcerns(issues: Issues, later: Issues)
    requires SameButStatus(issues, later)
    ensures forall id :: IsChanged(later, id) <==> IsChanged(issues, id)
    ensures LoneConcerns(later) <==> LoneConcerns(issues)
  {
    forall id | id in issues
      ensures later[id].detector == issues[id].detector && later[id].identity == issues[id].identity
    {
    }
  }

  lemma StatusesKeepReconciling(start: Plan, plan: Plan, issues: Issues, later: Issues, gone: set<string>)
    requires Reconciling(start, plan, issues, gone) && SameButStatus(issues, later)
    ensures Reconciling(start, plan, later, gone)
  {
    StatusesKeepConcerns(issues, later);
    forall x | Refers(plan, x) ensures Descends(start, later, x) {
      assert Descends(start, issues, x);
      if !Refers(start, x) {
        var o :| Refers(start, o) && o in issues && x in issues && SameConcern(issues[o], issues[x]);
        assert SameConcern(later[o], later[x]);
      }
    }
  }

  function Reopened(issues: Issues, ids: set<string>): Issues {
    map id | id in issues ::
      if id in ids && ChangedConcern(issues[id]) && issues[id].status in {Deferred, TriagedOut}
      then issues[id].(status := Open) else issues[id]
  }

  lemma ReopenedOne(issues: Issues, id: string)
    ensures Reopened(issues, {id})
         == if IsChanged(issues, id) && issues[id].status in {Deferred, TriagedOut}
            then issues[id := issues[id].(status := Open)] else issues
  {
  }

  function Synced(issues: Issues, skipped: map<string, SkipKind>): Issues {
    map id | id in issues ::
      if id in skipped && issues[id].status == Open && SkipStatus(skipped[id]).Some?
      then issues[id].(status := SkipStatus(skipped[id]).value) else issues[id]
  }

  function Changed(issues: Issues, ids: set<string>): set<string> {
    set id | id in ids && id in issues && ChangedConcern(issues[id])
  }

  predicate IsChanged(issues: Issues, id: string) {
    id in issues && ChangedConcern(issues[id])
  }

  // ----- the passes over a list of IDs -----

  /** The order in which a pass takes a set of IDs. */
  predicate Enumerates(order: seq<string>, ids: set<string>) {
    NoDuplicates(order) && Elements(order) == ids
  }

  /** The changed concerns of the list superseded in turn; each is reopened just before. */
  function ChangedSuperseded(plan: Plan, issues: Issues, ids: seq<string>): Plan
    decreases |ids|
  {
    if ids == [] then plan
    else
      var n := |ids| - 1;
      var earlier := ChangedSuperseded(plan, issues, ids[..n]);
      if IsChanged(issues, ids[n]) then Superseded(earlier, Reopened(issues, Elements(ids)), ids[n], true) else earlier
  }

  /** The missing items of the list superseded in turn. */
  function DeadSuperseded(plan: Plan, issues: Issues, ids: seq<string>): Plan
    decreases |ids|
  {
    if ids == [] then plan
    else
      var n := |ids| - 1;
      var earlier := DeadSuperseded(plan, issues, ids[..n]);
      if ids[n] in issues then earlier else Superseded(earlier, issues, ids[n], false)
  }

  /** The resolved items of the list superseded in turn. */
  function ResolvedSuperseded(plan: Plan, issues: Issues, ids: seq<string>): Plan
    decreases |ids|
  {
    if ids == [] then plan
    else
      var n := |ids| - 1;
      var earlier := ResolvedSuperseded(plan, issues, ids[..n]);
      if ids[n] in issues && !Alive(issues[ids[n]].status) then Superseded(earlier, issues, ids[n], false) else earlier
  }

  lemma LastElement(ids: seq<string>)
    requires ids != [] && NoDuplicates(ids)
    ensures NoDuplicates(ids[..|ids| - 1])
    ensures Elements(ids) == Elements(ids[..|ids| - 1]) + {ids[|ids| - 1]}
    ensures ids[|ids| - 1] !in Elements(ids[..|ids| - 1])
  {
    var n := |ids| - 1;
    assert forall x :: x in ids <==> x in ids[..n] || x == ids[n];
  }

  lemma {:induction false} ChangedPass(start: Plan, before: Issues, ids: seq<string>)
    requires NoDuplicates(ids)
    ensures Reconciling(start, ChangedSuperseded(start, before, ids), Reopened(before, Elements(ids)),
                        Changed(before, Elements(ids)))
    decreases |ids|
  {
    if ids == [] {
      assert Elements(ids) == {} && Reopened(before, {}) == before && Changed(before, {}) == {};
    } else {
      var n := |ids| - 1;
      LastElement(ids);
      ChangedPass(start, before, ids[..n]);
      ChangedStep(start, ChangedSuperseded(start, before, ids[..n]), before, Elements(ids[..n]), ids[n]);
    }
  }

  lemma {:induction false} DeadPass(start: Plan, before: Plan, issues: Issues, gone: set<string>, ids: seq<string>)
    requires Reconciling(start, before, issues, gone) && gone <= issues.Keys && NoDuplicates(ids)
    ensures DeadUpTo(start, before, DeadSuperseded(before, issues, ids), issues, gone, Elements(ids))
    decreases |ids|
  {
    if ids == [] {
      assert Elements(ids) == {};
      DeadStart(start, before, issues, gone);
    } else {
      var n := |ids| - 1;
      var earlier := DeadSuperseded(before, issues, ids[..n]);
      LastElement(ids);
      DeadPass(start, before, issues, gone, ids[..n]);
      if ids[n] in issues {
        PresentStep(start, before, earlier, issues, gone, Elements(ids[..n]), ids[n]);
      } else {
        MissingStep(start, before, earlier, issues, gone, Elements(ids[..n]), ids[n]);
      }
    }
  }

  lemma {:induction false} ResolvedPass(start: Plan, before: Plan, issues: Issues, gone: set<string>, ids: seq<string>)
    requires Reconciling(start, before, issues, gone) && NoDuplicates(ids)
    requires forall id :: id in gone && id in issues ==> IsChanged(issues, id)
    requires Elements(ids) <= Actionable(before)
    ensures ResolvedUpTo(start, before, ResolvedSuperseded(before, issues, ids), issues, gone, Elements(ids),
                         Actionable(before) - Elements(ids))
    decreases |ids|
  {
    if ids == [] {
      assert Elements(ids) == {} && Actionable(before) - {} == Actionable(before);
      ResolvedStart(start, before, issues, gone);
    } else {
      var n := |ids| - 1;
      var earlier, done := ResolvedSuperseded(before, issues, ids[..n]), Elements(ids[..n]);
      LastElement(ids);
      ResolvedPass(start, before, issues, gone, ids[..n]);
      assert Actionable(before) - done - {ids[n]} == Actionable(before) - Elements(ids);
      if ids[n] in issues && !Alive(issues[ids[n]].status) {
        ResolvedStep(start, before, earlier, issues, gone, done, Actionable(before) - done, ids[n]);
      } else {
        AliveStep(start, before, earlier, issues, gone, done, Actionable(before) - done, ids[n]);
      }
    }
  }

  lemma ChangedStep(start: Plan, plan: Plan, before: Issues, done: set<string>, id: string)
    requires Reconciling(start, plan, Reopened(before, done), Changed(before, done))
    ensures
      var issues := Reopened(before, done + {id});
      Reconciling(start, if IsChanged(before, id) then Superseded(plan, issues, id, true) else plan, issues,
                  Changed(before, done + {id}))
  {
    var issues := Reopened(before, done + {id});
    OneMoreChanged(before, done, id);
    ReopenedStep(start, plan, before, done, done + {id}, Changed(before, done));
    if IsChanged(before, id) {
      ReopenedIsChanged(before, done + {id}, id);
      SupersedeKeepsReconciling(start, plan, issues, Changed(before, done), id, true);
    }
  }

  lemma ReopenedStep(start: Plan, plan: Plan, before: Issues, done: set<string>, more: set<string>, gone: set<string>)
    requires Reconciling(start, plan, Reopened(before, done), gone)
    ensures Reconciling(start, plan, Reopened(before, more), gone)
  {
    ReopenedDiffersInStatus(before, done, more);
    StatusesKeepReconciling(start, plan, Reopened(before, done), Reopened(before, more), gone);
  }

  lemma ReopenedDiffersInStatus(issues: Issues, ids: set<string>, more: set<string>)
    ensures SameButStatus(Reopened(issues, ids), Reopened(issues, more))
  {
  }

  lemma ReopenedIsChanged(issues: Issues, ids: set<string>, id: string)
    ensures IsChanged(Reopened(issues, ids), id) <==> IsChanged(issues, id)
  {
  }

  lemma OneMoreChanged(issues: Issues, done: set<string>, id: string)
    ensures Changed(issues, done + {id})
         == Changed(issues, done) + if IsChanged(issues, id) then {id} else {}
    ensures IsChanged(Reopened(issues, done), id) <==> IsChanged(issues, id)
    ensures Reopened(issues, done + {id}) == Reopened(Reopened(issues, done), {id})
  {
  }

  function Dropped(s: seq<string>, kept: seq<string>): nat {
    if |kept| <= |s| then |s| - |kept| else 0
  }

  /** The non-empty, non-synthetic IDs the plan acts on. */
  function Actionable(plan: Plan): set<string> {
    set id | id in Referenced(plan) && id != "" && !IsSynthetic(id)
  }

  function Resolved(issues: Issues, ids: set<string>): set<string> {
    set id | id in ids && id in issues && !Alive(issues[id].status)
  }

  predicate IsFine(issues: Issues, id: string) {
    id == "" || IsSynthetic(id) || id !in issues || Alive(issues[id].status)
  }

  predicate IsActionable(issues: Issues, id: string) {
    id in issues && Alive(issues[id].status)
  }

  /** Every reference is to an item that can be worked on, or was superseded although a list named it twice; what was
      dropped has a superseded entry and was superseded before, missing, resolved, or a concern that changed; what was
      added stands for the same concern. Where concerns do not share identities, what is left is exact. */
  ghost predicate Reconciled(before: Plan, plan: Plan, issues: Issues) {
    && before.superseded.Keys <= plan.superseded.Keys
    && (forall x :: Refers(plan, x) ==>
          || x == "" || IsSynthetic(x) || IsActionable(issues, x)
          || (NamedTwice(before, x) && x in plan.superseded))
    && (forall x :: Refers(before, x) && !Refers(plan, x) ==>
          x in plan.superseded && (x in before.superseded || IsChanged(issues, x) || !IsActionable(issues, x)))
    && (forall x :: Refers(plan, x) ==> Descends(before, issues, x))
    && (LoneConcerns(issues) ==>
          forall x ::
            Refers(before, x) && x !in before.superseded && x != "" && !IsSynthetic(x) && !IsChanged(issues, x) ==>
              (Refers(plan, x) <==> IsActionable(issues, x) || NamedTwice(before, x)))
  }

  /** In particular nothing dangles in a plan whose lists name nothing twice, and the plan stays like that. */
  lemma WithoutDuplicatesNothingDangles(before: Plan, plan: Plan, issues: Issues)
    requires Reconciled(before, plan, issues) && DuplicateFree(before)
    ensures forall x :: Refers(plan, x) ==> x == "" || IsSynthetic(x) || IsActionable(issues, x)
  {
    DuplicateFreeNamesNoneTwice(before);
  }

  ghost predicate DeadUpTo(start: Plan, before: Plan, plan: Plan, issues: Issues, gone: set<string>, done: set<string>)
  {
    Reconciling(start, plan, issues, gone + (done - issues.Keys)) && DeadRefs(before, plan, issues, done)
  }

  /** The references once the missing items among `done` were superseded. */
  ghost predicate DeadRefs(before: Plan, plan: Plan, issues: Issues, done: set<string>) {
    && (forall x :: Refers(plan, x) <==> Refers(before, x) && (x in issues || x !in done || NamedTwice(before, x)))
    && (forall x :: x in issues || x !in done ==> (NamedTwice(plan, x) <==> NamedTwice(before, x)))
  }

  lemma DeadStart(start: Plan, plan: Plan, issues: Issues, gone: set<string>)
    requires Reconciling(start, plan, issues, gone)
    ensures DeadUpTo(start, plan, plan, issues, gone, {})
  {
    assert gone + ({} - issues.Keys) == gone;
  }

  lemma PresentStep(start: Plan, before: Plan, plan: Plan, issues: Issues, gone: set<string>, done: set<string>,
                    id: string)
    requires DeadUpTo(start, before, plan, issues, gone, done) && id in issues
    ensures DeadUpTo(start, before, plan, issues, gone, done + {id})
  {
    assert gone + (done + {id} - issues.Keys) == gone + (done - issues.Keys);
  }

  lemma MissingStep(start: Plan, before: Plan, plan: Plan, issues: Issues, gone: set<string>, done: set<string>,
                    id: string)
    requires DeadUpTo(start, before, plan, issues, gone, done) && id !in issues && id !in done && gone <= issues.Keys
    ensures DeadUpTo(start, before, Superseded(plan, issues, id, false), issues, gone, done + {id})
  {
    SupersedeKeepsReconciling(start, plan, issues, gone + (done - issues.Keys), id, false);
    assert gone + (done - issues.Keys) + {id} == gone + (done + {id} - issues.Keys);
    MissingRefs(before, plan, issues, done, id);
  }

  lemma MissingRefs(before: Plan, plan: Plan, issues: Issues, done: set<string>, id: string)
    requires DeadRefs(before, plan, issues, done) && id !in issues && id !in done
    ensures DeadRefs(before, Superseded(plan, issues, id, false), issues, done + {id})
  {
    SupersededEffect(plan, issues, id, false);
    NamedTwiceIsReferred(before, id);
  }

  ghost predicate ResolvedUpTo(start: Plan, before: Plan, plan: Plan, issues: Issues, gone: set<string>,
                               done: set<string>, todo: set<string>)
  {
    Reconciling(start, plan, issues, gone + Resolved(issues, done)) && ResolvedRefs(before, plan, issues, todo)
  }

  /** The references once only the items of `todo` may still be resolved ones. */
  ghost predicate ResolvedRefs(before: Plan, plan: Plan, issues: Issues, todo: set<string>) {
    && (forall x :: Refers(plan, x) ==>
          x in todo || IsFine(issues, x) || (NamedTwice(before, x) && x in plan.superseded))
    && (forall x :: Refers(plan, x) ==> x in issues || Refers(before, x))
    && (forall x :: NamedTwice(plan, x) ==> NamedTwice(before, x))
  }

  lemma ResolvedStart(start: Plan, plan: Plan, issues: Issues, gone: set<string>)
    requires Reconciling(start, plan, issues, gone)
    ensures ResolvedUpTo(start, plan, plan, issues, gone, {}, Actionable(plan))
  {
    assert gone + Resolved(issues, {}) == gone;
  }

  lemma AliveStep(start: Plan, before: Plan, plan: Plan, issues: Issues, gone: set<string>, done: set<string>,
                  todo: set<string>, id: string)
    requires ResolvedUpTo(start, before, plan, issues, gone, done, todo)
    requires id in issues ==> Alive(issues[id].status)
    ensures ResolvedUpTo(start, before, plan, issues, gone, done + {id}, todo - {id})
  {
    ResolvedOneMore(issues, done, id);
    assert Resolved(issues, done + {id}) == Resolved(issues, done);
  }

  lemma ResolvedStep(start: Plan, before: Plan, plan: Plan, issues: Issues, gone: set<string>, done: set<string>,
                     todo: set<string>, id: string)
    requires ResolvedUpTo(start, before, plan, issues, gone, done, todo)
    requires id in issues && !Alive(issues[id].status) && id !in done && (id !in gone || IsChanged(issues, id))
    ensures ResolvedUpTo(start, before, Superseded(plan, issues, id, false), issues, gone, done + {id}, todo - {id})
  {
    ResolvedOneMore(issues, done, id);
    SupersedeKeepsReconciling(start, plan, issues, gone + Resolved(issues, done), id, false);
    assert gone + Resolved(issues, done) + {id} == gone + Resolved(issues, done + {id});
    SupersededRefs(before, plan, issues, todo, id);
  }

  lemma SupersededRefs(before: Plan, plan: Plan, issues: Issues, todo: set<string>, id: string)
    requires ResolvedRefs(before, plan, issues, todo) && id in issues
    ensures ResolvedRefs(before, Superseded(plan, issues, id, false), issues, todo - {id})
  {
    SupersededEffect(plan, issues, id, false);
  }

  /** A reference left to a missing item would have been mentioned, so superseded. */
  lemma NothingMissing(before: Plan, middle: Plan, living: Plan, issues: Issues, ids: set<string>, gone: set<string>,
                       x: string)
    requires ids == Mentioned(Pruned(before)) && x !in issues && Refers(living, x)
    requires Reconciling(Pruned(before), middle, issues, gone)
    requires DeadUpTo(Pruned(before), middle, living, issues, gone, ids)
    ensures x == "" || IsSynthetic(x) || (NamedTwice(before, x) && x in living.superseded)
  {
    assert Descends(Pruned(before), issues, x);
    PrunedRefers(before, x);
  }

  lemma DescendsFromBefore(before: Plan, issues: Issues, x: string)
    requires Descends(Pruned(before), issues, x)
    ensures Descends(before, issues, x)
  {
    PrunedRefers(before, x);
    if !Refers(Pruned(before), x) {
      var o :| Refers(Pruned(before), o) && o in issues && x in issues && SameConcern(issues[o], issues[x]);
      PrunedRefers(before, o);
      assert Refers(before, o);
    }
  }

  /** What the three passes establish in turn, from the pruned plan to the last one. */
  ghost predicate Passes(before: Plan, middle: Plan, living: Plan, plan: Plan, issues: Issues, ids: set<string>,
                         gone: set<string>)
  {
    && ids == Mentioned(Pruned(before)) && gone == Changed(issues, ids)
    && Reconciling(Pruned(before), middle, issues, gone)
    && DeadUpTo(Pruned(before), middle, living, issues, gone, ids)
    && ResolvedUpTo(Pruned(before), living, plan, issues, gone + (ids - issues.Keys), Actionable(living), {})
  }

  /** What the mentioned IDs did not cover was synthetic or empty, added alive, or named twice. */
  lemma NothingElseDangles(before: Plan, middle: Plan, living: Plan, plan: Plan, issues: Issues, ids: set<string>,
                           gone: set<string>, x: string)
    requires Passes(before, middle, living, plan, issues, ids, gone) && Refers(plan, x)
    ensures x == "" || IsSynthetic(x) || IsActionable(issues, x) || (NamedTwice(before, x) && x in plan.superseded)
    ensures Descends(before, issues, x)
  {
    DescendsFromBefore(before, issues, x);
    PrunedRefers(before, x);
    if x !in issues {
      NothingMissing(before, middle, living, issues, ids, gone, x);
    }
  }

  lemma DroppedWithCause(before: Plan, middle: Plan, living: Plan, plan: Plan, issues: Issues, ids: set<string>,
                         gone: set<string>, x: string)
    requires Passes(before, middle, living, plan, issues, ids, gone) && Refers(before, x) && !Refers(plan, x)
    ensures x in plan.superseded && (x in before.superseded || IsChanged(issues, x) || !IsActionable(issues, x))
  {
    PrunedRefers(before, x);
  }

  lemma LeftExactly(before: Plan, middle: Plan, living: Plan, plan: Plan, issues: Issues, ids: set<string>,
                    gone: set<string>, x: string)
    requires Passes(before, middle, living, plan, issues, ids, gone) && LoneConcerns(issues)
    requires Refers(before, x) && x !in before.superseded && x != "" && !IsSynthetic(x) && !IsChanged(issues, x)
    ensures Refers(plan, x) <==> IsActionable(issues, x) || NamedTwice(before, x)
  {
    PrunedRefers(before, x);
    assert x in ids;
    assert x in issues ==> Refers(living, x);
  }

  lemma PassesReconcile(before: Plan, middle: Plan, living: Plan, plan: Plan, issues: Issues, ids: set<string>,
                        gone: set<string>)
    requires Passes(before, middle, living, plan, issues, ids, gone)
    ensures Reconciled(before, plan, issues)
  {
    forall x | Refers(plan, x)
      ensures x == "" || IsSynthetic(x) || IsActionable(issues, x) || (NamedTwice(before, x) && x in plan.superseded)
      ensures Descends(before, issues, x)
    {
      NothingElseDangles(before, middle, living, plan, issues, ids, gone, x);
    }
    forall x | Refers(before, x) && !Refers(plan, x)
      ensures x in plan.superseded && (x in before.superseded || IsChanged(issues, x) || !IsActionable(issues, x))
    {
      DroppedWithCause(before, middle, living, plan, issues, ids, gone, x);
    }
    if LoneConcerns(issues) {
      forall x | Refers(before, x) && x !in before.superseded && x != "" && !IsSynthetic(x) && !IsChanged(issues, x)
        ensures Refers(plan, x) <==> IsActionable(issues, x) || NamedTwice(before, x)
      {
        LeftExactly(before, middle, living, plan, issues, ids, gone, x);
      }
    }
  }

  lemma ReopenedAndSynced(original: Issues, ids: set<string>, skipped: map<string, SkipKind>)
    ensures
      var reopened := Reopened(original, ids);
      var issues := Synced(reopened, skipped);
      && SameButStatus(reopened, issues) && SameButStatus(original, issues)
      && Changed(issues, ids) == Changed(original, ids)
  {
    var reopened := Reopened(original, ids);
    var issues := Synced(reopened, skipped);
    assert SameButStatus(original, reopened) && SameButStatus(reopened, issues);
    StatusesKeepConcerns(original, issues);
  }

  lemma AfterSync(start: Plan, original: Issues, mentioned: seq<string>)
    requires NoDuplicates(mentioned)
    ensures
      var ids, middle := Elements(mentioned), ChangedSuperseded(start, original, mentioned);
      var issues := Synced(Reopened(original, ids), middle.skipped);
      SameButStatus(original, issues) && Reconciling(start, middle, issues, Changed(issues, ids))
  {
    var ids, middle := Elements(mentioned), ChangedSuperseded(start, original, mentioned);
    var reopened := Reopened(original, ids);
    ChangedPass(start, original, mentioned);
    ReopenedAndSynced(original, ids, middle.skipped);
    StatusesKeepReconciling(start, middle, reopened, Synced(reopened, middle.skipped), Changed(original, ids));
  }

  lemma LaterPasses(before: Plan, middle: Plan, issues: Issues, mentioned: seq<string>, action: seq<string>)
    requires Enumerates(mentioned, Mentioned(Pruned(before)))
    requires Reconciling(Pruned(before), middle, issues, Changed(issues, Elements(mentioned)))
    requires Enumerates(action, Actionable(DeadSuperseded(middle, issues, mentioned)))
    ensures Reconciled(before, ResolvedSuperseded(DeadSuperseded(middle, issues, mentioned), issues, action), issues)
  {
    var ids := Elements(mentioned);
    var gone := Changed(issues, ids);
    DeadPass(Pruned(before), middle, issues, gone, mentioned);
    var living := DeadSuperseded(middle, issues, mentioned);
    ResolvedPass(Pruned(before), living, issues, gone + (ids - issues.Keys), action);
    assert Actionable(living) - Elements(action) == {};
    PassesReconcile(before, middle, living, ResolvedSuperseded(living, issues, action), issues, ids, gone);
  }

  /** All passes, in any order of the IDs, from any plan and state. */
  lemma ReconcileLaw(before: Plan, original: Issues, mentioned: seq<string>, action: seq<string>)
    requires Enumerates(mentioned, Mentioned(Pruned(before)))
    requires
      var middle := ChangedSuperseded(Pruned(before), original, mentioned);
      var issues := Synced(Reopened(original, Elements(mentioned)), middle.skipped);
      Enumerates(action, Actionable(DeadSuperseded(middle, issues, mentioned)))
    ensures
      var middle := ChangedSuperseded(Pruned(before), original, mentioned);
      var issues := Synced(Reopened(original, Elements(mentioned)), middle.skipped);
      var living := DeadSuperseded(middle, issues, mentioned);
      SameButStatus(original, issues) && Reconciled(before, ResolvedSuperseded(living, issues, action), issues)
  {
    var middle := ChangedSuperseded(Pruned(before), original, mentioned);
    AfterSync(Pruned(before), original, mentioned);
    LaterPasses(before, middle, Synced(Reopened(original, Elements(mentioned)), middle.skipped), mentioned, action);
  }

  lemma ResolvedOneMore(issues: Issues, done: set<string>, id: string)
    ensures Resolved(issues, done + {id})
         == Resolved(issues, done) + if id in issues && !Alive(issues[id].status) then {id} else {}
  {
  }

  /** Removing a missing item drops only its first entry in the queue, so a second one survives. */
  lemma SecondCopySurvives(plan: Plan, id: string)
    requires plan.queueOrder == [id, id]
    ensures Refers(Superseded(plan, map[], id, false), id)
  {
    SupersededRefers(plan, map[], id, false, id);
    assert Twice(plan.queueOrder, id) by {
      assert plan.queueOrder[0] == id && plan.queueOrder[1] == id;
    }
  }

  // ----- the plan and the state, edited in place -----

  class Reconciliation {
    var plan: Plan
    var issues: Issues

    constructor (plan: Plan, issues: Issues)
      ensures this.plan == plan && this.issues == issues
    {
      this.plan := plan;
      this.issues := issues;
    }

    /** `_remap_id`. */
    method RemapId(from: string, to: string)
      modifies this`plan
      ensures plan == Remapped(old(plan), from, to)
    {
      plan := plan.(queueOrder := Replace(plan.queueOrder, from, to));
      plan := plan.(promoted := Replace(plan.promoted, from, to));
      plan := plan.(clusters := map name | name in plan.clusters :: ClusterReplaced(plan.clusters[name], from, to));
      if from in plan.skipped {
        var kind := plan.skipped[from];
        plan := plan.(skipped := plan.skipped - {from});
        if to !in plan.skipped {
          plan := plan.(skipped := plan.skipped[to := kind]);
        }
      }
      if from in plan.overrides {
        var override := plan.overrides[from];
        plan := plan.(overrides := plan.overrides - {from});
        if to !in plan.overrides {
          plan := plan.(overrides := plan.overrides[to := override]);
        }
      }
    }

    /** `_supersede_id`. */
    method SupersedeId(id: string, revalidate: bool)
      modifies this`plan
      ensures plan == Superseded(old(plan), issues, id, revalidate)
    {
      var entry := EntryFor(plan, issues, id, revalidate);
      if entry.remappedTo.Some? {
        RemapId(id, entry.remappedTo.value);
        plan := plan.(superseded := plan.superseded[id := entry]);
        return;
      }
      plan := plan.(superseded := plan.superseded[id := entry]);
      RemoveReferences(id, revalidate);
    }

    /** The end of `_supersede_id`, without a successor: drop the references. */
    method RemoveReferences(id: string, revalidate: bool)
      modifies this`plan
      ensures plan == Removed(old(plan), id, revalidate)
    {
      if id in plan.queueOrder {
        plan := plan.(queueOrder := Remove(plan.queueOrder, id));
      }
      plan := plan.(skipped := plan.skipped - {id}, promoted := Without(plan.promoted, {id}));
      plan := plan.(clusters := map name | name in plan.clusters :: ClusterRemoved(plan.clusters[name], id));
      Detach(id, revalidate);
    }

    method Detach(id: string, revalidate: bool)
      modifies this`plan
      ensures plan == old(plan).(overrides := Detached(old(plan).overrides, id, revalidate))
    {
      if revalidate {
        plan := plan.(overrides := plan.overrides - {id});
      } else if id in plan.overrides && plan.overrides[id].cluster != "" {
        plan := plan.(overrides := plan.overrides[id := plan.overrides[id].(cluster := "")]);
      }
    }

    /** `_supersede_changed_concern_references`. */
    method SupersedeChanged(ids: seq<string>)
      requires NoDuplicates(ids)
      modifies this
      ensures issues == Reopened(old(issues), Elements(ids))
      ensures plan == ChangedSuperseded(old(plan), old(issues), ids)
    {
      ghost var start, before := plan, issues;
      assert Elements([]) == {} && Reopened(before, {}) == before;
      for i := 0 to |ids|
        invariant issues == Reopened(before, Elements(ids[..i]))
        invariant plan == ChangedSuperseded(start, before, ids[..i])
      {
        assert ids[..i + 1][..i] == ids[..i];
        LastElement(ids[..i + 1]);
        OneMoreChanged(before, Elements(ids[..i]), ids[i]);
        SupersedeIfChanged(ids[i]);
      }
      assert ids[..|ids|] == ids;
    }

    method SupersedeIfChanged(id: string)
      modifies this
      ensures issues == Reopened(old(issues), {id})
      ensures plan == if IsChanged(old(issues), id) then Superseded(old(plan), issues, id, true) else old(plan)
    {
      ReopenedOne(issues, id);
      if id !in issues || !ChangedConcern(issues[id]) {
        return;
      }
      if issues[id].status in {Deferred, TriagedOut} {
        issues := issues[id := issues[id].(status := Open)];
      }
      SupersedeId(id, true);
    }

    /** `_prune_existing_superseded_references`. */
    method PruneExisting() returns (changes: nat)
      modifies this`plan
      ensures plan == Pruned(old(plan))
    {
      var gone := plan.superseded.Keys - {""};
      var kept := Without(plan.queueOrder, gone);
      changes := Dropped(plan.queueOrder, kept) + |plan.skipped.Keys * gone|;
      plan := plan.(queueOrder := kept, skipped := plan.skipped - gone);
      var promoted := Without(plan.promoted, gone);
      changes := changes + Dropped(plan.promoted, promoted);
      plan := plan.(promoted := promoted);
      plan := plan.(clusters := map name | name in plan.clusters :: ClusterPruned(plan.clusters[name], gone));
      plan := plan.(overrides := map id | id in plan.overrides ::
        if id in gone then plan.overrides[id].(cluster := "") else plan.overrides[id]);
    }

    /** `_sync_skipped_issue_statuses`. */
    method SyncSkipped()
      modifies this`issues
      ensures issues == Synced(old(issues), plan.skipped)
    {
      ghost var before := issues;
      var todo := plan.skipped.Keys;
      while todo != {}
        invariant todo <= plan.skipped.Keys && issues.Keys == before.Keys
        invariant forall id :: id in before ==>
          issues[id] == if id in todo then before[id] else Synced(before, plan.skipped)[id]
        decreases |todo|
      {
        var id :| id in todo;
        todo := todo - {id};
        if id !in issues || issues[id].status != Open {
          continue;
        }
        var target := SkipStatus(plan.skipped[id]);
        if target.Some? {
          issues := issues[id := issues[id].(status := target.value)];
        }
      }
    }

    /** `_supersede_dead_references`: items that no longer exist. */
    method SupersedeDead(ids: seq<string>)
      modifies this`plan
      ensures plan == DeadSuperseded(old(plan), issues, ids)
    {
      for i := 0 to |ids|
        invariant plan == DeadSuperseded(old(plan), issues, ids[..i])
      {
        assert ids[..i + 1][..i] == ids[..i];
        if ids[i] in issues {
          continue;
        }
        SupersedeId(ids[i], false);
      }
      assert ids[..|ids|] == ids;
    }

    /** `_supersede_nonactionable_action_references`: items that exist but are resolved. */
    method SupersedeNonactionable() returns (ghost ids: seq<string>)
      modifies this`plan
      ensures Enumerates(ids, Actionable(old(plan)))
      ensures plan == ResolvedSuperseded(old(plan), issues, ids)
    {
      var order := Enumerate(Actionable(plan));
      for i := 0 to |order|
        invariant plan == ResolvedSuperseded(old(plan), issues, order[..i])
      {
        assert order[..i + 1][..i] == order[..i];
        if order[i] !in issues || Alive(issues[order[i]].status) {
          continue;
        }
        SupersedeId(order[i], false);
      }
      assert order[..|order|] == order;
      ids := order;
    }

    /** The set as a list. */
    method Enumerate(ids: set<string>) returns (order: seq<string>)
      ensures Enumerates(order, ids)
    {
      order := [];
      var todo := ids;
      while todo != {}
        invariant NoDuplicates(order) && Elements(order) !! todo && Elements(order) + todo == ids
        decreases |todo|
      {
        var id :| id in todo;
        assert forall x :: x in order + [id] <==> x in order || x == id;
        order, todo := order + [id], todo - {id};
      }
    }

    /** `reconcile_plan_after_scan`, up to the end of the supersede passes, on any plan: every reference left is to an
        item that can be worked on, or was named twice in a list; nothing is dropped without a superseded entry or
        without cause, and only successors are added. */
    method ReconcileReferences()
      modifies this
      ensures SameButStatus(old(issues), issues)
      ensures Reconciled(old(plan), plan, issues)
    {
      ghost var before, original := plan, issues;
      var changes := PruneExisting();
      var ids := Enumerate(Mentioned(plan));
      SupersedeChanged(ids);
      SyncSkipped();
      SupersedeDead(ids);
      ghost var action := SupersedeNonactionable();
      ReconcileLaw(before, original, ids, action);
    }
  }
}
