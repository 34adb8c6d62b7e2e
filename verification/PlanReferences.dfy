/** A plan's references to work items, and how one is superseded or remapped (engine/_plan/scan_issue_reconcile.py). */
module PlanReferences {
  import opened Wrappers
  import opened WorkItems

  /** A stored work item as reconciliation reads it. An absent or empty hash is "". */
  datatype Issue = Issue(
    detector: string,
    file: string,
    status: WorkStatus,
    identity: string,
    evidence: string,
    previousIdentity: string,
    previousEvidence: string)

  type Issues = map<string, Issue>

  datatype SkipKind = Permanent | SkippedFalsePositive | Temporary | Triaged | TriageObserveAuto | OtherKind

  /** An action step with the issues it refers to, or one that is not an object. */
  datatype Step = Step(refs: seq<string>) | PlainStep

  datatype Cluster = Cluster(issueIds: seq<string>, steps: seq<Step>)

  /** `cluster` is "" when unset. */
  datatype Override = Override(cluster: string, note: string)

  datatype Entry = Entry(detector: string, file: string, remappedTo: Option<string>, note: string, revalidate: bool)

  datatype Plan = Plan(
    queueOrder: seq<string>,
    skipped: map<string, SkipKind>,
    promoted: seq<string>,
    clusters: map<string, Cluster>,
    overrides: map<string, Override>,
    superseded: map<string, Entry>)

  predicate Alive(status: WorkStatus) {
    status in {Open, Deferred, TriagedOut}
  }

  predicate IsSynthetic(id: string) {
    "triage::" <= id || "workflow::" <= id || "subjective::" <= id || "strategy::" <= id
  }

  // ----- references -----

  predicate StepRefers(step: Step, id: string) {
    step.Step? && id in step.refs
  }

  predicate ClusterRefers(c: Cluster, id: string) {
    id in c.issueIds || exists k :: 0 <= k < |c.steps| && StepRefers(c.steps[k], id)
  }

  /** The plan acts on the work item: it queues, skips or promotes it, or a cluster or step refers to it. */
  predicate Refers(plan: Plan, id: string) {
    || id in plan.queueOrder || id in plan.skipped || id in plan.promoted
    || exists name :: name in plan.clusters && ClusterRefers(plan.clusters[name], id)
  }

  function Elements(s: seq<string>): set<string> {
    set x | x in s
  }

  function ClusterRefs(c: Cluster): set<string> {
    Elements(c.issueIds) + set k, x | 0 <= k < |c.steps| && c.steps[k].Step? && x in c.steps[k].refs :: x
  }

  function Referenced(plan: Plan): (refs: set<string>)
    ensures forall id :: id in refs <==> Refers(plan, id)
  {
    var inClusters := set name, x | name in plan.clusters && x in ClusterRefs(plan.clusters[name]) :: x;
    assert forall name, x :: name in plan.clusters ==>
      (x in ClusterRefs(plan.clusters[name]) <==> ClusterRefers(plan.clusters[name], x));
    Elements(plan.queueOrder) + plan.skipped.Keys + Elements(plan.promoted) + inClusters
  }

  predicate NoDuplicates(s: seq<string>) {
    forall i, j :: 0 <= i < j < |s| ==> s[i] != s[j]
  }

  /** The list has the ID at two positions. */
  predicate Twice(s: seq<string>, id: string) {
    exists i, j :: 0 <= i < j < |s| && s[i] == id && s[j] == id
  }

  /** A list that is edited in place, the queue or a cluster, names the item twice. Step references are rebuilt
      instead. */
  predicate NamedTwice(plan: Plan, id: string) {
    || Twice(plan.queueOrder, id)
    || exists name :: name in plan.clusters && Twice(plan.clusters[name].issueIds, id)
  }

  predicate DuplicateFree(plan: Plan) {
    && NoDuplicates(plan.queueOrder)
    && forall name :: name in plan.clusters ==> NoDuplicates(plan.clusters[name].issueIds)
  }

  lemma NamedTwiceIsReferred(plan: Plan, id: string)
    ensures NamedTwice(plan, id) ==> Refers(plan, id)
  {
    if !Twice(plan.queueOrder, id) && NamedTwice(plan, id) {
      var name :| name in plan.clusters && Twice(plan.clusters[name].issueIds, id);
      assert ClusterRefers(plan.clusters[name], id);
    }
  }

  lemma DuplicateFreeNamesNoneTwice(plan: Plan)
    ensures DuplicateFree(plan) <==> forall id :: !NamedTwice(plan, id)
  {
    NoneTwice(plan.queueOrder);
    forall name | name in plan.clusters
      ensures (forall id :: !Twice(plan.clusters[name].issueIds, id)) <==> NoDuplicates(plan.clusters[name].issueIds)
    {
      NoneTwice(plan.clusters[name].issueIds);
    }
    if forall id :: !NamedTwice(plan, id) {
      forall id ensures !Twice(plan.queueOrder, id) {
        assert !NamedTwice(plan, id);
      }
      forall name, id | name in plan.clusters ensures !Twice(plan.clusters[name].issueIds, id) {
        assert !NamedTwice(plan, id);
      }
    }
  }

  lemma NoneTwice(s: seq<string>)
    ensures (forall id :: !Twice(s, id)) <==> NoDuplicates(s)
  {
    if !NoDuplicates(s) {
      var i, j :| 0 <= i < j < |s| && s[i] == s[j];
      assert Twice(s, s[i]);
    }
  }

  // ----- editing a list -----

  /** `list.remove`: only the first occurrence goes. */
  function Remove(s: seq<string>, id: string): (r: seq<string>)
    ensures forall x :: x in r ==> x in s
    ensures forall x :: x in s && x != id ==> x in r
    ensures id !in s ==> r == s
  {
    if s == [] then []
    else if s[0] == id then s[1..]
    else
      assert forall x :: x in s <==> x == s[0] || x in s[1..];
      [s[0]] + Remove(s[1..], id)
  }

  lemma TwiceByHead(s: seq<string>, id: string)
    requires s != []
    ensures Twice(s, id) <==> (s[0] == id && id in s[1..]) || Twice(s[1..], id)
  {
    if s[0] == id && id in s[1..] {
      var j :| 0 <= j < |s[1..]| && s[1..][j] == id;
      assert s[0] == id && s[j + 1] == id;
    }
    if Twice(s[1..], id) {
      var i, j :| 0 <= i < j < |s[1..]| && s[1..][i] == id && s[1..][j] == id;
      assert s[i + 1] == id && s[j + 1] == id;
    }
    if Twice(s, id) {
      var i, j :| 0 <= i < j < |s| && s[i] == id && s[j] == id;
      assert s[1..][j - 1] == id;
      assert i > 0 ==> s[1..][i - 1] == id;
    }
  }

  /** An ID survives its own removal exactly when it was there twice. */
  lemma {:induction false} RemoveLeaves(s: seq<string>, id: string)
    ensures id in Remove(s, id) <==> Twice(s, id)
  {
    if s != [] {
      TwiceByHead(s, id);
      RemoveLeaves(s[1..], id);
      if Twice(s[1..], id) {
        assert id in s[1..];
      }
    }
  }

  /** Removing an ID makes no other ID rarer, and none more frequent. */
  lemma {:induction false} RemoveTwice(s: seq<string>, gone: string, id: string)
    ensures Twice(Remove(s, gone), id) ==> Twice(s, id)
    ensures id != gone ==> (Twice(Remove(s, gone), id) <==> Twice(s, id))
  {
    if s != [] {
      TwiceByHead(s, id);
      if s[0] != gone {
        RemoveTwice(s[1..], gone, id);
        TwiceByHead(Remove(s, gone), id);
        assert Remove(s, gone)[1..] == Remove(s[1..], gone);
      }
    }
  }

  function Without(s: seq<string>, ids: set<string>): (r: seq<string>)
    ensures forall x :: x in r <==> x in s && x !in ids
  {
    if s == [] then []
    else
      var rest := Without(s[1..], ids);
      assert forall x :: x in s <==> x == s[0] || x in s[1..];
      if s[0] in ids then rest else [s[0]] + rest
  }

  lemma {:induction false} WithoutTwice(s: seq<string>, ids: set<string>, id: string)
    ensures Twice(Without(s, ids), id) <==> Twice(s, id) && id !in ids
  {
    if s != [] {
      WithoutTwice(s[1..], ids, id);
      TwiceByHead(s, id);
      if s[0] !in ids {
        TwiceByHead(Without(s, ids), id);
        assert Without(s, ids)[1..] == Without(s[1..], ids);
      }
    }
  }

  /** `dict.fromkeys` of the list with one ID renamed: the first occurrence of each survives. */
  function Replace(s: seq<string>, from: string, to: string): (r: seq<string>)
    ensures NoDuplicates(r)
    ensures forall x :: x in r <==> (x in s && x != from) || (x == to && (from in s || to in s))
  {
    if s == [] then []
    else
      var n := |s| - 1;
      var rest := Replace(s[..n], from, to);
      var last := if s[n] == from then to else s[n];
      assert forall x :: x in s <==> x == s[n] || x in s[..n];
      if last in rest then rest else rest + [last]
  }

  /** IDs keep the order of their first occurrence: what a longer list adds comes after what a shorter one gave. */
  lemma {:induction false} ReplaceKeepsOrder(s: seq<string>, t: seq<string>, from: string, to: string)
    ensures Replace(s, from, to) <= Replace(s + t, from, to)
    decreases |t|
  {
    if t == [] {
      assert s + t == s;
    } else {
      assert (s + t)[..|s + t| - 1] == s + t[..|t| - 1];
      ReplaceKeepsOrder(s, t[..|t| - 1], from, to);
    }
  }

  /** What is left keeps its order. */
  lemma {:induction false} WithoutKeepsOrder(s: seq<string>, t: seq<string>, ids: set<string>)
    ensures Without(s + t, ids) == Without(s, ids) + Without(t, ids)
  {
    if s == [] {
      assert s + t == t;
    } else {
      assert (s + t)[1..] == s[1..] + t;
      WithoutKeepsOrder(s[1..], t, ids);
    }
  }
}
