/** Repair of cluster references and of the queue's auto-cluster members (engine/_plan/auto_cluster.py). */
module AutoCluster {
  import opened PlanReferences

  /** A cluster under its name, in the order of the plan file; `active` is its inferred execution status. */
  datatype Group = Group(name: string, ids: seq<string>, auto: bool, active: bool)

  function Names(groups: seq<Group>): set<string> {
    set k | 0 <= k < |groups| :: groups[k].name
  }

  predicate IsMember(groups: seq<Group>, id: string) {
    exists k :: 0 <= k < |groups| && id in groups[k].ids
  }

  // ----- canonical owners -----

  /** The group owns the item: the last manual cluster that lists it, or the first automatic one if no manual one
      does. */
  predicate Owns(groups: seq<Group>, id: string, k: int) {
    && 0 <= k < |groups| && id in groups[k].ids
    && if groups[k].auto then forall j :: 0 <= j < |groups| && id in groups[j].ids ==> groups[j].auto && k <= j
       else forall j :: k < j < |groups| && id in groups[j].ids ==> groups[j].auto
  }

  type Owners = map<string, string>

  /** The table once the cluster claimed these items: a manual cluster takes them over, an automatic one takes free
      ones. */
  function ClaimedFor(owners: Owners, g: Group, ids: set<string>): Owners {
    map id | id in owners.Keys + ids :: if id in ids && (id !in owners || !g.auto) then g.name else owners[id]
  }

  /** One cluster's turn in building the membership table. */
  function Claimed(owners: Owners, g: Group): Owners {
    ClaimedFor(owners, g, Elements(g.ids))
  }

  lemma ClaimedOneMore(owners: Owners, g: Group, ids: set<string>, id: string)
    ensures
      var before := ClaimedFor(owners, g, ids);
      ClaimedFor(owners, g, ids + {id}) == if id !in before || !g.auto then before[id := g.name] else before
  {
  }

  function OwnersOf(groups: seq<Group>): Owners {
    if groups == [] then map[] else Claimed(OwnersOf(groups[..|groups| - 1]), groups[|groups| - 1])
  }

  predicate OwnedUnder(groups: seq<Group>, id: string, name: string) {
    exists k :: 0 <= k < |groups| && Owns(groups, id, k) && groups[k].name == name
  }

  lemma MemberOfLast(groups: seq<Group>, id: string)
    requires groups != []
    ensures IsMember(groups, id) <==> IsMember(groups[..|groups| - 1], id) || id in groups[|groups| - 1].ids
  {
    var before := groups[..|groups| - 1];
    if IsMember(before, id) {
      var k :| 0 <= k < |before| && id in before[k].ids;
      assert id in groups[k].ids;
    }
  }

  /** The table names exactly the members. */
  lemma {:induction false} OwnersAreMembers(groups: seq<Group>, id: string)
    ensures id in OwnersOf(groups) <==> IsMember(groups, id)
  {
    if groups != [] {
      OwnersAreMembers(groups[..|groups| - 1], id);
      MemberOfLast(groups, id);
    }
  }

  /** The table names each member under its owner. */
  lemma {:induction false} OwnersAreCanonical(groups: seq<Group>, id: string)
    requires id in OwnersOf(groups)
    ensures OwnedUnder(groups, id, OwnersOf(groups)[id])
  {
    var n := |groups| - 1;
    var before := groups[..n];
    OwnersAreMembers(before, id);
    if id in groups[n].ids && (id !in OwnersOf(before) || !groups[n].auto) {
      LastOwns(groups, id);
    } else {
      OwnersAreCanonical(before, id);
      EarlierOwns(groups, id, OwnersOf(before)[id]);
    }
  }

  lemma LastOwns(groups: seq<Group>, id: string)
    requires groups != [] && id in groups[|groups| - 1].ids
    requires IsMember(groups[..|groups| - 1], id) ==> !groups[|groups| - 1].auto
    ensures OwnedUnder(groups, id, groups[|groups| - 1].name)
  {
    var n := |groups| - 1;
    forall j | 0 <= j < n && id in groups[j].ids ensures !groups[n].auto {
      assert id in groups[..n][j].ids;
    }
    assert Owns(groups, id, n);
  }

  lemma EarlierOwns(groups: seq<Group>, id: string, name: string)
    requires groups != [] && OwnedUnder(groups[..|groups| - 1], id, name)
    requires id in groups[|groups| - 1].ids ==> groups[|groups| - 1].auto
    ensures OwnedUnder(groups, id, name)
  {
    var before := groups[..|groups| - 1];
    var k :| 0 <= k < |before| && Owns(before, id, k) && before[k].name == name;
    assert forall j :: 0 <= j < |before| ==> before[j] == groups[j];
    assert Owns(groups, id, k);
  }

  // ----- overrides -----

  /** The cluster each item's override names; "" means no cluster. */
  type Overrides = map<string, string>

  /** Override references after the repair: a member's owner, and no cluster for any other item. "" means no cluster. */
  function Repaired(overrides: Overrides, owners: Owners): Overrides {
    map id | id in overrides.Keys + owners.Keys :: if id in owners then owners[id] else ""
  }

  lemma RepairedTwice(overrides: Overrides, owners: Owners)
    ensures Repaired(Repaired(overrides, owners), owners) == Repaired(overrides, owners)
  {
  }

  /** After the repair every override names no cluster, or the existing cluster that owns the item; and every listed
      item has an override. A listed item whose override named another cluster gets its owner; one no cluster lists gets
      none. */
  lemma RepairedIsCanonical(overrides: Overrides, groups: seq<Group>, id: string)
    ensures id in Repaired(overrides, OwnersOf(groups)) <==> id in overrides || IsMember(groups, id)
    ensures id in Repaired(overrides, OwnersOf(groups)) ==>
      if IsMember(groups, id) then OwnedUnder(groups, id, Repaired(overrides, OwnersOf(groups))[id])
      else Repaired(overrides, OwnersOf(groups))[id] == ""
  {
    OwnersAreMembers(groups, id);
    if IsMember(groups, id) {
      OwnersAreCanonical(groups, id);
    }
  }

  lemma OneOwner(groups: seq<Group>, id: string, j: int, k: int)
    requires Owns(groups, id, j) && Owns(groups, id, k)
    ensures j == k
  {
  }

  /** An override that names a cluster keeps it exactly when that cluster lists the item and owns it: an item missing
      from the cluster its override names is never added to it. */
  lemma OverrideIsKept(overrides: Overrides, groups: seq<Group>, id: string)
    requires id in overrides && overrides[id] != ""
    ensures Repaired(overrides, OwnersOf(groups))[id] == overrides[id] <==> OwnedUnder(groups, id, overrides[id])
  {
    RepairedIsCanonical(overrides, groups, id);
    if OwnedUnder(groups, id, overrides[id]) {
      var k :| 0 <= k < |groups| && Owns(groups, id, k) && groups[k].name == overrides[id];
      assert IsMember(groups, id);
      var owner := Repaired(overrides, OwnersOf(groups))[id];
      var j :| 0 <= j < |groups| && Owns(groups, id, j) && groups[j].name == owner;
      OneOwner(groups, id, j, k);
    }
  }

  /** An item whose override names a cluster that does not list it: the override is cleared. */
  lemma MissingMemberIsNotAdded()
    ensures Repaired(map["i" := "x"], OwnersOf([Group("x", [], false, true)])) == map["i" := ""]
  {
    var groups := [Group("x", [], false, true)];
    OwnersAreMembers(groups, "i");
    assert OwnersOf(groups) == map[] by {
      assert groups[..0] == [];
      assert OwnersOf([]) == map[];
    }
  }

  // ----- the queue -----

  predicate ActiveAuto(g: Group) {
    g.auto && g.active
  }

  predicate Lists(g: Group, id: string) {
    id in g.ids && id != "" && !IsSynthetic(id)
  }

  /** IDs of inactive automatic clusters that no manual or active cluster lists. */
  function Evictable(groups: seq<Group>): (r: set<string>)
    ensures forall id :: id in r <==>
      && (exists k :: 0 <= k < |groups| && groups[k].auto && !groups[k].active && Lists(groups[k], id))
      && (forall k :: 0 <= k < |groups| && Lists(groups[k], id) ==> groups[k].auto && !groups[k].active)
  {
    var inactive := set k, id | 0 <= k < |groups| && id in groups[k].ids && groups[k].auto && !groups[k].active
                                && Lists(groups[k], id) :: id;
    set id | id in inactive
             && forall k :: 0 <= k < |groups| && Lists(groups[k], id) ==> groups[k].auto && !groups[k].active
  }

  function AppendIds(order: seq<string>, skipped: set<string>, ids: seq<string>): seq<string> {
    if ids == [] then order
    else
      var n := |ids| - 1;
      var before := AppendIds(order, skipped, ids[..n]);
      if ids[n] == "" || ids[n] in skipped || ids[n] in before then before else before + [ids[n]]
  }

  function AppendMembers(order: seq<string>, skipped: set<string>, groups: seq<Group>): seq<string> {
    if groups == [] then order
    else
      var before := AppendMembers(order, skipped, groups[..|groups| - 1]);
      if ActiveAuto(groups[|groups| - 1]) then AppendIds(before, skipped, groups[|groups| - 1].ids) else before
  }

  function QueueSynced(order: seq<string>, skipped: set<string>, groups: seq<Group>): seq<string> {
    AppendMembers(Without(order, Evictable(groups)), skipped, groups)
  }

  /** The queue grows at its end by IDs that were not in it. */
  predicate Extends(before: seq<string>, after: seq<string>) {
    && before <= after
    && (forall i :: |before| <= i < |after| ==> after[i] !in after[..i])
  }

  lemma ExtendsTransitive(a: seq<string>, b: seq<string>, c: seq<string>)
    requires Extends(a, b) && Extends(b, c)
    ensures Extends(a, c)
  {
    forall i | |a| <= i < |c| ensures c[i] !in c[..i] {
      if i < |b| {
        assert c[..i] == b[..i];
      }
    }
  }

  lemma {:induction false} AppendIdsExtends(order: seq<string>, skipped: set<string>, ids: seq<string>)
    ensures Extends(order, AppendIds(order, skipped, ids))
    ensures forall x :: x in AppendIds(order, skipped, ids) <==> x in order || (x in ids && x != "" && x !in skipped)
  {
    if ids != [] {
      var n := |ids| - 1;
      AppendIdsExtends(order, skipped, ids[..n]);
      var before := AppendIds(order, skipped, ids[..n]);
      assert forall x :: x in ids <==> x == ids[n] || x in ids[..n];
      var after := AppendIds(order, skipped, ids);
      if after != before {
        assert after == before + [ids[n]];
        assert after[..|before|] == before;
        ExtendsTransitive(order, before, after);
      }
    }
  }

  predicate ActiveMember(groups: seq<Group>, x: string) {
    exists k :: 0 <= k < |groups| && ActiveAuto(groups[k]) && x in groups[k].ids
  }

  lemma {:induction false} AppendMembersExtends(order: seq<string>, skipped: set<string>, groups: seq<Group>)
    ensures Extends(order, AppendMembers(order, skipped, groups))
    ensures forall x :: x in AppendMembers(order, skipped, groups)
                   <==> x in order || (ActiveMember(groups, x) && x != "" && x !in skipped)
  {
    if groups != [] {
      var n := |groups| - 1;
      var before := AppendMembers(order, skipped, groups[..n]);
      AppendMembersExtends(order, skipped, groups[..n]);
      forall x
        ensures ActiveMember(groups, x)
           <==> ActiveMember(groups[..n], x) || (ActiveAuto(groups[n]) && x in groups[n].ids)
      {
        if ActiveMember(groups[..n], x) {
          var k :| 0 <= k < n && ActiveAuto(groups[..n][k]) && x in groups[..n][k].ids;
          assert ActiveAuto(groups[k]) && x in groups[k].ids;
        }
      }
      if ActiveAuto(groups[n]) {
        AppendIdsExtends(before, skipped, groups[n].ids);
        ExtendsTransitive(order, before, AppendMembers(order, skipped, groups));
      }
    }
  }

  /** No active automatic member is evictable. */
  lemma ActiveIsNotEvictable(groups: seq<Group>, x: string)
    requires ActiveMember(groups, x)
    ensures x !in Evictable(groups)
  {
    var k :| 0 <= k < |groups| && ActiveAuto(groups[k]) && x in groups[k].ids;
    assert x != "" && !IsSynthetic(x) ==> Lists(groups[k], x);
  }

  /** The synced queue: the survivors in their old order, then each missing active member once; every active member that
      is not skipped is there, and nothing evictable. */
  lemma QueueSyncLaw(order: seq<string>, skipped: set<string>, groups: seq<Group>)
    ensures Extends(Without(order, Evictable(groups)), QueueSynced(order, skipped, groups))
    ensures forall x :: x in QueueSynced(order, skipped, groups)
                   <==> (x in order && x !in Evictable(groups)) || (ActiveMember(groups, x) && x != "" && x !in skipped)
    ensures forall x :: x in QueueSynced(order, skipped, groups) ==> x !in Evictable(groups)
  {
    AppendMembersExtends(Without(order, Evictable(groups)), skipped, groups);
    forall x | ActiveMember(groups, x) ensures x !in Evictable(groups) {
      ActiveIsNotEvictable(groups, x);
    }
  }

  lemma {:induction false} WithoutShrinks(s: seq<string>, ids: set<string>)
    ensures |Without(s, ids)| <= |s|
    ensures |Without(s, ids)| == |s| ==> Without(s, ids) == s
  {
    if s != [] {
      WithoutShrinks(s[1..], ids);
    }
  }

  lemma {:induction false} WithoutNothing(s: seq<string>, ids: set<string>)
    requires forall x :: x in s ==> x !in ids
    ensures Without(s, ids) == s
  {
    if s != [] {
      WithoutNothing(s[1..], ids);
    }
  }

  lemma ExtendsByNewIds(before: seq<string>, after: seq<string>)
    requires Extends(before, after)
    ensures after != before ==> exists x :: x in after && x !in before
  {
    if after != before {
      assert after[..|before|] == before;
      assert after[|before|] in after;
    }
  }

  /** A second sync leaves the queue as it is. */
  lemma QueueSyncTwice(order: seq<string>, skipped: set<string>, groups: seq<Group>)
    ensures QueueSynced(QueueSynced(order, skipped, groups), skipped, groups) == QueueSynced(order, skipped, groups)
  {
    var once := QueueSynced(order, skipped, groups);
    QueueSyncLaw(order, skipped, groups);
    WithoutNothing(once, Evictable(groups));
    QueueSyncLaw(once, skipped, groups);
    ExtendsByNewIds(once, QueueSynced(once, skipped, groups));
  }

  lemma OwnersAreNamed(groups: seq<Group>)
    ensures forall id :: id in OwnersOf(groups) ==> OwnersOf(groups)[id] in Names(groups)
  {
    forall id | id in OwnersOf(groups) ensures OwnersOf(groups)[id] in Names(groups) {
      OwnersAreCanonical(groups, id);
    }
  }

  // ----- the three passes over the overrides -----

  /** The overrides with those of these items emptied. */
  function Emptied(overrides: Overrides, ids: set<string>): Overrides {
    map id | id in overrides :: if id in ids then "" else overrides[id]
  }

  lemma EmptiedOneMore(overrides: Overrides, ids: set<string>, id: string)
    requires id in overrides
    ensures Emptied(overrides, ids + {id}) == Emptied(overrides, ids)[id := ""]
  {
  }

  /** Taking one item off the worklist, when its override is emptied if it is among `ids`. */
  lemma EmptiedStep(overrides: Overrides, ids: set<string>, todo: set<string>, id: string)
    requires id in todo && id in overrides
    ensures
      var before, after := Emptied(overrides, ids - todo), Emptied(overrides, ids - (todo - {id}));
      && id in before && before[id] == overrides[id]
      && after == (if id in ids then before[id := ""] else before)
      && |ids - (todo - {id})| == |ids - todo| + (if id in ids then 1 else 0)
  {
    OneFewer(ids, todo, id);
    EmptiedOneMore(overrides, ids - todo, id);
  }

  lemma OneCleared(overrides: Overrides, names: set<string>, id: string)
    requires id in overrides
    ensures id in Missing(overrides, names) <==> overrides[id] != "" && overrides[id] !in names
  {
  }

  lemma OneStale(overrides: Overrides, names: set<string>, owners: Owners, id: string)
    requires id in overrides
    ensures id in Stale(overrides, names, owners) <==> overrides[id] != "" && overrides[id] in names && id !in owners
  {
  }

  /** The items whose override names no existing cluster. */
  function Missing(overrides: Overrides, names: set<string>): set<string> {
    set id | id in overrides && overrides[id] != "" && overrides[id] !in names
  }

  /** The items whose override names an existing cluster although no cluster lists them. */
  function Stale(overrides: Overrides, names: set<string>, owners: Owners): set<string> {
    set id | id in overrides && overrides[id] != "" && overrides[id] in names && id !in owners
  }

  /** The overrides once those of these items were pointed at their owners. */
  function Synced(overrides: Overrides, owners: Owners, ids: set<string>): Overrides
    requires ids <= owners.Keys
  {
    map id | id in overrides.Keys + ids :: if id in ids then owners[id] else overrides[id]
  }

  lemma SyncedOneMore(overrides: Overrides, owners: Owners, ids: set<string>, id: string)
    requires ids <= owners.Keys && id in owners
    ensures Synced(overrides, owners, ids + {id}) == Synced(overrides, owners, ids)[id := owners[id]]
  {
  }

  lemma SyncedStep(overrides: Overrides, owners: Owners, todo: set<string>, id: string)
    requires todo <= owners.Keys && id in todo
    ensures
      var before := Synced(overrides, owners, owners.Keys - todo);
      && Synced(overrides, owners, owners.Keys - (todo - {id})) == before[id := owners[id]]
      && (id in before <==> id in overrides) && (id in before ==> before[id] == overrides[id])
      && |Misplaced(overrides, owners) - (todo - {id})|
         == |Misplaced(overrides, owners) - todo| + (if id in overrides && overrides[id] == owners[id] then 0 else 1)
  {
    OneFewer(owners.Keys, todo, id);
    OneFewer(Misplaced(overrides, owners), todo, id);
    SyncedOneMore(overrides, owners, owners.Keys - todo, id);
  }

  /** The members whose override is missing or names another cluster than their owner. */
  function Misplaced(overrides: Overrides, owners: Owners): set<string> {
    set id | id in owners && (id !in overrides || overrides[id] != owners[id])
  }

  /** Before anything is taken off the worklist, and once everything is. */
  lemma SyncedEnds(overrides: Overrides, owners: Owners)
    ensures Synced(overrides, owners, owners.Keys - owners.Keys) == overrides
    ensures |Misplaced(overrides, owners) - owners.Keys| == 0
    ensures owners.Keys - {} == owners.Keys && Misplaced(overrides, owners) - {} == Misplaced(overrides, owners)
  {
    assert Misplaced(overrides, owners) - owners.Keys == {};
  }

  lemma EmptiedEnds(overrides: Overrides, ids: set<string>)
    requires ids <= overrides.Keys
    ensures Emptied(overrides, ids - overrides.Keys) == overrides && |ids - overrides.Keys| == 0
    ensures ids - {} == ids
  {
    assert ids - overrides.Keys == {};
  }

  /** Taking one item off a worklist. */
  lemma OneFewer(all: set<string>, todo: set<string>, id: string)
    requires id in todo
    ensures all - (todo - {id}) == if id in all then (all - todo) + {id} else all - todo
  {
  }

  lemma NothingEmptied(overrides: Overrides, ids: set<string>)
    requires ids <= overrides.Keys && forall id :: id in ids ==> overrides[id] != ""
    ensures Emptied(overrides, ids) == overrides <==> ids == {}
  {
    if ids != {} {
      var id :| id in ids;
      assert Emptied(overrides, ids)[id] != overrides[id];
    }
  }

  lemma NothingSynced(overrides: Overrides, owners: Owners)
    ensures Synced(overrides, owners, owners.Keys) == overrides <==> Misplaced(overrides, owners) == {}
  {
    var after := Synced(overrides, owners, owners.Keys);
    if after == overrides {
      forall id | id in owners ensures id !in Misplaced(overrides, owners) {
        assert id in after && after[id] == owners[id];
      }
    } else {
      if Misplaced(overrides, owners) == {} {
        forall id | id in owners ensures id in overrides && overrides[id] == owners[id] {
          assert id !in Misplaced(overrides, owners);
        }
      }
    }
  }

  /** The repair as the three passes make it. */
  function Passed(overrides: Overrides, names: set<string>, owners: Owners): Overrides {
    var synced := Synced(Emptied(overrides, Missing(overrides, names)), owners, owners.Keys);
    Emptied(synced, Stale(synced, names, owners))
  }

  /** How many changes the three passes count. */
  function Changes(overrides: Overrides, names: set<string>, owners: Owners): nat {
    var cleared := Emptied(overrides, Missing(overrides, names));
    var synced := Synced(cleared, owners, owners.Keys);
    |Missing(overrides, names)| + |Misplaced(cleared, owners)| + |Stale(synced, names, owners)|
  }

  lemma PassesRepair(overrides: Overrides, names: set<string>, owners: Owners)
    ensures Passed(overrides, names, owners) == Repaired(overrides, owners)
  {
  }

  /** No override is changed exactly when no pass has anything to do. */
  lemma NothingToRepair(overrides: Overrides, names: set<string>, owners: Owners)
    requires forall id :: id in owners ==> owners[id] in names
    ensures Repaired(overrides, owners) == overrides <==> Changes(overrides, names, owners) == 0
  {
    var cleared := Emptied(overrides, Missing(overrides, names));
    var synced := Synced(cleared, owners, owners.Keys);
    PassesRepair(overrides, names, owners);
    NothingEmptied(overrides, Missing(overrides, names));
    NothingSynced(cleared, owners);
    NothingEmptied(synced, Stale(synced, names, owners));
    if Repaired(overrides, owners) == overrides {
      RepairedNamesNothingMissing(overrides, names, owners);
      SyncedOnlyWhatIsRepaired(overrides, owners);
    }
  }

  lemma RepairedNamesNothingMissing(overrides: Overrides, names: set<string>, owners: Owners)
    requires forall id :: id in owners ==> owners[id] in names
    requires Repaired(overrides, owners) == overrides
    ensures Missing(overrides, names) == {}
  {
    forall id | id in overrides ensures id !in Missing(overrides, names) {
      assert Repaired(overrides, owners)[id] == overrides[id];
    }
  }

  lemma SyncedOnlyWhatIsRepaired(overrides: Overrides, owners: Owners)
    requires Repaired(overrides, owners) == overrides
    ensures Misplaced(overrides, owners) == {}
  {
    forall id | id in owners ensures id !in Misplaced(overrides, owners) {
      assert id in Repaired(overrides, owners) && Repaired(overrides, owners)[id] == owners[id];
    }
  }

  // ----- the plan, edited in place -----

  class Plan {
    var groups: seq<Group>
    var overrides: Overrides
    var queueOrder: seq<string>
    var skipped: set<string>

    constructor (groups: seq<Group>, overrides: map<string, string>, queueOrder: seq<string>, skipped: set<string>)
      ensures this.groups == groups && this.overrides == overrides
      ensures this.queueOrder == queueOrder && this.skipped == skipped
    {
      this.groups := groups;
      this.overrides := overrides;
      this.queueOrder := queueOrder;
      this.skipped := skipped;
    }

    /** `_repair_ghost_cluster_refs`. */
    method RepairGhostRefs() returns (repaired: nat)
      modifies this`overrides
      ensures overrides == Repaired(old(overrides), OwnersOf(groups))
      ensures repaired == Changes(old(overrides), Names(groups), OwnersOf(groups))
      ensures repaired == 0 <==> overrides == old(overrides)
    {
      repaired := ClearMissing();
      var owners := Canonical();
      var moved := SyncOwners(owners);
      var stale := ClearStale(owners);
      repaired := repaired + moved + stale;
      OwnersAreNamed(groups);
      PassesRepair(old(overrides), Names(groups), owners);
      NothingToRepair(old(overrides), Names(groups), owners);
    }

    /** Clear every override that names a cluster that does not exist. */
    method ClearMissing() returns (repaired: nat)
      modifies this`overrides
      ensures overrides == Emptied(old(overrides), Missing(old(overrides), Names(groups)))
      ensures repaired == |Missing(old(overrides), Names(groups))|
    {
      repaired := 0;
      ghost var before := overrides;
      ghost var missing := Missing(before, Names(groups));
      var todo := overrides.Keys;
      EmptiedEnds(before, missing);
      while todo != {}
        invariant todo <= before.Keys
        invariant overrides == Emptied(before, missing - todo)
        invariant repaired == |missing - todo|
        decreases |todo|
      {
        var id :| id in todo;
        EmptiedStep(before, missing, todo, id);
        OneCleared(before, Names(groups), id);
        todo := todo - {id};
        if overrides[id] != "" && overrides[id] !in Names(groups) {
          overrides := overrides[id := ""];
          repaired := repaired + 1;
        }
      }
    }

    /** `_canonical_cluster_membership`. */
    method Canonical() returns (owners: Owners)
      ensures owners == OwnersOf(groups)
    {
      owners := map[];
      for k := 0 to |groups|
        invariant owners == OwnersOf(groups[..k])
      {
        assert groups[..k + 1][..k] == groups[..k];
        owners := ClaimMembers(owners, groups[k]);
      }
      assert groups[..|groups|] == groups;
    }

    method ClaimMembers(owners: Owners, g: Group) returns (after: Owners)
      ensures after == Claimed(owners, g)
    {
      after := owners;
      for i := 0 to |g.ids|
        invariant after == ClaimedFor(owners, g, Elements(g.ids[..i]))
      {
        var id := g.ids[i];
        ClaimedOneMore(owners, g, Elements(g.ids[..i]), id);
        assert Elements(g.ids[..i + 1]) == Elements(g.ids[..i]) + {id};
        if id !in after || !g.auto {
          after := after[id := g.name];
        }
      }
      assert g.ids[..|g.ids|] == g.ids;
    }

    /** Point every member's override at its owner. */
    method SyncOwners(owners: Owners) returns (repaired: nat)
      modifies this`overrides
      ensures overrides == Synced(old(overrides), owners, owners.Keys)
      ensures repaired == |Misplaced(old(overrides), owners)|
    {
      repaired := 0;
      ghost var before := overrides;
      var todo := owners.Keys;
      SyncedEnds(before, owners);
      while todo != {}
        invariant todo <= owners.Keys
        invariant overrides == Synced(before, owners, owners.Keys - todo)
        invariant repaired == |Misplaced(before, owners) - todo|
        decreases |todo|
      {
        var id :| id in todo;
        SyncedStep(before, owners, todo, id);
        todo := todo - {id};
        var changed := SyncOverride(id, owners[id]);
        repaired := repaired + changed;
      }
    }

    /** `_sync_override_to_canonical_cluster`. */
    method SyncOverride(id: string, name: string) returns (changed: nat)
      modifies this`overrides
      ensures overrides == old(overrides)[id := name]
      ensures changed == if id in old(overrides) && old(overrides)[id] == name then 0 else 1
    {
      changed := if id in overrides && overrides[id] == name then 0 else 1;
      if changed == 1 {
        overrides := overrides[id := name];
      }
    }

    /** Clear every override that names a cluster although no cluster lists the item. */
    method ClearStale(owners: Owners) returns (repaired: nat)
      modifies this`overrides
      ensures overrides == Emptied(old(overrides), Stale(old(overrides), Names(groups), owners))
      ensures repaired == |Stale(old(overrides), Names(groups), owners)|
    {
      repaired := 0;
      ghost var before := overrides;
      ghost var stale := Stale(before, Names(groups), owners);
      var todo := overrides.Keys;
      EmptiedEnds(before, stale);
      while todo != {}
        invariant todo <= before.Keys
        invariant overrides == Emptied(before, stale - todo)
        invariant repaired == |stale - todo|
        decreases |todo|
      {
        var id :| id in todo;
        EmptiedStep(before, stale, todo, id);
        OneStale(before, Names(groups), owners, id);
        todo := todo - {id};
        if overrides[id] == "" || overrides[id] !in Names(groups) || id in owners {
          continue;
        }
        overrides := overrides[id := ""];
        repaired := repaired + 1;
      }
    }

    /** `_sync_active_auto_cluster_queue_membership`. */
    method SyncQueue() returns (changes: nat)
      modifies this`queueOrder
      ensures queueOrder == QueueSynced(old(queueOrder), skipped, groups)
      ensures changes == 0 <==> queueOrder == old(queueOrder)
    {
      var evict := Evictable(groups);
      var kept := Without(queueOrder, evict);
      WithoutShrinks(queueOrder, evict);
      changes := |queueOrder| - |kept|;
      queueOrder := kept;
      for k := 0 to |groups|
        invariant queueOrder == AppendMembers(kept, skipped, groups[..k])
        invariant changes == |old(queueOrder)| - |kept| + (|queueOrder| - |kept|)
      {
        assert groups[..k + 1][..k] == groups[..k];
        if !ActiveAuto(groups[k]) {
          continue;
        }
        var added := AppendGroup(groups[k].ids);
        changes := changes + added;
      }
      assert groups[..|groups|] == groups;
      QueueSyncLaw(old(queueOrder), skipped, groups);
      assert queueOrder[..|kept|] == kept;
      if queueOrder == old(queueOrder) {
        WithoutNothing(old(queueOrder), evict);
      }
    }

    method AppendGroup(ids: seq<string>) returns (added: nat)
      modifies this`queueOrder
      ensures queueOrder == AppendIds(old(queueOrder), skipped, ids)
      ensures added == |queueOrder| - |old(queueOrder)|
    {
      added := 0;
      for i := 0 to |ids|
        invariant queueOrder == AppendIds(old(queueOrder), skipped, ids[..i])
        invariant added == |queueOrder| - |old(queueOrder)|
      {
        assert ids[..i + 1][..i] == ids[..i];
        if ids[i] == "" || ids[i] in skipped || ids[i] in queueOrder {
          continue;
        }
        queueOrder := queueOrder + [ids[i]];
        added := added + 1;
      }
      assert ids[..|ids|] == ids;
    }
  }
}
