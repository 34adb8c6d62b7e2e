/** The sync command as it is coded, running beside others: every sync is a run of the publication protocol. */
module RepairQueueSync {
  import opened Wrappers
  import opened RepairQueueRecords
  import opened RepairQueue
  import opened RepairQueueRuns

  /** What the world does before the next step of a sync, and what it answers: the other processes' steps, the issues a
      search does not show (None when it fails), what rereading the source says, the issue a view returns, the issue a
      create leaves and whether its outcome is known, and the reviewed version the item would be published with. */
  datatype Answer = Answer(
    others: seq<Event>,
    hidden: Option<set<int>>,
    recheck: Recheck,
    view: Option<Issue>,
    landed: Option<Issue>,
    certain: bool,
    version: Option<Hash>)

  function Shown(remote: Hits, hidden: Option<set<int>>): (found: Option<Hits>)
    ensures Answers(found, remote)
  {
    if hidden.None? then None else Some(map n | n in remote && n !in hidden.value :: remote[n])
  }

  /** The step is one of the process's own. */
  predicate Touches(e: Event, pid: nat) {
    match e
    case Refute(p, _, _) => p == pid
    case Examine(p, _, _, _) => p == pid
    case Choose(p, _) => p == pid
    case Reserve(p, _) => p == pid
    case Create(p, _, _) => p == pid
    case SearchAfter(p, _) => p == pid
    case Link(p, _, _) => p == pid
    case Crash(p) => p == pid
    case _ => false
  }

  lemma OthersLeave(s: Sys, e: Event, pid: nat)
    requires Enabled(s, e) && !Touches(e, pid) && pid in s.procs && pid < s.started
    ensures pid in After(s, e).procs && After(s, e).procs[pid] == s.procs[pid] && s.started <= After(s, e).started
  {
  }

  /** What examining a candidate leaves a process with. */
  lemma ExaminedIs(p: Proc, c: Candidate, found: Option<Hits>, viewed: Option<Issue>)
    requires c.issueId in p.snapshot && p.doing.Idle?
    ensures
      var d, q := Decide(p.snapshot, c, found), Examined(p, c, found, viewed);
      && q == p.(todo := p.todo - {c}, doing := q.doing,
                 selectable := if d.Select? then p.selectable + {c} else p.selectable)
      && (if d.CreateProposal? then q.doing.Reserving? else q.doing.Linking? || q.doing.Idle?)
  {
  }

  lemma {:induction false} RunAppend(s: Sys, events: seq<Event>, t: Sys, e: Event)
    requires Run(s, events, t) && Enabled(t, e)
    ensures Run(s, events + [e], After(t, e))
    decreases |events|
  {
    if events == [] {
      assert ([] + [e])[1..] == [];
    } else {
      RunAppend(After(s, events[0]), events[1..], t, e);
      assert (events + [e])[1..] == events[1..] + [e];
    }
  }

  /** The state file, GitHub and everyone else, with the history of what happened. */
  class World {
    const file: StateFile
    const env: nat -> Answer
    ghost const origin: Sys
    var sys: Sys
    var clock: nat
    ghost var trace: seq<Event>

    ghost predicate Valid()
      reads this, file
    {
      file.items == sys.items && Run(origin, trace, sys)
    }

    constructor (file: StateFile, remote: Hits, env: nat -> Answer)
      ensures Valid() && this.file == file && this.env == env && origin == Initial(file.items, remote) && trace == []
    {
      this.file, this.env := file, env;
      origin, sys := Initial(file.items, remote), Initial(file.items, remote);
      clock, trace := 0, [];
    }

    method Act(e: Event)
      requires Valid() && Enabled(sys, e)
      modifies this`sys, this`trace, file
      ensures Valid() && sys == After(old(sys), e) && trace == old(trace) + [e]
    {
      RunAppend(origin, trace, sys, e);
      sys := After(sys, e);
      file.items := sys.items;
      trace := trace + [e];
    }

    /** Others act, then the next answer arrives. */
    method Ask(pid: nat) returns (a: Answer)
      requires Valid() && pid in sys.procs && pid < sys.started
      modifies this, file
      ensures Valid() && pid in sys.procs && pid < sys.started && sys.procs[pid] == old(sys).procs[pid]
    {
      a := env(clock);
      clock := clock + 1;
      for i := 0 to |a.others|
        invariant Valid() && pid in sys.procs && pid < sys.started && sys.procs[pid] == old(sys).procs[pid]
      {
        var e := a.others[i];
        if !Touches(e, pid) && Enabled(sys, e) {
          OthersLeave(sys, e, pid);
          Act(e);
        }
      }
    }

    /** The locked section of `_create_once`. */
    method ReserveLocked(pid: nat, recheck: Recheck) returns (reserved: bool)
      requires Valid() && Enabled(sys, Reserve(pid, recheck))
      modifies this`sys, this`trace, file
      ensures Valid() && sys == After(old(sys), Reserve(pid, recheck))
      ensures reserved <==> sys.procs[pid].doing.Creating?
    {
      var c := sys.procs[pid].doing.c;
      RunAppend(origin, trace, sys, Reserve(pid, recheck));
      reserved := file.Reserve(c, recheck);
      sys := After(sys, Reserve(pid, recheck));
      trace := trace + [Reserve(pid, recheck)];
    }

    /** The locked section of `_write_link`. */
    method LinkLocked(pid: nat, recheck: Recheck, version: Option<Hash>)
      requires Valid() && Enabled(sys, Link(pid, recheck, version))
      modifies this`sys, this`trace, file
      ensures Valid() && sys == After(old(sys), Link(pid, recheck, version))
    {
      var d := sys.procs[pid].doing;
      RunAppend(origin, trace, sys, Link(pid, recheck, version));
      var linked := file.WriteLink(d.c, d.issue, d.expected, recheck, version);
      sys := After(sys, Link(pid, recheck, version));
      trace := trace + [Link(pid, recheck, version)];
    }

    /** `_recover`, as an operator runs it. */
    method RecoverLocked(repository: string, marker: Hash) returns (cleared: nat)
      requires Valid()
      modifies this`sys, this`trace, file
      ensures Valid() && sys == After(old(sys), Recover(repository, marker))
      ensures cleared == |ClearedRecords(old(sys).items, old(sys).items.Keys, repository, marker)|
    {
      RunAppend(origin, trace, sys, Recover(repository, marker));
      cleared := file.Recover(repository, marker);
      sys := After(sys, Recover(repository, marker));
      trace := trace + [Recover(repository, marker)];
    }

    /** Write the link a sync decided on, if it decided on one. */
    method FinishLink(pid: nat)
      requires Valid() && pid in sys.procs && pid < sys.started
      requires sys.procs[pid].doing.Linking? || sys.procs[pid].doing.Idle?
      modifies this, file
      ensures Valid() && pid in sys.procs && pid < sys.started
      ensures sys.procs[pid] == old(sys).procs[pid].(doing := Idle)
    {
      if sys.procs[pid].doing.Linking? {
        var a := Ask(pid);
        LinkLocked(pid, a.recheck, a.version);
      }
    }

    /** `_create_once`. */
    method CreateOnce(pid: nat) returns (reserved: bool)
      requires Valid() && pid in sys.procs && pid < sys.started && sys.procs[pid].doing.Reserving?
      modifies this, file
      ensures Valid() && pid in sys.procs && pid < sys.started
      ensures sys.procs[pid] == old(sys).procs[pid].(doing := Idle)
    {
      var a := Ask(pid);
      reserved := ReserveLocked(pid, a.recheck);
      if reserved {
        Publish(pid);
      }
    }

    /** The create call and what follows it, once the pending record is written. */
    method Publish(pid: nat)
      requires Valid() && pid in sys.procs && pid < sys.started && sys.procs[pid].doing.Creating?
      modifies this, file
      ensures Valid() && pid in sys.procs && pid < sys.started
      ensures sys.procs[pid] == old(sys).procs[pid].(doing := Idle)
    {
      var certain := CreateIssue(pid);
      if certain {
        FindCreated(pid);
        FinishLink(pid);
      }
    }

    /** The create call; whether its outcome is known. */
    method CreateIssue(pid: nat) returns (certain: bool)
      requires Valid() && pid in sys.procs && pid < sys.started && sys.procs[pid].doing.Creating?
      modifies this, file
      ensures Valid() && pid in sys.procs && pid < sys.started
      ensures
        var p := old(sys).procs[pid];
        sys.procs[pid] == p.(doing := if certain then Searching(p.doing.c) else Idle)
    {
      var a := Ask(pid);
      var landed := CouldLand(a.landed, pid);
      certain := a.certain && landed.Some?;
      Act(Create(pid, landed, certain));
    }

    /** The search for the issue just created. */
    method FindCreated(pid: nat)
      requires Valid() && pid in sys.procs && pid < sys.started && sys.procs[pid].doing.Searching?
      modifies this, file
      ensures Valid() && pid in sys.procs && pid < sys.started
      ensures sys.procs[pid] == old(sys).procs[pid].(doing := sys.procs[pid].doing)
      ensures sys.procs[pid].doing.Linking? || sys.procs[pid].doing.Idle?
    {
      var a := Ask(pid);
      Act(SearchAfter(pid, Shown(sys.remote, a.hidden)));
    }

    /** The issue a create leaves carries the body that was sent, under a number of its own. */
    method CouldLand(landed: Option<Issue>, pid: nat) returns (could: Option<Issue>)
      requires pid in sys.procs && sys.procs[pid].doing.Creating?
      ensures could.Some? ==>
        could.value.number !in sys.remote && MarkerLine(sys.procs[pid].doing.c) in could.value.body
    {
      if landed.Some? && landed.value.number !in sys.remote {
        var line := MarkerLine(sys.procs[pid].doing.c);
        could := Some(landed.value.(body := landed.value.body + [line]));
      } else {
        could := None;
      }
    }

    /** `_source_current`: compare without the lock, then again under it; a candidate that fails is done with. */
    method SourceIsCurrent(pid: nat, c: Candidate) returns (current: bool)
      requires Valid() && pid in sys.procs && pid < sys.started
      requires sys.procs[pid].doing == Idle && c in sys.procs[pid].todo
      modifies this, file
      ensures Valid() && pid in sys.procs && pid < sys.started
      ensures
        var p := old(sys).procs[pid];
        sys.procs[pid] == if current then p else p.(todo := p.todo - {c})
    {
      var a := Ask(pid);
      if a.recheck == SourceCurrent {
        return true;
      }
      a := Ask(pid);
      if CandidateById(sys.items, c.issueId, c.repository) != Some(c) {
        Act(Refute(pid, c, SourceKept));
        return false;
      }
      if a.recheck != SourceCurrent {
        Act(Refute(pid, c, a.recheck));
        return false;
      }
      current := true;
    }

    /** `_sync_one` from a current source; true when the candidate is a small repair with nothing to reconcile. */
    method Reconcile(pid: nat, c: Candidate) returns (selectable: bool)
      requires Valid() && pid in sys.procs && pid < sys.started && sys.procs[pid].doing == Idle
      requires c in sys.procs[pid].todo && c.issueId in sys.procs[pid].snapshot
      modifies this, file
      ensures Valid() && pid in sys.procs && pid < sys.started
      ensures
        var p, q := old(sys).procs[pid], sys.procs[pid];
        q == p.(todo := p.todo - {c}, selectable := if selectable then p.selectable + {c} else p.selectable)
    {
      var d := ExamineOne(pid, c);
      if d.CreateProposal? {
        var reserved := CreateOnce(pid);
        return false;
      }
      FinishLink(pid);
      selectable := d.Select?;
    }

    /** Search for the candidate's issue and decide what to do about it. */
    method ExamineOne(pid: nat, c: Candidate) returns (d: Decision)
      requires Valid() && pid in sys.procs && pid < sys.started && sys.procs[pid].doing == Idle
      requires c in sys.procs[pid].todo && c.issueId in sys.procs[pid].snapshot
      modifies this, file
      ensures Valid() && pid in sys.procs && pid < sys.started
      ensures
        var p, q := old(sys).procs[pid], sys.procs[pid];
        && q == p.(todo := p.todo - {c}, doing := q.doing,
                   selectable := if d.Select? then p.selectable + {c} else p.selectable)
        && (if d.CreateProposal? then q.doing.Reserving? else q.doing.Linking? || q.doing.Idle?)
    {
      var a := Ask(pid);
      var found := Shown(sys.remote, a.hidden);
      d := Decide(sys.procs[pid].snapshot, c, found);
      var viewed: Option<Issue> := None;
      if d.ReadLink? && a.view.Some? {
        viewed := Some(a.view.value.(number := d.number));
      }
      ExaminedIs(sys.procs[pid], c, found, viewed);
      Act(Examine(pid, c, found, viewed));
    }

    method SyncOne(pid: nat, c: Candidate) returns (selectable: bool)
      requires Valid() && pid in sys.procs && pid < sys.started && sys.procs[pid].doing == Idle
      requires c in sys.procs[pid].todo && c.issueId in sys.procs[pid].snapshot
      modifies this, file
      ensures Valid() && pid in sys.procs && pid < sys.started
      ensures
        var p, q := old(sys).procs[pid], sys.procs[pid];
        q == p.(todo := p.todo - {c}, selectable := if selectable then p.selectable + {c} else p.selectable)
    {
      var current := SourceIsCurrent(pid, c);
      selectable := false;
      if current {
        selectable := Reconcile(pid, c);
      }
    }

    /** `_select`: create at most one of the small repairs that are still safe. */
    method Select(pid: nat, selectable: set<Candidate>)
      requires Valid() && pid in sys.procs && pid < sys.started && sys.procs[pid].doing == Idle
      requires sys.procs[pid].todo == {} && !sys.procs[pid].chosen && sys.procs[pid].selectable == selectable
      modifies this, file
      ensures Valid() && pid in sys.procs && sys.procs[pid].chosen && sys.procs[pid].doing == Idle
    {
      var a := Ask(pid);
      if PendingRepairs(sys.items, sys.procs[pid].repository) != {} {
        Act(Choose(pid, None));
        return;
      }
      var safe := set c | c in selectable && Safe(sys.items, c);
      if safe == {} {
        assert forall c :: c in selectable && Safe(sys.items, c) ==> c in safe;
        Act(Choose(pid, None));
        return;
      }
      var chosen :| chosen in safe;
      Act(Choose(pid, Some(chosen)));
      var reserved := CreateOnce(pid);
    }

    /** `_sync`: reconcile every unambiguous candidate, then select. Whatever the others do meanwhile, the whole of it
        is a run of the protocol. */
    method Sync(repository: string) returns (pid: nat)
      requires Valid()
      modifies this, file
      ensures Valid() && pid in sys.procs && sys.procs[pid].chosen && sys.procs[pid].doing == Idle
    {
      pid := sys.started;
      Act(StartSync(repository));
      var candidates, selectable := sys.procs[pid].todo, {};
      ghost var snapshot := sys.procs[pid].snapshot;
      while candidates != {}
        invariant Valid() && pid in sys.procs && pid < sys.started
        invariant sys.procs[pid] == Proc(repository, snapshot, candidates, selectable, false, Idle)
        invariant candidates <= Candidates(snapshot, repository)
        decreases |candidates|
      {
        var c :| c in candidates;
        var selected := SyncOne(pid, c);
        candidates := candidates - {c};
        if selected {
          selectable := selectable + {c};
        }
      }
      Select(pid, selectable);
    }
  }

  /** So whatever syncs, recovers and others do from a state file, its keys are published at most once more than
      cleared. */
  lemma WorldPublishesOnce(w: World, items: Items, remote: Hits, route: Route, repository: string, identity: Hash)
    requires w.Valid() && w.origin == Initial(items, remote)
    ensures
      var key := RecordKey(route, repository, identity);
      Creates(w.sys.log, key) <= 1 + Clears(w.sys.log, key)
    ensures OnePending(items) ==> OnePending(w.file.items)
  {
    PublishOnce(items, remote, w.trace, w.sys, route, repository, identity);
    if OnePending(items) {
      OneUnresolvedRepair(Initial(items, remote), w.trace, w.sys);
    }
  }
}
