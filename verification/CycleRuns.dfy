/** Safety of whole histories of cycle runs, crashes included. */
module CycleRuns {
  import opened Wrappers
  import opened CycleRecords
  import opened RepairCycle
  import opened CycleProtocol
  import CycleDriver

  function HandedBy(e: Event): seq<string> {
    if e.Hand? then [e.id] else []
  }

  /** The attempt IDs handed to the host along a history, in order. */
  function HandedIds(trace: seq<Event>): seq<string> {
    if trace == [] then [] else HandedBy(trace[0]) + HandedIds(trace[1..])
  }

  lemma Concatenated(a: seq<string>, b: seq<string>, c: seq<string>)
    ensures (a + b) + c == a + (b + c)
  {
  }

  lemma HandedStep(s: Sys, e: Event)
    requires Allowed(s, e)
    ensures After(s, e).handed == s.handed + HandedBy(e)
  {
  }

  lemma {:induction false} HandedIsRecorded(s: Sys, trace: seq<Event>, t: Sys)
    requires Replays(s, trace, t)
    ensures t.handed == s.handed + HandedIds(trace)
    decreases |trace|
  {
    if trace != [] {
      HandedIsRecorded(After(s, trace[0]), trace[1..], t);
      HandedStep(s, trace[0]);
      Concatenated(s.handed, HandedBy(trace[0]), HandedIds(trace[1..]));
    }
  }

  /** A history's last step, and the state before it. */
  lemma {:induction false} LastStep(s: Sys, trace: seq<Event>, t: Sys) returns (k: Sys)
    requires Replays(s, trace, t) && trace != []
    ensures Replays(s, trace[..|trace| - 1], k)
    ensures Allowed(k, trace[|trace| - 1]) && t == After(k, trace[|trace| - 1])
    decreases |trace|
  {
    if |trace| == 1 {
      k := s;
    } else {
      k := LastStep(After(s, trace[0]), trace[1..], t);
      assert trace[1..][..|trace| - 2] == trace[..|trace| - 1][1..];
    }
  }

  /** A crash may cut any history short: what was done so far is a history of its own. */
  lemma {:induction false} EveryPrefixIsAHistory(s: Sys, trace: seq<Event>, t: Sys, n: nat) returns (k: Sys)
    requires Replays(s, trace, t) && n <= |trace|
    ensures Replays(s, trace[..n], k) && Replays(k, trace[n..], t)
    ensures Replays(s, trace[..n] + [Event.Crash], k.(stage := Quiet))
    decreases |trace|
  {
    if n == 0 {
      k := s;
      assert trace[0..] == trace;
    } else {
      k := EveryPrefixIsAHistory(After(s, trace[0]), trace[1..], t, n - 1);
      assert trace[..n][1..] == trace[1..][..n - 1] && trace[1..][n - 1..] == trace[n..];
    }
    ReplaysStep(s, trace[..n], k, Event.Crash);
  }

  // ----- at most one launch -----

  /** No attempt is handed to the host twice, whatever crashes and restarts lie between. */
  lemma AtMostOneLaunch(trace: seq<Event>, t: Sys)
    requires Replays(START, trace, t)
    ensures NoRepeats(HandedIds(trace))
  {
    HandedIsRecorded(START, trace, t);
    assert START.handed + HandedIds(trace) == HandedIds(trace);
    StartInv();
    ReplaysInv(START, trace, t);
  }

  /** When an attempt is handed over, its intent was the step before: it is in the saved state, with the whole lease
      reserved. */
  lemma IntentIsDurableBeforeLaunch(trace: seq<Event>, t: Sys, id: string)
    requires Replays(START, trace, t) && Allowed(t, Hand(id))
    ensures trace != [] && trace[|trace| - 1].Intend? && trace[|trace| - 1].record.attemptId == id
    ensures t.durable.dispatch == Some(DispatchAsRead(trace[|trace| - 1].record))
    ensures t.durable.lease.Some? && t.durable.reservedCost == t.durable.lease.value.costCap
    ensures FromMapping(ToMapping(t.durable)) == Ok(t.durable)
  {
    SavedStateDecodes(t);
    ReachableInv(t);
    var k := LastStep(START, trace, t);
  }

  /** `id` was begun in a run that is over, or was already handed over in this one. */
  predicate Inactive(s: Sys, id: string) {
    BegunBefore(s, id) && (AttemptId(s.durable) == id ==> !s.stage.Fresh? && !s.stage.Armed?)
  }

  lemma InactiveStep(s: Sys, e: Event, id: string)
    requires Inactive(s, id) && Allowed(s, e)
    ensures Inactive(After(s, e), id)
    ensures e.Hand? ==> e.id != id
  {
    var s' := After(s, e);
    if e.Begin? {
      if s.durable.lease.Some? && AttemptId(s.durable) == id {
        assert s'.past[|s.past|] == s.durable;
      } else {
        var i :| 0 <= i < |s.past| && AttemptId(s.past[i]) == id;
        assert s'.past[i] == s.past[i];
      }
    } else if e.Save? {
      assert s'.durable.lease == s.durable.lease;
    }
  }

  /** An attempt whose run is over, with or without a dispatch record, is never handed to the host again. */
  lemma {:induction false} NeverLaunchedLater(s: Sys, trace: seq<Event>, t: Sys, id: string)
    requires Replays(s, trace, t) && Inactive(s, id)
    ensures id !in HandedIds(trace)
    decreases |trace|
  {
    if trace != [] {
      InactiveStep(s, trace[0], id);
      NeverLaunchedLater(After(s, trace[0]), trace[1..], t, id);
    }
  }

  /** The driver's own record: the host never sees an attempt twice. */
  lemma HostSeesEachAttemptOnce(driver: CycleDriver.Driver)
    requires driver.Recorded()
    ensures NoRepeats(driver.handed) && driver.handed == HandedIds(driver.trace)
  {
    LeadsToExactly(driver.trace, driver.sys);
    AtMostOneLaunch(driver.trace, driver.sys);
    HandedIsRecorded(START, driver.trace, driver.sys);
  }

  // ----- exclusion -----

  /** The replaced attempt `i` carried `id`, and its history entry says disposed or settled. */
  predicate ClosedEntry(s: Sys, i: int, id: string) {
    && 0 <= i < |s.past| && i < |s.durable.history|
    && AttemptId(s.past[i]) == id
    && s.past[i].lease.Some? && ArchivedAttempt(s.durable.history[i], s.past[i].lease.value)
    && ArchivedClosed(s.durable.history[i])
    && (Disposed(s.past[i]) || (s.past[i].dispatch.Some? && s.past[i].dispatch.value.phase == Settled))
  }

  /** A launch happens only when every attempt launched before it was disposed by the operator or settled. */
  lemma LaunchesExclude(trace: seq<Event>, t: Sys, id: string, earlier: string)
    requires Replays(START, trace, t) && Allowed(t, Hand(id)) && earlier in t.launched
    ensures earlier != id && exists i :: ClosedEntry(t, i, earlier)
  {
    StartInv();
    ReplaysInv(START, trace, t);
    assert BegunBefore(t, earlier);
    var i :| 0 <= i < |t.past| && AttemptId(t.past[i]) == earlier;
    ArchiveIsFaithful(t.past[i]);
    assert ClosedEntry(t, i, earlier);
  }

  /** A dispatch becomes settled only in a step that read every recorded pull request as closed and within the
      approval. */
  lemma SettledOnlyOnEvidence(s: Sys, e: Event)
    requires Reachable(s) && Allowed(s, e)
    requires s.durable.dispatch.Some? && s.durable.dispatch.value.phase != Settled
    requires After(s, e).durable.lease == s.durable.lease
    requires After(s, e).durable.dispatch.Some? && After(s, e).durable.dispatch.value.phase == Settled
    ensures s.durable.dispatch.value.phase == Returned
    ensures e.Save? && e.evidence.Some? && Covers(e.evidence.value, After(s, e).durable.dispatch.value)
    ensures s.durable.dispatch.value.pullRequests <= After(s, e).durable.dispatch.value.pullRequests
  {
    ReachableInv(s);
  }

  // ----- references never shrink -----

  datatype Refs = Refs(pullRequests: seq<string>, issues: seq<string>, worktrees: seq<string>)

  function RefsOf(c: Cycle): Refs {
    if c.dispatch.Some?
    then Refs(c.dispatch.value.pullRequests, c.dispatch.value.issues, c.dispatch.value.worktrees)
    else Refs([], [], [])
  }

  predicate Within(a: Refs, b: Refs) {
    a.pullRequests <= b.pullRequests && a.issues <= b.issues && a.worktrees <= b.worktrees
  }

  /** The attempt's record, current or replaced, has at least the references `r`. */
  predicate Remembers(s: Sys, id: string, r: Refs) {
    || (s.durable.lease.Some? && AttemptId(s.durable) == id && Within(r, RefsOf(s.durable)))
    || exists i :: 0 <= i < |s.past| && AttemptId(s.past[i]) == id && Within(r, RefsOf(s.past[i]))
  }

  /** What one step may do to an attempt's references: keep them in place, extend them, or move them to the past. */
  predicate Carries(s: Sys, s': Sys) {
    && s.past <= s'.past
    && (s.durable.lease.Some? ==>
          || (&& s'.durable.lease.Some? && AttemptId(s'.durable) == AttemptId(s.durable)
              && Within(RefsOf(s.durable), RefsOf(s'.durable)))
          || (|s'.past| > |s.past| && s'.past[|s.past|] == s.durable))
  }

  lemma RefsStep(s: Sys, e: Event)
    requires Inv(s) && Allowed(s, e)
    ensures Carries(s, After(s, e))
  {
    if !e.Begin? {
      assert After(s, e).durable.lease == s.durable.lease && After(s, e).past == s.past;
    }
  }

  lemma RemembersStep(s: Sys, s': Sys, id: string, r: Refs)
    requires Carries(s, s') && Remembers(s, id, r)
    ensures Remembers(s', id, r)
  {
    if s.durable.lease.Some? && AttemptId(s.durable) == id && Within(r, RefsOf(s.durable)) {
      if |s'.past| > |s.past| && s'.past[|s.past|] == s.durable {
        assert AttemptId(s'.past[|s.past|]) == id;
      }
    } else {
      var i :| 0 <= i < |s.past| && AttemptId(s.past[i]) == id && Within(r, RefsOf(s.past[i]));
      assert s'.past[i] == s.past[i];
    }
  }

  /** Pull requests, issues and worktrees once recorded for an attempt stay recorded. */
  lemma {:induction false} ReferencesNeverShrink(s: Sys, trace: seq<Event>, t: Sys, id: string, r: Refs)
    requires Inv(s) && Replays(s, trace, t) && Remembers(s, id, r)
    ensures Remembers(t, id, r)
    decreases |trace|
  {
    if trace != [] {
      RefsStep(s, trace[0]);
      RemembersStep(s, After(s, trace[0]), id, r);
      InvStep(s, trace[0]);
      ReferencesNeverShrink(After(s, trace[0]), trace[1..], t, id, r);
    }
  }

  // ----- budget -----

  /** The reservation is the whole lease exactly while an intent is open, and nothing more can be admitted then. */
  lemma ReservationIsTheOneAdmission(s: Sys)
    requires Reachable(s) && s.durable.lease.Some?
    ensures
      var c := s.durable;
      && (HoldsReservation(c) <==> c.dispatch.Some? && c.dispatch.value.phase == Intent)
      && (HoldsReservation(c) ==> !CanAdmit(c) && c.reservedCost == c.lease.value.costCap
                                  && c.reservedCalls == c.lease.value.callLimit)
  {
    ReachableInv(s);
  }

  /** Usage stays within the ceilings unless it was measured above them, and an overrun stops every next lease until
      disposed. */
  lemma OverrunBlocksNewLeases(s: Sys, config: Config, now: Now, id: string)
    requires Reachable(s) && s.durable.lease.Some?
    requires config.Valid() && config.costCap.Some?
    ensures
      var c := s.durable;
      || (&& c.consumedCost + c.reservedCost <= c.lease.value.costCap
          && c.consumedCalls + c.reservedCalls <= c.lease.value.callLimit)
      || (&& c.failure.Some? && !HoldsReservation(c)
          && (!Disposed(c) ==> Begun(c, config, now, id).None?))
  {
    ReachableInv(s);
  }

  // ----- one attempt per window -----

  /** The windows of the replaced attempts and the current one, oldest first. */
  function Windows(s: Sys): seq<int> {
    seq(|s.past|, i requires 0 <= i < |s.past| => if s.past[i].lease.Some? then s.past[i].lease.value.window else 0)
    + (if s.durable.lease.Some? then [s.durable.lease.value.window] else [])
  }

  predicate Increasing(ws: seq<int>) {
    forall i, j :: 0 <= i < j < |ws| ==> ws[i] < ws[j]
  }

  predicate FixedLength(trace: seq<Event>, minutes: int) {
    forall i :: 0 <= i < |trace| ==> trace[i].Begin? ==> trace[i].config.windowMinutes == minutes
  }

  /** No attempt begins while the wall clock shows a minute before the current attempt's window. */
  predicate NeverBehind(s: Sys, trace: seq<Event>)
    decreases |trace|
  {
    trace == [] ||
    (&& Allowed(s, trace[0])
     && (trace[0].Begin? && s.durable.lease.Some? ==> s.durable.lease.value.window <= trace[0].now.local / MINUTE)
     && NeverBehind(After(s, trace[0]), trace[1..]))
  }

  predicate OnGrid(s: Sys, minutes: int)
    requires minutes >= 1
  {
    s.durable.lease.Some? ==> s.durable.lease.value.window % minutes == 0
  }

  lemma WindowsStep(s: Sys, e: Event)
    requires Inv(s) && Allowed(s, e)
    ensures Windows(After(s, e))
         == if e.Begin? then Windows(s) + [WindowStart(e.now.local, e.config.windowMinutes)] else Windows(s)
  {
    var s' := After(s, e);
    if e.Begin? && s.durable.lease.Some? {
      assert forall i :: 0 <= i < |s.past| ==> s'.past[i] == s.past[i];
      assert s'.past[|s.past|] == s.durable;
    } else if !e.Begin? {
      assert s'.durable.lease == s.durable.lease && s'.past == s.past;
    }
  }

  /** A new window is later than the current one exactly when the clock is not behind the current window. */
  lemma WindowAdvances(s: Sys, e: Event, minutes: int)
    requires Inv(s) && e.Begin? && Allowed(s, e) && e.config.windowMinutes == minutes
    requires OnGrid(s, minutes) && s.durable.lease.Some?
    ensures s.durable.lease.value.window < WindowStart(e.now.local, minutes)
       <==> s.durable.lease.value.window <= e.now.local / MINUTE
    ensures OnGrid(After(s, e), minutes)
  {
    var w, w' := s.durable.lease.value.window, WindowStart(e.now.local, minutes);
    WindowStartIsTheGridPoint(e.now.local, minutes, w');
    WindowStartIsTheGridPoint(e.now.local, minutes, w);
  }

  lemma StepStaysOnGrid(s: Sys, e: Event, minutes: int)
    requires minutes >= 1 && Inv(s) && Allowed(s, e) && OnGrid(s, minutes)
    requires e.Begin? ==> e.config.windowMinutes == minutes
    ensures OnGrid(After(s, e), minutes)
  {
    if e.Begin? {
      WindowStartIsTheGridPoint(e.now.local, minutes, WindowStart(e.now.local, minutes));
    }
  }

  /** What one step does to the windows: increasing ones stay so exactly when the clock is not behind. */
  lemma WindowsAfterStep(s: Sys, e: Event, minutes: int)
    requires minutes >= 1 && Inv(s) && Allowed(s, e) && OnGrid(s, minutes) && Increasing(Windows(s))
    requires e.Begin? ==> e.config.windowMinutes == minutes
    ensures Increasing(Windows(After(s, e)))
       <==> (e.Begin? && s.durable.lease.Some? ==> s.durable.lease.value.window <= e.now.local / MINUTE)
  {
    WindowsStep(s, e);
    if e.Begin? {
      var ws, w := Windows(s), WindowStart(e.now.local, minutes);
      if s.durable.lease.Some? {
        WindowAdvances(s, e, minutes);
        assert ws[|ws| - 1] == s.durable.lease.value.window;
        assert (ws + [w])[|ws|] == w && (ws + [w])[|ws| - 1] == ws[|ws| - 1];
      } else {
        assert ws == [];
      }
    }
  }

  lemma NotIncreasingPrefix(ws: seq<int>, longer: seq<int>)
    requires ws <= longer && !Increasing(ws)
    ensures !Increasing(longer)
  {
    var i, j :| 0 <= i < j < |ws| && ws[i] >= ws[j];
    assert longer[i] == ws[i] && longer[j] == ws[j];
  }

  /** With one window length, the windows of successive attempts strictly increase exactly when the clock never showed
      a minute before the current attempt's window as an attempt began. */
  lemma {:induction false} OneAttemptPerWindow(s: Sys, trace: seq<Event>, t: Sys, minutes: int)
    requires minutes >= 1 && Inv(s) && Replays(s, trace, t) && FixedLength(trace, minutes)
    requires OnGrid(s, minutes) && Increasing(Windows(s))
    ensures Increasing(Windows(t)) <==> NeverBehind(s, trace)
    decreases |trace|
  {
    if trace != [] {
      var e, s' := trace[0], After(s, trace[0]);
      InvStep(s, e);
      StepStaysOnGrid(s, e, minutes);
      WindowsAfterStep(s, e, minutes);
      if Increasing(Windows(s')) {
        OneAttemptPerWindow(s', trace[1..], t, minutes);
      } else {
        WindowsKeepPrefix(s', trace[1..], t);
        NotIncreasingPrefix(Windows(s'), Windows(t));
      }
    }
  }

  lemma {:induction false} WindowsKeepPrefix(s: Sys, trace: seq<Event>, t: Sys)
    requires Inv(s) && Replays(s, trace, t)
    ensures Windows(s) <= Windows(t)
    decreases |trace|
  {
    if trace != [] {
      InvStep(s, trace[0]);
      WindowsStep(s, trace[0]);
      WindowsKeepPrefix(After(s, trace[0]), trace[1..], t);
    }
  }

  /** No attempt begins with the wall clock before `from` or before an earlier begin. */
  predicate ClockNonDecreasing(trace: seq<Event>, from: int)
    decreases |trace|
  {
    if trace == [] then true
    else if trace[0].Begin? then from <= trace[0].now.local && ClockNonDecreasing(trace[1..], trace[0].now.local)
    else ClockNonDecreasing(trace[1..], from)
  }

  /** A wall clock that never goes back is never behind the current attempt's window. */
  lemma {:induction false} NonDecreasingClockIsNeverBehind(s: Sys, trace: seq<Event>, t: Sys, from: int)
    requires Inv(s) && Replays(s, trace, t) && ClockNonDecreasing(trace, from)
    requires s.durable.lease.Some? ==> s.durable.lease.value.window <= from / MINUTE
    ensures NeverBehind(s, trace)
    decreases |trace|
  {
    if trace != [] {
      var e := trace[0];
      InvStep(s, e);
      if e.Begin? {
        var w := WindowStart(e.now.local, e.config.windowMinutes);
        WindowStartIsTheGridPoint(e.now.local, e.config.windowMinutes, w);
        NonDecreasingClockIsNeverBehind(After(s, e), trace[1..], t, e.now.local);
      } else {
        assert After(s, e).durable.lease == s.durable.lease;
        NonDecreasingClockIsNeverBehind(After(s, e), trace[1..], t, from);
      }
    }
  }

  /** When the wall clock is set back an hour, three hourly runs can put two attempts in one window. */
  lemma ClockSetBackRepeatsAWindow()
    ensures
      var config := Config(true, true, Some(1.0), 1, 60, 3, 60);
      var first := Begun(EMPTY, config, Now(90 * MINUTE, 0), "a").value;
      var second := Begun(first, config, Now(30 * MINUTE, 0), "b").value;
      var third := Begun(second, config, Now(90 * MINUTE, 0), "c");
      third.Some? && third.value.lease.value.window == first.lease.value.window
  {
    assert WindowStart(90 * MINUTE, 60) == 60 && WindowStart(30 * MINUTE, 60) == 0;
  }
}
