/** One run is admitted, executed, cleaned up and purged: every part of the protocol is reached. */
module RunExample {
  import opened Wrappers
  import opened Expiry
  import opened Runs
  import opened RunProtocol
  import opened Traces
  import Capability
  import Text

  const GRANT: Capability.Grant := Capability.Grant(7, 1, 3, "agent", true, "agents/k/", false, false, false, MINUTE)
  const INTENT: Capability.Intent := Capability.Intent(5, "user", 1, GRANT)
  const RECEIPT: Completion := Completion(Succeeded, 4, 2, "done")

  /** The run at its admission, after its receipt, and after its cleanup. */
  const QUEUED: Run := Run(1, 2, 3, 7, INTENT, "agents/k/work", true, 3600, MINUTE, Queued, None, None, 0, 0, None, false, false, true, 0, 0, false)
  const ENDED: Run := QUEUED.(state := Succeeded, started := Some(0), ended := Some(0), tokens := 4, cost := 2,
                              completion := Some(RECEIPT), executionFinished := true, grantPending := true)
  const CLAIMED: Run := ENDED.(claim := 1, lease := CLAIM_LEASE)
  const CLEAN: Run := ENDED.(grantPending := false, workPending := false)

  const FENCED: Capability.Db := Capability.Db(map[], map[7 := Capability.Issuance(INTENT, true)], map[])

  lemma Next(steps: seq<Step>, s: State, e: Step) returns (more: seq<Step>, s': State)
    requires s == Exec(steps)
    ensures more == steps + [e] && s' == Do(s, e) == Exec(more)
  {
    EndOfNext(Do, INITIAL, steps, e);
    more, s' := steps + [e], Do(s, e);
  }

  lemma Nothing()
    ensures Exec([]) == INITIAL
  {
    EndOfNone(Do, INITIAL);
  }

  lemma Executes() returns (steps: seq<Step>, s: State)
    ensures s == Exec(steps) == State(map[1 := ENDED], {}, Capability.EMPTY, map[1 := Claimed], {}, map[], map[])
  {
    hide Exec;
    Nothing();
    steps, s := Next([], INITIAL, Create(1, 1, 2, 3, INTENT, "agents/k/work", true, 3600, 0));
    assert s == State(map[1 := QUEUED], {}, Capability.EMPTY, map[], {}, map[], map[]);
    steps, s := Next(steps, s, ClaimWork(1));
    Alone(s.runs);
    steps, s := Next(steps, s, Writes(1, Acquire(false), 0));
    assert s == State(map[1 := QUEUED.(state := Running, started := Some(0))], {}, Capability.EMPTY, map[1 := Claimed], {}, map[], map[]);
    steps, s := Next(steps, s, Writes(1, Complete(RECEIPT, false), 0));
  }

  /** A receipt ends a run that was never started as a success, which the transition table does not allow. */
  lemma QueuedSucceeds() returns (steps: seq<Step>)
    ensures 1 in Exec(steps).runs && Exec(steps).runs[1].state == Queued && !ValidTransition(Queued, Succeeded)
    ensures var s := Exec(steps + [Writes(1, Complete(RECEIPT, false), 0)]);
            1 in s.runs && s.runs[1].state == Succeeded && s.runs[1].started == None
  {
    hide Exec;
    Nothing();
    var s, more;
    steps, s := Next([], INITIAL, Create(1, 1, 2, 3, INTENT, "agents/k/work", true, 3600, 0));
    assert s == State(map[1 := QUEUED], {}, Capability.EMPTY, map[], {}, map[], map[]);
    more, s := Next(steps, s, Writes(1, Complete(RECEIPT, false), 0));
  }

  lemma Alone(runs: map<nat, Run>)
    requires runs.Keys == {1}
    ensures !BranchHeld(runs, 1)
  {
    assert forall other :: other in runs ==> other in runs.Keys;
  }

  /** The grant was never issued: its intent is stored as cancelled. */
  lemma Cancels()
    ensures Capability.CancelTx(Capability.EMPTY, CleanupScope(CLAIMED), INTENT, true) == (FENCED, true)
  {
    var branch := GRANT.writeBranch;
    assert branch[|branch| - 1..] == "/" && "agents/" <= branch;
    forall i | 0 <= i <= |branch| - 2 ensures !Text.PartAt(branch, "..", i) {
      assert branch[i..i + 2][0] == branch[i] != '.';
    }
    assert Capability.Admissible(CleanupScope(CLAIMED), INTENT, true);
    var cancelled := Capability.CancelTx(Capability.EMPTY, CleanupScope(CLAIMED), INTENT, true);
    assert cancelled.1 && cancelled.0.grants == map[];
    assert cancelled.0.issuances == map[7 := Capability.Issuance(INTENT, true)];
  }

  const DONE: map<nat, WorkClaim> := map[1 := Released(Finished(Succeeded))]

  lemma Confirms(before: seq<Step>, t: State) returns (steps: seq<Step>, s: State)
    requires t == Exec(before) == State(map[1 := ENDED], {}, Capability.EMPTY, map[1 := Claimed], {}, map[], map[])
    ensures s == Exec(steps) == State(map[1 := CLAIMED], {}, Capability.EMPTY, map[1 := Claimed], {(1, 1)}, map[(1, 1) := Confirmed(CLAIMED)], map[])
  {
    hide Exec;
    steps, s := Next(before, t, Enter(1, 1, 0));
    assert s == State(map[1 := CLAIMED], {}, Capability.EMPTY, map[1 := Claimed], {(1, 1)}, map[(1, 1) := Entered], map[]);
    steps, s := Next(steps, s, Read(1, 1));
    steps, s := Next(steps, s, Confirm(1, 1, 0));
  }

  lemma Settles(before: seq<Step>, t: State) returns (steps: seq<Step>, s: State)
    requires t == Exec(before) == State(map[1 := CLAIMED], {}, Capability.EMPTY, map[1 := Claimed], {(1, 1)}, map[(1, 1) := Confirmed(CLAIMED)], map[])
    ensures s == Exec(steps) == State(map[1 := CLEAN], {}, FENCED, DONE, {(1, 1)}, map[], map[])
  {
    hide Exec, Capability.CancelTx;
    Cancels();
    steps, s := Next(before, t, Revoke(1, 1, true, true));
    assert s == State(map[1 := CLAIMED], {}, FENCED, map[1 := Claimed], {(1, 1)}, map[(1, 1) := Revoked(CLAIMED, false)], map[]);
    steps, s := Next(steps, s, Release(1, 1, false, true, true));
    assert s == State(map[1 := CLAIMED], {}, FENCED, DONE, {(1, 1)}, map[(1, 1) := Settled(CLAIMED, false, false)], map[]);
    steps, s := Next(steps, s, Acknowledge(1, 1, true));
  }

  function Purging(row: Run, stage: Stage): State {
    State(map[1 := row], {(1, 0)}, FENCED, DONE, {(1, 1)}, map[], map[0 := Purger(1, None, stage)])
  }

  lemma Fences(before: seq<Step>, t: State) returns (steps: seq<Step>, s: State)
    requires t == Exec(before) == State(map[1 := CLEAN], {}, FENCED, DONE, {(1, 1)}, map[], map[])
    ensures before <= steps && s == Exec(steps) == Purging(CLEAN, Listing)
  {
    hide Exec;
    steps, s := Next(before, t, PurgeFence(0, 1, None));
    assert s == Purging(CLEAN, Fencing);
    steps, s := Next(steps, s, PurgeCancel(0, 0));
    assert s.runs == map[1 := CLEAN];
  }

  lemma Waits(before: seq<Step>, t: State) returns (steps: seq<Step>, s: State)
    requires t == Exec(before) == Purging(CLEAN, Listing)
    ensures before <= steps && s == Exec(steps) == Purging(CLEAN, Cleaning({}))
  {
    hide Exec, DoPurgeList;
    steps, s := Next(before, t, PurgeList(0));
    Lists(t);
    steps, s := Next(steps, s, PurgeClean(0, 1));
    assert s.purgers[0].stage.remaining == {};
    assert s.purgers == map[0 := Purger(1, None, Cleaning({}))];
  }

  lemma Deletes(before: seq<Step>, t: State) returns (steps: seq<Step>, s: State)
    requires t == Exec(before) == Purging(CLEAN, Cleaning({}))
    ensures before <= steps && s == Exec(steps) == Purging(CLEAN.(gone := true), Purged)
  {
    hide Exec;
    steps, s := Next(before, t, PurgeDelete(0));
    assert s.runs == map[1 := CLEAN.(gone := true)];
  }

  lemma Lists(s: State)
    requires s == Purging(CLEAN, Listing)
    ensures DoPurgeList(s, 0) == Purging(CLEAN, Cleaning({1}))
  {
    var s' := DoPurgeList(s, 0);
    assert s'.purgers[0].stage.remaining == {1};
    assert s'.purgers == map[0 := Purger(1, None, Cleaning({1}))];
  }

  /** A run whose Work claim is released with its outcome, and which a purge has then removed. */
  lemma ReleasedThenPurged() returns (steps: seq<Step>, more: seq<Step>)
    ensures steps <= more && Exec(steps).work == DONE && Exec(steps).runs == map[1 := CLEAN]
    ensures Exec(more) == Purging(CLEAN.(gone := true), Purged)
  {
    hide Exec;
    var s;
    steps, s := Executes();
    steps, s := Confirms(steps, s);
    steps, s := Settles(steps, s);
    more, s := Fences(steps, s);
    more, s := Waits(more, s);
    more, s := Deletes(more, s);
  }
}
