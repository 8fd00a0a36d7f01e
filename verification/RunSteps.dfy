/** Every step of the run protocol keeps the invariant, and changes the whole only as `Moves` allows. */
module RunSteps {
  import opened Wrappers
  import opened Expiry
  import opened Runs
  import opened RunProtocol
  import Capability
  import opened Traces

  // ----- what a change leaves alone -----

  lemma WorkerStays(s: State, s': State, k: (nat, nat))
    requires Inv(s) && Moves(s, s') && k in s.workers
    ensures k.1 in s.runs && k.1 in s'.runs && k.0 != 0
    ensures WorkerSound(s'.runs[k.1], s.workers[k], s'.owner, WorkOf(s'.work, k.1), k.0)
  {
    hide RunsSound, PurgersSound, Capability.Inv, Capability.Descends, WorkerSound, RowMoves, WorkMoves, WorkOf;
    var id := k.1;
    MovesKeepsWorker(s.runs[id], s'.runs[id], id, s.used, s.owner, s'.owner, WorkOf(s.work, id), WorkOf(s'.work, id), s.workers[k], k.0);
  }

  lemma WorkersStay(s: State, s': State)
    requires Inv(s) && Moves(s, s') && s'.workers == s.workers
    ensures WorkersSound(s')
  {
    hide Inv, Moves, WorkerSound;
    forall k | k in s'.workers ensures k.1 in s'.runs && WorkerSound(s'.runs[k.1], s'.workers[k], s'.owner, WorkOf(s'.work, k.1), k.0) {
      WorkerStays(s, s', k);
    }
  }

  lemma PurgerStays(s: State, s': State, p: Purger)
    requires PurgerSound(s.runs, s.deleted, p) && Moves(s, s')
    ensures PurgerSound(s'.runs, s'.deleted, p)
  {
    hide Capability.Descends, WorkMoves;
    if p.stage == Purged {
      forall id | id in s'.runs ensures !InScope(s'.runs[id], p.org, p.repo) {
        if id in s.runs { assert RowMoves(s.runs[id], s'.runs[id], id, s.used); }
      }
    }
  }

  lemma PurgersStay(s: State, s': State)
    requires Inv(s) && Moves(s, s') && s'.purgers == s.purgers
    ensures PurgersSound(s')
  {
    hide Moves, PurgerSound, RunsSound, BranchesUnique, ClaimsUsed, WorkersSound, Capability.Inv;
    forall pid | pid in s'.purgers ensures PurgerSound(s'.runs, s'.deleted, s'.purgers[pid]) {
      PurgerStays(s, s', s.purgers[pid]);
    }
  }

  lemma Unmoved(s: State)
    ensures forall id :: Capability.Descends(s.owner, s.owner, id)
    ensures forall id :: WorkMoves(WorkOf(s.work, id), WorkOf(s.work, id))
    ensures forall id :: id in s.runs ==> RowMoves(s.runs[id], s.runs[id], id, s.used)
  {
  }

  // ----- one row -----

  /** A step that puts one row and changes nothing else but the claims ever used. */
  predicate PutsRow(s: State, s': State, id: nat) {
    && id in s.runs && id in s'.runs && s'.runs == s.runs[id := s'.runs[id]]
    && s'.deleted == s.deleted && s'.owner == s.owner && s'.work == s.work && s'.purgers == s.purgers
    && s.used <= s'.used
  }

  lemma PutMoves(s: State, s': State, id: nat)
    requires PutsRow(s, s', id) && RowMoves(s.runs[id], s'.runs[id], id, s.used)
    ensures Moves(s, s')
  {
    hide RowMoves, Capability.Descends, WorkMoves;
    Unmoved(s);
  }

  lemma PutKeepsInv(s: State, s': State, id: nat)
    requires Inv(s) && PutsRow(s, s', id) && RowMoves(s.runs[id], s'.runs[id], id, s.used)
    requires RunSound(s'.runs[id], s.owner, WorkOf(s.work, id))
    requires s'.runs[id].claim != 0 ==> (s'.runs[id].claim, id) in s'.used
    requires s.runs[id].state != Running && s'.runs[id].state == Running ==> !BranchHeld(s.runs, id)
    requires WorkersSound(s') && (forall k :: k in s'.workers ==> k in s'.used && k.0 != 0 && k.1 in s'.runs)
    ensures Inv(s') && Moves(s, s')
  {
    hide RunSound, Moves, WorkersSound, Capability.Inv, WorkerSound, PurgersSound;
    PutMoves(s, s', id);
    PurgersStay(s, s');
    PutKeepsBranches(s.runs, id, s'.runs[id]);
  }

  lemma PutKeepsBranches(runs: map<nat, Run>, id: nat, r': Run)
    requires BranchesUnique(runs) && id in runs && Evolves(runs[id], r')
    requires runs[id].state != Running && r'.state == Running ==> !BranchHeld(runs, id)
    ensures BranchesUnique(runs[id := r'])
  {
    var runs' := runs[id := r'];
    forall p, q | p in runs' && q in runs' && p != q && runs'[p].state == Running && runs'[q].state == Running
      ensures !SameBranch(runs'[p], runs'[q])
    {
      assert p != id && q != id ==> !SameBranch(runs[p], runs[q]);
      if runs[id].state == Running { assert !SameBranch(runs[p], runs[q]); }
    }
  }

  lemma WriteKeepsRun(r: Run, w: Write, now: Instant, owner: Capability.Db, claim: Option<WorkClaim>, id: nat, used: set<(nat, nat)>)
    requires RunSound(r, owner, claim) && !r.gone && (w.Claim? ==> w.claim == 0 || (w.claim, id) !in used)
    ensures RunSound(Written(r, w, now), owner, claim) && RowMoves(r, Written(r, w, now), id, used)
  {
    hide Written, Capability.Fenced;
    WriteSound(r, w, now);
  }

  lemma WritesKeepInv(s: State, id: nat, write: Write, now: Instant)
    requires Inv(s)
    ensures Inv(DoWrite(s, id, write, now)) && Moves(s, DoWrite(s, id, write, now))
  {
    hide RunSound, Moves, Capability.Inv, WorkerSound, PurgersSound, RowMoves, Written, WorkersSound, BranchesUnique, BranchHeld;
    var s' := DoWrite(s, id, write, now);
    if s' == s {
      Standing(s);
    } else {
      var w := if write.Acquire? then Acquire(BranchHeld(s.runs, id)) else write;
      WriteKeepsRun(s.runs[id], w, now, s.owner, WorkOf(s.work, id), id, s.used);
      WriteKeepsClaim(s.runs[id], w, now);
      PutMoves(s, s', id);
      WorkersStay(s, s');
      PutKeepsInv(s, s', id);
    }
  }

  lemma Standing(s: State)
    ensures Moves(s, s)
  {
    Unmoved(s);
  }

  lemma EnterKeepsInv(s: State, claim: nat, id: nat, now: Instant)
    requires Inv(s)
    ensures Inv(DoEnter(s, claim, id, now)) && Moves(s, DoEnter(s, claim, id, now))
  {
    hide RunSound, Moves, Capability.Inv, WorkerSound, PurgersSound, RowMoves, WorkersSound, BranchesUnique, ClaimTx;
    var s' := DoEnter(s, claim, id, now);
    if s' == s {
      Standing(s);
    } else {
      WriteKeepsRun(s.runs[id], Claim(claim), now, s.owner, WorkOf(s.work, id), id, s.used);
      ClaimIs(s.runs[id], claim, now);
      PutMoves(s, s', id);
      EnteredWorkers(s, s', claim, id);
      PutKeepsInv(s, s', id);
    }
  }

  lemma ClaimIs(r: Run, claim: nat, now: Instant)
    requires ClaimTx(r, claim, now).1
    ensures var r' := ClaimTx(r, claim, now).0; r'.claim == claim && Terminal(r'.state) && r'.state == r.state
    ensures Written(r, Claim(claim), now) == ClaimTx(r, claim, now).0
  {
  }

  lemma EnteredWorkers(s: State, s': State, claim: nat, id: nat)
    requires Inv(s) && Moves(s, s') && s'.workers == s.workers[(claim, id) := Entered]
    requires id in s'.runs && Terminal(s'.runs[id].state)
    ensures WorkersSound(s')
  {
    hide Inv, Moves, WorkerSound;
    forall k | k in s'.workers ensures k.1 in s'.runs && WorkerSound(s'.runs[k.1], s'.workers[k], s'.owner, WorkOf(s'.work, k.1), k.0) {
      if k == (claim, id) { EnteredSound(s'.runs[id], s'.owner, WorkOf(s'.work, id), claim); } else { WorkerStays(s, s', k); }
    }
  }

  lemma EnteredSound(r: Run, owner: Capability.Db, claim: Option<WorkClaim>, c: nat)
    requires Terminal(r.state)
    ensures WorkerSound(r, Entered, owner, claim, c)
  {
  }

  // ----- one worker -----

  /** A worker moves on, or disappears; the owners may have moved too. */
  lemma MoveKeepsInv(s: State, s': State, k: (nat, nat))
    requires Inv(s) && Moves(s, s') && k in s.workers
    requires s'.runs == s.runs && s'.deleted == s.deleted && s'.used == s.used && s'.purgers == s.purgers
    requires s'.workers.Keys <= s.workers.Keys && (forall q :: q in s'.workers && q != k ==> s'.workers[q] == s.workers[q])
    requires k in s'.workers ==> k.1 in s.runs && WorkerSound(s.runs[k.1], s'.workers[k], s'.owner, WorkOf(s'.work, k.1), k.0)
    requires RunsSound(s.runs, s'.owner, s'.work) && Capability.Inv(s'.owner)
    ensures Inv(s')
  {
    hide RunsSound, Moves, WorkerSound, PurgersSound, Capability.Inv, BranchesUnique;
    PurgersStay(s, s');
    forall q | q in s'.workers ensures q.1 in s'.runs && WorkerSound(s'.runs[q.1], s'.workers[q], s'.owner, WorkOf(s'.work, q.1), q.0) {
      if q != k { WorkerStays(s, s', q); }
    }
  }

  lemma StopKeepsInv(s: State, k: (nat, nat))
    requires Inv(s)
    ensures Inv(Stop(s, k)) && Moves(s, Stop(s, k))
  {
    hide RunsSound, Moves, WorkerSound, PurgersSound, Capability.Inv, BranchesUnique, WorkersSound, ClaimsUsed;
    Standing(s);
    MovesIgnoresWorkers(s, s.workers - {k});
    if k in s.workers { MoveKeepsInv(s, Stop(s, k), k); } else { assert s.workers - {k} == s.workers; }
  }

  lemma MovesIgnoresWorkers(s: State, workers: map<(nat, nat), Worker>)
    ensures Moves(s, s.(workers := workers))
  {
    Unmoved(s);
  }

  lemma WorkerHere(s: State, k: (nat, nat))
    requires Inv(s) && k in s.workers
    ensures k.1 in s.runs && WorkerSound(s.runs[k.1], s.workers[k], s.owner, WorkOf(s.work, k.1), k.0)
    ensures RunSound(s.runs[k.1], s.owner, WorkOf(s.work, k.1))
  {
    hide RunSound, WorkerSound, PurgersSound, Capability.Inv, BranchesUnique;
  }

  lemma ReadingSound(r: Run, owner: Capability.Db, claim: Option<WorkClaim>, c: nat)
    requires RunSound(r, owner, claim) && WorkerSound(r, Entered, owner, claim, c)
    ensures WorkerSound(r, Reading(r), owner, claim, c)
  {
    hide Capability.Fenced;
  }

  lemma ReadKeepsInv(s: State, k: (nat, nat))
    requires Inv(s)
    ensures Inv(DoRead(s, k)) && Moves(s, DoRead(s, k))
  {
    hide Inv, Moves, WorkerSound, RunSound, RunsSound, WorkersSound;
    Standing(s);
    StopKeepsInv(s, k);
    if k in s.workers && s.workers[k] == Entered && Present(s.runs, k.1) {
      WorkerHere(s, k);
      ReadingSound(s.runs[k.1], s.owner, WorkOf(s.work, k.1), k.0);
      MovesIgnoresWorkers(s, s.workers[k := Reading(s.runs[k.1])]);
      PartsOf(s);
      MoveKeepsInv(s, DoRead(s, k), k);
    }
  }

  lemma PartsOf(s: State)
    requires Inv(s)
    ensures RunsSound(s.runs, s.owner, s.work) && Capability.Inv(s.owner)
  {
  }

  lemma ConfirmKeepsInv(s: State, k: (nat, nat), now: Instant)
    requires Inv(s)
    ensures Inv(DoConfirm(s, k, now)) && Moves(s, DoConfirm(s, k, now))
  {
    hide Inv, Moves, SnapSound, RunSound, RunsSound, WorkersSound, Owns;
    Standing(s);
    StopKeepsInv(s, k);
    if k in s.workers && s.workers[k].Reading? {
      WorkerHere(s, k);
      MovesIgnoresWorkers(s, s.workers[k := Confirmed(s.workers[k].snap)]);
      PartsOf(s);
      if Present(s.runs, k.1) && Owns(s.runs[k.1], k.0, now) { MoveKeepsInv(s, DoConfirm(s, k, now), k); }
    }
  }

  // ----- the owners -----

  lemma OwnerMoves(s: State, owner: Capability.Db)
    requires RunsSound(s.runs, s.owner, s.work) && forall id :: Capability.Descends(s.owner, owner, id)
    ensures RunsSound(s.runs, owner, s.work)
    ensures Moves(s, s.(owner := owner))
  {
    hide Capability.Descends, RowSound, Capability.Fenced, GrantFenced;
    Unmoved(s);
    forall id | id in s.runs ensures RunSound(s.runs[id], owner, WorkOf(s.work, id)) {
      assert RunSound(s.runs[id], s.owner, WorkOf(s.work, id));
      if GrantFenced(s.owner, s.runs[id]) { FencedStays(s.owner, owner, s.runs[id], s.runs[id]); }
    }
  }

  lemma OwnerCall(owner: Capability.Db, call: Capability.Step)
    requires Capability.Inv(owner)
    ensures Capability.Inv(Capability.Do(owner, call))
    ensures forall id :: Capability.Descends(owner, Capability.Do(owner, call), id)
  {
    hide Capability.Do, Capability.IdSound, Capability.Descends;
    forall id ensures Capability.IdSound(Capability.Do(owner, call), id) && Capability.Descends(owner, Capability.Do(owner, call), id) {
      Capability.StepSound(owner, call, id);
    }
  }

  lemma OwnerKeepsInv(s: State, call: Capability.Step)
    requires Inv(s)
    ensures Inv(s.(owner := Capability.Do(s.owner, call))) && Moves(s, s.(owner := Capability.Do(s.owner, call)))
  {
    hide RunsSound, Moves, PurgersSound, Capability.Inv, Capability.Do, BranchesUnique, WorkersSound;
    var s' := s.(owner := Capability.Do(s.owner, call));
    OwnerCall(s.owner, call);
    OwnerMoves(s, s'.owner);
    WorkersStay(s, s');
    PurgersStay(s, s');
  }

  lemma RevokedSound(r: Run, snap: Run, owner: Capability.Db, owner': Capability.Db, claim: Option<WorkClaim>, c: nat, left: bool)
    requires SnapSound(r, snap, owner, claim, c) && Capability.Descends(owner, owner', r.grant)
    requires if left then snap.grantPending else GrantFenced(owner', r)
    ensures WorkerSound(r, Revoked(snap, left), owner', claim, c)
  {
    hide Capability.Descends, RowSound, Capability.Fenced, GrantFenced, Evolves;
    if GrantFenced(owner, r) { FencedStays(owner, owner', r, r); }
  }

  lemma RevokeKeepsInv(s: State, k: (nat, nat), applied: bool, acked: bool)
    requires Inv(s)
    ensures Inv(DoRevoke(s, k, applied, acked)) && Moves(s, DoRevoke(s, k, applied, acked))
  {
    hide Inv, Moves, SnapSound, RunSound, RunsSound, WorkersSound, Capability.CancelTx, Capability.Fenced, Capability.Descends, Capability.Inv;
    var s' := DoRevoke(s, k, applied, acked);
    Standing(s);
    if k in s.workers && s.workers[k].Confirmed? {
      WorkerHere(s, k);
      var r, snap := s.runs[k.1], s.workers[k].snap;
      var call := Capability.CancelIssuance(CleanupScope(snap), snap.intent, true);
      PartsOf(s);
      OwnerCall(s.owner, call);
      CallIs(s.owner, snap);
      OwnerMoves(s, Capability.Do(s.owner, call));
      OwnerMoves(s, s.owner) by { Unmoved(s); }
      SnapFacts(r, snap, s.owner, WorkOf(s.work, k.1), k.0);
      if snap.grantPending && applied && Capability.CancelTx(s.owner, CleanupScope(snap), snap.intent, true).1 {
        Capability.CancellationFences(s.owner, CleanupScope(snap), snap.intent, true);
      }
      Unmoved(s);
      RevokedSound(r, snap, s.owner, s'.owner, WorkOf(s.work, k.1), k.0, s'.workers[k].grantLeft);
      MovesWith(s, s');
      MoveKeepsInv(s, s', k);
    }
  }

  lemma CallIs(owner: Capability.Db, snap: Run)
    ensures Capability.Do(owner, Capability.CancelIssuance(CleanupScope(snap), snap.intent, true))
            == Capability.CancelTx(owner, CleanupScope(snap), snap.intent, true).0
  {
  }

  lemma SnapFacts(r: Run, snap: Run, owner: Capability.Db, claim: Option<WorkClaim>, c: nat)
    requires SnapSound(r, snap, owner, claim, c)
    ensures snap.intent.grant.id == snap.grant == r.grant && (!snap.grantPending ==> GrantFenced(owner, r))
  {
  }

  /** What workers do to their own record is not part of the moves. */
  lemma MovesWith(s: State, s': State)
    requires Moves(s, s.(owner := s'.owner, work := s'.work)) && s'.runs == s.runs && s'.deleted == s.deleted && s'.used == s.used
    ensures Moves(s, s')
  {
  }

  // ----- Work -----

  lemma ReleaseIs(claim: Option<WorkClaim>, outcome: Outcome)
    ensures var (claim', ok) := ReleaseTx(claim, outcome);
            && WorkMoves(claim, claim')
            && (ok ==> claim' == Some(Released(outcome)))
            && (claim' == claim || claim' == Some(Released(outcome)))
  {
  }

  lemma WorkPut(s: State, id: nat, claim: WorkClaim)
    requires RunsSound(s.runs, s.owner, s.work) && id in s.runs
    requires WorkMoves(WorkOf(s.work, id), Some(claim)) && ReleasedRightly(s.runs[id], s.owner, Some(claim))
    ensures RunsSound(s.runs, s.owner, s.work[id := claim])
    ensures Moves(s, s.(work := s.work[id := claim]))
  {
    hide GrantFenced, RowSound, Capability.Descends, RowMoves;
    Unmoved(s);
    var work' := s.work[id := claim];
    forall p | p in s.runs ensures RunSound(s.runs[p], s.owner, WorkOf(work', p)) {
      assert RunSound(s.runs[p], s.owner, WorkOf(s.work, p));
    }
  }

  lemma ClaimKeepsInv(s: State, id: nat)
    requires Inv(s) && id in s.runs && id !in s.work
    ensures Inv(s.(work := s.work[id := Claimed])) && Moves(s, s.(work := s.work[id := Claimed]))
  {
    hide RunsSound, Moves, PurgersSound, Capability.Inv, BranchesUnique, WorkersSound;
    var s' := s.(work := s.work[id := Claimed]);
    WorkPut(s, id, Claimed);
    WorkersStay(s, s');
    PurgersStay(s, s');
  }

  /** The outcome and the conditions that a worker's copy proves are still those of the row. */
  lemma SnapReleases(r: Run, snap: Run, owner: Capability.Db, claim: Option<WorkClaim>, c: nat)
    requires SnapSound(r, snap, owner, claim, c) && GrantFenced(owner, r)
    requires snap.started.Some? ==> snap.executionFinished
    ensures ReleasedRightly(r, owner, Some(Released(OutcomeOf(snap))))
  {
    hide Capability.Fenced;
  }

  lemma SettledSound(r: Run, snap: Run, owner: Capability.Db, claim: Option<WorkClaim>, claim': Option<WorkClaim>, c: nat, grantLeft: bool, workLeft: bool)
    requires WorkerSound(r, Revoked(snap, grantLeft), owner, claim, c) && WorkMoves(claim, claim')
    requires if workLeft then snap.workPending else r.workRequired ==> WorkFreed(claim')
    ensures WorkerSound(r, Settled(snap, grantLeft, workLeft), owner, claim', c)
  {
    hide GrantFenced, RowSound, Evolves;
  }

  lemma ReleaseKeepsInv(s: State, k: (nat, nat), held: bool, applied: bool, acked: bool)
    requires Inv(s)
    ensures Inv(DoRelease(s, k, held, applied, acked)) && Moves(s, DoRelease(s, k, held, applied, acked))
  {
    hide Inv, Moves, SnapSound, RunSound, RunsSound, WorkersSound, ReleaseTx, OutcomeOf, GrantFenced, ReleasedRightly;
    var s' := DoRelease(s, k, held, applied, acked);
    Standing(s);
    if k in s.workers && s.workers[k].Revoked? {
      WorkerHere(s, k);
      PartsOf(s);
      var id := k.1;
      var r, snap, left := s.runs[id], s.workers[k].snap, s.workers[k].grantLeft;
      var claim := WorkOf(s.work, id);
      ReleaseIs(claim, OutcomeOf(snap));
      var claim' := ReleaseTx(claim, OutcomeOf(snap)).0;
      var calls := snap.workPending && !(held || left || (snap.started.Some? && !snap.executionFinished));
      if calls && applied && claim'.Some? {
        SnapReleases(r, snap, s.owner, claim, k.0);
        RightlyHere(s, id);
        WorkPut(s, id, claim'.value);
      }
      SnapWork(r, snap, s.owner, claim, k.0);
      SettledSound(r, snap, s.owner, claim, WorkOf(s'.work, id), k.0, left, s'.workers[k].workLeft);
      MovesWith(s, s');
      MoveKeepsInv(s, s', k);
    }
  }

  lemma RightlyHere(s: State, id: nat)
    requires RunsSound(s.runs, s.owner, s.work) && id in s.runs
    ensures ReleasedRightly(s.runs[id], s.owner, WorkOf(s.work, id))
  {
    hide GrantFenced, RowSound;
    assert RunSound(s.runs[id], s.owner, WorkOf(s.work, id));
  }

  lemma SnapWork(r: Run, snap: Run, owner: Capability.Db, claim: Option<WorkClaim>, c: nat)
    requires SnapSound(r, snap, owner, claim, c)
    ensures r.workRequired && !snap.workPending ==> WorkFreed(claim)
  {
  }

  // ----- the acknowledgement -----

  lemma AckKeepsRun(r: Run, w: Worker, owner: Capability.Db, claim: Option<WorkClaim>, c: nat, id: nat, used: set<(nat, nat)>)
    requires RunSound(r, owner, claim) && !r.gone && WorkerSound(r, w, owner, claim, c) && w.Settled? && c != 0
    ensures var r' := AckTx(r, c, w.snap.grant, w.grantLeft, w.workLeft).0;
            RunSound(r', owner, claim) && RowMoves(r, r', id, used) && r'.state == r.state && (r'.claim == r.claim || r'.claim == 0)
  {
    hide Capability.Fenced;
    if r.claim == c { AckSound(r, c, w.snap.grant, w.grantLeft, w.workLeft); }
  }

  lemma AcknowledgeKeepsInv(s: State, k: (nat, nat), applied: bool)
    requires Inv(s)
    ensures Inv(DoAcknowledge(s, k, applied)) && Moves(s, DoAcknowledge(s, k, applied))
  {
    hide Inv, Moves, WorkerSound, RunSound, RunsSound, WorkersSound, AckTx, RowMoves;
    Standing(s);
    StopKeepsInv(s, k);
    if k in s.workers && s.workers[k].Settled? && applied && Present(s.runs, k.1) {
      WorkerHere(s, k);
      var w, r := s.workers[k], s.runs[k.1];
      var s1 := s.(runs := s.runs[k.1 := AckTx(r, k.0, w.snap.grant, w.grantLeft, w.workLeft).0]);
      ClaimOf(s, k);
      AckKeepsRun(r, w, s.owner, WorkOf(s.work, k.1), k.0, k.1, s.used);
      PutMoves(s, s1, k.1);
      WorkersStay(s, s1);
      KeysOf(s);
      PutKeepsInv(s, s1, k.1);
      StopKeepsInv(s1, k);
      MovesPast(s, s1, k);
    }
  }

  lemma ClaimOf(s: State, k: (nat, nat))
    requires Inv(s) && k in s.workers
    ensures k.0 != 0
  {
  }

  lemma KeysOf(s: State)
    requires Inv(s)
    ensures forall k :: k in s.workers ==> k in s.used && k.0 != 0 && k.1 in s.runs
    ensures forall id :: id in s.runs && s.runs[id].claim != 0 ==> (s.runs[id].claim, id) in s.used
  {
  }

  lemma MovesPast(s: State, s1: State, k: (nat, nat))
    requires Moves(s, s1)
    ensures Moves(s, Stop(s1, k))
  {
  }

  // ----- admission -----

  lemma CreateKeepsInv(s: State, e: Step)
    requires Inv(s) && e.Create?
    ensures Inv(DoCreate(s, e)) && Moves(s, DoCreate(s, e))
  {
    hide Moves, WorkerSound, PurgersSound, WorkersSound, RunSound, Capability.Inv;
    var s' := DoCreate(s, e);
    Standing(s);
    if s' != s {
      CreateMoves(s, e);
      CreatedSound(s, e);
      forall id | id in s'.runs ensures RunSound(s'.runs[id], s'.owner, WorkOf(s'.work, id)) {
        if id != e.id { assert RunSound(s.runs[id], s.owner, WorkOf(s.work, id)); }
      }
      assert BranchesUnique(s'.runs);
      WorkersStay(s, s');
      PurgersStay(s, s');
    }
  }

  lemma CreatedSound(s: State, e: Step)
    requires e.Create? && e.id !in s.work && e.id !in s.runs && DoCreate(s, e) != s
    ensures var s' := DoCreate(s, e); e.id in s'.runs && RunSound(s'.runs[e.id], s'.owner, WorkOf(s'.work, e.id))
  {
  }

  lemma CreateMoves(s: State, e: Step)
    requires e.Create?
    ensures Moves(s, DoCreate(s, e))
  {
    hide Capability.Descends, RowMoves, WorkMoves;
    Unmoved(s);
  }

  // ----- purges -----

  /** Rows change one by one as `RowMoves` allows; nobody else changes anything. */
  lemma RowsKeepInv(s: State, runs': map<nat, Run>)
    requires Inv(s) && runs'.Keys == s.runs.Keys
    requires forall id :: id in s.runs ==> RowMoves(s.runs[id], runs'[id], id, s.used) && RunSound(runs'[id], s.owner, WorkOf(s.work, id))
    requires forall id :: id in s.runs ==> runs'[id].claim == s.runs[id].claim && (runs'[id].state == Running ==> s.runs[id].state == Running)
    ensures Inv(s.(runs := runs')) && Moves(s, s.(runs := runs'))
  {
    hide RowMoves, RunSound, Capability.Inv, WorkerSound, PurgersSound, WorkersSound;
    var s' := s.(runs := runs');
    RowsMove(s, runs');
    hide Moves;
    WorkersStay(s, s');
    PurgersStay(s, s');
    forall p, q | p in runs' && q in runs' && p != q && runs'[p].state == Running && runs'[q].state == Running
      ensures !SameBranch(runs'[p], runs'[q])
    {
      RowKeepsBranch(s.runs[p], runs'[p], p, s.used);
      RowKeepsBranch(s.runs[q], runs'[q], q, s.used);
      assert !SameBranch(s.runs[p], s.runs[q]);
    }
  }

  lemma RowKeepsBranch(r: Run, r': Run, id: nat, used: set<(nat, nat)>)
    requires RowMoves(r, r', id, used)
    ensures r'.org == r.org && r'.repo == r.repo && r'.branch == r.branch
  {
  }

  lemma RowsMove(s: State, runs': map<nat, Run>)
    requires runs'.Keys == s.runs.Keys && forall id :: id in s.runs ==> RowMoves(s.runs[id], runs'[id], id, s.used)
    ensures Moves(s, s.(runs := runs'))
  {
    hide RowMoves, Capability.Descends, WorkMoves;
    Unmoved(s);
  }

  /** A purger that moves on under its fence. */
  lemma PurgerKeepsInv(s: State, purgers': map<nat, Purger>)
    requires Inv(s) && forall pid :: pid in purgers' ==> PurgerSound(s.runs, s.deleted, purgers'[pid])
    ensures Inv(s.(purgers := purgers')) && Moves(s, s.(purgers := purgers'))
  {
    hide RunsSound, PurgerSound, Capability.Inv, BranchesUnique;
    Unmoved(s);
  }

  lemma PurgerAtKeepsInv(s: State, pid: nat, stage: Stage)
    requires Inv(s) && pid in s.purgers && stage != Purged
    ensures Inv(PurgerAt(s, pid, stage)) && Moves(s, PurgerAt(s, pid, stage))
  {
    hide RunsSound, Capability.Inv, BranchesUnique, WorkersSound, ClaimsUsed, Moves, NoneInScope;
    var purgers' := s.purgers[pid := s.purgers[pid].(stage := stage)];
    forall q | q in purgers' ensures PurgerSound(s.runs, s.deleted, purgers'[q]) {
      assert PurgerSound(s.runs, s.deleted, s.purgers[q]);
    }
    PurgerKeepsInv(s, purgers');
  }

  lemma MovesTransitiveHere(s: State, s1: State, s2: State)
    requires Moves(s, s1) && s2 == s1.(purgers := s2.purgers)
    ensures Moves(s, s2)
  {
  }

  lemma PurgeFenceKeepsInv(s: State, pid: nat, org: nat, repo: Option<nat>)
    requires Inv(s)
    ensures Inv(DoPurgeFence(s, pid, org, repo)) && Moves(s, DoPurgeFence(s, pid, org, repo))
  {
    hide RunsSound, Capability.Inv, BranchesUnique, WorkerSound, NoneInScope, Inv;
    var s' := DoPurgeFence(s, pid, org, repo);
    Unmoved(s);
    assert Moves(s, s');
    FenceKeepsInv(s, s', pid);
  }

  lemma FenceKeepsInv(s: State, s': State, pid: nat)
    requires Inv(s) && Moves(s, s') && s' == s.(deleted := s'.deleted, purgers := s'.purgers)
    requires s'.purgers == s.purgers || (pid in s'.purgers && s'.purgers == s.purgers[pid := s'.purgers[pid]]
                                         && s'.purgers[pid].stage == Fencing && ScopeKey(s'.purgers[pid].org, s'.purgers[pid].repo) in s'.deleted)
    ensures Inv(s')
  {
    hide RunsSound, Capability.Inv, BranchesUnique, WorkerSound, NoneInScope, Moves, ScopeKey;
    WorkersStay(s, s');
    forall q | q in s'.purgers ensures PurgerSound(s'.runs, s'.deleted, s'.purgers[q]) {
      if q in s.purgers && s'.purgers[q] == s.purgers[q] { PurgerStays(s, s', s.purgers[q]); }
    }
  }

  lemma CancelledRow(r: Run, owner: Capability.Db, claim: Option<WorkClaim>, id: nat, used: set<(nat, nat)>, now: Instant)
    requires RunSound(r, owner, claim) && !r.gone
    ensures var r' := CancelTx(r, now);
            RunSound(r', owner, claim) && RowMoves(r, r', id, used) && r'.claim == r.claim && (r'.state == Running ==> r.state == Running)
  {
    hide RunSound, RowMoves;
    WriteKeepsRun(r, Cancel, now, owner, claim, id, used);
  }

  lemma RowStands(r: Run, id: nat, used: set<(nat, nat)>)
    ensures RowMoves(r, r, id, used)
  {
  }

  lemma PurgeCancelKeepsInv(s: State, pid: nat, now: Instant)
    requires Inv(s)
    ensures Inv(DoPurgeCancel(s, pid, now)) && Moves(s, DoPurgeCancel(s, pid, now))
  {
    hide Inv, Moves, RunSound, RowMoves, CancelTx;
    Standing(s);
    if pid in s.purgers && s.purgers[pid].stage == Fencing {
      var p := s.purgers[pid];
      var runs' := CancelScope(s.runs, p.org, p.repo, now);
      PartsOf(s);
      forall id | id in s.runs
        ensures RowMoves(s.runs[id], runs'[id], id, s.used) && RunSound(runs'[id], s.owner, WorkOf(s.work, id))
        ensures runs'[id].claim == s.runs[id].claim && (runs'[id].state == Running ==> s.runs[id].state == Running)
      {
        RowStands(s.runs[id], id, s.used);
        if InScope(s.runs[id], p.org, p.repo) { CancelledRow(s.runs[id], s.owner, WorkOf(s.work, id), id, s.used, now); }
      }
      var s1 := s.(runs := runs');
      RowsKeepInv(s, runs');
      PurgerAtKeepsInv(s1, pid, Listing);
      MovesTransitiveHere(s, s1, PurgerAt(s1, pid, Listing));
    }
  }

  lemma DeletedRow(r: Run, owner: Capability.Db, claim: Option<WorkClaim>, id: nat, used: set<(nat, nat)>)
    requires RunSound(r, owner, claim) && !r.gone && Confirmable(r)
    ensures var r' := r.(gone := true); RunSound(r', owner, claim) && RowMoves(r, r', id, used)
  {
    hide Capability.Fenced;
  }

  lemma PurgeDeleteKeepsInv(s: State, pid: nat)
    requires Inv(s)
    ensures Inv(DoPurgeDelete(s, pid)) && Moves(s, DoPurgeDelete(s, pid))
  {
    hide Inv, Moves, RunSound, RowMoves;
    Standing(s);
    if pid in s.purgers && s.purgers[pid].stage == Cleaning({}) {
      var p := s.purgers[pid];
      PurgerOf(s, pid);
      if forall id :: id in s.runs && InScope(s.runs[id], p.org, p.repo) ==> Confirmable(s.runs[id]) {
        var runs' := DeleteScope(s.runs, p.org, p.repo);
        PartsOf(s);
        forall id | id in s.runs
          ensures RowMoves(s.runs[id], runs'[id], id, s.used) && RunSound(runs'[id], s.owner, WorkOf(s.work, id))
        {
          RowStands(s.runs[id], id, s.used);
          if InScope(s.runs[id], p.org, p.repo) { DeletedRow(s.runs[id], s.owner, WorkOf(s.work, id), id, s.used); }
        }
        var s1 := s.(runs := runs');
        RowsKeepInv(s, runs');
        assert NoneInScope(runs', p.org, p.repo);
        PurgedKeepsInv(s1, pid);
        MovesTransitiveHere(s, s1, PurgerAt(s1, pid, Purged));
      } else {
        PurgerGone(s, pid);
      }
    }
  }

  lemma PurgerOf(s: State, pid: nat)
    requires Inv(s) && pid in s.purgers
    ensures ScopeKey(s.purgers[pid].org, s.purgers[pid].repo) in s.deleted
  {
    hide RunsSound, Capability.Inv, BranchesUnique, WorkersSound, ClaimsUsed;
    assert PurgerSound(s.runs, s.deleted, s.purgers[pid]);
  }

  lemma PurgedKeepsInv(s: State, pid: nat)
    requires Inv(s) && pid in s.purgers && NoneInScope(s.runs, s.purgers[pid].org, s.purgers[pid].repo)
    ensures Inv(PurgerAt(s, pid, Purged)) && Moves(s, PurgerAt(s, pid, Purged))
  {
    hide RunsSound, Capability.Inv, BranchesUnique, WorkersSound, ClaimsUsed, Moves, NoneInScope;
    var purgers' := s.purgers[pid := s.purgers[pid].(stage := Purged)];
    forall q | q in purgers' ensures PurgerSound(s.runs, s.deleted, purgers'[q]) {
      assert PurgerSound(s.runs, s.deleted, s.purgers[q]);
    }
    PurgerKeepsInv(s, purgers');
  }

  lemma PurgerGone(s: State, pid: nat)
    requires Inv(s)
    ensures var s' := s.(purgers := s.purgers - {pid}); Inv(s') && Moves(s, s')
  {
    hide RunsSound, Capability.Inv, BranchesUnique, WorkersSound, ClaimsUsed, Moves, PurgerSound;
    PurgerKeepsInv(s, s.purgers - {pid});
  }

  // ----- every run -----

  lemma StepKeepsInv(s: State, e: Step)
    requires Inv(s)
    ensures Inv(Do(s, e)) && Moves(s, Do(s, e))
  {
    hide Inv, Moves, DoCreate, DoWrite, DoEnter, DoRead, DoConfirm, DoRevoke, DoRelease, DoAcknowledge, Stop,
      DoPurgeFence, DoPurgeCancel, DoPurgeDelete, Capability.Do;
    Standing(s);
    match e
    case Create(_, _, _, _, _, _, _, _, _) => CreateKeepsInv(s, e);
    case Writes(id, write, now) => WritesKeepInv(s, id, write, now);
    case Enter(claim, id, now) => EnterKeepsInv(s, claim, id, now);
    case Read(claim, id) => ReadKeepsInv(s, (claim, id));
    case Confirm(claim, id, now) => ConfirmKeepsInv(s, (claim, id), now);
    case Revoke(claim, id, applied, acked) => RevokeKeepsInv(s, (claim, id), applied, acked);
    case Release(claim, id, held, applied, acked) => ReleaseKeepsInv(s, (claim, id), held, applied, acked);
    case Acknowledge(claim, id, applied) => AcknowledgeKeepsInv(s, (claim, id), applied);
    case Crash(claim, id) => StopKeepsInv(s, (claim, id));
    case Owner(call) => OwnerKeepsInv(s, call);
    case ClaimWork(id) => if id in s.runs && id !in s.work { ClaimKeepsInv(s, id); }
    case PurgeFence(pid, org, repo) => PurgeFenceKeepsInv(s, pid, org, repo);
    case PurgeCancel(pid, now) => PurgeCancelKeepsInv(s, pid, now);
    case PurgeList(pid) =>
      if pid in s.purgers && s.purgers[pid].stage == Listing {
        PurgerAtKeepsInv(s, pid, Cleaning(set id | id in s.runs && InScope(s.runs[id], s.purgers[pid].org, s.purgers[pid].repo)));
      }
    case PurgeClean(pid, id) =>
      if pid in s.purgers && s.purgers[pid].stage.Cleaning? { PurgerAtKeepsInv(s, pid, Cleaning(s.purgers[pid].stage.remaining - {id})); }
    case PurgeDelete(pid) => PurgeDeleteKeepsInv(s, pid);
    case PurgeFail(pid) => PurgerGone(s, pid);
  }

  lemma EmptyInv()
    ensures Inv(INITIAL)
  {
    forall id ensures Capability.IdSound(INITIAL.owner, id) { Capability.EmptySound(id); }
  }

  /** The invariant holds at first, and every step keeps it. */
  lemma AllKeepInv()
    ensures Inv(INITIAL) && forall s, e :: Inv(s) ==> Inv(Do(s, e))
  {
    hide Do, Inv;
    EmptyInv();
    forall s, e | Inv(s) ensures Inv(Do(s, e)) { StepKeepsInv(s, e); }
  }

  lemma RunKeepsInv(steps: seq<Step>)
    ensures Inv(Exec(steps))
  {
    hide Do, Inv;
    AllKeepInv();
    Always(Do, INITIAL, s => Inv(s), steps);
  }
}
