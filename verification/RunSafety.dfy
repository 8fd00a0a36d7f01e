/**
 What the run protocol promises, over all runs: `Exec(steps)` is any reachable state, whatever
 admissions, receipts, cancellations, workers, purges and owner calls race and however often a
 replica crashes or a reply is lost.
 */
module RunSafety {
  import opened Wrappers
  import opened Expiry
  import opened Runs
  import opened RunProtocol
  import opened RunSteps
  import Capability
  import opened Traces

  lemma RunOf(steps: seq<Step>, id: nat)
    requires id in Exec(steps).runs
    ensures RunSound(Exec(steps).runs[id], Exec(steps).owner, WorkOf(Exec(steps).work, id))
  {
    hide Exec, RunSound, BranchesUnique, ClaimsUsed, WorkersSound, PurgersSound, Capability.Inv;
    RunKeepsInv(steps);
  }

  // ----- one state -----

  /** Work is released only for an ended run whose grant is fenced and which never started or has finished. */
  lemma ReleasedInOrder(steps: seq<Step>, id: nat)
    requires WorkFreed(WorkOf(Exec(steps).work, id))
    ensures id in Exec(steps).runs
    ensures var s := Exec(steps); var r := s.runs[id];
            && Terminal(r.state) && GrantFenced(s.owner, r)
            && s.work[id] == Released(if r.started.None? then AdmissionFailed else Finished(r.state))
            && (r.started.Some? ==> r.executionFinished)
  {
    hide Exec, BranchesUnique, ClaimsUsed, WorkersSound, PurgersSound, Capability.Inv, RunSound;
    RunKeepsInv(steps);
    RunOf(steps, id);
    RightlyHere(Exec(steps), id);
  }

  /** A cleared flag of an ended run means that its owner confirmed: the grant is fenced, Work is released. */
  lemma ClearedIsConfirmed(steps: seq<Step>, id: nat)
    requires id in Exec(steps).runs && Terminal(Exec(steps).runs[id].state)
    ensures var s := Exec(steps); var r := s.runs[id];
            && (!r.grantPending ==> r.grant == 0 || Capability.Fenced(s.owner, r.grant))
            && (r.workRequired && !r.workPending ==> WorkFreed(WorkOf(s.work, id)))
  {
    hide Exec, Capability.Fenced;
    RunOf(steps, id);
  }

  /** A row is deleted only when it ended, its grant is fenced and its Work claim is released. */
  lemma DeletedIsDischarged(steps: seq<Step>, id: nat)
    requires id in Exec(steps).runs && Exec(steps).runs[id].gone
    ensures var s := Exec(steps); var r := s.runs[id];
            Terminal(r.state) && GrantFenced(s.owner, r) && (r.workRequired ==> WorkFreed(WorkOf(s.work, id)))
  {
    hide Exec, Capability.Fenced;
    RunOf(steps, id);
  }

  /** A branch is held by at most one running run. */
  lemma OneHolder(steps: seq<Step>, p: nat, q: nat)
    requires p in Exec(steps).runs && q in Exec(steps).runs && SameBranch(Exec(steps).runs[p], Exec(steps).runs[q])
    requires Exec(steps).runs[p].state == Running && Exec(steps).runs[q].state == Running
    ensures p == q
  {
    hide Exec, RunsSound, ClaimsUsed, WorkersSound, PurgersSound, Capability.Inv;
    RunKeepsInv(steps);
  }

  // ----- longer runs -----

  lemma RowStep(s: State, s': State, id: nat)
    requires Moves(s, s') && id in s.runs
    ensures id in s'.runs && Evolves(s.runs[id], s'.runs[id])
    ensures WorkMoves(WorkOf(s.work, id), WorkOf(s'.work, id))
  {
    hide Evolves, Capability.Descends;
    assert RowMoves(s.runs[id], s'.runs[id], id, s.used);
  }

  lemma WorkMovesTransitive(a: Option<WorkClaim>, b: Option<WorkClaim>, c: Option<WorkClaim>)
    requires WorkMoves(a, b) && WorkMoves(b, c)
    ensures WorkMoves(a, c)
  {
  }

  /**
   Ends, receipts and deletions are final under every writer, counters never fall, an ended run's
   obligations never come back, and a release of Work is never taken back.
   */
  lemma RunsEvolve(a: seq<Step>, b: seq<Step>, id: nat)
    requires id in Exec(a).runs
    ensures id in Exec(a + b).runs && Evolves(Exec(a).runs[id], Exec(a + b).runs[id])
    ensures WorkMoves(WorkOf(Exec(a).work, id), WorkOf(Exec(a + b).work, id))
  {
    hide Do, Inv, Moves, Evolves, WorkMoves;
    AllKeepInv();
    forall s: State ensures Kept(s, s, id) { if id in s.runs { Standing(s); RowStep(s, s, id); } }
    forall s, t, e | Kept(s, t, id) && Inv(t) ensures Kept(s, Do(t, e), id) {
      if id in s.runs {
        StepKeepsInv(t, e);
        RowStep(t, Do(t, e), id);
        EvolvesTransitive(s.runs[id], t.runs[id], Do(t, e).runs[id]);
        WorkMovesTransitive(WorkOf(s.work, id), WorkOf(t.work, id), WorkOf(Do(t, e).work, id));
      }
    }
    Onward(Do, INITIAL, s => Inv(s), (s, t) => Kept(s, t, id), a, b);
  }

  predicate Kept(s: State, t: State, id: nat) {
    id in s.runs ==>
      id in t.runs && Evolves(s.runs[id], t.runs[id]) && WorkMoves(WorkOf(s.work, id), WorkOf(t.work, id))
  }

  /** Once Work is released, the run never starts or goes on, and its grant is never live again. */
  lemma ReleasedHasNoAuthority(a: seq<Step>, b: seq<Step>, id: nat, now: Instant)
    requires WorkFreed(WorkOf(Exec(a).work, id)) && now >= 0
    ensures id in Exec(a).runs && id in Exec(a + b).runs
    ensures var r, r' := Exec(a).runs[id], Exec(a + b).runs[id];
            && r'.state == r.state && r'.started == r.started && Terminal(r'.state)
            && (r.grant != 0 ==> !Capability.Live(Exec(a + b).owner, r.grant, now))
  {
    hide Exec, Capability.Fenced, RunsSound, BranchesUnique, ClaimsUsed, WorkersSound, PurgersSound, Capability.IdSound;
    ReleasedInOrder(a, id);
    RunsEvolve(a, b, id);
    ReleasedInOrder(a + b, id);
    RunKeepsInv(a + b);
    if Exec(a).runs[id].grant != 0 { FencedIsDead(Exec(a + b).owner, Exec(a).runs[id].grant, now); }
  }

  lemma FencedIsDead(owner: Capability.Db, id: nat, now: Instant)
    requires Capability.Inv(owner) && Capability.Fenced(owner, id) && now >= 0
    ensures !Capability.Live(owner, id, now)
  {
    assert Capability.IdSound(owner, id);
  }

  /** At most one receipt is ever stored, and what the run spent never falls below it. */
  lemma ReceiptIsFinal(a: seq<Step>, b: seq<Step>, id: nat)
    requires id in Exec(a).runs && Exec(a).runs[id].completion.Some?
    ensures id in Exec(a + b).runs
    ensures var r := Exec(a + b).runs[id];
            && r.completion == Exec(a).runs[id].completion && r.state == Exec(a).runs[id].state && Terminal(r.state)
            && r.completion.value.tokens <= r.tokens && r.completion.value.cost <= r.cost
  {
    hide Exec, Capability.Fenced;
    RunOf(a, id);
    RunsEvolve(a, b, id);
    RunOf(a + b, id);
  }

  /** In every longer run the stored receipt gets the stored answer, exactly unless its success lost its evidence; any other is refused. */
  lemma ReceiptReplays(a: seq<Step>, b: seq<Step>, id: nat, d: Completion, unresolved: bool, now: Instant)
    requires id in Exec(a).runs && Exec(a).runs[id].completion.Some?
    ensures id in Exec(a + b).runs
    ensures var r, r' := Exec(a).runs[id], Exec(a + b).runs[id];
            CompleteTx(r', d, unresolved, now)
            == (r', if d == r.completion.value && !Withheld(d, unresolved) then Some(r.state) else None)
  {
    hide Exec, Capability.Fenced;
    ReceiptIsFinal(a, b, id);
    RunOf(a + b, id);
  }

  lemma PurgedStays(a: seq<Step>, b: seq<Step>, p: Purger)
    requires p.stage == Purged && PurgerSound(Exec(a).runs, Exec(a).deleted, p)
    ensures PurgerSound(Exec(a + b).runs, Exec(a + b).deleted, p)
  {
    hide Do, Inv, Moves, PurgerSound;
    AllKeepInv();
    forall s: State, t: State, e: Step | (PurgerSound(s.runs, s.deleted, p) ==> PurgerSound(t.runs, t.deleted, p)) && Inv(t)
      ensures PurgerSound(s.runs, s.deleted, p) ==> PurgerSound(Do(t, e).runs, Do(t, e).deleted, p)
    {
      StepKeepsInv(t, e);
      if PurgerSound(t.runs, t.deleted, p) { PurgerStays(t, Do(t, e), p); }
    }
    Onward(Do, INITIAL, s => Inv(s),
           (s: State, t: State) => PurgerSound(s.runs, s.deleted, p) ==> PurgerSound(t.runs, t.deleted, p), a, b);
  }

  /** After a purge returns success, no run of its scope exists in any later state. */
  lemma PurgeIsFinal(a: seq<Step>, b: seq<Step>, pid: nat, id: nat)
    requires pid in Exec(a).purgers && Exec(a).purgers[pid].stage == Purged
    ensures var p := Exec(a).purgers[pid];
            id in Exec(a + b).runs && Exec(a + b).runs[id].org == p.org && (p.repo.None? || Exec(a + b).runs[id].repo == p.repo.value)
            ==> Exec(a + b).runs[id].gone
  {
    hide Exec, RunsSound, BranchesUnique, ClaimsUsed, WorkersSound, Capability.Inv;
    RunKeepsInv(a);
    assert PurgerSound(Exec(a).runs, Exec(a).deleted, Exec(a).purgers[pid]);
    PurgedStays(a, b, Exec(a).purgers[pid]);
  }
}
