/**
 What the run protocol records, over all runs, and that it can finish: spend, recovery in time,
 leases, and a cleanup and a purge that nothing disturbs.
 */
module RunProgress {
  import opened Wrappers
  import opened Expiry
  import opened Runs
  import opened RunProtocol
  import opened RunSteps
  import opened RunSafety
  import Capability
  import CapabilityAccess
  import Text
  import opened Traces

  // ----- spend -----

  /** The k-th step reports spend of the run, and counts when its turn comes. */
  ghost predicate CountedIn(steps: seq<Step>, id: nat, k: int) {
    && 0 <= k < |steps| && steps[k].Writes? && steps[k].id == id
    && Present(Exec(steps[..k]).runs, id) && Counts(Exec(steps[..k]).runs[id], steps[k].write)
  }

  /** The row's spend after a step: a write that counts may raise it, and nothing else touches it. */
  lemma StepSpends(s: State, e: Step, id: nat, what: Spent)
    requires id in Do(s, e).runs
    ensures SpentOf(Do(s, e).runs[id], what) ==
            if id !in s.runs then 0
            else if e.Writes? && e.id == id && Present(s.runs, id) && Counts(s.runs[id], e.write) && SpentOf(s.runs[id], what) < SpentIn(e.write, what)
            then SpentIn(e.write, what) else SpentOf(s.runs[id], what)
  {
    hide DoRevoke, DoRelease, DoRead, DoConfirm, Written, Counts, BranchHeld, DoWrite, DoPurgeCancel, DoPurgeDelete, DoPurgeList, DoPurgeClean, DoAcknowledge, DoEnter;
    match e
    case Writes(w, write, now) => WriteSpends(s, w, write, now, id, what);
    case Create(_, _, _, _, _, _, _, _, _) =>
    case Revoke(claim, run, applied, acked) => OwnersKeepRuns(s, e);
    case Release(claim, run, held, applied, acked) => OwnersKeepRuns(s, e);
    case Read(claim, run) => OwnersKeepRuns(s, e);
    case Confirm(claim, run, now) => OwnersKeepRuns(s, e);
    case Enter(claim, run, now) => EnterSpends(s, claim, run, now, id, what);
    case Acknowledge(claim, run, applied) => AckSpends(s, (claim, run), applied, id, what);
    case PurgeCancel(pid, now) => PurgeSpends(s, e, id, what);
    case PurgeDelete(pid) => PurgeSpends(s, e, id, what);
    case PurgeList(pid) => PurgeSpends(s, e, id, what);
    case PurgeClean(pid, run) => PurgeSpends(s, e, id, what);
    case _ =>
  }

  lemma WriteSpends(s: State, w: nat, write: Write, now: Instant, id: nat, what: Spent)
    requires id in DoWrite(s, w, write, now).runs
    ensures id in s.runs
    ensures SpentOf(DoWrite(s, w, write, now).runs[id], what) ==
            if w == id && Present(s.runs, id) && Counts(s.runs[id], write) && SpentOf(s.runs[id], what) < SpentIn(write, what)
            then SpentIn(write, what) else SpentOf(s.runs[id], what)
  {
    hide Written, BranchHeld, SpentIn, SpentOf;
    if Present(s.runs, w) {
      SpendStep(s.runs[w], if write.Acquire? then Acquire(BranchHeld(s.runs, w)) else write, now, what);
      if Counts(s.runs[w], write) { CountingNeverRuns(s.runs[w], write, now); }
    }
  }

  lemma CountingNeverRuns(r: Run, w: Write, now: Instant)
    requires Counts(r, w)
    ensures Written(r, w, now).state == Running ==> r.state == Running
  {
  }

  lemma OwnersKeepRuns(s: State, e: Step)
    requires e.Revoke? || e.Release? || e.Read? || e.Confirm?
    ensures Do(s, e).runs == s.runs
  {
    hide Capability.CancelTx, ReleaseTx;
  }

  lemma EnterSpends(s: State, claim: nat, run: nat, now: Instant, id: nat, what: Spent)
    requires id in DoEnter(s, claim, run, now).runs
    ensures id in s.runs && SpentOf(DoEnter(s, claim, run, now).runs[id], what) == SpentOf(s.runs[id], what)
  {
  }

  lemma AckSpends(s: State, k: (nat, nat), applied: bool, id: nat, what: Spent)
    requires id in DoAcknowledge(s, k, applied).runs
    ensures id in s.runs && SpentOf(DoAcknowledge(s, k, applied).runs[id], what) == SpentOf(s.runs[id], what)
  {
  }

  lemma PurgeSpends(s: State, e: Step, id: nat, what: Spent)
    requires (e.PurgeCancel? || e.PurgeDelete? || e.PurgeList? || e.PurgeClean?) && id in Do(s, e).runs
    ensures id in s.runs && SpentOf(Do(s, e).runs[id], what) == SpentOf(s.runs[id], what)
  {
  }

  /** The recorded spend of a run is the largest that anybody reported and that counted, and zero before. */
  lemma {:induction false} RunSpendIsLargest(steps: seq<Step>, id: nat, what: Spent)
    requires id in Exec(steps).runs
    ensures var spent := SpentOf(Exec(steps).runs[id], what);
            && spent >= 0 && (forall k :: CountedIn(steps, id, k) ==> SpentIn(steps[k].write, what) <= spent)
            && (spent == 0 || exists k :: CountedIn(steps, id, k) && spent == SpentIn(steps[k].write, what))
  {
    hide Do, Exec, SpentOf, SpentIn, Counts;
    if steps == [] {
      Nothing(id);
    } else {
      var n := |steps| - 1;
      var before := steps[..n];
      var s, spent := Exec(before), SpentOf(Exec(steps).runs[id], what);
      Last(steps);
      StepSpends(s, steps[n], id, what);
      forall k | 0 <= k < n ensures CountedIn(steps, id, k) <==> CountedIn(before, id, k) { assert steps[..k] == before[..k]; }
      if id in s.runs {
        RunSpendIsLargest(before, id, what);
        forall k | CountedIn(steps, id, k) ensures SpentIn(steps[k].write, what) <= spent {
          if k < n { assert CountedIn(before, id, k) && before[k] == steps[k]; }
        }
        if spent == SpentOf(s.runs[id], what) && spent != 0 {
          var k :| CountedIn(before, id, k) && spent == SpentIn(before[k].write, what);
          assert CountedIn(steps, id, k) && before[k] == steps[k];
        } else if spent != 0 {
          assert CountedIn(steps, id, n);
        }
      } else {
        NoneBefore(before, id);
        assert forall k :: CountedIn(steps, id, k) ==> CountedIn(before, id, k) || k == n;
      }
    }
  }

  lemma Nothing(id: nat)
    ensures id !in Exec([]).runs
  {
    EndOfNone(Do, INITIAL);
  }

  lemma Last(steps: seq<Step>)
    requires steps != []
    ensures Exec(steps) == Do(Exec(steps[..|steps| - 1]), steps[|steps| - 1])
  {
    EndOfLast(Do, INITIAL, steps);
  }

  lemma CountedKnown(steps: seq<Step>, id: nat, k: int)
    ensures CountedIn(steps, id, k) ==> id in Exec(steps).runs
  {
    hide Exec;
    if CountedIn(steps, id, k) {
      RunsEvolve(steps[..k], steps[k..], id);
      assert steps[..k] + steps[k..] == steps;
    }
  }

  lemma NoneBefore(steps: seq<Step>, id: nat)
    requires id !in Exec(steps).runs
    ensures forall k :: !CountedIn(steps, id, k)
  {
    hide Exec, CountedIn;
    forall k ensures CountedIn(steps, id, k) ==> id in Exec(steps).runs { CountedKnown(steps, id, k); }
  }

  // ----- recovery in time -----

  /** The run that a creation stored. */
  predicate Creates(s: State, e: Step) { e.Create? && e.id !in s.runs && e.id in Do(s, e).runs }

  /**
   Nobody is recovered early: a queued run not within a minute of its creation, and a running one not
   within its own wall clock, an hour if it asked for none, and fifteen minutes of its start.
   */
  lemma RecoveredInTime(a: seq<Step>, e: Step, b: seq<Step>, now: Instant)
    requires Creates(Exec(a), e) && e.id in Exec(a + [e] + b).runs && !Exec(a + [e] + b).runs[e.id].gone
    ensures Exec(a + [e] + b).runs[e.id].state == Running ==> Exec(a + [e] + b).runs[e.id].started.Some?
    ensures var r := Exec(a + [e] + b).runs[e.id];
            var wallclock := if e.wallclock <= 0 then 3600 else e.wallclock;
            RecoverTx(r, now) != r <==>
            || (r.state == Queued && e.now + MINUTE < now)
            || (r.state == Running && r.completion.None? && r.started.value + wallclock * 1_000_000_000 + 15 * MINUTE < now)
  {
    hide Exec, RunProtocol.GrantFenced;
    Created(a, e);
    RunsEvolve(a + [e], b, e.id);
    RunOf(a + [e] + b, e.id);
    RecoveryIsExact(Exec(a + [e] + b).runs[e.id], now);
  }

  lemma Created(a: seq<Step>, e: Step)
    requires Creates(Exec(a), e)
    ensures e.id in Exec(a + [e]).runs
    ensures var r := Exec(a + [e]).runs[e.id];
            r.admissionLease == e.now + MINUTE && r.wallclock == if e.wallclock <= 0 then 3600 else e.wallclock
  {
    EndOfNext(Do, INITIAL, a, e);
  }

  // ----- admission -----

  /** A run is admitted exactly for a new id outside every deleted scope, with a grant of its own organization and agent, and stored as asked. */
  lemma CreatesExactly(steps: seq<Step>, e: Step)
    requires e.Create?
    ensures var s, s' := Exec(steps), Do(Exec(steps), e); var g := e.intent.grant;
            if && e.id !in s.runs && (e.org, e.repo) !in s.deleted && (e.org, 0) !in s.deleted && g.org == e.org && g.subject == e.agent
            then
              && s' == s.(runs := s'.runs) && s'.runs.Keys == s.runs.Keys + {e.id} && (forall id :: id in s.runs ==> s'.runs[id] == s.runs[id])
              && var r := s'.runs[e.id];
                 && r.org == e.org && r.repo == e.repo && r.agent == e.agent && r.grant == g.id && r.intent == e.intent.(run := e.id)
                 && r.branch == e.branch && r.workRequired == e.workRequired && r.workPending == e.workRequired
                 && r.state == Queued && r.started.None? && r.ended.None? && r.completion.None? && r.tokens == 0 && r.cost == 0
                 && !r.executionFinished && !r.grantPending && r.claim == 0 && !r.gone
            else s' == s
  {
    hide Exec;
  }

  /** A queued run takes its branch exactly when no other running run of the repository holds it. */
  lemma AcquiresExactly(steps: seq<Step>, id: nat, held: bool, now: Instant)
    requires Present(Exec(steps).runs, id)
    ensures var s := Exec(steps); var r := s.runs[id];
            var free := forall other :: other in s.runs && other != id && s.runs[other].state == Running ==>
                          !(s.runs[other].org == r.org && s.runs[other].repo == r.repo && s.runs[other].branch == r.branch);
            Do(s, Writes(id, Acquire(held), now)).runs
            == if r.state == Queued && free then s.runs[id := r.(state := Running, started := Some(now))] else s.runs
  {
    hide Exec;
    var s := Exec(steps);
    assert s.runs[id := s.runs[id]] == s.runs;
    if forall other :: other in s.runs && other != id && s.runs[other].state == Running ==>
                         !(s.runs[other].org == s.runs[id].org && s.runs[other].repo == s.runs[id].repo && s.runs[other].branch == s.runs[id].branch) {
      assert !BranchHeld(s.runs, id);
    } else {
      var other :| other in s.runs && other != id && s.runs[other].state == Running
                   && s.runs[other].org == s.runs[id].org && s.runs[other].repo == s.runs[id].repo && s.runs[other].branch == s.runs[id].branch;
      assert SameBranch(s.runs[other], s.runs[id]);
    }
  }

  // ----- leases -----

  /** Nobody enters the run before this instant, and the worker does not acknowledge. */
  predicate Waits(steps: seq<Step>, claim: nat, id: nat, until: Instant) {
    forall e :: e in steps ==> !(e.Acknowledge? && e.claim == claim && e.id == id) && (e.Enter? && e.id == id ==> e.now < until)
  }

  /** The row is the worker's until its lease ends. */
  predicate Leased(s: State, claim: nat, id: nat, until: Instant) {
    Present(s.runs, id) && s.runs[id].claim == claim && s.runs[id].lease == until && Terminal(s.runs[id].state) && Pending(s.runs[id])
  }

  lemma StepKeepsLease(s: State, e: Step, claim: nat, id: nat, until: Instant)
    requires Inv(s) && Leased(s, claim, id, until) && claim != 0
    requires !(e.Acknowledge? && e.claim == claim && e.id == id) && (e.Enter? && e.id == id ==> e.now < until)
    ensures Leased(Do(s, e), claim, id, until)
  {
    hide DoRevoke, DoRelease, DoRead, DoConfirm, Written, BranchHeld, DoWrite, DoPurgeCancel, DoPurgeDelete, DoPurgeList, DoPurgeClean, Inv, Leased, DoAcknowledge, DoEnter;
    match e
    case Writes(w, write, now) => WriteKeepsLease(s, w, write, now, claim, id, until);
    case Create(_, _, _, _, _, _, _, _, _) => CreateKeepsLease(s, e, claim, id, until);
    case Revoke(c, run, applied, acked) => OwnersKeepRuns(s, e); SameRuns(s, Do(s, e), claim, id, until);
    case Release(c, run, held, applied, acked) => OwnersKeepRuns(s, e); SameRuns(s, Do(s, e), claim, id, until);
    case Read(c, run) => OwnersKeepRuns(s, e); SameRuns(s, Do(s, e), claim, id, until);
    case Confirm(c, run, now) => OwnersKeepRuns(s, e); SameRuns(s, Do(s, e), claim, id, until);
    case Enter(c, run, now) => OthersKeepLease(s, e, claim, id, until);
    case Acknowledge(c, run, applied) => AckKeepsLease(s, (c, run), applied, claim, id, until);
    case PurgeCancel(pid, now) => PurgeKeepsLease(s, e, claim, id, until);
    case PurgeDelete(pid) => PurgeKeepsLease(s, e, claim, id, until);
    case PurgeList(pid) => PurgeKeepsLease(s, e, claim, id, until);
    case PurgeClean(pid, run) => PurgeKeepsLease(s, e, claim, id, until);
    case _ => SameRuns(s, Do(s, e), claim, id, until);
  }

  lemma SameRuns(s: State, s': State, claim: nat, id: nat, until: Instant)
    requires Leased(s, claim, id, until) && s'.runs == s.runs
    ensures Leased(s', claim, id, until)
  {
  }

  lemma CreateKeepsLease(s: State, e: Step, claim: nat, id: nat, until: Instant)
    requires e.Create? && Leased(s, claim, id, until)
    ensures Leased(DoCreate(s, e), claim, id, until)
  {
  }

  lemma WriteKeepsLease(s: State, w: nat, write: Write, now: Instant, claim: nat, id: nat, until: Instant)
    requires Inv(s) && Leased(s, claim, id, until)
    ensures Leased(DoWrite(s, w, write, now), claim, id, until)
  {
    hide Written, BranchHeld, RowSound, Capability.Inv, WorkersSound, PurgersSound, ClaimsUsed, BranchesUnique;
    if Present(s.runs, w) && !write.Claim? {
      var w' := if write.Acquire? then Acquire(BranchHeld(s.runs, w)) else write;
      assert RunSound(s.runs[w], s.owner, WorkOf(s.work, w));
      WriteSound(s.runs[w], w', now);
      OthersKeepClaims(s.runs[w], w', now);
    }
  }

  lemma OthersKeepClaims(r: Run, w: Write, now: Instant)
    requires !w.Claim?
    ensures Written(r, w, now).claim == r.claim && Written(r, w, now).lease == r.lease
  {
  }

  lemma OthersKeepLease(s: State, e: Step, claim: nat, id: nat, until: Instant)
    requires e.Enter? && Leased(s, claim, id, until) && (e.id == id ==> e.now < until)
    ensures Leased(DoEnter(s, e.claim, e.id, e.now), claim, id, until)
  {
  }

  lemma AckKeepsLease(s: State, k: (nat, nat), applied: bool, claim: nat, id: nat, until: Instant)
    requires Leased(s, claim, id, until) && k != (claim, id)
    ensures Leased(DoAcknowledge(s, k, applied), claim, id, until)
  {
  }

  lemma PurgeKeepsLease(s: State, e: Step, claim: nat, id: nat, until: Instant)
    requires (e.PurgeCancel? || e.PurgeDelete? || e.PurgeList? || e.PurgeClean?) && Leased(s, claim, id, until)
    ensures Leased(Do(s, e), claim, id, until)
  {
  }

  /**
   A cleanup lease keeps every other worker out for its two minutes, whatever else happens, until its
   worker acknowledges.
   */
  lemma {:induction false} LeaseExcludes(a: seq<Step>, claim: nat, id: nat, at: Instant, b: seq<Step>, other: nat, now: Instant)
    requires (claim, id) !in Exec(a).used && (claim, id) in Exec(a + [Enter(claim, id, at)]).used
    requires Waits(b, claim, id, at + 2 * MINUTE) && now < at + 2 * MINUTE
    ensures var s := Exec(a + [Enter(claim, id, at)] + b); Leased(s, claim, id, at + 2 * MINUTE) && Do(s, Enter(other, id, now)) == s
    decreases |b|
  {
    hide Do, Exec, Leased, Inv;
    var entered := a + [Enter(claim, id, at)];
    LeaseBegins(a, claim, id, at);
    if b == [] {
      assert entered + b == entered;
    } else {
      var n := |b| - 1;
      LeaseExcludes(a, claim, id, at, b[..n], other, now);
      RunKeepsInv(entered + b[..n]);
      More(entered, b);
      StepKeepsLease(Exec(entered + b[..n]), b[n], claim, id, at + 2 * MINUTE);
    }
    LeasedRefuses(Exec(entered + b), claim, id, at + 2 * MINUTE, other, now);
  }

  lemma LeaseBegins(a: seq<Step>, claim: nat, id: nat, at: Instant)
    requires (claim, id) !in Exec(a).used && (claim, id) in Exec(a + [Enter(claim, id, at)]).used
    ensures claim != 0 && Leased(Exec(a + [Enter(claim, id, at)]), claim, id, at + 2 * MINUTE)
  {
    EndOfNext(Do, INITIAL, a, Enter(claim, id, at));
  }

  lemma LeasedRefuses(s: State, claim: nat, id: nat, until: Instant, other: nat, now: Instant)
    requires Leased(s, claim, id, until) && now < until
    ensures Do(s, Enter(other, id, now)) == s
  {
  }

  lemma More(a: seq<Step>, b: seq<Step>)
    requires b != []
    ensures Exec(a + b) == Do(Exec(a + b[..|b| - 1]), b[|b| - 1])
  {
    EndOfMore(Do, INITIAL, a, b);
  }

  // ----- a cleanup that nothing disturbs -----

  lemma Next(steps: seq<Step>, s: State, e: Step, s': State) returns (more: seq<Step>)
    requires s == Exec(steps) && s' == Do(s, e)
    ensures more == steps + [e] && Exec(more) == s'
  {
    EndOfNext(Do, INITIAL, steps, e);
    more := steps + [e];
  }

  /** The owners will confirm: the intent is the runtime's to cancel, and Work knows the run if it ever started. */
  predicate Settleable(s: State, id: nat)
    requires id in s.runs
  {
    var r := s.runs[id];
    && (r.grantPending ==>
          r.intent.issuer != 0 && r.intent.issuerKind == "user" && r.intent.run != 0
          && CapabilityAccess.RunGrant(r.intent.grant) && CapabilityAccess.IdFor(s.owner, r.intent))
    && (r.workPending && r.started.Some? ==> r.executionFinished && id in s.work)
  }

  lemma OwnerConfirms(steps: seq<Step>, s: State, id: nat) returns (owner: Capability.Db)
    requires s == Exec(steps) && id in s.runs && Settleable(s, id)
    ensures s.runs[id].grantPending ==> Capability.CancelTx(s.owner, CleanupScope(s.runs[id]), s.runs[id].intent, true) == (owner, true)
    ensures s.runs[id].grantPending ==> s.runs[id].grant != 0 && Capability.Fenced(owner, s.runs[id].grant)
    ensures !s.runs[id].grantPending ==> owner == s.owner
  {
    hide Exec, Capability.Fenced;
    RunOf(steps, id);
    var r := s.runs[id];
    owner := s.owner;
    if r.grantPending {
      owner := Capability.CancelTx(s.owner, CleanupScope(r), r.intent, true).0;
      Admitted(s.owner, r);
      Capability.CancellationFences(s.owner, CleanupScope(r), r.intent, true);
    }
  }

  lemma Admitted(owner: Capability.Db, r: Run)
    requires r.intent.grant.id == r.grant && r.intent.grant.org == r.org
    requires r.intent.issuer != 0 && r.intent.issuerKind == "user" && r.intent.run != 0
    requires CapabilityAccess.RunGrant(r.intent.grant) && CapabilityAccess.IdFor(owner, r.intent)
    ensures Capability.CancelTx(owner, CleanupScope(r), r.intent, true).1
  {
    hide Text.HasPrefix, Text.HasSuffix, Text.Contains;
  }

  /** The release is taken, with the outcome of the run. */
  lemma WorkConfirms(steps: seq<Step>, s: State, id: nat)
    requires s == Exec(steps) && id in s.runs && Settleable(s, id) && s.runs[id].workPending
    ensures s.runs[id].started.Some? ==> s.runs[id].executionFinished
    ensures ReleaseTx(WorkOf(s.work, id), OutcomeOf(s.runs[id])) == (Some(Released(OutcomeOf(s.runs[id]))), true)
  {
    hide Exec, Capability.Fenced;
    RunOf(steps, id);
  }

  /** The state with this row and this worker. */
  function Worked(s: State, claim: nat, id: nat, r: Run, w: Worker): State {
    s.(runs := s.runs[id := r], used := s.used + {(claim, id)}, workers := s.workers[(claim, id) := w])
  }

  /** The worker entered, read its row and confirmed its lease. */
  lemma EntersAndConfirms(steps: seq<Step>, claim: nat, id: nat, now: Instant) returns (more: seq<Step>)
    requires claim != 0 && (claim, id) !in Exec(steps).used && Present(Exec(steps).runs, id)
    requires var r := Exec(steps).runs[id]; Terminal(r.state) && Pending(r) && r.lease <= now
    ensures steps <= more
    ensures var s := Exec(steps); var r := s.runs[id].(claim := claim, lease := now + CLAIM_LEASE);
            Exec(more) == Worked(s, claim, id, r, Confirmed(r))
  {
    hide Exec;
    var s := Exec(steps);
    var r := s.runs[id].(claim := claim, lease := now + CLAIM_LEASE);
    more := Next(steps, s, Enter(claim, id, now), Worked(s, claim, id, r, Entered));
    more := Next(more, Worked(s, claim, id, r, Entered), Read(claim, id), Worked(s, claim, id, r, Reading(r)));
    more := Next(more, Worked(s, claim, id, r, Reading(r)), Confirm(claim, id, now), Worked(s, claim, id, r, Confirmed(r)));
  }

  /** The owners confirmed what the worker's copy of the row owed. */
  lemma SettlesWorker(steps: seq<Step>, s: State, claim: nat, id: nat, r: Run, owner: Capability.Db) returns (more: seq<Step>, s': State)
    requires Exec(steps) == Worked(s, claim, id, r, Confirmed(r))
    requires if r.grantPending then Capability.CancelTx(s.owner, CleanupScope(r), r.intent, true) == (owner, true) else owner == s.owner
    requires r.workPending ==> (r.started.Some? ==> r.executionFinished)
                               && ReleaseTx(WorkOf(s.work, id), OutcomeOf(r)) == (Some(Released(OutcomeOf(r))), true)
    ensures steps <= more
    ensures s' == Worked(s, claim, id, r, Settled(r, false, false)).(owner := owner, work := if r.workPending then s.work[id := Released(OutcomeOf(r))] else s.work)
    ensures Exec(more) == s'
  {
    hide Exec, Do, Capability.CancelTx, ReleaseTx;
    var s1 := Worked(s, claim, id, r, Confirmed(r));
    var s2 := Worked(s, claim, id, r, Revoked(r, false)).(owner := owner);
    RevokeIs(s1, s2, claim, id);
    more := Next(steps, s1, Revoke(claim, id, true, true), s2);
    var work := if r.workPending then s.work[id := Released(OutcomeOf(r))] else s.work;
    s' := Worked(s, claim, id, r, Settled(r, false, false)).(owner := owner, work := work);
    ReleasesIs(s2, s', claim, id);
    more := Next(more, s2, Release(claim, id, false, true, true), s');
  }

  /**
   A cleanup that nothing disturbs finishes: the grant is fenced, Work is released with the run's
   outcome, both obligations are cleared and the lease is given back.
   */
  lemma CleanupFinishes(steps: seq<Step>, claim: nat, id: nat, now: Instant) returns (more: seq<Step>)
    requires claim != 0 && (claim, id) !in Exec(steps).used && Present(Exec(steps).runs, id) && Settleable(Exec(steps), id)
    requires var r := Exec(steps).runs[id]; Terminal(r.state) && Pending(r) && r.lease <= now
    ensures steps <= more && id in Exec(more).runs
    ensures var r := Exec(steps).runs[id];
            && Exec(more).runs == Exec(steps).runs[id := r.(grantPending := false, workPending := false, claim := 0, lease := 0)]
            && (r.workPending ==> id in Exec(more).work && Exec(more).work[id] == Released(OutcomeOf(r)))
            && (r.grantPending ==> Capability.Fenced(Exec(more).owner, r.grant))
  {
    hide Exec, Do, Settleable, Capability.CancelTx, Capability.Fenced, ReleaseTx;
    var s := Exec(steps);
    var r := s.runs[id].(claim := claim, lease := now + CLAIM_LEASE);
    var owner := OwnerConfirms(steps, s, id);
    var s3;
    if r.workPending { WorkConfirms(steps, s, id); }
    more := EntersAndConfirms(steps, claim, id, now);
    more, s3 := SettlesWorker(more, s, claim, id, r, owner);
    AcknowledgeIs(s3, claim, id, r);
    more := Next(more, s3, Acknowledge(claim, id, true), Do(s3, Acknowledge(claim, id, true)));
    assert s3.runs[id := r.(grantPending := false, workPending := false, claim := 0, lease := 0)]
        == s.runs[id := r.(grantPending := false, workPending := false, claim := 0, lease := 0)];
  }

  lemma AcknowledgeIs(s: State, claim: nat, id: nat, r: Run)
    requires claim != 0 && Present(s.runs, id) && s.runs[id] == r && r.claim == claim && Pending(r)
    requires (claim, id) in s.workers && s.workers[(claim, id)] == Settled(r, false, false)
    ensures var s' := Do(s, Acknowledge(claim, id, true));
            && s'.runs == s.runs[id := r.(grantPending := false, workPending := false, claim := 0, lease := 0)]
            && s'.owner == s.owner && s'.work == s.work
  {
  }

  lemma RevokeIs(s: State, s': State, claim: nat, id: nat)
    requires (claim, id) in s.workers && s.workers[(claim, id)].Confirmed?
    requires var r := s.workers[(claim, id)].snap;
             && s' == s.(owner := s'.owner, workers := s.workers[(claim, id) := Revoked(r, false)])
             && if r.grantPending then Capability.CancelTx(s.owner, CleanupScope(r), r.intent, true) == (s'.owner, true) else s'.owner == s.owner
    ensures Do(s, Revoke(claim, id, true, true)) == s'
  {
    hide Capability.CancelTx;
  }

  lemma ReleasesIs(s: State, s': State, claim: nat, id: nat)
    requires (claim, id) in s.workers && s.workers[(claim, id)].Revoked? && !s.workers[(claim, id)].grantLeft
    requires var r := s.workers[(claim, id)].snap;
             && s' == s.(work := if r.workPending then s.work[id := Released(OutcomeOf(r))] else s.work, workers := s.workers[(claim, id) := Settled(r, false, false)])
             && (r.workPending ==> (r.started.Some? ==> r.executionFinished)
                                   && ReleaseTx(WorkOf(s.work, id), OutcomeOf(r)) == (Some(Released(OutcomeOf(r))), true))
    ensures Do(s, Release(claim, id, false, true, true)) == s'
  {
    hide ReleaseTx;
  }

  // ----- a purge that nothing disturbs -----

  /** A purge ends every unfinished run of its scope as cancelled, with its cleanup owed, and touches no other. */
  lemma PurgeCancelsExactly(steps: seq<Step>, pid: nat, now: Instant, id: nat)
    requires pid in Exec(steps).purgers && Exec(steps).purgers[pid].stage == Fencing && id in Exec(steps).runs
    ensures var s, s' := Exec(steps), Do(Exec(steps), PurgeCancel(pid, now)); var p, r := s.purgers[pid], s.runs[id];
            id in s'.runs
            && s'.runs[id] == if !r.gone && r.org == p.org && (p.repo.None? || p.repo == Some(r.repo)) && (r.state == Queued || r.state == Running)
                              then r.(state := Cancelled, ended := Some(now), grantPending := r.grant != 0) else r
  {
    hide Exec;
  }

  predicate AllConfirmable(runs: map<nat, Run>, org: nat, only: Option<nat>) {
    forall id :: id in runs && InScope(runs[id], org, only) ==> Confirmable(runs[id])
  }

  function Purging(s: State, pid: nat, p: Purger): State {
    s.(deleted := s.deleted + {ScopeKey(p.org, p.repo)}, purgers := s.purgers[pid := p])
  }

  /** Each listed run is found clean, one after the other. */
  lemma {:induction false} Cleans(steps: seq<Step>, s: State, pid: nat, p: Purger, remaining: set<nat>) returns (more: seq<Step>)
    requires p.stage == Cleaning(remaining) && Exec(steps) == Purging(s, pid, p)
    requires forall id :: id in remaining ==> Present(s.runs, id) && Confirmable(s.runs[id])
    ensures steps <= more && Exec(more) == Purging(s, pid, p.(stage := Cleaning({})))
    decreases |remaining|
  {
    hide Exec;
    if remaining == {} {
      more := steps;
    } else {
      var id :| id in remaining;
      var p' := p.(stage := Cleaning(remaining - {id}));
      CleanIs(s, pid, p, id);
      more := Next(steps, Purging(s, pid, p), PurgeClean(pid, id), Purging(s, pid, p'));
      more := Cleans(more, s, pid, p', remaining - {id});
    }
  }

  lemma CleanIs(s: State, pid: nat, p: Purger, id: nat)
    requires p.stage.Cleaning? && id in p.stage.remaining && Present(s.runs, id) && Confirmable(s.runs[id])
    ensures Do(Purging(s, pid, p), PurgeClean(pid, id)) == Purging(s, pid, p.(stage := Cleaning(p.stage.remaining - {id})))
  {
  }

  lemma Fences(steps: seq<Step>, pid: nat, org: nat, only: Option<nat>, now: Instant) returns (more: seq<Step>)
    requires pid !in Exec(steps).purgers && AllConfirmable(Exec(steps).runs, org, only)
    ensures steps <= more && Exec(more) == Purging(Exec(steps), pid, Purger(org, only, Listing))
  {
    hide Exec, Confirmable;
    var s := Exec(steps);
    more := Next(steps, s, PurgeFence(pid, org, only), Purging(s, pid, Purger(org, only, Fencing)));
    CancelsNone(s, org, only, now);
    var s1 := Purging(s, pid, Purger(org, only, Fencing));
    assert s1.purgers[pid := Purger(org, only, Listing)] == s.purgers[pid := Purger(org, only, Listing)];
    more := Next(more, s1, PurgeCancel(pid, now), Purging(s, pid, Purger(org, only, Listing)));
  }

  lemma CancelsNone(s: State, org: nat, only: Option<nat>, now: Instant)
    requires AllConfirmable(s.runs, org, only)
    ensures CancelScope(s.runs, org, only, now) == s.runs
  {
  }

  lemma Lists(steps: seq<Step>, s: State, pid: nat, org: nat, only: Option<nat>) returns (more: seq<Step>, listed: set<nat>)
    requires Exec(steps) == Purging(s, pid, Purger(org, only, Listing))
    ensures steps <= more && Exec(more) == Purging(s, pid, Purger(org, only, Cleaning(listed)))
    ensures forall id :: id in listed <==> id in s.runs && InScope(s.runs[id], org, only)
  {
    hide Exec;
    var s1 := Purging(s, pid, Purger(org, only, Listing));
    var s2 := Do(s1, PurgeList(pid));
    listed := s2.purgers[pid].stage.remaining;
    assert s2.purgers == s.purgers[pid := Purger(org, only, Cleaning(listed))];
    more := Next(steps, s1, PurgeList(pid), s2);
  }

  /** A scope whose runs are all cleaned up can be purged; every run of it is then gone, and no other. */
  lemma PurgeFinishes(steps: seq<Step>, pid: nat, org: nat, only: Option<nat>, now: Instant) returns (more: seq<Step>)
    requires pid !in Exec(steps).purgers && AllConfirmable(Exec(steps).runs, org, only)
    ensures steps <= more && pid in Exec(more).purgers && Exec(more).purgers[pid] == Purger(org, only, Purged)
    ensures Exec(more).runs.Keys == Exec(steps).runs.Keys
    ensures forall id :: id in Exec(steps).runs ==>
              Exec(more).runs[id] == if InScope(Exec(steps).runs[id], org, only) then Exec(steps).runs[id].(gone := true) else Exec(steps).runs[id]
  {
    hide Exec, Confirmable;
    var s := Exec(steps);
    var listed;
    more := Fences(steps, pid, org, only, now);
    more, listed := Lists(more, s, pid, org, only);
    more := Cleans(more, s, pid, Purger(org, only, Cleaning(listed)), listed);
    var s1 := Purging(s, pid, Purger(org, only, Cleaning({})));
    DeletesIs(s1, pid);
    more := Next(more, s1, PurgeDelete(pid), Do(s1, PurgeDelete(pid)));
  }

  lemma DeletesIs(s: State, pid: nat)
    requires pid in s.purgers && s.purgers[pid].stage == Cleaning({}) && AllConfirmable(s.runs, s.purgers[pid].org, s.purgers[pid].repo)
    ensures var s' := Do(s, PurgeDelete(pid)); var p := s.purgers[pid];
            && s'.runs == DeleteScope(s.runs, p.org, p.repo) && pid in s'.purgers && s'.purgers[pid] == p.(stage := Purged)
  {
  }
}
