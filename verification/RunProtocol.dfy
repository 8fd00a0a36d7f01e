/**
 Agent runs, the grant owner and the Work owner together: admission, execution receipts,
 cancellation, recovery, claimed cleanup workers and purges race on the run rows while every call
 to an owner may be applied with its reply lost. `internal/agents/grant_cleanup.go`, `purge.go`,
 `admission.go`, `grpc.go` and `internal/work/execution.go`.
 */
module RunProtocol {
  import opened Wrappers
  import opened Expiry
  import opened Runs
  import Capability
  import opened Traces

  // ----- the Work owner -----

  datatype Outcome = AdmissionFailed | Finished(state: RunState)

  datatype WorkClaim = Claimed | Released(outcome: Outcome)

  /** A release of an absent claim fences it; a second release must name the same outcome. */
  function ReleaseTx(claim: Option<WorkClaim>, outcome: Outcome): (Option<WorkClaim>, bool) {
    match claim
    case None => if outcome == AdmissionFailed then (Some(Released(outcome)), true) else (None, false)
    case Some(Claimed) => (Some(Released(outcome)), true)
    case Some(Released(o)) => (claim, o == outcome)
  }

  // ----- state -----

  /** A cleanup worker: it holds the row it read, and what the owners confirmed. */
  datatype Worker =
    | Entered
    | Reading(snap: Run)
    | Confirmed(snap: Run)
    | Revoked(snap: Run, grantLeft: bool)
    | Settled(snap: Run, grantLeft: bool, workLeft: bool)

  datatype Stage = Fencing | Listing | Cleaning(remaining: set<nat>) | Purged

  datatype Purger = Purger(org: nat, repo: Option<nat>, stage: Stage)

  /** `deleted` are the fenced scopes, repository 0 standing for the organization; `used` the claims ever taken. */
  datatype State = State(runs: map<nat, Run>, deleted: set<(nat, nat)>, owner: Capability.Db, work: map<nat, WorkClaim>,
                         used: set<(nat, nat)>, workers: map<(nat, nat), Worker>, purgers: map<nat, Purger>)

  const INITIAL: State := State(map[], {}, Capability.EMPTY, map[], {}, map[], map[])

  function WorkOf(work: map<nat, WorkClaim>, id: nat): Option<WorkClaim> { if id in work then Some(work[id]) else None }

  predicate Present(runs: map<nat, Run>, id: nat) { id in runs && !runs[id].gone }

  predicate SameBranch(p: Run, q: Run) { p.org == q.org && p.repo == q.repo && p.branch == q.branch }

  /** Another running run holds the branch: the partial unique index refuses a second. */
  predicate BranchHeld(runs: map<nat, Run>, id: nat)
    requires id in runs
  {
    exists other :: other in runs && other != id && runs[other].state == Running && SameBranch(runs[other], runs[id])
  }

  function ScopeKey(org: nat, repo: Option<nat>): (nat, nat) { (org, if repo.Some? then repo.value else 0) }

  // ----- steps -----

  datatype Step =
    | Create(id: nat, org: nat, repo: nat, agent: nat, intent: Capability.Intent, branch: string, workRequired: bool, wallclock: int, now: Instant)
    | Writes(id: nat, write: Write, now: Instant)
    | Enter(claim: nat, id: nat, now: Instant)
    | Read(claim: nat, id: nat)
    | Confirm(claim: nat, id: nat, now: Instant)
    | Revoke(claim: nat, id: nat, applied: bool, acked: bool)
    | Release(claim: nat, id: nat, held: bool, applied: bool, acked: bool)
    | Acknowledge(claim: nat, id: nat, applied: bool)
    | Crash(claim: nat, id: nat)
    | Owner(call: Capability.Step)
    | ClaimWork(id: nat)
    | PurgeFence(pid: nat, org: nat, only: Option<nat>)
    | PurgeCancel(pid: nat, now: Instant)
    | PurgeList(pid: nat)
    | PurgeClean(pid: nat, id: nat)
    | PurgeDelete(pid: nat)
    | PurgeFail(pid: nat)

  function DoCreate(s: State, e: Step): State
    requires e.Create?
  {
    var g := e.intent.grant;
    if e.id in s.runs || (e.org, e.repo) in s.deleted || (e.org, 0) in s.deleted || g.org != e.org || g.subject != e.agent then s
    else
      var wallclock := if e.wallclock <= 0 then 3600 else e.wallclock;
      var r := Run(e.org, e.repo, e.agent, g.id, e.intent.(run := e.id), e.branch, e.workRequired, wallclock, e.now + MINUTE,
                   Queued, None, None, 0, 0, None, false, false, e.workRequired, 0, 0, false);
      s.(runs := s.runs[e.id := r])
  }

  /** A write of one row; a second holder of a branch is refused by the index. */
  function DoWrite(s: State, id: nat, write: Write, now: Instant): State {
    if !Present(s.runs, id) || write.Claim? then s
    else
      var w := if write.Acquire? then Acquire(BranchHeld(s.runs, id)) else write;
      var r' := Written(s.runs[id], w, now);
      if r'.state == Running && s.runs[id].state != Running && BranchHeld(s.runs, id) then s
      else s.(runs := s.runs[id := r'])
  }

  function DoEnter(s: State, claim: nat, id: nat, now: Instant): State {
    if claim == 0 || (claim, id) in s.used || !Present(s.runs, id) || !ClaimTx(s.runs[id], claim, now).1 then s
    else s.(runs := s.runs[id := ClaimTx(s.runs[id], claim, now).0], used := s.used + {(claim, id)},
            workers := s.workers[(claim, id) := Entered])
  }

  /** The worker's own steps; it stops with an error by disappearing. */
  function Stop(s: State, k: (nat, nat)): State { s.(workers := s.workers - {k}) }

  function Move(s: State, k: (nat, nat), w: Worker): State { s.(workers := s.workers[k := w]) }

  function DoRead(s: State, k: (nat, nat)): State {
    if k !in s.workers || s.workers[k] != Entered then s
    else if Present(s.runs, k.1) then Move(s, k, Reading(s.runs[k.1]))
    else Stop(s, k)
  }

  function DoConfirm(s: State, k: (nat, nat), now: Instant): State {
    if k !in s.workers || !s.workers[k].Reading? then s
    else if Present(s.runs, k.1) && Owns(s.runs[k.1], k.0, now) then Move(s, k, Confirmed(s.workers[k].snap))
    else Stop(s, k)
  }

  /** The call to the grant owner carries the run's own intent, delegated to this service. */
  function CleanupScope(r: Run): Capability.Scope { Capability.Scope(r.org, 0, "service", "agent-runtime") }

  function DoRevoke(s: State, k: (nat, nat), applied: bool, acked: bool): State {
    if k !in s.workers || !s.workers[k].Confirmed? then s
    else
      var snap := s.workers[k].snap;
      if !snap.grantPending then Move(s, k, Revoked(snap, false))
      else
        var (owner, ok) := Capability.CancelTx(s.owner, CleanupScope(snap), snap.intent, true);
        Move(if applied then s.(owner := owner) else s, k, Revoked(snap, !(applied && acked && ok)))
  }

  function OutcomeOf(r: Run): Outcome { if r.started.None? then AdmissionFailed else Finished(r.state) }

  /** `held` says that tool evidence or the workspace keeps the claim. */
  function DoRelease(s: State, k: (nat, nat), held: bool, applied: bool, acked: bool): State {
    if k !in s.workers || !s.workers[k].Revoked? then s
    else
      var snap, left := s.workers[k].snap, s.workers[k].grantLeft;
      if !snap.workPending then Move(s, k, Settled(snap, left, false))
      else if held || left || (snap.started.Some? && !snap.executionFinished) then Move(s, k, Settled(snap, left, true))
      else
        var (claim, ok) := ReleaseTx(WorkOf(s.work, k.1), OutcomeOf(snap));
        Move(if applied && claim.Some? then s.(work := s.work[k.1 := claim.value]) else s, k, Settled(snap, left, !(applied && acked && ok)))
  }

  function DoAcknowledge(s: State, k: (nat, nat), applied: bool): State {
    if k !in s.workers || !s.workers[k].Settled? then s
    else
      var w := s.workers[k];
      if applied && Present(s.runs, k.1) then
        Stop(s.(runs := s.runs[k.1 := AckTx(s.runs[k.1], k.0, w.snap.grant, w.grantLeft, w.workLeft).0]), k)
      else Stop(s, k)
  }

  function CancelScope(runs: map<nat, Run>, org: nat, repo: Option<nat>, now: Instant): map<nat, Run> {
    map id | id in runs :: if InScope(runs[id], org, repo) then CancelTx(runs[id], now) else runs[id]
  }

  function DeleteScope(runs: map<nat, Run>, org: nat, repo: Option<nat>): map<nat, Run> {
    map id | id in runs :: if InScope(runs[id], org, repo) then runs[id].(gone := true) else runs[id]
  }

  predicate Confirmable(r: Run) { Terminal(r.state) && !Pending(r) }

  function PurgerAt(s: State, pid: nat, stage: Stage): State
    requires pid in s.purgers
  {
    s.(purgers := s.purgers[pid := s.purgers[pid].(stage := stage)])
  }

  function DoPurgeFence(s: State, pid: nat, org: nat, repo: Option<nat>): State {
    if pid in s.purgers then s
    else s.(deleted := s.deleted + {ScopeKey(org, repo)}, purgers := s.purgers[pid := Purger(org, repo, Fencing)])
  }

  function DoPurgeCancel(s: State, pid: nat, now: Instant): State {
    if pid !in s.purgers || s.purgers[pid].stage != Fencing then s
    else PurgerAt(s.(runs := CancelScope(s.runs, s.purgers[pid].org, s.purgers[pid].repo, now)), pid, Listing)
  }

  function DoPurgeList(s: State, pid: nat): State {
    if pid !in s.purgers || s.purgers[pid].stage != Listing then s
    else PurgerAt(s, pid, Cleaning(set id | id in s.runs && InScope(s.runs[id], s.purgers[pid].org, s.purgers[pid].repo)))
  }

  /** The cleanup of one run returns without error: nothing of it is pending. */
  function DoPurgeClean(s: State, pid: nat, id: nat): State {
    if pid !in s.purgers || !s.purgers[pid].stage.Cleaning? || id !in s.purgers[pid].stage.remaining then s
    else if Present(s.runs, id) && Confirmable(s.runs[id]) then PurgerAt(s, pid, Cleaning(s.purgers[pid].stage.remaining - {id}))
    else s
  }

  /** One transaction locks, rechecks and deletes every row of the scope. */
  function DoPurgeDelete(s: State, pid: nat): State {
    if pid !in s.purgers || s.purgers[pid].stage != Cleaning({}) then s
    else
      var p := s.purgers[pid];
      if forall id :: id in s.runs && InScope(s.runs[id], p.org, p.repo) ==> Confirmable(s.runs[id]) then
        PurgerAt(s.(runs := DeleteScope(s.runs, p.org, p.repo)), pid, Purged)
      else s.(purgers := s.purgers - {pid})
  }

  function Do(s: State, e: Step): State {
    match e
    case Create(_, _, _, _, _, _, _, _, _) => DoCreate(s, e)
    case Writes(id, write, now) => DoWrite(s, id, write, now)
    case Enter(claim, id, now) => DoEnter(s, claim, id, now)
    case Read(claim, id) => DoRead(s, (claim, id))
    case Confirm(claim, id, now) => DoConfirm(s, (claim, id), now)
    case Revoke(claim, id, applied, acked) => DoRevoke(s, (claim, id), applied, acked)
    case Release(claim, id, held, applied, acked) => DoRelease(s, (claim, id), held, applied, acked)
    case Acknowledge(claim, id, applied) => DoAcknowledge(s, (claim, id), applied)
    case Crash(claim, id) => Stop(s, (claim, id))
    case Owner(call) => s.(owner := Capability.Do(s.owner, call))
    case ClaimWork(id) => if id in s.runs && id !in s.work then s.(work := s.work[id := Claimed]) else s
    case PurgeFence(pid, org, repo) => DoPurgeFence(s, pid, org, repo)
    case PurgeCancel(pid, now) => DoPurgeCancel(s, pid, now)
    case PurgeList(pid) => DoPurgeList(s, pid)
    case PurgeClean(pid, id) => DoPurgeClean(s, pid, id)
    case PurgeDelete(pid) => DoPurgeDelete(s, pid)
    case PurgeFail(pid) => s.(purgers := s.purgers - {pid})
  }

  ghost function Exec(steps: seq<Step>): State { EndOf(Do, INITIAL, steps) }

  // ----- invariants -----

  /** The run's grant can never be live again. */
  predicate GrantFenced(owner: Capability.Db, r: Run) { r.grant == 0 || Capability.Fenced(owner, r.grant) }

  predicate WorkFreed(claim: Option<WorkClaim>) { claim.Some? && claim.value.Released? }

  /** Work was released only for an ended run that is fenced and either never started or has finished. */
  predicate ReleasedRightly(r: Run, owner: Capability.Db, claim: Option<WorkClaim>) {
    WorkFreed(claim) ==>
      && Terminal(r.state) && GrantFenced(owner, r) && claim.value.outcome == OutcomeOf(r)
      && (r.started.Some? ==> r.executionFinished)
  }

  predicate RunSound(r: Run, owner: Capability.Db, claim: Option<WorkClaim>) {
    && RowSound(r)
    && (Terminal(r.state) && !r.grantPending ==> GrantFenced(owner, r))
    && (r.workRequired && !r.workPending ==> WorkFreed(claim))
    && ReleasedRightly(r, owner, claim)
  }

  /** What a worker's copy of the row is still good for. */
  predicate SnapSound(r: Run, snap: Run, owner: Capability.Db, claim: Option<WorkClaim>, c: nat) {
    && Terminal(snap.state) && Evolves(snap, r) && RowSound(snap)
    && (!snap.grantPending ==> GrantFenced(owner, r))
    && (r.workRequired && !snap.workPending ==> WorkFreed(claim))
    && (r.claim == c ==> r.grantPending == snap.grantPending && r.workPending == snap.workPending)
  }

  predicate WorkerSound(r: Run, w: Worker, owner: Capability.Db, claim: Option<WorkClaim>, c: nat) {
    match w
    case Entered => Terminal(r.state)
    case Reading(snap) => SnapSound(r, snap, owner, claim, c)
    case Confirmed(snap) => SnapSound(r, snap, owner, claim, c)
    case Revoked(snap, grantLeft) =>
      SnapSound(r, snap, owner, claim, c) && (if grantLeft then snap.grantPending else GrantFenced(owner, r))
    case Settled(snap, grantLeft, workLeft) =>
      && SnapSound(r, snap, owner, claim, c) && (if grantLeft then snap.grantPending else GrantFenced(owner, r))
      && (if workLeft then snap.workPending else r.workRequired ==> WorkFreed(claim))
  }

  predicate NoneInScope(runs: map<nat, Run>, org: nat, repo: Option<nat>) {
    forall id :: id in runs ==> !InScope(runs[id], org, repo)
  }

  predicate PurgerSound(runs: map<nat, Run>, deleted: set<(nat, nat)>, p: Purger) {
    ScopeKey(p.org, p.repo) in deleted && (p.stage == Purged ==> NoneInScope(runs, p.org, p.repo))
  }

  predicate BranchesUnique(runs: map<nat, Run>) {
    forall p, q :: p in runs && q in runs && p != q && runs[p].state == Running && runs[q].state == Running ==> !SameBranch(runs[p], runs[q])
  }

  predicate RunsSound(runs: map<nat, Run>, owner: Capability.Db, work: map<nat, WorkClaim>) {
    && (forall id :: id in runs ==> RunSound(runs[id], owner, WorkOf(work, id)))
    && (forall id :: id in work ==> id in runs)
  }

  predicate ClaimsUsed(s: State) {
    && (forall id :: id in s.runs && s.runs[id].claim != 0 ==> (s.runs[id].claim, id) in s.used)
    && (forall k :: k in s.workers ==> k in s.used && k.0 != 0 && k.1 in s.runs)
  }

  predicate WorkersSound(s: State) {
    forall k :: k in s.workers ==> k.1 in s.runs && WorkerSound(s.runs[k.1], s.workers[k], s.owner, WorkOf(s.work, k.1), k.0)
  }

  predicate PurgersSound(s: State) { forall pid :: pid in s.purgers ==> PurgerSound(s.runs, s.deleted, s.purgers[pid]) }

  ghost predicate Inv(s: State) {
    && RunsSound(s.runs, s.owner, s.work) && BranchesUnique(s.runs) && ClaimsUsed(s) && WorkersSound(s) && PurgersSound(s)
    && Capability.Inv(s.owner)
  }

  // ----- how the whole may change -----

  /** A row evolves, and a worker whose claim it still carries sees its flags unchanged. */
  predicate RowMoves(r: Run, r': Run, id: nat, used: set<(nat, nat)>) {
    && Evolves(r, r')
    && (r'.claim == r.claim || r'.claim == 0 || (r'.claim, id) !in used)
    && (Terminal(r.state) && r'.claim == r.claim && r.claim != 0 ==> r'.grantPending == r.grantPending && r'.workPending == r.workPending)
  }

  predicate WorkMoves(claim: Option<WorkClaim>, claim': Option<WorkClaim>) {
    (WorkFreed(claim) ==> claim' == claim) && (claim.Some? ==> claim'.Some?)
  }

  ghost predicate Moves(s: State, s': State) {
    && (forall id :: id in s.runs ==> id in s'.runs && RowMoves(s.runs[id], s'.runs[id], id, s.used))
    && (forall id :: Capability.Descends(s.owner, s'.owner, id))
    && (forall id :: WorkMoves(WorkOf(s.work, id), WorkOf(s'.work, id)))
    && s.deleted <= s'.deleted && s.used <= s'.used
    && (forall id :: id in s'.runs && id !in s.runs ==> Open(s.deleted, s'.runs[id]))
  }

  /** No fence covers the run. */
  predicate Open(deleted: set<(nat, nat)>, r: Run) { (r.org, r.repo) !in deleted && (r.org, 0) !in deleted }

  lemma FencedStays(owner: Capability.Db, owner': Capability.Db, r: Run, r': Run)
    requires GrantFenced(owner, r) && r'.grant == r.grant && Capability.Descends(owner, owner', r.grant)
    ensures GrantFenced(owner', r')
  {
  }

  /** Whatever the others do, a worker's knowledge stays good. */
  lemma MovesKeepsWorker(r: Run, r': Run, id: nat, used: set<(nat, nat)>, owner: Capability.Db, owner': Capability.Db,
                         claim: Option<WorkClaim>, claim': Option<WorkClaim>, w: Worker, c: nat)
    requires WorkerSound(r, w, owner, claim, c) && c != 0 && (c, id) in used
    requires RowMoves(r, r', id, used) && Capability.Descends(owner, owner', r.grant) && WorkMoves(claim, claim')
    ensures WorkerSound(r', w, owner', claim', c)
  {
    hide Capability.Descends, RowSound, Capability.Fenced, GrantFenced, Evolves;
    if w.Entered? {
      EndedStays(r, r');
    } else {
      SnapStays(r, r', id, used, owner, owner', claim, claim', w.snap, c);
      GrantStays(r, r');
      if GrantFenced(owner, r) { FencedStays(owner, owner', r, r'); }
    }
  }

  lemma EndedStays(r: Run, r': Run)
    requires Evolves(r, r') && Terminal(r.state)
    ensures Terminal(r'.state)
  {
  }

  lemma GrantStays(r: Run, r': Run)
    requires Evolves(r, r')
    ensures r'.grant == r.grant && r'.workRequired == r.workRequired
  {
  }

  lemma SnapStays(r: Run, r': Run, id: nat, used: set<(nat, nat)>, owner: Capability.Db, owner': Capability.Db,
                  claim: Option<WorkClaim>, claim': Option<WorkClaim>, snap: Run, c: nat)
    requires SnapSound(r, snap, owner, claim, c) && c != 0 && (c, id) in used
    requires RowMoves(r, r', id, used) && Capability.Descends(owner, owner', r.grant) && WorkMoves(claim, claim')
    ensures SnapSound(r', snap, owner', claim', c)
  {
    hide Capability.Descends, RowSound, Capability.Fenced, GrantFenced;
    EvolvesTransitive(snap, r, r');
    if GrantFenced(owner, r) { FencedStays(owner, owner', r, r'); }
  }
}
