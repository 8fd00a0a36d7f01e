/**
 CI jobs, runner incarnations and the log journal: `internal/ci/connections.go`,
 `runner_journal.go`, `reservation.go`, the claim and release of `store.go`, the expiry of prepared
 credentials (`credential_outbox.go`) and the pump that connects them (`pump.go`). Credential cleanup
 and workflow run rows are not part of this model.
 */
module CiJournal {
  import opened Wrappers
  import opened Traces

  datatype Status = Pending | Running | Success | Failure | Cancelled

  /** The stored text is masked; the digest binds the exact line, and stands for it. */
  datatype Line = Line(text: string, digest: nat)

  /** A receipt's digest binds its status, its exact log count and the rest of the request. */
  datatype Receipt = Receipt(status: Status, last: nat, body: nat)

  datatype Job = Job(status: Status, needs: set<nat>, runner: Option<nat>, connection: Option<nat>, journal: bool,
                     sequence: nat, lines: map<nat, Line>, receipt: Option<Receipt>, org: nat)

  predicate Terminal(status: Status) { status == Success || status == Failure || status == Cancelled }

  const MAX_LINE: int := 0x100000

  // ----- transactions on a job whose runner and connection were checked -----

  /** Appends the next line, accepts an identical replay, refuses everything else. */
  function AppendTx(j: Job, sequence: int, text: string, digest: nat): (Job, bool) {
    if sequence <= 0 || |text| > MAX_LINE then (j, false)
    else if sequence <= j.sequence then (j, sequence in j.lines && j.lines[sequence].digest == digest)
    else if Terminal(j.status) || sequence != j.sequence + 1 then (j, false)
    else (j.(lines := j.lines[sequence := Line(text, digest)], sequence := sequence), true)
  }

  /** A terminal status needs the exact count of the journal; the same receipt may come again. */
  function ReceiptTx(j: Job, status: Status, last: Option<nat>, body: nat): (Job, bool) {
    if Terminal(status) && last.None? then (j, false)
    else if Terminal(j.status) then
      (j, last.Some? && Terminal(status) && j.receipt == Some(Receipt(status, last.value, body)))
    else if Terminal(status) && last.value != j.sequence then (j, false)
    else (j.(status := status, receipt := if Terminal(status) then Some(Receipt(status, last.value, body)) else None), true)
  }

  function Interrupted(j: Job, runner: nat, connection: Option<nat>): Job {
    if j.runner == Some(runner) && (connection.None? || j.connection == connection) && !Terminal(j.status) then j.(status := Failure) else j
  }

  function StartTx(j: Job, runner: nat): (Job, bool) {
    if j.runner == Some(runner) && j.status == Pending then (j.(status := Running), true) else (j, false)
  }

  /** The reservation is given back; the connection and the journal stay as they are. */
  function BlockTx(j: Job): (Job, bool) {
    if !Terminal(j.status) && j.runner.Some? then (j.(status := Pending, runner := None), true) else (j, false)
  }

  /** The preparation of its credentials expired before the job was started. */
  function ExpireTx(j: Job): Job { if j.status == Pending then j.(status := Failure) else j }

  /** The job's row and its log rows, as the statements change them under the row lock. */
  class Row {
    var status: Status
    var sequence: nat
    var lines: map<nat, Line>
    var receipt: Option<Receipt>
    const job: Job

    constructor (j: Job)
      ensures View() == j
    {
      job, status, sequence, lines, receipt := j, j.status, j.sequence, j.lines, j.receipt;
    }

    function View(): Job
      reads this
    {
      job.(status := status, sequence := sequence, lines := lines, receipt := receipt)
    }

    method Append(next: int, text: string, digest: nat) returns (ok: bool)
      modifies this
      ensures (View(), ok) == AppendTx(old(View()), next, text, digest)
    {
      if next <= 0 || |text| > MAX_LINE { return false; }
      if next <= sequence { return next in lines && lines[next].digest == digest; }
      if Terminal(status) || next != sequence + 1 { return false; }
      lines := lines[next := Line(text, digest)];
      sequence := next;
      return true;
    }

    method RecordReceipt(to: Status, last: Option<nat>, body: nat) returns (ok: bool)
      modifies this
      ensures (View(), ok) == ReceiptTx(old(View()), to, last, body)
    {
      if Terminal(to) && last.None? { return false; }
      if Terminal(status) {
        return last.Some? && Terminal(to) && receipt == Some(Receipt(to, last.value, body));
      }
      if Terminal(to) && last.value != sequence { return false; }
      status := to;
      receipt := if Terminal(to) then Some(Receipt(to, last.value, body)) else None;
      return true;
    }

    /** The stored text in sequence order, which is all of it. */
    method Snapshot() returns (texts: seq<string>)
      requires forall k :: 1 <= k <= sequence ==> k in lines
      ensures |texts| == sequence && forall i :: 0 <= i < sequence ==> texts[i] == lines[i + 1].text
    {
      texts := [];
      for k := 0 to sequence
        invariant |texts| == k && forall i :: 0 <= i < k ==> texts[i] == lines[i + 1].text
      {
        texts := texts + [lines[k + 1].text];
      }
    }
  }

  // ----- state -----

  /** One pump's hold on a reservation, from its claim until the job is sent or given back. */
  datatype Stage = Reserved | Started | Releasing

  datatype Pump = Pump(job: nat, runner: nat, connection: Option<nat>, stage: Stage)

  /**
   `orgs` maps a runner to its organization and `runners` to its current connection; connections are never reused. `delivered`
   records to whom a job was sent, `emitted` what the runner then printed, `closed` how it ended.
   */
  datatype State = State(jobs: map<nat, Job>, runners: map<nat, Option<nat>>, nextConnection: nat, pumps: map<nat, Pump>,
                         delivered: map<nat, (nat, Option<nat>)>, emitted: map<nat, seq<nat>>, closed: map<nat, Receipt>,
                         orgs: map<nat, nat>)

  const INITIAL: State := State(map[], map[], 1, map[], map[], map[], map[], map[])

  datatype Step =
    | AddRunner(runner: nat, org: nat)
    | AddJob(job: nat, needs: set<nat>, org: nat)
    | Begin(runner: nat)
    | End(runner: nat, connection: nat)
    | Claim(pid: nat, runner: nat, expected: Option<nat>, job: nat)
    | Start(pid: nat, applied: bool, acked: bool)
    | Deliver(pid: nat, sent: bool)
    | Abandon(pid: nat)
    | Block(pid: nat, applied: bool)
    | PumpCrash(pid: nat)
    | ExpirePreparation(job: nat)
    | Frame(runner: nat, connection: nat, job: nat, sequence: int, text: string, digest: nat)
    | Report(runner: nat, connection: nat, job: nat, status: Status, last: Option<nat>, body: nat)
    | Emit(job: nat, line: nat)
    | Close(job: nat, status: Status, body: nat)

  /** Both locks of `lockRunnerJob`: the runner's current connection, and the job given to it. */
  predicate Locked(s: State, runner: nat, connection: nat, job: nat) {
    && connection != 0 && runner in s.runners && s.runners[runner] == Some(connection)
    && job in s.jobs && s.jobs[job].runner == Some(runner) && s.jobs[job].connection == Some(connection) && s.jobs[job].journal
  }

  function InterruptAll(jobs: map<nat, Job>, runner: nat, connection: Option<nat>): map<nat, Job> {
    map id | id in jobs :: Interrupted(jobs[id], runner, connection)
  }

  predicate Claimable(s: State, job: nat) {
    && job in s.jobs && s.jobs[job].status == Pending && s.jobs[job].runner.None?
    && forall n :: n in s.jobs[job].needs ==> n in s.jobs && s.jobs[n].status == Success
  }

  function DoClaim(s: State, pid: nat, runner: nat, expected: Option<nat>, job: nat): State {
    if pid in s.pumps || runner !in s.runners || (expected.Some? && s.runners[runner] != expected) || !Claimable(s, job)
       || runner !in s.orgs || s.orgs[runner] != s.jobs[job].org then s
    else
      var c := s.runners[runner];
      s.(jobs := s.jobs[job := s.jobs[job].(runner := Some(runner), connection := c, journal := c.Some?)],
         pumps := s.pumps[pid := Pump(job, runner, c, Reserved)])
  }

  function DoStart(s: State, pid: nat, applied: bool, acked: bool): State {
    if pid !in s.pumps || s.pumps[pid].stage != Reserved || s.pumps[pid].job !in s.jobs then s
    else
      var p := s.pumps[pid];
      var (j, ok) := StartTx(s.jobs[p.job], p.runner);
      s.(jobs := if applied then s.jobs[p.job := j] else s.jobs,
         pumps := s.pumps[pid := p.(stage := if applied && acked && ok then Started else Releasing)])
  }

  function DoDeliver(s: State, pid: nat, sent: bool): State {
    if pid !in s.pumps || s.pumps[pid].stage != Started then s
    else
      var p := s.pumps[pid];
      if sent then s.(delivered := s.delivered[p.job := (p.runner, p.connection)], emitted := s.emitted[p.job := []], pumps := s.pumps - {pid})
      else s.(pumps := s.pumps[pid := p.(stage := Releasing)])
  }

  function DoBlock(s: State, pid: nat, applied: bool): State {
    if pid !in s.pumps || s.pumps[pid].stage != Releasing || s.pumps[pid].job !in s.jobs then s
    else
      var p := s.pumps[pid];
      s.(jobs := if applied then s.jobs[p.job := BlockTx(s.jobs[p.job]).0] else s.jobs, pumps := s.pumps - {pid})
  }

  function Do(s: State, e: Step): State {
    match e
    case AddRunner(r, org) => if r in s.runners then s else s.(runners := s.runners[r := None], orgs := s.orgs[r := org])
    case AddJob(job, needs, org) => if job in s.jobs then s else s.(jobs := s.jobs[job := Job(Pending, needs, None, None, false, 0, map[], None, org)])
    case Begin(r) =>
      if r !in s.runners then s
      else s.(jobs := InterruptAll(s.jobs, r, None), runners := s.runners[r := Some(s.nextConnection)], nextConnection := s.nextConnection + 1)
    case End(r, c) =>
      if r !in s.runners || s.runners[r] != Some(c) then s
      else s.(jobs := InterruptAll(s.jobs, r, Some(c)), runners := s.runners[r := None])
    case Claim(pid, r, expected, job) => DoClaim(s, pid, r, expected, job)
    case Start(pid, applied, acked) => DoStart(s, pid, applied, acked)
    case Deliver(pid, sent) => DoDeliver(s, pid, sent)
    case Abandon(pid) =>
      if pid in s.pumps && s.pumps[pid].stage == Reserved then s.(pumps := s.pumps[pid := s.pumps[pid].(stage := Releasing)]) else s
    case Block(pid, applied) => DoBlock(s, pid, applied)
    case PumpCrash(pid) => s.(pumps := s.pumps - {pid})
    case ExpirePreparation(job) => if job in s.jobs then s.(jobs := s.jobs[job := ExpireTx(s.jobs[job])]) else s
    case Frame(r, c, job, sequence, text, digest) =>
      if Locked(s, r, c, job) then s.(jobs := s.jobs[job := AppendTx(s.jobs[job], sequence, text, digest).0]) else s
    case Report(r, c, job, status, last, body) =>
      if Locked(s, r, c, job) then s.(jobs := s.jobs[job := ReceiptTx(s.jobs[job], status, last, body).0]) else s
    case Emit(job, line) =>
      if job in s.emitted && job !in s.closed then s.(emitted := s.emitted[job := s.emitted[job] + [line]]) else s
    case Close(job, status, body) =>
      if job in s.emitted && job !in s.closed && Terminal(status) then s.(closed := s.closed[job := Receipt(status, |s.emitted[job]|, body)]) else s
  }

  ghost function Exec(steps: seq<Step>): State { EndOf(Do, INITIAL, steps) }

  // ----- invariants -----

  ghost predicate JournalSound(j: Job) {
    && (forall k :: k in j.lines <==> 1 <= k <= j.sequence)
    && (j.receipt.Some? ==> Terminal(j.status) && j.receipt.value.status == j.status && j.receipt.value.last == j.sequence)
  }

  /** A job that a live incarnation holds carries that incarnation's connection. */
  predicate Fenced(j: Job, runners: map<nat, Option<nat>>) {
    && (j.journal ==> j.connection.Some?)
    && (j.runner.Some? ==> j.runner.value in runners)
    && (j.runner.Some? && !Terminal(j.status) && j.journal ==> runners[j.runner.value] == j.connection)
    && (j.status == Running ==> j.runner.Some?)
  }

  predicate NeedsMet(j: Job, jobs: map<nat, Job>) {
    j.runner.Some? ==> forall n :: n in j.needs ==> n in jobs && jobs[n].status == Success
  }

  ghost predicate JobSound(j: Job, runners: map<nat, Option<nat>>, jobs: map<nat, Job>) {
    JournalSound(j) && Fenced(j, runners) && NeedsMet(j, jobs)
  }

  ghost predicate JobsSound(jobs: map<nat, Job>, runners: map<nat, Option<nat>>) {
    forall id :: id in jobs ==> JobSound(jobs[id], runners, jobs)
  }

  /** The job is still with the incarnation it was given to, or has ended. */
  predicate With(j: Job, runner: nat, connection: Option<nat>) {
    Terminal(j.status) || (j.runner == Some(runner) && j.connection == connection && j.journal == connection.Some?)
  }

  /** Every pump holds a job of its own that was never sent. */
  predicate PumpsSound(jobs: map<nat, Job>, pumps: map<nat, Pump>, delivered: map<nat, (nat, Option<nat>)>) {
    && (forall p :: p in pumps ==> pumps[p].job in jobs && pumps[p].job !in delivered && With(jobs[pumps[p].job], pumps[p].runner, pumps[p].connection))
    && (forall p, q :: p in pumps && q in pumps && p != q ==> pumps[p].job != pumps[q].job)
  }

  predicate DeliveredSound(jobs: map<nat, Job>, delivered: map<nat, (nat, Option<nat>)>) {
    forall id :: id in delivered ==> id in jobs && With(jobs[id], delivered[id].0, delivered[id].1)
  }

  predicate RecordsSound(s: State) {
    && s.emitted.Keys == s.delivered.Keys
    && (forall id :: id in s.closed ==> id in s.emitted && s.closed[id].last == |s.emitted[id]| && Terminal(s.closed[id].status))
  }

  predicate RunnersSound(s: State) {
    s.nextConnection > 0 && forall r :: r in s.runners && s.runners[r].Some? ==> 0 < s.runners[r].value < s.nextConnection
  }

  ghost predicate Inv(s: State) {
    && JobsSound(s.jobs, s.runners) && PumpsSound(s.jobs, s.pumps, s.delivered) && DeliveredSound(s.jobs, s.delivered)
    && RecordsSound(s) && RunnersSound(s)
  }

  // ----- how jobs change -----

  /** An ended job is frozen; before that its stored lines stay as they are. */
  predicate Evolves(j: Job, j': Job) {
    && j'.needs == j.needs && j'.org == j.org
    && (Terminal(j.status) ==> j' == j)
    && j.sequence <= j'.sequence
    && (forall k :: k in j.lines ==> k in j'.lines && j'.lines[k] == j.lines[k])
  }

  predicate KeepsHolder(j: Job, j': Job) {
    && j'.runner == j.runner && j'.connection == j.connection && j'.journal == j.journal
    && (j'.status == Running ==> j.runner.Some?)
  }

  /** Every job evolves, and one that is with an incarnation stays with it. */
  ghost predicate Moves(jobs: map<nat, Job>, jobs': map<nat, Job>) {
    forall id :: id in jobs ==> id in jobs' && Evolves(jobs[id], jobs'[id])
  }

  ghost predicate Stays(jobs: map<nat, Job>, jobs': map<nat, Job>) {
    forall id :: id in jobs ==> id in jobs' && (Terminal(jobs[id].status) || jobs[id].runner.Some? ==> KeepsHolder(jobs[id], jobs'[id]))
  }

  lemma AppendSound(j: Job, sequence: int, text: string, digest: nat)
    requires JournalSound(j) && j.runner.Some?
    ensures var j' := AppendTx(j, sequence, text, digest).0;
            JournalSound(j') && Evolves(j, j') && KeepsHolder(j, j')
  {
  }

  lemma ReceiptSound(j: Job, status: Status, last: Option<nat>, body: nat)
    requires JournalSound(j) && j.runner.Some?
    ensures var j' := ReceiptTx(j, status, last, body).0; JournalSound(j') && Evolves(j, j') && KeepsHolder(j, j')
  {
  }

  lemma NeedsStay(jobs: map<nat, Job>, jobs': map<nat, Job>, j: Job, j': Job)
    requires NeedsMet(j, jobs) && Moves(jobs, jobs') && j'.needs == j.needs && j'.runner == j.runner
    ensures NeedsMet(j', jobs')
  {
  }

  /** Rows that keep their holder stay sound. */
  lemma KeepersSound(jobs: map<nat, Job>, jobs': map<nat, Job>, runners: map<nat, Option<nat>>)
    requires JobsSound(jobs, runners) && Moves(jobs, jobs') && jobs'.Keys == jobs.Keys
    requires forall id :: id in jobs ==> JournalSound(jobs'[id]) && KeepsHolder(jobs[id], jobs'[id])
    ensures JobsSound(jobs', runners)
  {
    hide JournalSound, NeedsMet;
    forall id | id in jobs' ensures JobSound(jobs'[id], runners, jobs') {
      assert JobSound(jobs[id], runners, jobs) && Evolves(jobs[id], jobs'[id]);
      NeedsStay(jobs, jobs', jobs[id], jobs'[id]);
    }
  }

  lemma HoldersStay(jobs: map<nat, Job>, jobs': map<nat, Job>, pumps: map<nat, Pump>, delivered: map<nat, (nat, Option<nat>)>)
    requires PumpsSound(jobs, pumps, delivered) && DeliveredSound(jobs, delivered) && Moves(jobs, jobs') && Stays(jobs, jobs')
    ensures PumpsSound(jobs', pumps, delivered) && DeliveredSound(jobs', delivered)
  {
  }

  lemma OneMoves(jobs: map<nat, Job>, id: nat, j': Job)
    requires id in jobs && Evolves(jobs[id], j')
    ensures Moves(jobs, jobs[id := j'])
    ensures (Terminal(jobs[id].status) || jobs[id].runner.Some? ==> KeepsHolder(jobs[id], j')) && RunningHeld(jobs) ==> Stays(jobs, jobs[id := j'])
  {
  }

  predicate RunningHeld(jobs: map<nat, Job>) { forall id :: id in jobs && jobs[id].status == Running ==> jobs[id].runner.Some? }

  lemma SoundHeld(jobs: map<nat, Job>, runners: map<nat, Option<nat>>)
    requires JobsSound(jobs, runners)
    ensures RunningHeld(jobs)
    ensures forall id :: id in jobs ==> JournalSound(jobs[id])
  {
    forall id | id in jobs ensures JournalSound(jobs[id]) && (jobs[id].status == Running ==> jobs[id].runner.Some?) {
      assert JobSound(jobs[id], runners, jobs);
    }
  }

  /** One row that keeps its holder. */
  lemma KeeperKeepsInv(s: State, id: nat, j': Job)
    requires Inv(s) && id in s.jobs && JournalSound(j') && Evolves(s.jobs[id], j') && KeepsHolder(s.jobs[id], j')
    ensures Inv(s.(jobs := s.jobs[id := j'])) && Moves(s.jobs, s.jobs[id := j'])
  {
    hide JournalSound, Evolves, JobsSound, PumpsSound, DeliveredSound, Moves, Stays;
    OneMoves(s.jobs, id, j');
    SoundHeld(s.jobs, s.runners);
    KeepersSound(s.jobs, s.jobs[id := j'], s.runners);
    HoldersStay(s.jobs, s.jobs[id := j'], s.pumps, s.delivered);
  }

  // ----- each step -----

  lemma FrameKeepsInv(s: State, r: nat, c: nat, job: nat, sequence: int, text: string, digest: nat)
    requires Inv(s) && Locked(s, r, c, job)
    ensures var jobs' := s.jobs[job := AppendTx(s.jobs[job], sequence, text, digest).0];
            Inv(s.(jobs := jobs')) && Moves(s.jobs, jobs')
  {
    hide Inv, Moves, AppendTx, JournalSound;
    JournalOf(s, job);
    AppendSound(s.jobs[job], sequence, text, digest);
    KeeperKeepsInv(s, job, AppendTx(s.jobs[job], sequence, text, digest).0);
  }

  lemma ExpireKeepsInv(s: State, job: nat)
    requires Inv(s) && job in s.jobs
    ensures var jobs' := s.jobs[job := ExpireTx(s.jobs[job])]; Inv(s.(jobs := jobs')) && Moves(s.jobs, jobs')
  {
    hide Inv, Moves;
    JournalOf(s, job);
    KeeperKeepsInv(s, job, ExpireTx(s.jobs[job]));
  }

  lemma JournalOf(s: State, job: nat)
    requires Inv(s) && job in s.jobs
    ensures JournalSound(s.jobs[job]) && Fenced(s.jobs[job], s.runners)
  {
    hide JournalSound, Fenced, PumpsSound, DeliveredSound;
    assert JobSound(s.jobs[job], s.runners, s.jobs);
  }

  lemma ReportKeepsInv(s: State, r: nat, c: nat, job: nat, status: Status, last: Option<nat>, body: nat)
    requires Inv(s) && Locked(s, r, c, job)
    ensures var jobs' := s.jobs[job := ReceiptTx(s.jobs[job], status, last, body).0];
            Inv(s.(jobs := jobs')) && Moves(s.jobs, jobs')
  {
    hide Inv, Moves, ReceiptTx, JournalSound;
    JournalOf(s, job);
    ReceiptSound(s.jobs[job], status, last, body);
    KeeperKeepsInv(s, job, ReceiptTx(s.jobs[job], status, last, body).0);
  }

  /** Interrupting a runner's jobs leaves none of its unfinished work with the old connection. */
  lemma InterruptedSound(jobs: map<nat, Job>, runners: map<nat, Option<nat>>, runner: nat, connection: Option<nat>, next: Option<nat>)
    requires JobsSound(jobs, runners) && runner in runners && (connection.Some? ==> runners[runner] == connection)
    ensures JobsSound(InterruptAll(jobs, runner, connection), runners[runner := next])
    ensures Moves(jobs, InterruptAll(jobs, runner, connection)) && Stays(jobs, InterruptAll(jobs, runner, connection))
  {
    hide NeedsMet, JobsSound;
    var jobs' := InterruptAll(jobs, runner, connection);
    forall id | id in jobs ensures JobSound(jobs[id], runners, jobs) { JobOf(jobs, runners, id); }
    assert Moves(jobs, jobs');
    assert JobsSound(jobs', runners[runner := next]) by {
      forall id | id in jobs' ensures JobSound(jobs'[id], runners[runner := next], jobs') { NeedsStay(jobs, jobs', jobs[id], jobs'[id]); }
      AllSound(jobs', runners[runner := next]);
    }
  }

  lemma JobOf(jobs: map<nat, Job>, runners: map<nat, Option<nat>>, id: nat)
    requires JobsSound(jobs, runners) && id in jobs
    ensures JobSound(jobs[id], runners, jobs)
  {
    hide JobSound;
  }

  lemma AllSound(jobs: map<nat, Job>, runners: map<nat, Option<nat>>)
    requires forall id :: id in jobs ==> JobSound(jobs[id], runners, jobs)
    ensures JobsSound(jobs, runners)
  {
    hide JobSound;
  }

  lemma BeginKeepsInv(s: State, r: nat)
    requires Inv(s) && r in s.runners
    ensures Inv(Do(s, Begin(r))) && Moves(s.jobs, Do(s, Begin(r)).jobs)
  {
    hide JobsSound, PumpsSound, DeliveredSound, Moves, Stays, InterruptAll;
    InterruptedSound(s.jobs, s.runners, r, None, Some(s.nextConnection));
    HoldersStay(s.jobs, InterruptAll(s.jobs, r, None), s.pumps, s.delivered);
  }

  lemma EndKeepsInv(s: State, r: nat, c: nat)
    requires Inv(s) && r in s.runners && s.runners[r] == Some(c)
    ensures Inv(Do(s, End(r, c))) && Moves(s.jobs, Do(s, End(r, c)).jobs)
  {
    hide JobsSound, PumpsSound, DeliveredSound, Moves, Stays, InterruptAll;
    InterruptedSound(s.jobs, s.runners, r, Some(c), None);
    HoldersStay(s.jobs, InterruptAll(s.jobs, r, Some(c)), s.pumps, s.delivered);
  }

  lemma AddRunnerKeepsInv(s: State, r: nat, org: nat)
    requires Inv(s) && r !in s.runners
    ensures Inv(s.(runners := s.runners[r := None], orgs := s.orgs[r := org])) && Moves(s.jobs, s.jobs)
  {
    hide JournalSound, NeedsMet, PumpsSound, DeliveredSound;
    forall id | id in s.jobs ensures JobSound(s.jobs[id], s.runners[r := None], s.jobs) { JobOf(s.jobs, s.runners, id); }
  }

  lemma AddJobKeepsInv(s: State, job: nat, needs: set<nat>, org: nat)
    requires Inv(s) && job !in s.jobs
    ensures Inv(Do(s, AddJob(job, needs, org))) && Moves(s.jobs, Do(s, AddJob(job, needs, org)).jobs)
  {
    hide JobsSound, PumpsSound, DeliveredSound, Stays;
    var jobs' := s.jobs[job := Job(Pending, needs, None, None, false, 0, map[], None, org)];
    SoundHeld(s.jobs, s.runners);
    forall id | id in jobs' ensures JobSound(jobs'[id], s.runners, jobs') {
      if id in s.jobs { JobOf(s.jobs, s.runners, id); NeedsStay(s.jobs, jobs', s.jobs[id], jobs'[id]); }
    }
    AllSound(jobs', s.runners);
    AddStays(s.jobs, job, jobs');
    HoldersStay(s.jobs, jobs', s.pumps, s.delivered);
  }

  lemma AddStays(jobs: map<nat, Job>, job: nat, jobs': map<nat, Job>)
    requires job !in jobs && job in jobs' && jobs' == jobs[job := jobs'[job]] && RunningHeld(jobs)
    ensures Stays(jobs, jobs')
  {
  }

  lemma ClaimKeepsInv(s: State, pid: nat, r: nat, expected: Option<nat>, job: nat)
    requires Inv(s)
    ensures Inv(DoClaim(s, pid, r, expected, job)) && Moves(s.jobs, DoClaim(s, pid, r, expected, job).jobs)
  {
    hide JobsSound, PumpsSound, DeliveredSound, Stays, Moves, JobSound, Claimable;
    var s' := DoClaim(s, pid, r, expected, job);
    MovesReflexive(s.jobs);
    if s' != s {
      ClaimFacts(s, job);
      var j, j' := s.jobs[job], s'.jobs[job];
      JobOf(s.jobs, s.runners, job);
      SoundHeld(s.jobs, s.runners);
      OneMoves(s.jobs, job, j');
      ClaimedSound(s, r, job, s'.jobs);
      HoldersStay(s.jobs, s'.jobs, s.pumps, s.delivered);
      NotHeld(s, job);
      PumpAdded(s'.jobs, s.pumps, s.delivered, pid, s'.pumps[pid]);
    }
  }

  lemma ClaimFacts(s: State, job: nat)
    requires Claimable(s, job)
    ensures job in s.jobs && s.jobs[job].status == Pending && s.jobs[job].runner.None?
    ensures forall n :: n in s.jobs[job].needs ==> n in s.jobs && s.jobs[n].status == Success
  {
  }

  lemma MovesReflexive(jobs: map<nat, Job>)
    ensures Moves(jobs, jobs)
  {
  }

  lemma ClaimedSound(s: State, r: nat, job: nat, jobs': map<nat, Job>)
    requires JobsSound(s.jobs, s.runners) && r in s.runners && job in s.jobs && Moves(s.jobs, jobs')
    requires s.jobs[job].status == Pending && forall n :: n in s.jobs[job].needs ==> n in s.jobs && s.jobs[n].status == Success
    requires jobs' == s.jobs[job := s.jobs[job].(runner := Some(r), connection := s.runners[r], journal := s.runners[r].Some?)]
    ensures JobsSound(jobs', s.runners)
  {
    hide JobsSound, Moves, NeedsMet;
    forall id | id in jobs' ensures JobSound(jobs'[id], s.runners, jobs') {
      JobOf(s.jobs, s.runners, id);
      if id == job { ClaimedNeeds(s.jobs, job, jobs'); } else { NeedsStay(s.jobs, jobs', s.jobs[id], jobs'[id]); }
    }
    AllSound(jobs', s.runners);
  }

  lemma ClaimedNeeds(jobs: map<nat, Job>, job: nat, jobs': map<nat, Job>)
    requires job in jobs && job in jobs' && Moves(jobs, jobs') && jobs'[job].needs == jobs[job].needs
    requires forall n :: n in jobs[job].needs ==> n in jobs && jobs[n].status == Success
    ensures NeedsMet(jobs'[job], jobs')
  {
  }

  /** A job that nobody reserved is with no pump, and was sent to nobody. */
  lemma NotHeld(s: State, job: nat)
    requires PumpsSound(s.jobs, s.pumps, s.delivered) && DeliveredSound(s.jobs, s.delivered)
    requires job in s.jobs && s.jobs[job].status == Pending && s.jobs[job].runner.None?
    ensures job !in s.delivered && forall p :: p in s.pumps ==> s.pumps[p].job != job
  {
  }

  lemma PumpAdded(jobs: map<nat, Job>, pumps: map<nat, Pump>, delivered: map<nat, (nat, Option<nat>)>, pid: nat, p: Pump)
    requires PumpsSound(jobs, pumps, delivered) && p.job in jobs && p.job !in delivered && With(jobs[p.job], p.runner, p.connection)
    requires forall q :: q in pumps && q != pid ==> pumps[q].job != p.job
    ensures PumpsSound(jobs, pumps[pid := p], delivered)
  {
  }

  lemma PumpOf(s: State, pid: nat)
    requires PumpsSound(s.jobs, s.pumps, s.delivered) && pid in s.pumps
    ensures var p := s.pumps[pid];
            && p.job in s.jobs && p.job !in s.delivered && With(s.jobs[p.job], p.runner, p.connection)
            && forall q :: q in s.pumps && q != pid ==> s.pumps[q].job != p.job
  {
  }

  lemma StartKeepsInv(s: State, pid: nat, applied: bool, acked: bool)
    requires Inv(s)
    ensures Inv(DoStart(s, pid, applied, acked)) && Moves(s.jobs, DoStart(s, pid, applied, acked).jobs)
  {
    hide JobsSound, PumpsSound, DeliveredSound, Moves, JournalSound;
    MovesReflexive(s.jobs);
    if pid in s.pumps && s.pumps[pid].stage == Reserved && s.pumps[pid].job in s.jobs {
      var p := s.pumps[pid];
      var j' := if applied then StartTx(s.jobs[p.job], p.runner).0 else s.jobs[p.job];
      assert s.jobs[p.job := s.jobs[p.job]] == s.jobs;
      SoundHeld(s.jobs, s.runners);
      StartedSound(s.jobs[p.job], p.runner);
      KeeperKeepsInv(s, p.job, j');
      var s1 := s.(jobs := s.jobs[p.job := j']);
      PumpOf(s1, pid);
      PumpAdded(s1.jobs, s1.pumps, s1.delivered, pid, DoStart(s, pid, applied, acked).pumps[pid]);
    }
  }

  lemma StartedSound(j: Job, runner: nat)
    requires JournalSound(j) && (j.status == Running ==> j.runner.Some?)
    ensures var j' := StartTx(j, runner).0; JournalSound(j') && Evolves(j, j') && KeepsHolder(j, j') && Evolves(j, j) && KeepsHolder(j, j)
  {
  }

  lemma DeliverKeepsInv(s: State, pid: nat, sent: bool)
    requires Inv(s)
    ensures Inv(DoDeliver(s, pid, sent)) && DoDeliver(s, pid, sent).jobs == s.jobs
  {
    hide JobsSound, PumpsSound, DeliveredSound, With;
    if pid in s.pumps && s.pumps[pid].stage == Started {
      var p := s.pumps[pid];
      PumpOf(s, pid);
      PumpAdded(s.jobs, s.pumps, s.delivered, pid, p.(stage := Releasing));
      PumpSent(s, pid);
    }
  }

  /** The job leaves its pump for the runner. */
  lemma PumpSent(s: State, pid: nat)
    requires PumpsSound(s.jobs, s.pumps, s.delivered) && DeliveredSound(s.jobs, s.delivered) && pid in s.pumps
    ensures var p := s.pumps[pid];
            var delivered' := s.delivered[p.job := (p.runner, p.connection)];
            PumpsSound(s.jobs, s.pumps - {pid}, delivered') && DeliveredSound(s.jobs, delivered')
  {
    hide With;
  }

  /** Only the pump that holds the reservation gives it back, so nothing that was sent is ever given back. */
  lemma BlockKeepsInv(s: State, pid: nat, applied: bool)
    requires Inv(s)
    ensures Inv(DoBlock(s, pid, applied)) && Moves(s.jobs, DoBlock(s, pid, applied).jobs)
  {
    hide JobsSound, JournalSound, Moves, PumpsSound, DeliveredSound, With;
    MovesReflexive(s.jobs);
    if pid in s.pumps && s.pumps[pid].stage == Releasing && s.pumps[pid].job in s.jobs {
      var p := s.pumps[pid];
      var j' := if applied then BlockTx(s.jobs[p.job]).0 else s.jobs[p.job];
      assert s.jobs[p.job := s.jobs[p.job]] == s.jobs;
      PumpOf(s, pid);
      OneMoves(s.jobs, p.job, j');
      BlockedSound(s.jobs, s.runners, p.job, j');
      PumpRemoved(s, pid, j');
    }
  }

  lemma BlockedSound(jobs: map<nat, Job>, runners: map<nat, Option<nat>>, job: nat, j': Job)
    requires JobsSound(jobs, runners) && job in jobs && (j' == BlockTx(jobs[job]).0 || j' == jobs[job]) && Moves(jobs, jobs[job := j'])
    ensures JobsSound(jobs[job := j'], runners)
  {
    hide JobsSound, Moves;
    var jobs' := jobs[job := j'];
    forall id | id in jobs' ensures JobSound(jobs'[id], runners, jobs') {
      JobOf(jobs, runners, id);
      if jobs'[id].runner == jobs[id].runner { NeedsStay(jobs, jobs', jobs[id], jobs'[id]); }
    }
    AllSound(jobs', runners);
  }

  lemma PumpRemoved(s: State, pid: nat, j': Job)
    requires PumpsSound(s.jobs, s.pumps, s.delivered) && DeliveredSound(s.jobs, s.delivered) && pid in s.pumps
    ensures PumpsSound(s.jobs[s.pumps[pid].job := j'], s.pumps - {pid}, s.delivered)
    ensures DeliveredSound(s.jobs[s.pumps[pid].job := j'], s.delivered)
  {
    hide With;
  }

  lemma StepKeepsInv(s: State, e: Step)
    requires Inv(s)
    ensures Inv(Do(s, e)) && Moves(s.jobs, Do(s, e).jobs)
  {
    hide Inv, Moves, DoClaim, DoStart, DoDeliver, DoBlock, AppendTx, ReceiptTx, InterruptAll;
    MovesReflexive(s.jobs);
    match e
    case AddRunner(r, org) => if r !in s.runners { AddRunnerKeepsInv(s, r, org); }
    case AddJob(job, needs, org) => if job !in s.jobs { AddJobKeepsInv(s, job, needs, org); }
    case Begin(r) => if r in s.runners { BeginKeepsInv(s, r); }
    case End(r, c) => if r in s.runners && s.runners[r] == Some(c) { EndKeepsInv(s, r, c); }
    case Claim(pid, r, expected, job) => ClaimKeepsInv(s, pid, r, expected, job);
    case Start(pid, applied, acked) => StartKeepsInv(s, pid, applied, acked);
    case Deliver(pid, sent) => DeliverKeepsInv(s, pid, sent);
    case Abandon(pid) => PumpMoves(s, pid);
    case Block(pid, applied) => BlockKeepsInv(s, pid, applied);
    case PumpCrash(pid) => PumpMoves(s, pid);
    case ExpirePreparation(job) => if job in s.jobs { ExpireKeepsInv(s, job); }
    case Frame(r, c, job, sequence, text, digest) => if Locked(s, r, c, job) { FrameKeepsInv(s, r, c, job, sequence, text, digest); }
    case Report(r, c, job, status, last, body) => if Locked(s, r, c, job) { ReportKeepsInv(s, r, c, job, status, last, body); }
    case Emit(_, _) => RunnerKeepsInv(s, e);
    case Close(_, _, _) => RunnerKeepsInv(s, e);
  }

  lemma PumpMoves(s: State, pid: nat)
    requires Inv(s)
    ensures Inv(s.(pumps := s.pumps - {pid}))
    ensures pid in s.pumps ==> Inv(s.(pumps := s.pumps[pid := s.pumps[pid].(stage := Releasing)]))
  {
    hide JobsSound, DeliveredSound, With;
  }

  lemma RunnerKeepsInv(s: State, e: Step)
    requires Inv(s) && (e.Emit? || e.Close?)
    ensures Inv(Do(s, e)) && Do(s, e).jobs == s.jobs
  {
    hide JobsSound, DeliveredSound, PumpsSound;
  }

  /** The invariant holds at first, and every step keeps it. */
  lemma AllKeepInv()
    ensures Inv(INITIAL) && forall s, e :: Inv(s) ==> Inv(Do(s, e))
  {
    hide Do;
    forall s, e | Inv(s) ensures Inv(Do(s, e)) { hide Inv; StepKeepsInv(s, e); }
  }

  lemma RunKeepsInv(steps: seq<Step>)
    ensures Inv(Exec(steps))
  {
    hide Do, Inv;
    AllKeepInv();
    Always(Do, INITIAL, s => Inv(s), steps);
  }

  // ----- longer runs -----

  lemma EvolvesTransitive(a: Job, b: Job, c: Job)
    requires Evolves(a, b) && Evolves(b, c)
    ensures Evolves(a, c)
  {
  }

  /** Stored lines are immutable, the journal only grows, and an ended job is frozen. */
  lemma JournalOnlyGrows(a: seq<Step>, b: seq<Step>, job: nat)
    requires job in Exec(a).jobs
    ensures job in Exec(a + b).jobs && Evolves(Exec(a).jobs[job], Exec(a + b).jobs[job])
  {
    hide Do, Inv, Evolves;
    AllKeepInv();
    forall s: State ensures Kept(s, s, job) { if job in s.jobs { EvolvesReflexive(s.jobs[job]); } }
    forall s, t, e | Kept(s, t, job) && Inv(t) ensures Kept(s, Do(t, e), job) {
      if job in s.jobs {
        StepKeepsInv(t, e);
        EvolvesTransitive(s.jobs[job], t.jobs[job], Do(t, e).jobs[job]);
      }
    }
    Onward(Do, INITIAL, s => Inv(s), (s, t) => Kept(s, t, job), a, b);
  }

  predicate Kept(s: State, t: State, job: nat) {
    job in s.jobs ==> job in t.jobs && Evolves(s.jobs[job], t.jobs[job])
  }

  lemma EvolvesReflexive(j: Job)
    ensures Evolves(j, j)
  {
  }

  // ----- one state -----

  /** The journal holds exactly the sequences 1 to `log_sequence`, and a receipt counts all of them. */
  lemma GapFree(steps: seq<Step>, job: nat, k: nat)
    requires job in Exec(steps).jobs
    ensures var j := Exec(steps).jobs[job];
            && (k in j.lines <==> 1 <= k <= j.sequence)
            && (j.receipt.Some? ==> Terminal(j.status) && j.receipt.value.last == |j.lines|)
  {
    hide Exec;
    RunKeepsInv(steps);
    JournalOf(Exec(steps), job);
    var j := Exec(steps).jobs[job];
    KeysCount(j.lines.Keys, j.sequence);
    assert |j.lines| == |j.lines.Keys|;
  }

  lemma {:induction false} KeysCount(keys: set<nat>, n: nat)
    requires forall k: nat :: k in keys <==> 1 <= k <= n
    ensures |keys| == n
  {
    if n == 0 {
      assert keys == {};
    } else {
      KeysCount(keys - {n}, n - 1);
      assert keys == keys - {n} + {n};
    }
  }

  /** Every reserved or running journal job carries its runner's current connection. */
  lemma IncarnationsFence(steps: seq<Step>, job: nat)
    requires job in Exec(steps).jobs && Exec(steps).jobs[job].journal && Exec(steps).jobs[job].runner.Some? && !Terminal(Exec(steps).jobs[job].status)
    ensures var s := Exec(steps); var j := s.jobs[job];
            j.connection.Some? && 0 < j.connection.value && j.runner.value in s.runners && s.runners[j.runner.value] == j.connection
  {
    hide Exec;
    RunKeepsInv(steps);
    JournalOf(Exec(steps), job);
  }

  /** A job that was sent is with the incarnation it was sent to, which is then still current, or it has ended. */
  lemma SentStaysWith(steps: seq<Step>, job: nat)
    requires job in Exec(steps).delivered
    ensures var s := Exec(steps); var (r, c) := s.delivered[job];
            && job in s.jobs
            && (Terminal(s.jobs[job].status)
                || (s.jobs[job].runner == Some(r) && s.jobs[job].connection == c && r in s.runners && (c.Some? ==> s.runners[r] == c)))
  {
    hide Exec, JournalSound;
    RunKeepsInv(steps);
    assert With(Exec(steps).jobs[job], Exec(steps).delivered[job].0, Exec(steps).delivered[job].1);
    JournalOf(Exec(steps), job);
  }

  lemma ChangeIsLocked(s: State, e: Step, job: nat)
    requires (e.Frame? || e.Report?) && job in s.jobs && job in Do(s, e).jobs && Do(s, e).jobs[job] != s.jobs[job]
    ensures Locked(s, e.runner, e.connection, e.job) && e.job == job
  {
    hide AppendTx, ReceiptTx;
  }

  lemma ChangedIsOpen(s: State, e: Step, job: nat)
    requires (e.Frame? || e.Report?) && Locked(s, e.runner, e.connection, job) && e.job == job && JournalSound(s.jobs[job])
    requires Do(s, e).jobs[job] != s.jobs[job]
    ensures !Terminal(s.jobs[job].status)
  {
    hide AppendTx, ReceiptTx, JournalSound;
    if e.Frame? {
      AppendSound(s.jobs[job], e.sequence, e.text, e.digest);
    } else {
      ReceiptSound(s.jobs[job], e.status, e.last, e.body);
    }
  }

  /** Frames and receipts that change a sent job come from the incarnation it was sent to. */
  lemma OnlyItsIncarnation(steps: seq<Step>, e: Step, job: nat)
    requires job in Exec(steps).delivered && (e.Frame? || e.Report?) && job in Exec(steps).jobs
    requires job in Do(Exec(steps), e).jobs && Do(Exec(steps), e).jobs[job] != Exec(steps).jobs[job]
    ensures e.job == job && Exec(steps).delivered[job] == (e.runner, Some(e.connection))
    ensures Exec(steps).runners[e.runner] == Some(e.connection)
  {
    hide Exec, JournalSound, Do;
    var s := Exec(steps);
    RunKeepsInv(steps);
    JournalOf(s, job);
    ChangeIsLocked(s, e, job);
    ChangedIsOpen(s, e, job);
    SentIsWith(s, job);
  }

  lemma SentIsWith(s: State, job: nat)
    requires Inv(s) && job in s.delivered && job in s.jobs
    ensures With(s.jobs[job], s.delivered[job].0, s.delivered[job].1)
  {
    hide JobsSound, With;
  }

  /** A job that is reserved, runs or ran has all its needs in success. */
  lemma NeedsFirst(steps: seq<Step>, job: nat, need: nat)
    requires job in Exec(steps).jobs && Exec(steps).jobs[job].runner.Some? && need in Exec(steps).jobs[job].needs
    ensures need in Exec(steps).jobs && Exec(steps).jobs[need].status == Success
  {
    hide Exec, JournalSound, Fenced;
    RunKeepsInv(steps);
    JobOf(Exec(steps).jobs, Exec(steps).runners, job);
  }

  // ----- replays -----

  /** An accepted line answers for ever: its replay is accepted without effect, another digest under its number refused. */
  lemma AcceptedFrameReplays(a: seq<Step>, e: Step, b: seq<Step>, text: string, digest: nat)
    requires e.Frame? && Locked(Exec(a), e.runner, e.connection, e.job) && AppendTx(Exec(a).jobs[e.job], e.sequence, e.text, e.digest).1
    ensures var s := Exec(a + [e] + b);
            e.job in s.jobs
            && AppendTx(s.jobs[e.job], e.sequence, text, digest) == (s.jobs[e.job], |text| <= MAX_LINE && digest == e.digest)
  {
    hide Exec, Do;
    FrameDone(a, e);
    JournalOnlyGrows(a + [e], b, e.job);
  }

  lemma FrameDone(a: seq<Step>, e: Step)
    requires e.Frame? && Locked(Exec(a), e.runner, e.connection, e.job) && AppendTx(Exec(a).jobs[e.job], e.sequence, e.text, e.digest).1
    ensures e.job in Exec(a + [e]).jobs
    ensures var j := Exec(a + [e]).jobs[e.job];
            0 < e.sequence <= j.sequence && e.sequence in j.lines && j.lines[e.sequence].digest == e.digest
  {
    hide Inv;
    EndOfNext(Do, INITIAL, a, e);
  }

  /** An accepted final receipt answers for ever: only itself may be repeated, without effect, and no line is added. */
  lemma ReceiptReplays(a: seq<Step>, e: Step, b: seq<Step>, status: Status, last: Option<nat>, body: nat, sequence: int, text: string, digest: nat)
    requires e.Report? && Terminal(e.status) && Locked(Exec(a), e.runner, e.connection, e.job)
    requires ReceiptTx(Exec(a).jobs[e.job], e.status, e.last, e.body).1
    ensures var s := Exec(a + [e] + b);
            e.job in s.jobs && e.last.Some? && s.jobs[e.job].status == e.status
            && ReceiptTx(s.jobs[e.job], status, last, body)
               == (s.jobs[e.job], status == e.status && last == e.last && body == e.body)
            && (sequence > e.last.value ==> AppendTx(s.jobs[e.job], sequence, text, digest) == (s.jobs[e.job], false))
  {
    hide Exec, Do;
    ReceiptDone(a, e);
    JournalOnlyGrows(a + [e], b, e.job);
  }

  lemma ReceiptDone(a: seq<Step>, e: Step)
    requires e.Report? && Terminal(e.status) && Locked(Exec(a), e.runner, e.connection, e.job)
    requires ReceiptTx(Exec(a).jobs[e.job], e.status, e.last, e.body).1
    ensures e.job in Exec(a + [e]).jobs
    ensures var j := Exec(a + [e]).jobs[e.job];
            Terminal(j.status) && e.last.Some? && j.sequence == e.last.value && j.receipt == Some(Receipt(e.status, e.last.value, e.body))
            && j.status == e.status
  {
    RunKeepsInv(a);
    JournalOf(Exec(a), e.job);
    EndOfNext(Do, INITIAL, a, e);
  }

  // ----- one delivery -----

  lemma StepKeepsDelivery(s: State, e: Step, job: nat)
    requires Inv(s) && job in s.delivered
    ensures job in Do(s, e).delivered && Do(s, e).delivered[job] == s.delivered[job]
  {
    hide JobsSound, PumpsSound, DeliveredSound, With, DoClaim, DoStart, DoBlock, AppendTx, ReceiptTx, InterruptAll;
    match e
    case Deliver(pid, sent) => if pid in s.pumps { PumpOf(s, pid); }
    case Claim(pid, r, expected, j) => OnlyDeliveriesDeliver(s, e);
    case Start(pid, applied, acked) => OnlyDeliveriesDeliver(s, e);
    case Block(pid, applied) => OnlyDeliveriesDeliver(s, e);
    case _ =>
  }

  lemma OnlyDeliveriesDeliver(s: State, e: Step)
    requires e.Claim? || e.Start? || e.Block?
    ensures Do(s, e).delivered == s.delivered && Do(s, e).emitted == s.emitted && Do(s, e).closed == s.closed
  {
  }

  /** A sent job stays with the incarnation it was sent to. */
  lemma DeliveryStays(a: seq<Step>, b: seq<Step>, job: nat)
    requires job in Exec(a).delivered
    ensures job in Exec(a + b).delivered && Exec(a + b).delivered[job] == Exec(a).delivered[job]
  {
    hide Do, Inv;
    AllKeepInv();
    forall s, t, e | SentAlike(s, t, job) && Inv(t) ensures SentAlike(s, Do(t, e), job) {
      if job in s.delivered { StepKeepsDelivery(t, e, job); }
    }
    Onward(Do, INITIAL, s => Inv(s), (s, t) => SentAlike(s, t, job), a, b);
  }

  /** The step hands the job to its runner: the send of a started reservation goes through. */
  predicate Sends(s: State, e: Step, job: nat) {
    e.Deliver? && e.sent && e.pid in s.pumps && s.pumps[e.pid].stage == Started && s.pumps[e.pid].job == job
  }

  /** How often a run hands the job to a runner. */
  ghost function TimesSent(steps: seq<Step>, job: nat): nat {
    if steps == [] then 0
    else
      var before := steps[..|steps| - 1];
      TimesSent(before, job) + if Sends(Exec(before), steps[|steps| - 1], job) then 1 else 0
  }

  lemma SendIs(s: State, e: Step, job: nat)
    requires Inv(s)
    ensures Sends(s, e, job) ==> job !in s.delivered && job in Do(s, e).delivered
    ensures !Sends(s, e, job) ==> (job in Do(s, e).delivered <==> job in s.delivered)
  {
    hide JobsSound, DeliveredSound, With, DoClaim, DoStart, DoBlock, AppendTx, ReceiptTx, InterruptAll;
    match e
    case Deliver(pid, sent) => if pid in s.pumps { PumpOf(s, pid); }
    case Claim(pid, r, expected, j) => OnlyDeliveriesDeliver(s, e);
    case Start(pid, applied, acked) => OnlyDeliveriesDeliver(s, e);
    case Block(pid, applied) => OnlyDeliveriesDeliver(s, e);
    case _ =>
  }

  /** In every run a job is sent at most once, to whichever incarnation, and what was sent no pump holds. */
  lemma {:induction false} SentOnce(steps: seq<Step>, job: nat, pid: nat)
    ensures TimesSent(steps, job) == if job in Exec(steps).delivered then 1 else 0
    ensures job in Exec(steps).delivered && pid in Exec(steps).pumps ==> Exec(steps).pumps[pid].job != job
  {
    hide Do, JobsSound, DeliveredSound, With, Sends;
    RunKeepsInv(steps);
    if steps == [] {
      EndOfNone(Do, INITIAL);
    } else {
      var before, e := steps[..|steps| - 1], steps[|steps| - 1];
      SentOnce(before, job, pid);
      RunKeepsInv(before);
      EndOfLast(Do, INITIAL, steps);
      SendIs(Exec(before), e, job);
    }
  }

  predicate SentAlike(s: State, t: State, job: nat) {
    job in s.delivered ==> job in t.delivered && t.delivered[job] == s.delivered[job]
  }

  // ----- the journal refines what the runner printed -----

  function Emitted(s: State, job: nat): seq<nat> { if job in s.emitted then s.emitted[job] else [] }

  /** The runner of this job numbers its lines 1, 2, 3, ... and reports only how it really ended. */
  ghost predicate HonestStep(s: State, e: Step, job: nat) {
    && (e.Frame? && e.job == job ==>
          1 <= e.sequence <= |Emitted(s, job)| && e.digest == Emitted(s, job)[e.sequence - 1])
    && (e.Report? && e.job == job && Terminal(e.status) && e.last.Some? ==>
          job in s.closed && s.closed[job] == Receipt(e.status, e.last.value, e.body))
  }

  /** Frames may be lost, repeated and reordered; every other runner may do anything. */
  ghost predicate Honest(steps: seq<Step>, job: nat) {
    forall i :: 0 <= i < |steps| ==> HonestStep(Exec(steps[..i]), steps[i], job)
  }

  ghost predicate Refines(s: State, job: nat) {
    job in s.jobs ==>
      var j := s.jobs[job];
      && j.sequence <= |Emitted(s, job)|
      && (forall k :: 1 <= k <= j.sequence ==> k in j.lines && j.lines[k].digest == Emitted(s, job)[k - 1])
      && (j.receipt.Some? ==> job in s.closed && j.receipt == Some(s.closed[job]))
  }

  lemma AppendRefines(s: State, job: nat, sequence: int, text: string, digest: nat)
    requires Refines(s, job) && job in s.jobs && JournalSound(s.jobs[job])
    requires 1 <= sequence <= |Emitted(s, job)| && digest == Emitted(s, job)[sequence - 1]
    ensures Refines(s.(jobs := s.jobs[job := AppendTx(s.jobs[job], sequence, text, digest).0]), job)
  {
  }

  lemma ReceiptRefines(s: State, job: nat, status: Status, last: Option<nat>, body: nat)
    requires Refines(s, job) && job in s.jobs && JournalSound(s.jobs[job])
    requires Terminal(status) && last.Some? ==> job in s.closed && s.closed[job] == Receipt(status, last.value, body)
    ensures Refines(s.(jobs := s.jobs[job := ReceiptTx(s.jobs[job], status, last, body).0]), job)
  {
  }

  /** Steps of the store that write no line and no receipt. */
  lemma OtherRefines(s: State, e: Step, job: nat)
    requires Refines(s, job) && Inv(s) && !e.Frame? && !e.Report? && !e.Deliver? && !e.Emit? && !e.Close?
    ensures Refines(Do(s, e), job)
  {
    hide Inv;
  }

  lemma DeliverRefines(s: State, pid: nat, sent: bool, job: nat)
    requires Refines(s, job) && Inv(s)
    ensures Refines(DoDeliver(s, pid, sent), job)
  {
    hide JobsSound, DeliveredSound, With;
    if pid in s.pumps && s.pumps[pid].stage == Started { PumpOf(s, pid); }
  }

  lemma RunnerRefines(s: State, e: Step, job: nat)
    requires Refines(s, job) && (e.Emit? || e.Close?)
    ensures Refines(Do(s, e), job)
  {
  }

  lemma StepRefines(s: State, e: Step, job: nat)
    requires Inv(s) && Refines(s, job) && HonestStep(s, e, job)
    ensures Refines(Do(s, e), job)
  {
    hide Refines, Inv, AppendTx, ReceiptTx, DoDeliver, DoClaim, DoStart, DoBlock, InterruptAll;
    if e.Frame? {
      if Locked(s, e.runner, e.connection, e.job) {
        if e.job == job { JournalOf(s, job); AppendRefines(s, job, e.sequence, e.text, e.digest); }
        else { ElsewhereRefines(s, e.job, AppendTx(s.jobs[e.job], e.sequence, e.text, e.digest).0, job); }
      }
    } else if e.Report? {
      if Locked(s, e.runner, e.connection, e.job) {
        if e.job == job { JournalOf(s, job); ReceiptRefines(s, job, e.status, e.last, e.body); }
        else { ElsewhereRefines(s, e.job, ReceiptTx(s.jobs[e.job], e.status, e.last, e.body).0, job); }
      }
    } else if e.Deliver? {
      DeliverRefines(s, e.pid, e.sent, job);
    } else if e.Emit? || e.Close? {
      RunnerRefines(s, e, job);
    } else {
      OtherRefines(s, e, job);
    }
  }

  lemma ElsewhereRefines(s: State, other: nat, j': Job, job: nat)
    requires Refines(s, job) && other != job
    ensures Refines(s.(jobs := s.jobs[other := j']), job)
  {
  }

  lemma {:induction false} RunRefines(steps: seq<Step>, job: nat)
    requires Honest(steps, job)
    ensures Refines(Exec(steps), job)
  {
    hide Do, Inv, HonestStep;
    if steps == [] {
      EndOfNone(Do, INITIAL);
    } else {
      hide Refines;
      var before := steps[..|steps| - 1];
      EndOfLast(Do, INITIAL, steps);
      forall i | 0 <= i < |before| ensures HonestStep(Exec(before[..i]), before[i], job) {
        assert before[..i] == steps[..i];
      }
      RunRefines(before, job);
      RunKeepsInv(before);
      StepRefines(Exec(before), steps[|steps| - 1], job);
    }
  }

  function Digests(j: Job): seq<nat>
    requires forall k :: 1 <= k <= j.sequence ==> k in j.lines
  {
    seq(j.sequence, i requires 0 <= i < j.sequence => j.lines[i + 1].digest)
  }

  /**
   The journal is always a prefix of what the runner printed; closed by its receipt, it is all of
   it, exactly as counted, whatever happens later.
   */
  lemma JournalIsEmission(a: seq<Step>, b: seq<Step>, job: nat)
    requires Honest(a, job) && job in Exec(a).jobs
    ensures var s := Exec(a); var j := s.jobs[job];
            && (forall k :: 1 <= k <= j.sequence ==> k in j.lines)
            && Digests(j) <= Emitted(s, job)
            && (j.receipt.Some? ==> Digests(j) == Emitted(s, job) && j.receipt.value.last == |Emitted(s, job)|)
            && (j.receipt.Some? ==> job in Exec(a + b).jobs && Exec(a + b).jobs[job] == j)
  {
    hide Exec, Honest;
    RunRefines(a, job);
    RunKeepsInv(a);
    JournalOf(Exec(a), job);
    JournalOnlyGrows(a, b, job);
    ReceiptCounts(Exec(a), job);
  }

  lemma ReceiptCounts(s: State, job: nat)
    requires Inv(s) && Refines(s, job) && job in s.jobs
    ensures s.jobs[job].receipt.Some? ==> s.jobs[job].sequence == |Emitted(s, job)|
  {
    hide JobsSound, PumpsSound, DeliveredSound;
    JournalOf(s, job);
  }
}
