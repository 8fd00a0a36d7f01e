/**
 What the CI transactions store and whom they serve, exactly: `runner_journal.go`, `connections.go`
 and the claim and release of `store.go` in `internal/ci`.
 */
module CiLaws {
  import opened Wrappers
  import opened CiJournal
  import opened Traces

  // ----- the text of the journal -----

  /** The k-th step stored this line of the job: an accepted frame with the next number. */
  ghost predicate Stores(steps: seq<Step>, k: int, job: nat, sequence: nat) {
    && 0 <= k < |steps| && steps[k].Frame? && steps[k].job == job && steps[k].sequence == sequence
    && Locked(Exec(steps[..k]), steps[k].runner, steps[k].connection, job)
    && Exec(steps[..k]).jobs[job].sequence + 1 == sequence
    && AppendTx(Exec(steps[..k]).jobs[job], sequence, steps[k].text, steps[k].digest).1
  }

  /** A frame is taken exactly when it repeats a stored line or is the next one of an open job; a new line is stored as sent. */
  lemma AppendsExactly(steps: seq<Step>, job: nat, sequence: int, text: string, digest: nat)
    requires job in Exec(steps).jobs
    ensures var j := Exec(steps).jobs[job];
            var replay := 1 <= sequence <= j.sequence && |text| <= 0x100000 && sequence in j.lines && j.lines[sequence].digest == digest;
            var next := sequence == j.sequence + 1 && |text| <= 0x100000 && j.status != Success && j.status != Failure && j.status != Cancelled;
            AppendTx(j, sequence, text, digest) ==
            (if next then j.(lines := j.lines[sequence := Line(text, digest)], sequence := sequence) else j, replay || next)
  {
  }

  /** A frame that was new when it was accepted stays in the journal as it was sent, text and digest. */
  lemma AcceptedFrameStays(a: seq<Step>, e: Step, b: seq<Step>)
    requires e.Frame? && Locked(Exec(a), e.runner, e.connection, e.job) && e.sequence > Exec(a).jobs[e.job].sequence
    requires AppendTx(Exec(a).jobs[e.job], e.sequence, e.text, e.digest).1
    ensures var s := Exec(a + [e] + b);
            e.job in s.jobs && e.sequence in s.jobs[e.job].lines && s.jobs[e.job].lines[e.sequence] == Line(e.text, e.digest)
  {
    hide Exec, Do;
    FrameStored(a, e);
    JournalOnlyGrows(a + [e], b, e.job);
  }

  lemma FrameStored(a: seq<Step>, e: Step)
    requires e.Frame? && Locked(Exec(a), e.runner, e.connection, e.job) && e.sequence > Exec(a).jobs[e.job].sequence
    requires AppendTx(Exec(a).jobs[e.job], e.sequence, e.text, e.digest).1
    ensures var s := Exec(a + [e]);
            e.job in s.jobs && e.sequence in s.jobs[e.job].lines && s.jobs[e.job].lines[e.sequence] == Line(e.text, e.digest)
  {
    hide Inv;
    EndOfNext(Do, INITIAL, a, e);
  }

  /** Only an accepted next frame adds a line, and no step changes one. */
  lemma StepStores(s: State, e: Step, job: nat, k: nat)
    requires Inv(s) && job in Do(s, e).jobs && k in Do(s, e).jobs[job].lines && !(job in s.jobs && k in s.jobs[job].lines)
    ensures e.Frame? && e.job == job && e.sequence == k && Locked(s, e.runner, e.connection, job)
    ensures s.jobs[job].sequence + 1 == k && AppendTx(s.jobs[job], k, e.text, e.digest).1
    ensures Do(s, e).jobs[job].lines[k] == Line(e.text, e.digest)
  {
    hide Inv, InterruptAll, DoClaim, DoStart, DoBlock, DoDeliver, ReceiptTx;
    match e
    case Claim(pid, r, expected, j) => OthersStoreNothing(s, e, job);
    case Start(pid, applied, acked) => OthersStoreNothing(s, e, job);
    case Block(pid, applied) => OthersStoreNothing(s, e, job);
    case Begin(r) => OthersStoreNothing(s, e, job);
    case End(r, c) => OthersStoreNothing(s, e, job);
    case Report(r, c, j, status, last, body) => OthersStoreNothing(s, e, job);
    case Deliver(pid, sent) => OthersStoreNothing(s, e, job);
    case _ =>
  }

  lemma OthersStoreNothing(s: State, e: Step, job: nat)
    requires (e.Claim? || e.Start? || e.Block? || e.Begin? || e.End? || e.Report? || e.Deliver?) && job in Do(s, e).jobs
    ensures job in s.jobs && Do(s, e).jobs[job].lines == s.jobs[job].lines
  {
  }

  /**
   Every line of every journal is a frame that was accepted as the next one, with its text; so what a
   reader gets is, line by line, what those frames brought.
   */
  lemma {:induction false} LinesAreFrames(steps: seq<Step>, job: nat, sequence: nat) returns (k: nat)
    requires job in Exec(steps).jobs && sequence in Exec(steps).jobs[job].lines
    ensures Stores(steps, k, job, sequence) && Exec(steps).jobs[job].lines[sequence] == Line(steps[k].text, steps[k].digest)
  {
    hide Exec, Do, Inv;
    if steps == [] {
      NoJobs(job);
    } else {
      k := |steps| - 1;
      var s, e := Exec(steps[..k]), steps[k];
      Last(steps);
      RunKeepsInv(steps[..k]);
      if job in s.jobs && sequence in s.jobs[job].lines {
        StepKeepsInv(s, e);
        k := LinesAreFrames(steps[..k], job, sequence);
        assert steps[..|steps| - 1][..k] == steps[..k];
      } else {
        StepStores(s, e, job, sequence);
      }
    }
  }

  lemma NoJobs(job: nat)
    ensures job !in Exec([]).jobs
  {
    EndOfNone(Do, INITIAL);
  }

  lemma Last(steps: seq<Step>)
    requires steps != []
    ensures Exec(steps) == Do(Exec(steps[..|steps| - 1]), steps[|steps| - 1])
  {
    EndOfLast(Do, INITIAL, steps);
  }

  /** For an honest runner the line stored under a number has the digest of what it printed there, and the text of such a frame. */
  lemma LinesAreEmission(steps: seq<Step>, job: nat, sequence: nat) returns (k: nat)
    requires Honest(steps, job) && job in Exec(steps).jobs && 1 <= sequence <= Exec(steps).jobs[job].sequence
    ensures Stores(steps, k, job, sequence) && sequence in Exec(steps).jobs[job].lines && sequence <= |Emitted(Exec(steps), job)|
    ensures Exec(steps).jobs[job].lines[sequence] == Line(steps[k].text, Emitted(Exec(steps), job)[sequence - 1])
  {
    hide Exec, Honest, Inv, Stores;
    RunRefines(steps, job);
    k := LinesAreFrames(steps, job, sequence);
  }

  // ----- receipts -----

  /**
   A status is taken exactly when the job is open, and if final with the exact number of its lines,
   or when it repeats the stored final receipt; nothing but the status and the receipt changes.
   */
  lemma ReceiptsExactly(steps: seq<Step>, job: nat, status: Status, last: Option<nat>, body: nat)
    requires job in Exec(steps).jobs
    ensures var j := Exec(steps).jobs[job];
            var final := status == Success || status == Failure || status == Cancelled;
            var ended := j.status == Success || j.status == Failure || j.status == Cancelled;
            var replay := ended && final && last.Some? && j.receipt == Some(Receipt(status, last.value, body));
            var taken := !ended && (final ==> last == Some(|j.lines|));
            ReceiptTx(j, status, last, body) ==
            (if taken then j.(status := status, receipt := if final then Some(Receipt(status, |j.lines|, body)) else None) else j, replay || taken)
  {
    hide Exec, Inv;
    GapFree(steps, job, 0);
    CountsLines(steps, job);
  }

  lemma CountsLines(steps: seq<Step>, job: nat)
    requires job in Exec(steps).jobs
    ensures |Exec(steps).jobs[job].lines| == Exec(steps).jobs[job].sequence
  {
    hide Exec;
    RunKeepsInv(steps);
    JournalOf(Exec(steps), job);
    var j := Exec(steps).jobs[job];
    KeysCount(j.lines.Keys, j.sequence);
    assert |j.lines| == |j.lines.Keys|;
  }

  // ----- connections -----

  predicate Unfinished(j: Job) { j.status == Pending || j.status == CiJournal.Running }

  /**
   A new connection is one that no runner has, and fails exactly the unfinished jobs of its runner; a
   connection that ends, if it is the current one, fails exactly its own. Nothing else changes.
   */
  lemma ConnectionsInterrupt(steps: seq<Step>, r: nat, c: nat, job: nat)
    requires r in Exec(steps).runners && job in Exec(steps).jobs
    ensures var s := Exec(steps); var s' := Do(s, Begin(r)); var j := s.jobs[job];
            && s'.jobs.Keys == s.jobs.Keys && r in s'.runners && s'.runners[r].Some?
            && (forall q :: q in s.runners && s.runners[q].Some? ==> s.runners[q].value < s'.runners[r].value)
            && s'.jobs[job] == (if j.runner == Some(r) && Unfinished(j) then j.(status := Failure) else j)
    ensures var s := Exec(steps); var s' := Do(s, End(r, c)); var j := s.jobs[job];
            if s.runners[r] == Some(c) then
              && s'.jobs.Keys == s.jobs.Keys && s'.runners == s.runners[r := None]
              && s'.jobs[job] == (if j.runner == Some(r) && j.connection == Some(c) && Unfinished(j) then j.(status := Failure) else j)
            else s' == s
  {
    hide Exec, JobsSound, PumpsSound, DeliveredSound, RecordsSound;
    RunKeepsInv(steps);
  }

  // ----- reservations -----

  /**
   A job is reserved exactly when it waits, unreserved, with all its needs in success, for a runner of
   its own organization on the connection that asked; it then carries that connection, and nothing else changes.
   */
  lemma ClaimsExactly(steps: seq<Step>, pid: nat, r: nat, expected: Option<nat>, job: nat)
    requires pid !in Exec(steps).pumps && r in Exec(steps).runners
    ensures r in Exec(steps).orgs
    ensures var s := Exec(steps); var s' := Do(s, Claim(pid, r, expected, job));
            if && job in s.jobs && s.jobs[job].status == Pending && s.jobs[job].runner.None? && s.orgs[r] == s.jobs[job].org
               && (expected.Some? ==> s.runners[r] == expected)
               && (forall n :: n in s.jobs[job].needs ==> n in s.jobs && s.jobs[n].status == Success)
            then s' == s.(jobs := s.jobs[job := s.jobs[job].(runner := Some(r), connection := s.runners[r], journal := s.runners[r].Some?)],
                          pumps := s.pumps[pid := Pump(job, r, s.runners[r], Reserved)])
            else s' == s
  {
    hide Exec;
    RunKeepsOrgs(steps);
  }

  predicate OrgsSound(s: State) {
    && s.orgs.Keys == s.runners.Keys
    && forall job :: job in s.jobs && s.jobs[job].runner.Some? ==>
         s.jobs[job].runner.value in s.orgs && s.orgs[s.jobs[job].runner.value] == s.jobs[job].org
  }

  lemma StepKeepsOrgs(s: State, e: Step)
    requires OrgsSound(s)
    ensures OrgsSound(Do(s, e))
  {
    hide Claimable, AppendTx, ReceiptTx, InterruptAll, DoStart, DoDeliver, DoBlock, OrgsSound;
    match e
    case Frame(r, c, job, sequence, text, digest) =>
      if Locked(s, r, c, job) { AppendKeeps(s.jobs[job], sequence, text, digest); PutKeepsOrgs(s, job, AppendTx(s.jobs[job], sequence, text, digest).0); }
    case Report(r, c, job, status, last, body) =>
      if Locked(s, r, c, job) { ReceiptKeeps(s.jobs[job], status, last, body); PutKeepsOrgs(s, job, ReceiptTx(s.jobs[job], status, last, body).0); }
    case Begin(r) => if r in s.runners { InterruptKeepsOrgs(s, r, None, Some(s.nextConnection), s.nextConnection + 1); }
    case End(r, c) => if r in s.runners { InterruptKeepsOrgs(s, r, Some(c), None, s.nextConnection); }
    case Start(pid, applied, acked) => StartKeepsOrgs(s, pid, applied, acked);
    case Deliver(pid, sent) => DeliverKeepsOrgs(s, pid, sent);
    case Block(pid, applied) => BlockKeepsOrgs(s, pid, applied);
    case ExpirePreparation(job) => if job in s.jobs { PutKeepsOrgs(s, job, ExpireTx(s.jobs[job])); }
    case _ => OthersKeepOrgs(s, e);
  }

  lemma OthersKeepOrgs(s: State, e: Step)
    requires OrgsSound(s)
    requires e.AddRunner? || e.AddJob? || e.Claim? || e.Abandon? || e.PumpCrash? || e.Emit? || e.Close?
    ensures OrgsSound(Do(s, e))
  {
    hide Claimable;
  }

  lemma PutKeepsOrgs(s: State, job: nat, j': Job)
    requires OrgsSound(s) && job in s.jobs && j'.org == s.jobs[job].org && (j'.runner == s.jobs[job].runner || j'.runner.None?)
    ensures OrgsSound(s.(jobs := s.jobs[job := j']))
  {
  }

  lemma InterruptKeepsOrgs(s: State, r: nat, c: Option<nat>, next: Option<nat>, n: nat)
    requires OrgsSound(s) && r in s.runners
    ensures OrgsSound(s.(jobs := InterruptAll(s.jobs, r, c), runners := s.runners[r := next], nextConnection := n))
  {
  }

  lemma StartKeepsOrgs(s: State, pid: nat, applied: bool, acked: bool)
    requires OrgsSound(s)
    ensures OrgsSound(DoStart(s, pid, applied, acked))
  {
  }

  lemma DeliverKeepsOrgs(s: State, pid: nat, sent: bool)
    requires OrgsSound(s)
    ensures OrgsSound(DoDeliver(s, pid, sent))
  {
  }

  lemma BlockKeepsOrgs(s: State, pid: nat, applied: bool)
    requires OrgsSound(s)
    ensures OrgsSound(DoBlock(s, pid, applied))
  {
  }

  lemma AppendKeeps(j: Job, sequence: int, text: string, digest: nat)
    ensures var j' := AppendTx(j, sequence, text, digest).0; j'.runner == j.runner && j'.org == j.org
  {
  }

  lemma ReceiptKeeps(j: Job, status: Status, last: Option<nat>, body: nat)
    ensures var j' := ReceiptTx(j, status, last, body).0; j'.runner == j.runner && j'.org == j.org
  {
  }

  lemma RunKeepsOrgs(steps: seq<Step>)
    ensures OrgsSound(Exec(steps))
  {
    hide Do, OrgsSound;
    forall s, e | OrgsSound(s) ensures OrgsSound(Do(s, e)) { StepKeepsOrgs(s, e); }
    NoOrgs();
    Always(Do, INITIAL, s => OrgsSound(s), steps);
  }

  lemma NoOrgs()
    ensures OrgsSound(INITIAL)
  {
  }

  /** A job is only ever with a runner of its own organization, when reserved and when sent. */
  lemma OwnRunnersOnly(steps: seq<Step>, job: nat)
    requires job in Exec(steps).jobs && Exec(steps).jobs[job].runner.Some?
    ensures var s := Exec(steps); var r := s.jobs[job].runner.value; r in s.orgs && s.orgs[r] == s.jobs[job].org
  {
    hide Exec;
    RunKeepsOrgs(steps);
  }

  /** A reservation whose job was not sent is given back: unless the job ended, it waits again for any runner. */
  lemma GivenBack(steps: seq<Step>, pid: nat)
    requires pid in Exec(steps).pumps && Exec(steps).pumps[pid].stage == Releasing
    ensures var s := Exec(steps); var s' := Do(s, Block(pid, true)); var job := s.pumps[pid].job;
            && job in s.jobs && job in s'.jobs && pid !in s'.pumps && job !in s'.delivered
            && s'.jobs[job] == (if Unfinished(s.jobs[job]) then s.jobs[job].(status := Pending, runner := None) else s.jobs[job])
  {
    hide Exec, JobsSound, DeliveredSound, RecordsSound, RunnersSound;
    RunKeepsInv(steps);
    PumpOf(Exec(steps), pid);
  }

  /** A job is handed to its runner only after it was started for exactly this reservation; lost replies send nothing. */
  lemma StartedFirst(steps: seq<Step>, pid: nat, applied: bool, acked: bool)
    requires pid in Exec(steps).pumps && Exec(steps).pumps[pid].stage == Reserved
    ensures var s := Exec(steps); var s' := Do(s, Start(pid, applied, acked)); var p := s.pumps[pid];
            && p.job in s.jobs && p.job in s'.jobs && pid in s'.pumps
            && s'.jobs[p.job] == (if applied && s.jobs[p.job].status == Pending then s.jobs[p.job].(status := CiJournal.Running) else s.jobs[p.job])
            && s'.pumps[pid] == p.(stage := if applied && acked && s.jobs[p.job].status == Pending then Started else Releasing)
  {
    hide Exec, JobsSound, DeliveredSound, RecordsSound, RunnersSound;
    RunKeepsInv(steps);
    PumpOf(Exec(steps), pid);
  }
}
