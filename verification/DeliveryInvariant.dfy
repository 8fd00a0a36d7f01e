/** What every state of every run of the delivery protocol satisfies, and why each step keeps it. */
module DeliveryInvariant {
  import opened Wrappers
  import opened Expiry
  import opened DeploymentStore
  import opened Delivery

  // ----- one operation -----

  predicate Numbered(attempts: seq<Attempt>) {
    forall i :: 0 <= i < |attempts| ==> attempts[i].number == i + 1
  }

  /** Attempt `d` (an index) is the delivery that attempt `i` refers to. */
  ghost predicate Delivers(attempts: seq<Attempt>, d: int, i: int) {
    0 <= d <= i < |attempts| && attempts[d].kind == Execute && forall j :: d < j <= i ==> attempts[j].kind != Execute
  }

  function Last(attempts: seq<Attempt>): Attempt
    requires attempts != []
  {
    attempts[|attempts| - 1]
  }

  ghost predicate Newest(attempts: seq<Attempt>, d: int) {
    Delivers(attempts, d, |attempts| - 1)
  }

  /** Passive recovery has no credential, and the first attempt is a delivery. */
  predicate Credentialed(attempts: seq<Attempt>) {
    && (forall i :: 0 <= i < |attempts| ==> (attempts[i].credential.None? <==> attempts[i].kind == Recover))
    && (attempts != [] ==> attempts[0].kind == Execute)
  }

  /** The operation is in the state of its last attempt; the earlier ones ended without success. */
  predicate Sequenced(op: Operation) {
    var a := op.attempts;
    && (op.state == Pending <==> a == [])
    && (a != [] ==> a[|a| - 1].state == op.state)
    && (forall i :: 0 <= i < |a| - 1 ==> a[i].state == Failed || a[i].state == Uncertain)
  }

  /** Only an active operation has open obligations, and of its deliveries only the newest. */
  ghost predicate Obliged(op: Operation) {
    forall i :: 0 <= i < |op.attempts| && Open(op.attempts[i]) ==>
      Active(op) && (op.attempts[i].kind == Execute ==> Newest(op.attempts, i))
  }

  ghost predicate Coherent(op: Operation) {
    Numbered(op.attempts) && Credentialed(op.attempts) && Sequenced(op) && Obliged(op)
  }

  ghost predicate Narrowing(op: Operation) {
    var a := op.attempts;
    && Within(op.effectiveUntil, op.authorizedUntil)
    && (forall i :: 0 <= i < |a| ==> Within(op.effectiveUntil, a[i].authorizedUntil))
    && (forall i, j :: 0 <= i < j < |a| ==> Within(a[j].authorizedUntil, a[i].authorizedUntil))
    && (forall i :: 0 <= i < |a| ==>
          && a[i].credentialExpiresAt.Some?
          && Within(a[i].credentialExpiresAt, a[i].authorizedUntil)
          && a[i].credentialExpiresAt.value <= a[i].startedAt + 12 * MINUTE)
  }

  /** Some attempt that refers to delivery `d` recorded its release. */
  ghost predicate Reported(attempts: seq<Attempt>, d: int) {
    exists i :: Delivers(attempts, d, i) && attempts[i].externalId != ""
  }

  /** Recorded releases come from ended executors, and every delivery but the last left one. */
  ghost predicate Historic(jobs: map<nat, Job>, op: Operation) {
    var a := op.attempts;
    && (forall d, i :: Delivers(a, d, i) && a[i].externalId != "" ==> HasEnded(jobs, d + 1))
    && (forall d :: 0 <= d < |a| && a[d].kind == Execute && d + 1 in jobs && (op.state == Failed || !Newest(a, d)) ==> Reported(a, d))
    && (op.state == Succeeded && a != [] ==> a[|a| - 1].externalId != "")
  }

  /** The release that an executor's report names. */
  function ReleaseOf(report: Report): string { if report.Silent? then "" else report.id }

  /** The report names the release; only a deployed one says success, and only a broken one failure. */
  predicate Says(report: Report, state: Status, externalId: string) {
    && ReleaseOf(report) == externalId
    && (state == Succeeded ==> report == Deployed(externalId))
    && (state == Failed ==> report == Broken(externalId))
  }

  /** An executor of the delivery that attempt `i` refers to, or of an observation of it up to `i`, ended and said so. */
  ghost predicate Attested(jobs: map<nat, Job>, attempts: seq<Attempt>, i: int, state: Status, externalId: string) {
    exists d, m: nat :: Delivers(attempts, d, i) && d < m <= i + 1 && m in jobs && jobs[m].Ended? && Says(jobs[m].report, state, externalId)
  }

  /** Every recorded release was reported, as the attempt's state says. */
  ghost predicate Vouched(jobs: map<nat, Job>, attempts: seq<Attempt>) {
    forall i :: 0 <= i < |attempts| && attempts[i].externalId != "" ==>
      Attested(jobs, attempts, i, attempts[i].state, attempts[i].externalId)
  }

  /** A Job has a dispatch marker; while its Pod may run, its obligation is open. */
  ghost predicate JobsMarked(jobs: map<nat, Job>, op: Operation) {
    forall n :: n in jobs ==>
      && 1 <= n <= |op.attempts|
      && op.attempts[n - 1].credential.Some?
      && op.attempts[n - 1].credential.value.phase == Dispatching
      && (!jobs[n].Ended? ==> Open(op.attempts[n - 1]))
  }

  ghost predicate OperationSound(jobs: map<nat, Job>, op: Operation) {
    Coherent(op) && Narrowing(op) && Historic(jobs, op) && JobsMarked(jobs, op) && Vouched(jobs, op.attempts)
  }

  // ----- across operations -----

  ghost predicate Owned(db: Db) {
    forall id :: id in db.operations ==>
      var op := db.operations[id]; op.destination in db.owners && db.owners[op.destination] == op.org
  }

  /** An active operation is alone on its destination, and everything newer there has yet to start. */
  ghost predicate Excludes(p: Operation, q: Operation) {
    p.destination == q.destination && Active(p) ==>
      !Active(q) && (p.createdAt < q.createdAt ==> q.state == Pending)
  }

  ghost predicate Exclusive(db: Db) {
    forall p, q :: p in db.operations && q in db.operations && p != q ==> Excludes(db.operations[p], db.operations[q])
  }

  /** The event names the newest delivery of a succeeded operation and its recorded release. */
  ghost predicate Announces(op: Operation, n: int, externalId: string) {
    op.state == Succeeded && Newest(op.attempts, n - 1) && externalId == Last(op.attempts).externalId
  }

  ghost predicate Published(db: Db) {
    && (forall key :: key in db.outbox ==> key.0 in db.operations && Announces(db.operations[key.0], key.1, db.outbox[key]))
    && (forall id :: id in db.operations && db.operations[id].state == Succeeded ==> exists n :: (id, n) in db.outbox)
  }

  // ----- sessions -----

  /** The session runs its own attempt, on the copy it read under the lock. */
  predicate Engaged(x: Session) {
    x.number > 0 && Current(x) == x.number && !x.work.Passively? && !x.work.CleanUp?
  }

  predicate Unsent(jobs: map<nat, Job>, x: Session) { x.number !in jobs }

  /** What holds of a session even after its lock is gone. */
  ghost predicate Lingering(jobs: map<nat, Job>, op: Operation, x: Session) {
    && x.destination == op.destination
    && x.number <= |op.attempts|
    && (x.number > 0 ==> !x.work.CleanUp? && op.attempts[x.number - 1].kind == KindOf(x.work))
    && match x.at
       case Locked => x.number == 0
       case Loaded => x.number == 0
       case Started => x.number > 0 && Unsent(jobs, x)
       case Fetched => x.number > 0 && Unsent(jobs, x)
       case Sweeping => Engaged(x) && x.work == Reobserve && Unsent(jobs, x)
       case Ready => Engaged(x) && Unsent(jobs, x) && Deadline(x) == op.attempts[x.number - 1].credentialExpiresAt
       case Prepared => Engaged(x) && Unsent(jobs, x)
       case Marked =>
         Engaged(x) && Unsent(jobs, x)
         && Open(op.attempts[x.number - 1]) && op.attempts[x.number - 1].credential.value.phase == Dispatching
       case Sent => Engaged(x)
       case Watching(watched) =>
         Present(jobs, watched)
         && (x.work.CleanUp? || (Engaged(x) && (watched != x.number ==> x.work == Reobserve && Unsent(jobs, x))))
       case Fencing(target, after) =>
         (match after
          case Leave => x.work.CleanUp?
          case Sweep => Engaged(x) && x.work == Reobserve && Unsent(jobs, x)
          case Return(_, _) => Engaged(x) && target == x.number)
       case Returned(_, _) => x.number > 0
       case Settling(_, _) => x.number > 0
  }

  /** The local copy of a session that holds the lock agrees with the database, up to its own marks. */
  ghost predicate Agrees(jobs: map<nat, Job>, op: Operation, local: Operation, number: nat) {
    var l, a := local.attempts, op.attempts;
    && |l| == |a| == number
    && (forall i :: 0 <= i < |a| ==>
          && l[i].number == a[i].number && l[i].kind == a[i].kind && l[i].credentialExpiresAt == a[i].credentialExpiresAt && l[i].credential.Some? == a[i].credential.Some?
          && (l[i].credential.Some? ==>
                && (l[i].credential.value.resolved ==> a[i].credential.value.resolved)
                && (l[i].credential.value.phase == Preparing && a[i].credential.value.phase == Dispatching ==>
                      i + 1 == number || Present(jobs, i + 1))))
  }

  /** What an outcome claims of its delivery. */
  function Claimed(outcome: Outcome): Status { if outcome == Success then Succeeded else if outcome == DeliveryFailed then Failed else Uncertain }

  /** What an executor's answer is worth. */
  ghost predicate Worth(jobs: map<nat, Job>, op: Operation, work: Work, number: nat, outcome: Outcome, externalId: string) {
    var a := op.attempts;
    && (outcome == Success ==> externalId != "")
    && (externalId != "" ==> Attested(jobs, a, |a| - 1, Claimed(outcome), externalId))
    && (forall d :: Newest(a, d) ==>
          && (externalId != "" ==> HasEnded(jobs, d + 1))
          && (outcome == DeliveryFailed && externalId == "" ==>
                d + 1 !in jobs && a[d].credential.Some? && a[d].credential.value.resolved))
    && (outcome == Rejected && work.Deliver? ==> externalId == "" && number !in jobs)
  }

  /** The target may be acknowledged: its executor ended, or no create was or will be sent. */
  ghost predicate Fenced(jobs: map<nat, Job>, op: Operation, number: nat, target: nat) {
    && 1 <= target <= |op.attempts| && op.attempts[target - 1].credential.Some?
    && (HasEnded(jobs, target) ||
        (target !in jobs && (target == number || op.attempts[target - 1].credential.value.phase == Preparing)))
  }

  /** The settled outcome of a session: nothing is pending, and its claim about the delivery holds. */
  ghost predicate Conclusive(jobs: map<nat, Job>, op: Operation, state: Status, externalId: string) {
    && (state == Succeeded || state == Failed || state == Uncertain)
    && (state != Uncertain ==> !Unresolved(op))
    && (state == Succeeded ==> externalId != "")
    && (externalId != "" ==> Attested(jobs, op.attempts, |op.attempts| - 1, state, externalId))
    && (forall d :: Newest(op.attempts, d) ==>
          && (externalId != "" ==> HasEnded(jobs, d + 1))
          && (state == Failed && externalId == "" ==> d + 1 !in jobs))
  }

  /** What holds of a session while it has the lock. */
  ghost predicate Holding(jobs: map<nat, Job>, op: Operation, x: Session) {
    && (x.number > 0 ==> x.number == |op.attempts| && op.state == Running)
    && match x.at
       case Locked => true
       case Loaded => x.local == op
       case Started => true
       case Fetched => x.local == op
       case Sweeping => Agrees(jobs, op, x.local, x.number)
       case Ready => Agrees(jobs, op, x.local, x.number)
       case Prepared => Agrees(jobs, op, x.local, x.number)
       case Marked => Agrees(jobs, op, x.local, x.number)
       case Sent => Agrees(jobs, op, x.local, x.number)
       case Watching(_) => x.number > 0 ==> Agrees(jobs, op, x.local, x.number)
       case Fencing(target, after) =>
         Fenced(jobs, op, x.number, target) &&
         (match after
          case Leave => true
          case Sweep => target != x.number && Agrees(jobs, op, x.local, x.number)
          case Return(outcome, externalId) => Worth(jobs, op, x.work, x.number, outcome, externalId))
       case Returned(outcome, externalId) => Worth(jobs, op, x.work, x.number, outcome, externalId)
       case Settling(state, externalId) => Conclusive(jobs, op, state, externalId)
  }

  ghost predicate Sound(jobs: map<nat, Job>, op: Operation, x: Session) {
    Lingering(jobs, op, x) && (x.alive ==> Holding(jobs, op, x))
  }

  ghost predicate SessionSound(operations: map<nat, Operation>, jobs: map<nat, map<nat, Job>>, x: Session) {
    x.id in operations && Sound(Jobs(jobs, x.id), operations[x.id], x)
  }

  /** One lock holder a destination, and one owner an attempt. */
  ghost predicate Apart(x: Session, y: Session) {
    && (x.alive && y.alive ==> x.destination != y.destination)
    && (x.id == y.id && x.number > 0 ==> x.number != y.number)
  }

  ghost predicate OperationsSound(operations: map<nat, Operation>, jobs: map<nat, map<nat, Job>>) {
    && (forall id :: id in operations ==> OperationSound(Jobs(jobs, id), operations[id]))
    && (forall id :: id in jobs ==> id in operations)
  }

  ghost predicate SessionsSound(operations: map<nat, Operation>, jobs: map<nat, map<nat, Job>>, sessions: map<nat, Session>) {
    forall sid :: sid in sessions ==> SessionSound(operations, jobs, sessions[sid])
  }

  ghost predicate Separate(sessions: map<nat, Session>) {
    forall p, q :: p in sessions && q in sessions && p != q ==> Apart(sessions[p], sessions[q])
  }

  ghost predicate DbSound(db: Db) { Owned(db) && Exclusive(db) && Published(db) }

  ghost predicate Inv(s: State) {
    && OperationsSound(s.db.operations, s.jobs)
    && DbSound(s.db)
    && SessionsSound(s.db.operations, s.jobs, s.sessions)
    && Separate(s.sessions)
  }

  // ----- frames -----

  /** A session that only moves on. */
  ghost predicate Moves(x: Session, x': Session) {
    x'.id == x.id && x'.destination == x.destination && x'.number == x.number && (x'.alive ==> x.alive)
  }

  lemma BecomesKeepsSeparate(sessions: map<nat, Session>, sid: nat, next: Option<Session>)
    requires Separate(sessions) && sid in sessions && (next.Some? ==> Moves(sessions[sid], next.value))
    ensures Separate(Becomes(sessions, sid, next))
  {
  }

  /** Jobs only appear under an open marker; what a read saw stays visible. */
  ghost predicate JobsAdvance(op: Operation, jobs: map<nat, Job>, jobs': map<nat, Job>) {
    && (forall n :: HasEnded(jobs, n) ==> HasEnded(jobs', n) && jobs'[n] == jobs[n])
    && (forall n :: Present(jobs, n) ==> Present(jobs', n))
    && (forall n :: n in jobs' && n !in jobs ==>
          1 <= n <= |op.attempts| && Open(op.attempts[n - 1]) && op.attempts[n - 1].credential.value.phase == Dispatching)
    && (forall n :: n in jobs' && jobs'[n].Ended? ==> Present(jobs, n))
  }

  lemma JobsKeepMarks(op: Operation, jobs: map<nat, Job>, jobs': map<nat, Job>)
    requires JobsMarked(jobs, op) && JobsAdvance(op, jobs, jobs')
    ensures JobsMarked(jobs', op)
  {
    forall n | n in jobs'
      ensures 1 <= n <= |op.attempts| && op.attempts[n - 1].credential.Some?
      ensures op.attempts[n - 1].credential.value.phase == Dispatching && (!jobs'[n].Ended? ==> Open(op.attempts[n - 1]))
    {
      if n in jobs && jobs[n].Ended? { assert HasEnded(jobs, n); }
    }
  }

  /** A failed operation, and a delivery that is not the newest, get no more Jobs. */
  lemma JobsKeepHistory(op: Operation, jobs: map<nat, Job>, jobs': map<nat, Job>)
    requires Historic(jobs, op) && Obliged(op) && JobsAdvance(op, jobs, jobs')
    ensures Historic(jobs', op)
  {
    hide Delivers, Reported;
  }

  lemma JobsKeepAttested(op: Operation, jobs: map<nat, Job>, jobs': map<nat, Job>, i: int, state: Status, externalId: string)
    requires JobsAdvance(op, jobs, jobs') && Attested(jobs, op.attempts, i, state, externalId)
    ensures Attested(jobs', op.attempts, i, state, externalId)
  {
    hide Delivers, Says;
    var d, m: nat :| Delivers(op.attempts, d, i) && d < m <= i + 1 && m in jobs && jobs[m].Ended? && Says(jobs[m].report, state, externalId);
    assert HasEnded(jobs, m);
  }

  lemma JobsKeepVouched(op: Operation, jobs: map<nat, Job>, jobs': map<nat, Job>)
    requires JobsAdvance(op, jobs, jobs') && Vouched(jobs, op.attempts)
    ensures Vouched(jobs', op.attempts)
  {
    hide Attested, JobsAdvance;
    forall i | 0 <= i < |op.attempts| && op.attempts[i].externalId != ""
      ensures Attested(jobs', op.attempts, i, op.attempts[i].state, op.attempts[i].externalId)
    {
      JobsKeepAttested(op, jobs, jobs', i, op.attempts[i].state, op.attempts[i].externalId);
    }
  }

  lemma OperationKeepsJobs(op: Operation, jobs: map<nat, Job>, jobs': map<nat, Job>)
    requires OperationSound(jobs, op) && JobsAdvance(op, jobs, jobs')
    ensures OperationSound(jobs', op)
  {
    hide JobsMarked, Historic, JobsAdvance, Narrowing, Obliged, Sequenced, Vouched;
    JobsKeepVouched(op, jobs, jobs');
    JobsKeepMarks(op, jobs, jobs');
    JobsKeepHistory(op, jobs, jobs');
  }

  lemma LingeringKeepsJobs(op: Operation, jobs: map<nat, Job>, jobs': map<nat, Job>, y: Session)
    requires JobsAdvance(op, jobs, jobs') && Lingering(jobs, op, y)
    requires y.number in jobs' && y.number !in jobs ==> y.at == Sent
    ensures Lingering(jobs', op, y)
  {
  }

  lemma HoldingKeepsJobs(op: Operation, jobs: map<nat, Job>, jobs': map<nat, Job>, y: Session)
    requires JobsAdvance(op, jobs, jobs') && Holding(jobs, op, y)
    requires y.number in jobs' && y.number !in jobs ==> y.at == Sent
    ensures Holding(jobs', op, y)
  {
    hide Attested;
    forall i, state, externalId | Attested(jobs, op.attempts, i, state, externalId)
      ensures Attested(jobs', op.attempts, i, state, externalId)
    {
      JobsKeepAttested(op, jobs, jobs', i, state, externalId);
    }
  }

  lemma SessionKeepsJobs(op: Operation, jobs: map<nat, Job>, jobs': map<nat, Job>, y: Session)
    requires JobsAdvance(op, jobs, jobs') && Lingering(jobs, op, y)
    requires y.number in jobs' && y.number !in jobs ==> y.at == Sent
    ensures Lingering(jobs', op, y)
    ensures y.alive && Holding(jobs, op, y) ==> Holding(jobs', op, y)
  {
    hide JobsAdvance, Lingering, Holding;
    LingeringKeepsJobs(op, jobs, jobs', y);
    if y.alive && Holding(jobs, op, y) { HoldingKeepsJobs(op, jobs, jobs', y); }
  }

  // ----- one action of one session -----

  /** An action that writes nothing leaves its session sound. */
  ghost predicate KeepsSession(jobs: map<nat, Job>, op: Operation, x: Session, effect: Effect) {
    effect.next.Some? ==> Moves(x, effect.next.value) && Sound(jobs, op, effect.next.value)
  }

  /** The executor's scan finds the delivery that the last of the first `n` attempts refers to. */
  lemma {:induction false} LatestDeliveryIs(attempts: seq<Attempt>, n: nat)
    requires Numbered(attempts) && n <= |attempts|
    ensures var r := LatestDelivery(attempts, n);
            if r == 0 then forall i :: 0 <= i < n ==> attempts[i].kind != Execute else Delivers(attempts, r - 1, n - 1)
  {
    if n > 0 && attempts[n - 1].kind != Execute { LatestDeliveryIs(attempts, n - 1); }
  }

  /** A session that agrees with the database finds the database's newest delivery in its copy. */
  lemma LocalDelivery(jobs: map<nat, Job>, op: Operation, x: Session)
    requires Numbered(op.attempts) && Credentialed(op.attempts) && Agrees(jobs, op, x.local, x.number) && op.attempts != []
    ensures Newest(op.attempts, LatestDelivery(x.local.attempts, |x.local.attempts|) - 1)
    ensures forall d :: Newest(op.attempts, d) ==> d == LatestDelivery(x.local.attempts, |x.local.attempts|) - 1
    ensures op.attempts[|op.attempts| - 1].kind != Execute ==> ExistingDelivery(x.local) == LatestDelivery(x.local.attempts, |x.local.attempts|)
  {
    LatestDeliveryIs(x.local.attempts, |x.local.attempts|);
    assert x.local.attempts[0].kind == Execute;
  }

  lemma LoadSound(jobs: map<nat, Job>, op: Operation, x: Session)
    requires Sound(jobs, op, x)
    ensures KeepsSession(jobs, op, x, ActLoad(op, x))
  {
  }

  lemma FetchSound(jobs: map<nat, Job>, op: Operation, x: Session)
    requires Sound(jobs, op, x)
    ensures KeepsSession(jobs, op, x, ActFetch(op, x))
  {
  }

  lemma AgreesItself(jobs: map<nat, Job>, op: Operation)
    ensures Agrees(jobs, op, op, |op.attempts|)
  {
  }

  lemma RequireSound(jobs: map<nat, Job>, op: Operation, x: Session)
    requires Numbered(op.attempts) && Credentialed(op.attempts) && Sound(jobs, op, x)
    ensures KeepsSession(jobs, op, x, ActRequire(op, x))
  {
    hide Newest, Conclusive, Fenced, Agrees, Worth;
    AgreesItself(jobs, op);
    if x.at == Sweeping && x.alive { AgreesDeadline(jobs, op, x); }
    UnsureWorth(jobs, op, x.work, x.number);
  }

  lemma AgreesDeadline(jobs: map<nat, Job>, op: Operation, x: Session)
    requires Agrees(jobs, op, x.local, x.number) && Numbered(op.attempts) && x.number > 0
    ensures Deadline(x) == op.attempts[x.number - 1].credentialExpiresAt
  {
  }

  lemma InspectSound(jobs: map<nat, Job>, op: Operation, x: Session, target: nat)
    requires Numbered(op.attempts) && Credentialed(op.attempts) && JobsMarked(jobs, op) && Sound(jobs, op, x)
    requires ActInspect(jobs, op, x, target).write == Nothing
    ensures KeepsSession(jobs, op, x, ActInspect(jobs, op, x, target))
  {
    hide Newest, Conclusive, Worth;
  }

  lemma PrepareSound(jobs: map<nat, Job>, op: Operation, x: Session, now: Instant, issued: bool, uncertain: bool)
    requires Credentialed(op.attempts) && Sound(jobs, op, x)
    ensures KeepsSession(jobs, op, x, ActPrepare(jobs, x, now, issued, uncertain))
  {
    hide Agrees, Newest, Conclusive, Within, Truncate;
  }

  /** An ended delivery makes every reading of a report worth what it says. */
  lemma ReportWorth(jobs: map<nat, Job>, op: Operation, work: Work, number: nat, m: nat, readable: bool)
    requires forall d :: Newest(op.attempts, d) ==> HasEnded(jobs, d + 1)
    requires HasEnded(jobs, m) && m <= |op.attempts| && exists d :: Newest(op.attempts, d) && d < m
    ensures var r := ReadReport(jobs[m].report, readable); Worth(jobs, op, work, number, r.0, r.1)
  {
    hide Delivers;
    var r := ReadReport(jobs[m].report, readable);
    var d :| Newest(op.attempts, d) && d < m;
    assert r.1 != "" ==> Says(jobs[m].report, Claimed(r.0), r.1);
    assert Delivers(op.attempts, d, |op.attempts| - 1);
  }

  lemma EvidenceWorth(jobs: map<nat, Job>, op: Operation, x: Session, readable: bool)
    requires Numbered(op.attempts) && Credentialed(op.attempts) && Agrees(jobs, op, x.local, x.number)
    requires x.number > 0 && HasEnded(jobs, x.number) && !x.work.CleanUp? && !x.work.Passively?
    requires op.attempts[x.number - 1].kind == KindOf(x.work)
    ensures var r := Evidence(jobs, x, x.number, readable); Worth(jobs, op, x.work, x.number, r.0, r.1)
  {
    LocalDelivery(jobs, op, x);
    if x.work.Deliver? {
      assert Newest(op.attempts, x.number - 1);
      ReportWorth(jobs, op, x.work, x.number, x.number, readable);
    } else if HasEnded(jobs, ExistingDelivery(x.local)) {
      ReportWorth(jobs, op, x.work, x.number, x.number, readable);
    }
  }

  lemma ConfirmSound(jobs: map<nat, Job>, op: Operation, x: Session, readable: bool, again: bool)
    requires Numbered(op.attempts) && Credentialed(op.attempts) && JobsMarked(jobs, op) && Sound(jobs, op, x)
    ensures KeepsSession(jobs, op, x, ActConfirm(jobs, x, readable, again))
  {
    hide Agrees, Newest, Conclusive, Worth, Evidence;
    if x.at.Watching? && HasEnded(jobs, x.at.watched) && x.alive && x.number > 0 && x.at.watched == x.number {
      EvidenceWorth(jobs, op, x, readable);
      var (outcome, externalId) := Evidence(jobs, x, x.number, readable);
      WorthUnsure(jobs, op, x.work, x.number, outcome, externalId);
    }
  }

  lemma WorthUnsure(jobs: map<nat, Job>, op: Operation, work: Work, number: nat, outcome: Outcome, externalId: string)
    requires Worth(jobs, op, work, number, outcome, externalId)
    ensures Worth(jobs, op, work, number, Unsure, externalId)
  {
    hide Newest;
    if externalId != "" { AttestedUncertain(jobs, op.attempts, |op.attempts| - 1, Claimed(outcome), externalId); }
  }

  /** What is uncertain claims less. */
  lemma AttestedUncertain(jobs: map<nat, Job>, attempts: seq<Attempt>, i: int, state: Status, externalId: string)
    requires Attested(jobs, attempts, i, state, externalId)
    ensures Attested(jobs, attempts, i, Uncertain, externalId)
  {
    hide Delivers;
    var d, m: nat :| Delivers(attempts, d, i) && d < m <= i + 1 && m in jobs && jobs[m].Ended? && Says(jobs[m].report, state, externalId);
    assert Says(jobs[m].report, Uncertain, externalId);
  }

  /** Proof of non-delivery: the newest delivery was acknowledged in preparation, and has no Job. */
  lemma StoppedWorth(jobs: map<nat, Job>, op: Operation, x: Session)
    requires Numbered(op.attempts) && Credentialed(op.attempts) && JobsMarked(jobs, op) && op.attempts != []
    requires Agrees(jobs, op, x.local, x.number) && PreparationStopped(jobs, x.local) && x.work == Reobserve
    ensures Worth(jobs, op, x.work, x.number, DeliveryFailed, "")
  {
    hide Delivers;
    LocalDelivery(jobs, op, x);
  }

  lemma StopFences(jobs: map<nat, Job>, op: Operation, x: Session)
    requires Sound(jobs, op, x) && Credentialed(op.attempts) && x.at == Sweeping
    requires x.alive ==> Worth(jobs, op, x.work, x.number, DeliveryFailed, "")
    ensures Sound(jobs, op, x.(at := Fencing(Current(x), Return(DeliveryFailed, ""))))
  {
    hide Agrees, Worth;
  }

  lemma StopSound(jobs: map<nat, Job>, op: Operation, x: Session)
    requires Numbered(op.attempts) && Credentialed(op.attempts) && JobsMarked(jobs, op) && Sound(jobs, op, x)
    ensures KeepsSession(jobs, op, x, ActStop(jobs, x))
  {
    hide Sound, JobsMarked, Numbered, Credentialed, PreparationStopped;
    if x.at == Sweeping && PreparationStopped(jobs, x.local) {
      if x.alive {
        SweepAgrees(jobs, op, x);
        SweeperIs(jobs, op, x);
        StoppedWorth(jobs, op, x);
      }
      StopFences(jobs, op, x);
    }
  }

  lemma SweeperIs(jobs: map<nat, Job>, op: Operation, x: Session)
    requires Sound(jobs, op, x) && x.at == Sweeping
    ensures x.work == Reobserve && op.attempts != []
  {
    hide Agrees;
  }

  lemma GiveUpSound(jobs: map<nat, Job>, op: Operation, x: Session)
    requires Sound(jobs, op, x)
    ensures KeepsSession(jobs, op, x, ActGiveUp(x))
  {
  }

  lemma ObservePassivelySound(jobs: map<nat, Job>, op: Operation, x: Session, readable: bool)
    requires Numbered(op.attempts) && Credentialed(op.attempts) && JobsMarked(jobs, op) && Sound(jobs, op, x)
    ensures KeepsSession(jobs, op, x, ActObservePassively(jobs, x, readable))
  {
    if x.at == Fetched && x.work == Passively && x.alive {
      PassiveWorth(jobs, op, x, readable);
    }
  }

  lemma PassiveWorth(jobs: map<nat, Job>, op: Operation, x: Session, readable: bool)
    requires Numbered(op.attempts) && Credentialed(op.attempts) && JobsMarked(jobs, op)
    requires x.local == op && x.number == |op.attempts| > 0 && x.work == Passively && op.attempts[x.number - 1].kind == Recover
    ensures var d := ExistingDelivery(x.local);
            && (HasEnded(jobs, d) ==> var r := ReadReport(jobs[d].report, readable); Worth(jobs, op, x.work, x.number, r.0, r.1))
            && (PreparationStopped(jobs, x.local) ==> Worth(jobs, op, x.work, x.number, DeliveryFailed, ""))
  {
    LocalDelivery(jobs, op, x);
    if HasEnded(jobs, ExistingDelivery(x.local)) {
      ReportWorth(jobs, op, x.work, x.number, ExistingDelivery(x.local), readable);
    }
  }

  lemma ConcludeSound(jobs: map<nat, Job>, op: Operation, x: Session, answered: bool)
    requires Sound(jobs, op, x)
    ensures KeepsSession(jobs, op, x, ActConclude(op, x, answered))
  {
    hide Attested;
    if x.at.Returned? && x.alive && x.at.externalId != "" {
      AttestedUncertain(jobs, op.attempts, |op.attempts| - 1, Claimed(x.at.outcome), x.at.externalId);
    }
  }

  // ----- writes of one session -----

  /** The row keeps everything the other operations see of it, and the kinds and releases of its attempts. */
  ghost predicate SameRow(op: Operation, op': Operation) {
    && op'.org == op.org && op'.destination == op.destination && op'.createdAt == op.createdAt && op'.state == op.state
    && |op'.attempts| == |op.attempts|
    && (forall i :: 0 <= i < |op.attempts| ==>
          op'.attempts[i].kind == op.attempts[i].kind && op'.attempts[i].externalId == op.attempts[i].externalId)
  }

  lemma SameNewest(op: Operation, op': Operation)
    requires SameRow(op, op')
    ensures forall d, i :: Delivers(op.attempts, d, i) <==> Delivers(op'.attempts, d, i)
  {
  }

  lemma RowKeepsEvent(op: Operation, op': Operation, n: int, externalId: string)
    requires SameRow(op, op') && Announces(op, n, externalId)
    ensures Announces(op', n, externalId)
  {
    SameNewest(op, op');
  }

  lemma RowKeepsPublished(db: Db, id: nat, op': Operation)
    requires Published(db) && id in db.operations && SameRow(db.operations[id], op')
    ensures Published(db.(operations := db.operations[id := op']))
  {
    hide Announces;
    var operations' := db.operations[id := op'];
    forall key | key in db.outbox ensures Announces(operations'[key.0], key.1, db.outbox[key]) {
      if key.0 == id { RowKeepsEvent(db.operations[id], op', key.1, db.outbox[key]); }
    }
    forall k | k in operations' && operations'[k].state == Succeeded ensures exists n :: (k, n) in db.outbox {
      assert db.operations[k].state == Succeeded;
    }
  }

  lemma RowKeepsDb(db: Db, id: nat, op': Operation)
    requires DbSound(db) && id in db.operations && SameRow(db.operations[id], op')
    ensures DbSound(db.(operations := db.operations[id := op']))
  {
    hide Published;
    RowKeepsPublished(db, id, op');
    var operations' := db.operations[id := op'];
    forall p, q | p in operations' && q in operations' && p != q ensures Excludes(operations'[p], operations'[q]) {
      assert Excludes(db.operations[p], db.operations[q]);
    }
  }

  /** Jobs of the other operations are untouched. */
  ghost predicate JobsElsewhere(jobs: map<nat, map<nat, Job>>, jobs': map<nat, map<nat, Job>>, id: nat) {
    (forall p :: p != id ==> Jobs(jobs', p) == Jobs(jobs, p)) && jobs'.Keys <= jobs.Keys + {id}
  }

  lemma RowKeepsOperations(operations: map<nat, Operation>, jobs: map<nat, map<nat, Job>>, id: nat, op': Operation, jobs': map<nat, map<nat, Job>>)
    requires OperationsSound(operations, jobs) && JobsElsewhere(jobs, jobs', id)
    requires OperationSound(Jobs(jobs', id), op')
    ensures OperationsSound(operations[id := op'], jobs')
  {
    forall p | p in operations[id := op'] ensures OperationSound(Jobs(jobs', p), operations[id := op'][p]) {
      if p != id { assert OperationSound(Jobs(jobs, p), operations[p]); }
    }
  }

  lemma RowKeepsSessions(s: State, sid: nat, op': Operation, jobs': map<nat, map<nat, Job>>, next: Option<Session>)
    requires SessionsSound(s.db.operations, s.jobs, s.sessions) && sid in s.sessions
    requires JobsElsewhere(s.jobs, jobs', s.sessions[sid].id)
    requires next.Some? ==> next.value.id == s.sessions[sid].id && Sound(Jobs(jobs', next.value.id), op', next.value)
    requires forall q :: q in s.sessions && q != sid && s.sessions[q].id == s.sessions[sid].id ==>
               Sound(Jobs(jobs', s.sessions[sid].id), op', s.sessions[q])
    ensures SessionsSound(s.db.operations[s.sessions[sid].id := op'], jobs', Becomes(s.sessions, sid, next))
  {
    var id, sessions' := s.sessions[sid].id, Becomes(s.sessions, sid, next);
    forall q | q in sessions' ensures SessionSound(s.db.operations[id := op'], jobs', sessions'[q]) {
      if q != sid { assert SessionSound(s.db.operations, s.jobs, s.sessions[q]); }
    }
  }

  /** The sessions of one operation, one of them with the lock: the others linger. */
  lemma OthersDead(s: State, sid: nat, q: nat)
    requires Inv(s) && sid in s.sessions && q in s.sessions && q != sid
    requires s.sessions[q].id == s.sessions[sid].id && s.sessions[sid].alive
    ensures !s.sessions[q].alive
  {
    assert SessionSound(s.db.operations, s.jobs, s.sessions[q]) && SessionSound(s.db.operations, s.jobs, s.sessions[sid]);
    assert Apart(s.sessions[sid], s.sessions[q]);
  }

  /** An attempt whose evidence is kept: the same number, kind, state and recorded release. */
  ghost predicate SameEvidence(op: Operation, op': Operation) {
    && SameRow(op, op')
    && (forall i :: 0 <= i < |op.attempts| ==>
          op'.attempts[i].externalId == op.attempts[i].externalId && op'.attempts[i].number == op.attempts[i].number
          && op'.attempts[i].state == op.attempts[i].state)
  }

  lemma EvidenceKeepsHistory(jobs: map<nat, Job>, op: Operation, op': Operation)
    requires Historic(jobs, op) && SameEvidence(op, op')
    ensures Historic(jobs, op')
  {
    SameNewest(op, op');
    forall d | 0 <= d < |op.attempts| && Reported(op.attempts, d) ensures Reported(op'.attempts, d) {
      var i :| Delivers(op.attempts, d, i) && op.attempts[i].externalId != "";
      assert Delivers(op'.attempts, d, i) && op'.attempts[i].externalId != "";
    }
  }

  /** Kinds decide which delivery an attempt refers to. */
  lemma RowKeepsAttested(jobs: map<nat, Job>, op: Operation, op': Operation, i: int, state: Status, externalId: string)
    requires SameRow(op, op') && Attested(jobs, op.attempts, i, state, externalId)
    ensures Attested(jobs, op'.attempts, i, state, externalId)
  {
    hide Delivers, Says;
    SameNewest(op, op');
    var d, m: nat :| Delivers(op.attempts, d, i) && d < m <= i + 1 && m in jobs && jobs[m].Ended? && Says(jobs[m].report, state, externalId);
    assert Delivers(op'.attempts, d, i);
  }

  lemma EvidenceKeepsVouched(jobs: map<nat, Job>, op: Operation, op': Operation)
    requires Vouched(jobs, op.attempts) && SameEvidence(op, op')
    ensures Vouched(jobs, op'.attempts)
  {
    hide Attested;
    forall i | 0 <= i < |op'.attempts| && op'.attempts[i].externalId != ""
      ensures Attested(jobs, op'.attempts, i, op'.attempts[i].state, op'.attempts[i].externalId)
    {
      RowKeepsAttested(jobs, op, op', i, op.attempts[i].state, op.attempts[i].externalId);
    }
  }

  lemma JournalKeepsCoherent(op: Operation, number: nat, dispatch: bool)
    requires Coherent(op)
    ensures Coherent(op.(attempts := Journal(op.attempts, number, dispatch)))
  {
    var op' := op.(attempts := Journal(op.attempts, number, dispatch));
    SameNewest(op, op');
    forall i | 0 <= i < |op.attempts| && Open(op'.attempts[i])
      ensures Active(op') && (op'.attempts[i].kind == Execute ==> Newest(op'.attempts, i))
    {
      assert Open(op.attempts[i]);
    }
  }

  lemma JournalKeepsMarks(jobs: map<nat, Job>, op: Operation, number: nat, dispatch: bool)
    requires JobsMarked(jobs, op) && Numbered(op.attempts) && (!dispatch && number in jobs ==> jobs[number].Ended?)
    ensures JobsMarked(jobs, op.(attempts := Journal(op.attempts, number, dispatch)))
  {
  }

  lemma NumberedOf(op: Operation)
    requires Coherent(op)
    ensures Numbered(op.attempts)
  {
  }

  lemma JournalKeepsNarrowing(op: Operation, number: nat, dispatch: bool)
    requires Narrowing(op)
    ensures Narrowing(op.(attempts := Journal(op.attempts, number, dispatch)))
  {
    hide Within;
  }

  lemma JournalKeepsOperation(jobs: map<nat, Job>, op: Operation, number: nat, dispatch: bool)
    requires OperationSound(jobs, op) && (!dispatch && number in jobs ==> jobs[number].Ended?)
    ensures var op' := op.(attempts := Journal(op.attempts, number, dispatch)); SameRow(op, op') && OperationSound(jobs, op')
  {
    hide JobsMarked, Coherent, Narrowing, Historic, Vouched;
    NumberedOf(op);
    JournalKeepsNarrowing(op, number, dispatch);
    JournalKeepsCoherent(op, number, dispatch);
    JournalKeepsMarks(jobs, op, number, dispatch);
    EvidenceKeepsHistory(jobs, op, op.(attempts := Journal(op.attempts, number, dispatch)));
    EvidenceKeepsVouched(jobs, op, op.(attempts := Journal(op.attempts, number, dispatch)));
  }

  /** A marker or an acknowledgement of a fenced attempt never takes away a pending dispatch of another session. */
  lemma JournalKeepsLingering(jobs: map<nat, Job>, op: Operation, x: Session, number: nat, dispatch: bool, y: Session)
    requires Numbered(op.attempts) && Lingering(jobs, op, y) && Apart(x, y) && Apart(y, x) && x.id == y.id
    requires !dispatch ==> Fenced(jobs, op, x.number, number) && (number == x.number ==> number > 0)
    ensures Lingering(jobs, op.(attempts := Journal(op.attempts, number, dispatch)), y)
  {
  }

  /** The operation after the write of an action. */
  function RowAfter(op: Operation, write: Write): Operation {
    match write
    case Dispatch(number) => op.(attempts := Journal(op.attempts, number, true))
    case Acknowledge(number) => op.(attempts := Journal(op.attempts, number, false))
    case _ => op
  }

  lemma JournalKeepsAgrees(jobs: map<nat, Job>, op: Operation, local: Operation, number: nat, target: nat, dispatch: bool)
    requires Agrees(jobs, op, local, number) && Numbered(op.attempts)
    requires dispatch ==> target == number || Present(jobs, target)
    ensures Agrees(jobs, op.(attempts := Journal(op.attempts, target, dispatch)), local, number)
  {
  }

  lemma InspectWriteIs(jobs: map<nat, Job>, op: Operation, x: Session, target: nat)
    requires ActInspect(jobs, op, x, target).write == Dispatch(target)
    ensures ActInspect(jobs, op, x, target) == Effect(Dispatch(target), Some(x.(at := Watching(target))))
    ensures x.alive && Present(jobs, target) && if x.work.CleanUp? then x.at == Loaded else x.at == Sweeping && target != Current(x)
  {
    hide JournalOpen;
  }

  lemma CleanUpWatches(jobs: map<nat, Job>, op: Operation, op': Operation, x: Session, target: nat)
    requires Sound(jobs, op, x) && SameRow(op, op') && x.at == Loaded && x.work.CleanUp? && Present(jobs, target)
    ensures Sound(jobs, op', x.(at := Watching(target)))
  {
  }

  lemma SweepWatches(jobs: map<nat, Job>, op: Operation, op': Operation, x: Session, target: nat)
    requires Sound(jobs, op, x) && SameRow(op, op') && x.at == Sweeping && x.alive && target != Current(x) && Present(jobs, target)
    requires Agrees(jobs, op', x.local, x.number)
    ensures Sound(jobs, op', x.(at := Watching(target)))
  {
    hide Agrees;
  }

  lemma SweepAgrees(jobs: map<nat, Job>, op: Operation, x: Session)
    requires Sound(jobs, op, x) && x.at == Sweeping && x.alive
    ensures Agrees(jobs, op, x.local, x.number)
  {
    hide Agrees;
  }

  lemma InspectWriteSound(jobs: map<nat, Job>, op: Operation, x: Session, target: nat)
    requires Numbered(op.attempts) && Sound(jobs, op, x)
    requires ActInspect(jobs, op, x, target).write == Dispatch(target)
    ensures KeepsSession(jobs, RowAfter(op, Dispatch(target)), x, ActInspect(jobs, op, x, target))
  {
    hide Agrees, Sound, ActInspect;
    var op' := RowAfter(op, Dispatch(target));
    InspectWriteIs(jobs, op, x, target);
    if x.work.CleanUp? {
      CleanUpWatches(jobs, op, op', x, target);
    } else {
      SweepAgrees(jobs, op, x);
      JournalKeepsAgrees(jobs, op, x.local, x.number, target, true);
      SweepWatches(jobs, op, op', x, target);
    }
  }

  lemma MarkSound(jobs: map<nat, Job>, op: Operation, x: Session, applied: bool, acked: bool)
    requires Numbered(op.attempts) && Credentialed(op.attempts) && JobsMarked(jobs, op) && Sound(jobs, op, x)
    ensures var effect := ActMark(op, x, applied, acked); KeepsSession(jobs, RowAfter(op, effect.write), x, effect)
  {
    hide Agrees, Newest, Conclusive, Worth, Fenced, JobsMarked, Unresolved;
    if x.at == Prepared && x.alive {
      var op' := RowAfter(op, ActMark(op, x, applied, acked).write);
      JournalKeepsAgrees(jobs, op, x.local, x.number, x.number, true);
      UnsureWorth(jobs, op', x.work, x.number);
      UnsentIsFenced(jobs, op', x.number);
    }
  }

  /** An attempt without a Job, whose own executor gives it up, may be acknowledged. */
  lemma UnsentIsFenced(jobs: map<nat, Job>, op: Operation, number: nat)
    requires 1 <= number <= |op.attempts| && op.attempts[number - 1].credential.Some? && number !in jobs
    ensures Fenced(jobs, op, number, number)
  {
  }

  lemma UnsureWorth(jobs: map<nat, Job>, op: Operation, work: Work, number: nat)
    ensures Worth(jobs, op, work, number, Unsure, "")
  {
  }

  lemma ArriveIs(jobs: map<nat, Job>, op: Operation, x: Session)
    ensures var effect := ActArrive(jobs, op, x);
            if (x.at != Ready && x.at != Sent) || !Present(jobs, Current(x)) then effect == Stay(x)
            else if x.alive && JournalOpen(op, Current(x)) then effect == Effect(Dispatch(Current(x)), Some(x.(at := Watching(Current(x)))))
            else effect == GoTo(x, Returned(Unsure, ""))
  {
  }

  lemma ArrivedWatches(jobs: map<nat, Job>, op: Operation, op': Operation, x: Session)
    requires Sound(jobs, op, x) && SameRow(op, op') && (x.at == Ready || x.at == Sent) && Present(jobs, Current(x)) && x.alive
    requires Agrees(jobs, op', x.local, x.number)
    ensures Sound(jobs, op', x.(at := Watching(Current(x))))
  {
    hide Agrees;
  }

  lemma ArrivedAgrees(jobs: map<nat, Job>, op: Operation, x: Session)
    requires Sound(jobs, op, x) && (x.at == Ready || x.at == Sent)
    ensures x.number > 0 && Current(x) == x.number && (x.alive ==> Agrees(jobs, op, x.local, x.number))
  {
    hide Agrees;
  }

  lemma ReturnsUnsure(jobs: map<nat, Job>, op: Operation, x: Session)
    requires Sound(jobs, op, x) && x.number > 0
    ensures Sound(jobs, op, x.(at := Returned(Unsure, "")))
  {
    hide Agrees, Worth;
    UnsureWorth(jobs, op, x.work, x.number);
  }

  lemma ArriveSound(jobs: map<nat, Job>, op: Operation, x: Session)
    requires Numbered(op.attempts) && Sound(jobs, op, x)
    ensures var effect := ActArrive(jobs, op, x); KeepsSession(jobs, RowAfter(op, effect.write), x, effect)
  {
    hide Agrees, Sound, ActArrive, JournalOpen;
    ArriveIs(jobs, op, x);
    if (x.at == Ready || x.at == Sent) && Present(jobs, Current(x)) {
      ArrivedAgrees(jobs, op, x);
      ReturnsUnsure(jobs, op, x);
      if x.alive && JournalOpen(op, Current(x)) {
        var op' := RowAfter(op, Dispatch(Current(x)));
        JournalKeepsAgrees(jobs, op, x.local, x.number, x.number, true);
        ArrivedWatches(jobs, op, op', x);
      }
    }
  }

  lemma JournalKeepsWorth(jobs: map<nat, Job>, op: Operation, work: Work, number: nat, outcome: Outcome, externalId: string, target: nat)
    requires Worth(jobs, op, work, number, outcome, externalId)
    ensures Worth(jobs, op.(attempts := Journal(op.attempts, target, false)), work, number, outcome, externalId)
  {
    hide Attested;
    var op' := op.(attempts := Journal(op.attempts, target, false));
    SameNewest(op, op');
    if externalId != "" { RowKeepsAttested(jobs, op, op', |op.attempts| - 1, Claimed(outcome), externalId); }
  }

  /** The acknowledged copy of a sweep stays in agreement with the acknowledged row. */
  lemma SweepKeepsAgrees(jobs: map<nat, Job>, op: Operation, local: Operation, number: nat, target: nat)
    requires Agrees(jobs, op, local, number) && Numbered(op.attempts)
    ensures Agrees(jobs, op.(attempts := Journal(op.attempts, target, false)), local.(attempts := Journal(local.attempts, target, false)), number)
  {
  }

  lemma ResolveSweepSound(jobs: map<nat, Job>, op: Operation, x: Session, applied: bool, acked: bool)
    requires Numbered(op.attempts) && Sound(jobs, op, x) && x.at.Fencing? && x.at.after == Sweep
    ensures var effect := ActResolve(op, x, applied, acked); KeepsSession(jobs, RowAfter(op, effect.write), x, effect)
  {
    if x.alive {
      SweepKeepsAgrees(jobs, op, x.local, x.number, x.at.target);
      JournalKeepsAgrees(jobs, op, x.local, x.number, x.at.target, false);
    }
  }

  lemma ResolveReturnSound(jobs: map<nat, Job>, op: Operation, x: Session, applied: bool, acked: bool)
    requires Numbered(op.attempts) && Sound(jobs, op, x) && x.at.Fencing? && x.at.after.Return?
    ensures var effect := ActResolve(op, x, applied, acked); KeepsSession(jobs, RowAfter(op, effect.write), x, effect)
  {
    UnsureWorth(jobs, RowAfter(op, ActResolve(op, x, applied, acked).write), x.work, x.number);
    if x.alive {
      JournalKeepsWorth(jobs, op, x.work, x.number, x.at.after.outcome, x.at.after.externalId, x.at.target);
    }
  }

  lemma ResolveSound(jobs: map<nat, Job>, op: Operation, x: Session, applied: bool, acked: bool)
    requires Numbered(op.attempts) && Sound(jobs, op, x)
    ensures var effect := ActResolve(op, x, applied, acked); KeepsSession(jobs, RowAfter(op, effect.write), x, effect)
  {
    if x.at.Fencing? && x.at.after == Sweep { ResolveSweepSound(jobs, op, x, applied, acked); }
    if x.at.Fencing? && x.at.after.Return? { ResolveReturnSound(jobs, op, x, applied, acked); }
  }

  lemma SendSound(jobs: map<nat, Job>, op: Operation, x: Session)
    requires OperationSound(jobs, op) && Sound(jobs, op, x) && x.at == Marked
    ensures Current(x) !in jobs && JobsAdvance(op, jobs, jobs[Current(x) := InFlight])
    ensures KeepsSession(jobs[Current(x) := InFlight], op, x, ActSend(x))
  {
    hide Newest, Conclusive, Worth, Fenced, Coherent, Narrowing, Historic;
  }

  lemma DieSound(jobs: map<nat, Job>, op: Operation, x: Session)
    requires Sound(jobs, op, x)
    ensures KeepsSession(jobs, op, x, Effect(Nothing, Some(x.(alive := false))))
  {
  }

  /** Only the lock holder writes, and it acknowledges only what it has fenced. */
  lemma WritesHeld(jobs: map<nat, Job>, op: Operation, x: Session, e: Action)
    requires Sound(jobs, op, x)
    ensures var write := Act(jobs, op, x, e).write;
            && (write.Create? <==> e == Send && x.at == Marked)
            && (write != Nothing && e != Send ==> x.alive)
            && (write == Nothing || Journals(e) || (e == Send && x.at == Marked))
            && (write.Acknowledge? ==> Fenced(jobs, op, x.number, write.number))
  {
  }

  /** The actions that may write the journal. */
  predicate Journals(e: Action) { e.Inspect? || e.Mark? || e.Arrive? || e.Resolve? }

  lemma JournalActionSound(jobs: map<nat, Job>, op: Operation, x: Session, e: Action)
    requires Numbered(op.attempts) && Credentialed(op.attempts) && JobsMarked(jobs, op) && Sound(jobs, op, x) && Journals(e)
    ensures var effect := Act(jobs, op, x, e); KeepsSession(jobs, RowAfter(op, effect.write), x, effect)
  {
    match e
    case Inspect(target) =>
      if ActInspect(jobs, op, x, target).write == Nothing { InspectSound(jobs, op, x, target); }
      else { InspectWriteSound(jobs, op, x, target); }
    case Mark(applied, acked) => MarkSound(jobs, op, x, applied, acked);
    case Arrive => ArriveSound(jobs, op, x);
    case Resolve(applied, acked) => ResolveSound(jobs, op, x, applied, acked);
  }

  predicate ReadsCluster(e: Action) { e.Prepare? || e.Confirm? || e.Stop? || e.ObservePassively? }

  lemma ClusterActionSound(jobs: map<nat, Job>, op: Operation, x: Session, e: Action)
    requires Numbered(op.attempts) && Credentialed(op.attempts) && JobsMarked(jobs, op) && Sound(jobs, op, x) && ReadsCluster(e)
    ensures KeepsSession(jobs, op, x, Act(jobs, op, x, e))
  {
    match e
    case Prepare(now, issued, uncertain) => PrepareSound(jobs, op, x, now, issued, uncertain);
    case Confirm(readable, again) => ConfirmSound(jobs, op, x, readable, again);
    case Stop => StopSound(jobs, op, x);
    case ObservePassively(readable) => ObservePassivelySound(jobs, op, x, readable);
  }

  lemma PlainActionSound(jobs: map<nat, Job>, op: Operation, x: Session, e: Action)
    requires Numbered(op.attempts) && Credentialed(op.attempts) && JobsMarked(jobs, op) && Sound(jobs, op, x)
    requires !Journals(e) && !ReadsCluster(e) && !(e == Send && x.at == Marked)
    ensures KeepsSession(jobs, op, x, Act(jobs, op, x, e))
  {
    match e
    case Load => LoadSound(jobs, op, x);
    case Fetch => FetchSound(jobs, op, x);
    case Require => RequireSound(jobs, op, x);
    case GiveUp => GiveUpSound(jobs, op, x);
    case Send =>
    case Conclude(answered) => ConcludeSound(jobs, op, x, answered);
    case Die => DieSound(jobs, op, x);
  }

  lemma ActionSound(jobs: map<nat, Job>, op: Operation, x: Session, e: Action)
    requires OperationSound(jobs, op) && Sound(jobs, op, x) && !(e == Send && x.at == Marked)
    ensures var effect := Act(jobs, op, x, e);
            KeepsSession(jobs, RowAfter(op, effect.write), x, effect) && !effect.write.Create?
  {
    hide Act, Sound, JobsMarked, Numbered, Credentialed, Sequenced, Obliged, Narrowing, Historic, KeepsSession;
    WritesHeld(jobs, op, x, e);
    if Journals(e) {
      JournalActionSound(jobs, op, x, e);
    } else if ReadsCluster(e) {
      ClusterActionSound(jobs, op, x, e);
    } else {
      PlainActionSound(jobs, op, x, e);
    }
  }

  /** The row and the Jobs of one operation after a write of one session. */
  function JobsAfter(jobs: map<nat, Job>, write: Write): map<nat, Job> {
    if write.Create? && write.number !in jobs then jobs[write.number := InFlight] else jobs
  }

  /** The effect leaves its operation and every session of that operation sound. */
  ghost predicate Fits(s: State, sid: nat, effect: Effect)
    requires sid in s.sessions && s.sessions[sid].id in s.db.operations
  {
    var x := s.sessions[sid];
    var op', jobs' := RowAfter(s.db.operations[x.id], effect.write), JobsAfter(Jobs(s.jobs, x.id), effect.write);
    && SameRow(s.db.operations[x.id], op') && OperationSound(jobs', op')
    && KeepsSession(jobs', op', x, effect)
    && (forall q :: q in s.sessions && q != sid && s.sessions[q].id == x.id ==> Sound(jobs', op', s.sessions[q]))
  }

  lemma EffectKeepsInv(s: State, sid: nat, effect: Effect)
    requires Inv(s) && sid in s.sessions && s.sessions[sid].id in s.db.operations && Fits(s, sid, effect)
    ensures Inv(Applied(s, sid, effect))
  {
    hide OperationSound, Sound, DbSound, Separate, SessionsSound, OperationsSound;
    var id := s.sessions[sid].id;
    var op' := RowAfter(s.db.operations[id], effect.write);
    var jobs' := if effect.write.Create? then s.jobs[id := JobsAfter(Jobs(s.jobs, id), effect.write)] else s.jobs;
    RowKeepsOperations(s.db.operations, s.jobs, id, op', jobs');
    RowKeepsSessions(s, sid, op', jobs', effect.next);
    BecomesKeepsSeparate(s.sessions, sid, effect.next);
    RowKeepsDb(s.db, id, op');
    WrittenRow(s, id, effect.write);
  }

  lemma SoundHere(s: State, sid: nat)
    requires Inv(s) && sid in s.sessions
    ensures var x := s.sessions[sid];
            && x.id in s.db.operations
            && OperationSound(Jobs(s.jobs, x.id), s.db.operations[x.id])
            && Sound(Jobs(s.jobs, x.id), s.db.operations[x.id], x)
  {
    hide Sound, DbSound, OperationSound, Separate;
    assert SessionSound(s.db.operations, s.jobs, s.sessions[sid]);
  }

  lemma SendFits(s: State, sid: nat)
    requires Inv(s) && sid in s.sessions && s.sessions[sid].id in s.db.operations && s.sessions[sid].at == Marked
    ensures Fits(s, sid, ActSend(s.sessions[sid]))
  {
    hide OperationSound, Sound, Inv, JobsAdvance;
    var x := s.sessions[sid];
    var op, jobs := s.db.operations[x.id], Jobs(s.jobs, x.id);
    SoundHere(s, sid);
    SendSound(jobs, op, x);
    OperationKeepsJobs(op, jobs, jobs[Current(x) := InFlight]);
    forall q | q in s.sessions && q != sid && s.sessions[q].id == x.id ensures Sound(jobs[Current(x) := InFlight], op, s.sessions[q]) {
      OtherKeepsSend(s, sid, q);
    }
  }

  lemma OtherKeepsSend(s: State, sid: nat, q: nat)
    requires Inv(s) && sid in s.sessions && s.sessions[sid].id in s.db.operations && s.sessions[sid].at == Marked
    requires q in s.sessions && q != sid && s.sessions[q].id == s.sessions[sid].id
    ensures var x := s.sessions[sid];
            Sound(Jobs(s.jobs, x.id)[Current(x) := InFlight], s.db.operations[x.id], s.sessions[q])
  {
    hide OperationsSound, DbSound, SessionsSound, JobsAdvance, OperationSound, Holding;
    var x := s.sessions[sid];
    SoundHere(s, sid);
    SoundHere(s, q);
    SendSound(Jobs(s.jobs, x.id), s.db.operations[x.id], x);
    assert Apart(x, s.sessions[q]);
    SessionKeepsJobs(s.db.operations[x.id], Jobs(s.jobs, x.id), Jobs(s.jobs, x.id)[Current(x) := InFlight], s.sessions[q]);
  }

  lemma JournalFits(s: State, sid: nat, e: Action)
    requires Inv(s) && sid in s.sessions && s.sessions[sid].id in s.db.operations
    requires !(e == Send && s.sessions[sid].at == Marked)
    ensures var x := s.sessions[sid]; Fits(s, sid, Act(Jobs(s.jobs, x.id), s.db.operations[x.id], x, e))
  {
    hide OperationSound, Sound, Inv, Act;
    var x := s.sessions[sid];
    var op, jobs := s.db.operations[x.id], Jobs(s.jobs, x.id);
    SoundHere(s, sid);
    ActionSound(jobs, op, x, e);
    WritesHeld(jobs, op, x, e);
    var effect := Act(jobs, op, x, e);
    RowAfterSound(jobs, op, effect.write);
    forall q | q in s.sessions && q != sid && s.sessions[q].id == x.id ensures Sound(jobs, RowAfter(op, effect.write), s.sessions[q]) {
      OtherStaysSound(s, sid, e, q);
    }
  }

  lemma WrittenRow(s: State, id: nat, write: Write)
    requires id in s.db.operations
    ensures Written(s, id, write).db == s.db.(operations := s.db.operations[id := RowAfter(s.db.operations[id], write)])
    ensures Written(s, id, write).jobs == if write.Create? then s.jobs[id := JobsAfter(Jobs(s.jobs, id), write)] else s.jobs
    ensures Written(s, id, write).sessions == s.sessions
  {
    assert s.db.operations[id := s.db.operations[id]] == s.db.operations;
    var op := s.db.operations[id];
    if (write.Dispatch? || write.Acknowledge?) && !JournalOpen(op, write.number) {
      assert Journal(op.attempts, write.number, write.Dispatch?) == op.attempts;
    }
  }

  lemma RowAfterSound(jobs: map<nat, Job>, op: Operation, write: Write)
    requires OperationSound(jobs, op) && (write.Acknowledge? && write.number in jobs ==> jobs[write.number].Ended?)
    ensures SameRow(op, RowAfter(op, write)) && OperationSound(jobs, RowAfter(op, write))
  {
    match write
    case Dispatch(number) => JournalKeepsOperation(jobs, op, number, true);
    case Acknowledge(number) => JournalKeepsOperation(jobs, op, number, false);
    case _ =>
  }

  lemma OtherStaysSound(s: State, sid: nat, e: Action, q: nat)
    requires Inv(s) && sid in s.sessions && s.sessions[sid].id in s.db.operations
    requires q in s.sessions && q != sid && s.sessions[q].id == s.sessions[sid].id
    requires !(e == Send && s.sessions[sid].at == Marked)
    ensures var x := s.sessions[sid];
            var jobs, op := Jobs(s.jobs, x.id), s.db.operations[x.id];
            Sound(jobs, RowAfter(op, Act(jobs, op, x, e).write), s.sessions[q])
  {
    hide Act, DbSound, SessionsSound, OperationsSound;
    var x, y := s.sessions[sid], s.sessions[q];
    var jobs, op := Jobs(s.jobs, x.id), s.db.operations[x.id];
    SoundHere(s, sid);
    SoundHere(s, q);
    assert Apart(x, y) && Apart(y, x);
    WritesHeld(jobs, op, x, e);
    var write := Act(jobs, op, x, e).write;
    if write != Nothing {
      JournalKeepsLingering(jobs, op, x, write.number, write.Dispatch?, y);
    }
  }
}
