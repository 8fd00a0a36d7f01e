/**
 The delivery protocol: many service processes, one advisory lock per destination held by a
 database session, and a Kubernetes API that may apply a request late or lose its reply.
 `internal/deployment/service.go`, `helm.go` and `credentials.go`.

 Every database transaction and every remote call is one step. A step that is not enabled changes
 nothing, so every sequence of steps is a run.
 */
module Delivery {
  import opened Wrappers
  import opened Expiry
  import opened DeploymentStore
  import opened Traces

  // ----- state -----

  /** What an ended executor left in its logs; the text is the release identity it names. */
  datatype Report = Deployed(id: string) | Broken(id: string) | Unclear(id: string) | Silent

  /** A request to create the executor Job may still be in flight; an ended Job has a terminal Pod. */
  datatype Job = InFlight | Live | Ended(report: Report)

  /** What an executor returns: success, a verified delivery failure, any other error, or uncertainty. */
  datatype Outcome = Success | DeliveryFailed | Rejected | Unsure

  datatype Work = Deliver(retry: bool) | Reobserve | Passively | CleanUp(attempt: nat)

  /** Where a session goes on once the credential of an attempt is revoked. */
  datatype After = Return(outcome: Outcome, externalId: string) | Sweep | Leave

  /**
   Program points. `Sweeping` is the loop over earlier obligations; `Ready` is the start of the
   executor's run; a session at `Marked` has its dispatch marker and is about to create the Job; at
   `Fencing` it has decided that the target attempt may be revoked and acknowledged.
   */
  datatype Point =
    | Locked | Loaded | Started | Fetched | Sweeping | Ready | Prepared | Marked | Sent
    | Watching(watched: nat)
    | Fencing(target: nat, after: After)
    | Returned(outcome: Outcome, externalId: string)
    | Settling(state: Status, settledId: string)

  /**
   One call of the service. `alive` is the database session: once it dies the lock is free and its
   writes fail, while the process may go on calling Kubernetes. `local` is its copy of the operation.
   */
  datatype Session = Session(id: nat, destination: string, work: Work, alive: bool, number: nat,
                             local: Operation, at: Point)

  /** The Jobs of an operation are named by attempt number. */
  datatype State = State(db: Db, sessions: map<nat, Session>, jobs: map<nat, map<nat, Job>>)

  const INITIAL: State := State(Db(map[], map[], map[]), map[], map[])

  // ----- helpers of the steps -----

  function KindOf(work: Work): Kind {
    if work.Deliver? then Execute else if work.Passively? then Recover else Observe
  }

  /** The newest execute attempt among the first `n`, as its number; 0 when there is none. */
  function LatestDelivery(attempts: seq<Attempt>, n: nat): nat
    requires n <= |attempts|
  {
    if n == 0 then 0
    else if attempts[n - 1].kind == Execute then attempts[n - 1].number
    else LatestDelivery(attempts, n - 1)
  }

  function CredentialAt(attempts: seq<Attempt>, number: nat): Option<Credential> {
    if 1 <= number <= |attempts| then attempts[number - 1].credential else None
  }

  /** The API server answers a read of the Job with an object, rather than NotFound. */
  predicate Present(jobs: map<nat, Job>, number: nat) {
    number in jobs && jobs[number] != InFlight
  }

  predicate HasEnded(jobs: map<nat, Job>, number: nat) {
    number in jobs && jobs[number].Ended?
  }

  function Jobs(jobs: map<nat, map<nat, Job>>, id: nat): map<nat, Job> { if id in jobs then jobs[id] else map[] }

  /** The attempt a running executor works on is the last one of its copy of the operation. */
  function Current(x: Session): nat {
    if x.local.attempts == [] then 0 else x.local.attempts[|x.local.attempts| - 1].number
  }

  /** A never-dispatched, acknowledged newest delivery without a Job is proof of non-delivery. */
  predicate PreparationStopped(jobs: map<nat, Job>, local: Operation) {
    var d := LatestDelivery(local.attempts, |local.attempts|);
    var c := CredentialAt(local.attempts, d);
    c.Some? && c.value.phase == Preparing && c.value.resolved && !Present(jobs, d)
  }

  function ReadReport(report: Report, readable: bool): (Outcome, string) {
    if !readable then (Unsure, "")
    else match report
      case Deployed(id) => if id == "" then (Unsure, "") else (Success, id)
      case Broken(id) => if id == "" then (Unsure, "") else (DeliveryFailed, id)
      case Unclear(id) => (Unsure, id)
      case Silent => (Unsure, "")
  }

  /** The newest delivery before the last attempt, which only observes. */
  function ExistingDelivery(local: Operation): nat {
    if local.attempts == [] then 0 else LatestDelivery(local.attempts, |local.attempts| - 1)
  }

  /** What the executor of attempt `number` proves; an observation also needs the delivery itself ended. */
  function Evidence(jobs: map<nat, Job>, x: Session, number: nat, readable: bool): (Outcome, string)
    requires HasEnded(jobs, number)
  {
    if x.work == Reobserve && !HasEnded(jobs, ExistingDelivery(x.local)) then (Unsure, "")
    else ReadReport(jobs[number].report, readable)
  }

  function Classify(work: Work, outcome: Outcome): Status {
    match outcome
    case Success => Succeeded
    case DeliveryFailed => Failed
    case Rejected => if work.Deliver? then Failed else Uncertain
    case Unsure => Uncertain
  }

  /** The state switch of the service, on its copy of the operation. */
  predicate Admitted(work: Work, state: Status) {
    match state
    case Pending => work.Deliver?
    case Running => !work.Deliver?
    case Uncertain => !work.Deliver?
    case Failed => work == Deliver(true)
    case Succeeded => false
  }

  // ----- actions of one session -----

  /** What one action writes: nothing, one journal update, or one create request. */
  datatype Write = Nothing | Dispatch(number: nat) | Acknowledge(number: nat) | Create(number: nat)

  /** The session after the action, or none when the call returns and its lock is released. */
  datatype Effect = Effect(write: Write, next: Option<Session>)

  function Stay(x: Session): Effect { Effect(Nothing, Some(x)) }

  function GoTo(x: Session, at: Point): Effect { Effect(Nothing, Some(x.(at := at))) }

  datatype Action =
    | Load
    | Fetch
    | Require
    | Inspect(target: nat)
    | Prepare(now: Instant, issued: bool, uncertain: bool)
    | Mark(applied: bool, acked: bool)
    | Send
    | Arrive
    | Confirm(readable: bool, again: bool)
    | Stop
    | GiveUp
    | Resolve(applied: bool, acked: bool)
    | ObservePassively(readable: bool)
    | Conclude(answered: bool)
    | Die

  /** Both reads go through the pool, so a session that lost its lock performs them too. */
  function ActLoad(op: Operation, x: Session): Effect {
    if x.at == Locked then Effect(Nothing, Some(x.(local := op, at := Loaded))) else Stay(x)
  }

  function ActFetch(op: Operation, x: Session): Effect {
    if x.at == Started then Effect(Nothing, Some(x.(local := op, at := Fetched))) else Stay(x)
  }

  /** The obligation of the current attempt must be open, on the session that holds the lock. */
  function ActRequire(op: Operation, x: Session): Effect {
    if !(x.at == Fetched && (x.work.Deliver? || x.work == Reobserve)) && x.at != Sweeping then Stay(x)
    else if !x.alive || !JournalOpen(op, Current(x)) then GoTo(x, Returned(Unsure, ""))
    else if x.at == Fetched && x.work == Reobserve then GoTo(x, Sweeping)
    else GoTo(x, Ready)
  }

  /** Cleanup of one attempt starts: of an earlier one while observing, or of the named one. */
  predicate MayInspect(x: Session, target: nat) {
    var c := CredentialAt(x.local.attempts, target);
    c.Some? && !c.value.resolved &&
    if x.work.CleanUp? then x.at == Loaded && x.work.attempt == target else x.at == Sweeping && target != Current(x)
  }

  function ActInspect(jobs: map<nat, Job>, op: Operation, x: Session, target: nat): Effect {
    if !MayInspect(x, target) then Stay(x)
    else if Present(jobs, target) then
      if x.alive && JournalOpen(op, target) then Effect(Dispatch(target), Some(x.(at := Watching(target)))) else Stay(x)
    else if CredentialAt(x.local.attempts, target).value.phase == Preparing then
      GoTo(x, Fencing(target, if x.work.CleanUp? then Leave else Sweep))
    else Stay(x)
  }

  function Deadline(x: Session): Option<Instant> {
    if 1 <= Current(x) <= |x.local.attempts| then x.local.attempts[Current(x) - 1].credentialExpiresAt else None
  }

  /** The preparation of the credential; without the execution window it is only revoked. */
  function ActPrepare(jobs: map<nat, Job>, x: Session, now: Instant, issued: bool, uncertain: bool): Effect {
    if x.at != Ready || Present(jobs, Current(x)) then Stay(x)
    else if Deadline(x).None? || !CoversExecution(Deadline(x).value, now) then GoTo(x, Fencing(Current(x), Return(Rejected, "")))
    else if issued then GoTo(x, Prepared)
    else GoTo(x, Fencing(Current(x), Return(if uncertain then Unsure else Rejected, "")))
  }

  /** The dispatch marker; a marker that failed, or whose reply was lost, is only compensated. */
  function ActMark(op: Operation, x: Session, applied: bool, acked: bool): Effect {
    if x.at != Prepared then Stay(x)
    else
      var done := applied && x.alive && JournalOpen(op, Current(x));
      Effect(if done then Dispatch(Current(x)) else Nothing,
             Some(x.(at := if done && acked then Marked else Fencing(Current(x), Return(Unsure, "")))))
  }

  function ActSend(x: Session): Effect {
    if x.at != Marked then Stay(x) else Effect(Create(Current(x)), Some(x.(at := Sent)))
  }

  /** The Job is there and matches: the marker is confirmed before it is watched. */
  function ActArrive(jobs: map<nat, Job>, op: Operation, x: Session): Effect {
    if (x.at != Ready && x.at != Sent) || !Present(jobs, Current(x)) then Stay(x)
    else if x.alive && JournalOpen(op, Current(x)) then Effect(Dispatch(Current(x)), Some(x.(at := Watching(Current(x)))))
    else GoTo(x, Returned(Unsure, ""))
  }

  /**
   The watched Job's Pod is terminal: its evidence is read and its credential may be revoked. The
   Pod is looked at once more after its evidence; if that fails, the release is known but nothing is revoked.
   */
  function ActConfirm(jobs: map<nat, Job>, x: Session, readable: bool, again: bool): Effect {
    if !x.at.Watching? || !HasEnded(jobs, x.at.watched) then Stay(x)
    else if x.work.CleanUp? then GoTo(x, Fencing(x.at.watched, Leave))
    else if x.at.watched != Current(x) then GoTo(x, Fencing(x.at.watched, Sweep))
    else
      var (outcome, externalId) := Evidence(jobs, x, x.at.watched, readable);
      GoTo(x, if again then Fencing(x.at.watched, Return(outcome, externalId)) else Returned(Unsure, externalId))
  }

  function ActStop(jobs: map<nat, Job>, x: Session): Effect {
    if x.at != Sweeping || !PreparationStopped(jobs, x.local) then Stay(x)
    else GoTo(x, Fencing(Current(x), Return(DeliveryFailed, "")))
  }

  /** Any remote or database error that ends the executor without an answer. */
  function ActGiveUp(x: Session): Effect {
    if x.at == Fetched || x.at == Ready || x.at == Marked || x.at == Sent then GoTo(x, Returned(Unsure, ""))
    else if x.at.Watching? && x.work.CleanUp? then Effect(Nothing, None)
    else if x.at.Watching? then GoTo(x, if x.at.watched != Current(x) then Sweeping else Returned(Unsure, ""))
    else Stay(x)
  }

  /** Provider revocation followed by its acknowledgement; `applied` and `acked` are the write and its reply. */
  function ActResolve(op: Operation, x: Session, applied: bool, acked: bool): Effect {
    if !x.at.Fencing? then Stay(x)
    else
      var target := x.at.target;
      var done := applied && x.alive && JournalOpen(op, target);
      var write := if done then Acknowledge(target) else Nothing;
      match x.at.after
      case Leave => Effect(write, None)
      case Sweep =>
        var local := if done && acked then x.local.(attempts := Journal(x.local.attempts, target, false)) else x.local;
        Effect(write, Some(x.(local := local, at := Sweeping)))
      case Return(outcome, externalId) =>
        Effect(write, Some(x.(at := if done && acked then Returned(outcome, externalId) else Returned(Unsure, ""))))
  }

  /** Administrative recovery reads existing evidence only. */
  function ActObservePassively(jobs: map<nat, Job>, x: Session, readable: bool): Effect {
    if x.at != Fetched || x.work != Passively then Stay(x)
    else
      var d := ExistingDelivery(x.local);
      if |x.local.attempts| < 2 then GoTo(x, Returned(Unsure, ""))
      else if PreparationStopped(jobs, x.local) then GoTo(x, Returned(DeliveryFailed, ""))
      else if !HasEnded(jobs, d) then GoTo(x, Returned(Unsure, ""))
      else var (outcome, externalId) := ReadReport(jobs[d].report, readable); GoTo(x, Returned(outcome, externalId))
  }

  /** A pending obligation, or a failed look at the journal, overrides every outcome. */
  function ActConclude(op: Operation, x: Session, answered: bool): Effect {
    if !x.at.Returned? then Stay(x)
    else
      var pending := !x.alive || !answered || Unresolved(op);
      GoTo(x, Settling(if pending then Uncertain else Classify(x.work, x.at.outcome), x.at.externalId))
  }

  /** `Die` is the death of the database session: the lock is free, and the process goes on. */
  function Act(jobs: map<nat, Job>, op: Operation, x: Session, e: Action): Effect {
    match e
    case Load => ActLoad(op, x)
    case Fetch => ActFetch(op, x)
    case Require => ActRequire(op, x)
    case Inspect(target) => ActInspect(jobs, op, x, target)
    case Prepare(now, issued, uncertain) => ActPrepare(jobs, x, now, issued, uncertain)
    case Mark(applied, acked) => ActMark(op, x, applied, acked)
    case Send => ActSend(x)
    case Arrive => ActArrive(jobs, op, x)
    case Confirm(readable, again) => ActConfirm(jobs, x, readable, again)
    case Stop => ActStop(jobs, x)
    case GiveUp => ActGiveUp(x)
    case Resolve(applied, acked) => ActResolve(op, x, applied, acked)
    case ObservePassively(readable) => ActObservePassively(jobs, x, readable)
    case Conclude(answered) => ActConclude(op, x, answered)
    case Die => Effect(Nothing, Some(x.(alive := false)))
  }

  // ----- steps of the system -----

  predicate Held(sessions: map<nat, Session>, destination: string) {
    exists sid :: sid in sessions && sessions[sid].alive && sessions[sid].destination == destination
  }

  function Becomes(sessions: map<nat, Session>, sid: nat, next: Option<Session>): map<nat, Session> {
    if next.Some? then sessions[sid := next.value] else sessions - {sid}
  }

  function Written(s: State, id: nat, write: Write): State
    requires id in s.db.operations
  {
    match write
    case Nothing => s
    case Dispatch(number) => s.(db := JournalTx(s.db, id, number, true).0)
    case Acknowledge(number) => s.(db := JournalTx(s.db, id, number, false).0)
    case Create(number) =>
      var jobs := Jobs(s.jobs, id);
      s.(jobs := s.jobs[id := if number in jobs then jobs else jobs[number := InFlight]])
  }

  function Applied(s: State, sid: nat, effect: Effect): State
    requires sid in s.sessions && s.sessions[sid].id in s.db.operations
  {
    Written(s, s.sessions[sid].id, effect.write).(sessions := Becomes(s.sessions, sid, effect.next))
  }

  function DoAct(s: State, sid: nat, e: Action): State {
    if sid !in s.sessions || s.sessions[sid].id !in s.db.operations then s
    else var x := s.sessions[sid]; Applied(s, sid, Act(Jobs(s.jobs, x.id), s.db.operations[x.id], x, e))
  }

  function DoRequest(s: State, id: nat, org: nat, destination: string, createdAt: Instant, ceiling: Option<Instant>): State {
    s.(db := InsertTx(s.db, id, org, destination, createdAt, ceiling).0)
  }

  /** A narrowing replay takes the destination lock for its single update. */
  function DoNarrow(s: State, id: nat, ceiling: Instant): State {
    if id in s.db.operations && !Held(s.sessions, s.db.operations[id].destination) then s.(db := NarrowTx(s.db, id, ceiling)) else s
  }

  function DoOpen(s: State, sid: nat, id: nat, work: Work): State {
    if sid in s.sessions || id !in s.db.operations || Held(s.sessions, s.db.operations[id].destination) then s
    else
      var op := s.db.operations[id];
      s.(sessions := s.sessions[sid := Session(id, op.destination, work, true, 0, op, Locked)])
  }

  function DoStart(s: State, sid: nat, current: Option<Instant>, now: Instant): State {
    if sid !in s.sessions || s.sessions[sid].id !in s.db.operations || s.sessions[sid].at != Loaded || s.sessions[sid].work.CleanUp? then s
    else
      var x := s.sessions[sid];
      var (db', number) := StartTx(s.db, x.id, KindOf(x.work), x.local, current, now);
      if !x.alive || (x.work.Deliver? && Unresolved(s.db.operations[x.id])) || !Admitted(x.work, x.local.state) || number.None? then
        s.(sessions := s.sessions - {sid})
      else s.(db := db', sessions := s.sessions[sid := x.(number := number.value, at := Started)])
  }

  function DoFinish(s: State, sid: nat): State {
    if sid !in s.sessions || s.sessions[sid].id !in s.db.operations || !s.sessions[sid].at.Settling? then s
    else
      var x := s.sessions[sid];
      var db' := if x.alive then FinishTx(s.db, x.id, x.number, x.at.state, x.at.settledId).0 else s.db;
      s.(db := db', sessions := s.sessions - {sid})
  }

  /** The API server applies an in-flight create, loses it, or the Pod of a Job ends. */
  datatype Change = Appear | Vanish | End(report: Report)

  function Changed(jobs: map<nat, Job>, number: nat, change: Change): map<nat, Job> {
    if number !in jobs then jobs
    else match change
      case Appear => if jobs[number] == InFlight then jobs[number := Live] else jobs
      case Vanish => if jobs[number] == InFlight then jobs - {number} else jobs
      case End(report) => if jobs[number] == Live then jobs[number := Ended(report)] else jobs
  }

  function DoCluster(s: State, id: nat, number: nat, change: Change): State {
    if id !in s.jobs then s else s.(jobs := s.jobs[id := Changed(s.jobs[id], number, change)])
  }

  /** `Crash` ends the process and its database session together. */
  datatype Step =
    | Request(rid: nat, org: nat, destination: string, createdAt: Instant, ceiling: Option<Instant>)
    | NarrowReplay(rid: nat, until: Instant)
    | OpenLock(sid: nat, rid: nat, work: Work)
    | Start(sid: nat, authority: Option<Instant>, at: Instant)
    | Step(sid: nat, action: Action)
    | Finish(sid: nat)
    | Crash(sid: nat)
    | Cluster(rid: nat, number: nat, change: Change)

  function Do(s: State, e: Step): State {
    match e
    case Request(id, org, destination, createdAt, ceiling) => DoRequest(s, id, org, destination, createdAt, ceiling)
    case NarrowReplay(id, until) => DoNarrow(s, id, until)
    case OpenLock(sid, id, work) => DoOpen(s, sid, id, work)
    case Start(sid, authority, at) => DoStart(s, sid, authority, at)
    case Step(sid, action) => DoAct(s, sid, action)
    case Finish(sid) => DoFinish(s, sid)
    case Crash(sid) => s.(sessions := s.sessions - {sid})
    case Cluster(id, number, change) => DoCluster(s, id, number, change)
  }

  /** The state after a run from the empty system. */
  ghost function Exec(steps: seq<Step>): State { EndOf(Do, INITIAL, steps) }
}
