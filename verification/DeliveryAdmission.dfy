/**
 When an attempt starts and what it may do, exactly: `start` and `execute` of
 `internal/deployment/store.go` and `service.go`, and the execution window of `helm.go`.
 */
module DeliveryAdmission {
  import opened Wrappers
  import opened Expiry
  import opened DeploymentStore
  import opened Delivery
  import opened DeliveryInvariant
  import opened DeliverySteps
  import opened DeliverySafety
  import opened DeliveryProgress
  import opened Traces

  /**
   A request is stored exactly once, with its ceiling, and only on a destination of its own
   organization, which the first request takes; a replay changes nothing, whatever it brings.
   */
  lemma RequestsExactly(steps: seq<Step>, id: nat, org: nat, destination: string, createdAt: Instant, ceiling: Option<Instant>)
    ensures var s := Exec(steps); var s' := Do(s, Request(id, org, destination, createdAt, ceiling));
            var own := destination in s.db.owners ==> s.db.owners[destination] == org;
            && s' == s.(db := s'.db) && s'.db.outbox == s.db.outbox
            && s'.db.owners == (if own then s.db.owners[destination := org] else s.db.owners)
            && s'.db.operations == if own && id !in s.db.operations
                                   then s.db.operations[id := Operation(org, destination, createdAt, Pending, [], ceiling, ceiling)] else s.db.operations
  {
    hide Exec;
    var owners := Exec(steps).db.owners;
    if destination in owners && owners[destination] == org { assert owners[destination := org] == owners; }
  }

  /** The work suits the operation: a delivery is new or an explicit retry with nothing owed; only what is unfinished is observed. */
  predicate Suits(work: Work, op: Operation) {
    match work
    case Deliver(retry) => (op.state == Pending || (op.state == Failed && retry)) && !Unresolved(op)
    case Reobserve => op.state == Running || op.state == Uncertain
    case Passively => op.state == Running || op.state == Uncertain
    case CleanUp(_) => false
  }

  /** No other operation on the destination is active, owes an obligation, or is newer and has begun. */
  predicate Undisputed(db: Db, id: nat)
    requires id in db.operations
  {
    forall other :: other in db.operations && other != id && db.operations[other].destination == db.operations[id].destination ==>
      var q := db.operations[other];
      q.state != Running && q.state != Uncertain && !Unresolved(q) && (db.operations[id].createdAt < q.createdAt ==> q.state == Pending)
  }

  lemma UndisputedIs(db: Db, id: nat)
    requires DbSound(db) && id in db.operations
    ensures var op := db.operations[id]; Undisputed(db, id) <==> !Blocked(db, id, op.org, op.destination, op.createdAt)
  {
    hide Published, Exclusive, Unresolved;
    var op := db.operations[id];
    if Undisputed(db, id) {
      forall other | other in db.operations && other != id ensures !Blocks(db.operations[other], op.org, op.destination, op.createdAt) {}
    } else {
      var other :| other in db.operations && other != id && db.operations[other].destination == op.destination
                   && !(var q := db.operations[other];
                        q.state != Running && q.state != Uncertain && !Unresolved(q) && (op.createdAt < q.createdAt ==> q.state == Pending));
      assert Blocks(db.operations[other], op.org, op.destination, op.createdAt);
    }
  }

  /** The attempt that a start adds. */
  predicate IsNew(a: Attempt, op: Operation, work: Work, authority: Option<Instant>, at: Instant) {
    && a.number == |op.attempts| + 1 && a.state == Running && a.externalId == "" && a.startedAt == Truncate(at)
    && a.kind == (if work.Deliver? then Execute else if work.Reobserve? then Observe else Recover)
    && a.credential == (if work.Passively? then None else Some(Credential(Preparing, false)))
    && Within(a.authorizedUntil, op.authorizedUntil) && Within(a.authorizedUntil, op.effectiveUntil) && Within(a.authorizedUntil, authority)
    && (a.authorizedUntil == op.authorizedUntil || JustBelow(a.authorizedUntil, op.effectiveUntil) || JustBelow(a.authorizedUntil, authority))
    && (a.credentialExpiresAt == Some(Truncate(at) + 12 * MINUTE) || a.credentialExpiresAt == a.authorizedUntil)
  }

  /** The rest of the row: nothing else changes, but what was running is now uncertain, and authority narrows to the new attempt's. */
  predicate ResumesFrom(op: Operation, op': Operation, work: Work)
    requires |op'.attempts| == |op.attempts| + 1
  {
    && op' == op.(state := op'.state, attempts := op'.attempts, effectiveUntil := op'.effectiveUntil)
    && (forall i :: 0 <= i < |op.attempts| ==>
          op'.attempts[i] == if op.attempts[i].state == Running && !work.Deliver? then op.attempts[i].(state := Uncertain) else op.attempts[i])
    && Within(op'.effectiveUntil, op.effectiveUntil) && Within(op'.effectiveUntil, Last(op'.attempts).authorizedUntil)
    && (op'.effectiveUntil == op.effectiveUntil || op'.effectiveUntil == Last(op'.attempts).authorizedUntil)
  }

  /** Rounded down to the database's microsecond at most. */
  predicate JustBelow(a: Option<Instant>, b: Option<Instant>) {
    a.Some? && b.Some? && b.value - MICROSECOND < a.value <= b.value
  }

  /**
   An attempt starts exactly when a session that holds the lock asks for work that suits its
   operation, undisputed on its destination. It holds the narrowest of the three ceilings, and its
   credential the earlier of that and twelve minutes; an attempt that still ran becomes uncertain. A
   start that is refused leaves no trace.
   */
  lemma StartsExactly(steps: seq<Step>, sid: nat, authority: Option<Instant>, at: Instant, id: nat)
    requires id in Exec(steps).db.operations
    ensures var s := Exec(steps); var s' := Do(s, Start(sid, authority, at)); var op := s.db.operations[id];
            if && sid in s.sessions && s.sessions[sid].id == id && s.sessions[sid].at == Loaded && s.sessions[sid].alive
               && Suits(s.sessions[sid].work, op) && Undisputed(s.db, id)
            then
              && id in s'.db.operations && |s'.db.operations[id].attempts| == |op.attempts| + 1
              && IsNew(Last(s'.db.operations[id].attempts), op, s.sessions[sid].work, authority, at) && s'.db.operations[id].state == Running
              && s'.db == s.db.(operations := s.db.operations[id := s'.db.operations[id]])
              && ResumesFrom(op, s'.db.operations[id], s.sessions[sid].work)
            else id in s'.db.operations && s'.db.operations[id] == op
  {
    hide Exec, Inv, Unresolved, Blocked, Lingering, Holding, OperationSound, StartTx, StartedRow, Undisputed, IsNew, ResumesFrom;
    var s := Exec(steps);
    RunKeepsInv(steps);
    RunDbSound(steps);
    if sid in s.sessions && s.sessions[sid].id in s.db.operations && s.sessions[sid].at == Loaded && s.sessions[sid].alive {
      var x := s.sessions[sid];
      SoundHere(s, sid);
      LoadedIs(Jobs(s.jobs, x.id), s.db.operations[x.id], x);
      MarkedOf(Jobs(s.jobs, x.id), s.db.operations[x.id]);
      StartTxIs(s.db, x.id, KindOf(x.work), authority, at);
      UndisputedIs(s.db, x.id);
      StartedIsNew(s.db.operations[x.id], x.work, authority, at);
    }
  }

  lemma StartedIsNew(op: Operation, work: Work, authority: Option<Instant>, at: Instant)
    ensures var op' := StartedRow(op, KindOf(work), authority, at);
            && |op'.attempts| == |op.attempts| + 1 && op'.state == Running
            && (!work.CleanUp? ==> IsNew(Last(op'.attempts), op, work, authority, at) && ResumesFrom(op, op', work))
  {
    NarrowJust(op.authorizedUntil, op.effectiveUntil);
    NarrowJust(Narrow(op.authorizedUntil, op.effectiveUntil), authority);
    TwelveMinutes(at);
  }

  /** An executor is prepared only while five minutes of its attempt's credential are left. */
  lemma PreparedInTime(steps: seq<Step>, e: Step, sid: nat)
    requires var s, s' := Exec(steps), Do(Exec(steps), e);
             sid in s'.sessions && s'.sessions[sid].at == Prepared && !(sid in s.sessions && s.sessions[sid].at == Prepared)
    ensures e.Step? && e.sid == sid && e.action.Prepare? && sid in Exec(steps).sessions
    ensures var s := Exec(steps); var x := s.sessions[sid];
            && x.id in s.db.operations && 1 <= x.number <= |s.db.operations[x.id].attempts|
            && var until := s.db.operations[x.id].attempts[x.number - 1].credentialExpiresAt;
               until.Some? && e.action.now + 5 * MINUTE <= until.value
  {
    hide Exec, Inv, Act, StartTx, FinishTx, Sound, OperationSound, JournalTx, Unresolved, Held;
    var s := Exec(steps);
    RunKeepsInv(steps);
    if sid in s.sessions {
      var x := s.sessions[sid];
      SoundHere(s, sid);
      if e.Step? && e.sid == sid {
        ActPrepares(Jobs(s.jobs, x.id), s.db.operations[x.id], x, e.action);
        if x.at == Ready { ReadyDeadline(Jobs(s.jobs, x.id), s.db.operations[x.id], x); }
      }
    }
  }

  lemma ActPrepares(jobs: map<nat, Job>, op: Operation, x: Session, e: Action)
    ensures var next := Act(jobs, op, x, e).next;
            next.Some? && next.value.at == Prepared && x.at != Prepared ==>
              e.Prepare? && x.at == Ready && Deadline(x).Some? && e.now + 5 * MINUTE <= Deadline(x).value
  {
    hide JournalOpen, PreparationStopped, Unresolved, Evidence, ReadReport, Present, HasEnded;
  }

  lemma ReadyDeadline(jobs: map<nat, Job>, op: Operation, x: Session)
    requires Sound(jobs, op, x) && x.at == Ready
    ensures 1 <= x.number <= |op.attempts| && Deadline(x) == op.attempts[x.number - 1].credentialExpiresAt
  {
    hide Holding;
  }

  /** Some attempt `n` of the operation has an open obligation, with its dispatch marker if asked. */
  predicate OpenAt(op: Operation, n: nat, marked: bool) {
    1 <= n <= |op.attempts| && Open(op.attempts[n - 1]) && (marked ==> op.attempts[n - 1].credential.value.phase == Dispatching)
  }

  /**
   Nobody works without an open obligation: an executor goes on only on the session that holds the
   lock while its own is open, and a Job is watched only once the open one it runs under is marked.
   */
  lemma WorksUnderObligation(steps: seq<Step>, sid: nat, e: Action)
    requires sid in Exec(steps).sessions && sid in Do(Exec(steps), Step(sid, e)).sessions
    requires Do(Exec(steps), Step(sid, e)).sessions[sid].at != Exec(steps).sessions[sid].at
    ensures var s, s' := Exec(steps), Do(Exec(steps), Step(sid, e)); var x' := s'.sessions[sid];
            && x'.id in s'.db.operations
            && (x'.at == Ready ==> x'.alive && OpenAt(s'.db.operations[x'.id], x'.number, false))
            && (x'.at.Watching? ==> x'.alive && OpenAt(s'.db.operations[x'.id], x'.at.watched, true))
  {
    hide Exec, Inv, Act, Sound, OperationSound, Held, RowAfter, JournalOpen, Open;
    var s := Exec(steps);
    RunKeepsInv(steps);
    SoundHere(s, sid);
    var x := s.sessions[sid];
    var op, jobs := s.db.operations[x.id], Jobs(s.jobs, x.id);
    MarkedOf(jobs, op);
    if e == Send && x.at == Marked { SentKeepsNumber(jobs, op, x); } else { ActionSound(jobs, op, x, e); ActIs(s, sid, e); }
    ActReaches(jobs, op, x, e);
    var next := Act(jobs, op, x, e).next;
    if next.Some? && next.value.at == Ready && x.at != Ready { ReadyOpen(jobs, op, next.value); }
    if next.Some? && next.value.at.Watching? && x.at != next.value.at { MarkedOpen(op, next.value.at.watched); }
  }

  lemma ActReaches(jobs: map<nat, Job>, op: Operation, x: Session, e: Action)
    ensures var effect := Act(jobs, op, x, e);
            effect.next.Some? && effect.next.value.at != x.at ==>
              && (effect.next.value.at == Ready ==>
                    effect.write == Nothing && x.alive && effect.next.value == x.(at := Ready) && JournalOpen(op, Current(x)))
              && (effect.next.value.at.Watching? ==>
                    x.alive && effect.next.value.alive && effect.write == Dispatch(effect.next.value.at.watched) && JournalOpen(op, effect.next.value.at.watched))
  {
    hide JournalOpen, PreparationStopped, Unresolved, Evidence, ReadReport, Present, HasEnded;
  }

  lemma ReadyOpen(jobs: map<nat, Job>, op: Operation, x: Session)
    requires Sound(jobs, op, x) && x.at == Ready && JournalOpen(op, Current(x)) && Numbered(op.attempts)
    ensures OpenAt(op, x.number, false)
  {
    hide Holding, JournalOpen;
    JournalOf(op, x.number);
  }

  lemma MarkedOpen(op: Operation, n: nat)
    requires JournalOpen(op, n) && Numbered(op.attempts)
    ensures OpenAt(RowAfter(op, Dispatch(n)), n, true)
  {
  }

  lemma NarrowJust(a: Option<Instant>, b: Option<Instant>)
    ensures Narrow(a, b) == a || JustBelow(Narrow(a, b), b)
  {
  }

  lemma TwelveMinutes(at: Instant)
    ensures Truncate(Truncate(at) + 12 * MINUTE) == Truncate(at) + 12 * MINUTE
  {
  }
}
