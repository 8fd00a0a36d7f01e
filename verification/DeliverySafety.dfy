/**
 What the delivery protocol promises, over all runs: `Exec(steps)` is any reachable state, with
 crashes, lost lock sessions, late creates and processes that go on after losing their lock.
 */
module DeliverySafety {
  import opened Wrappers
  import opened Expiry
  import opened DeploymentStore
  import opened Delivery
  import opened DeliveryInvariant
  import opened DeliverySteps
  import opened Traces

  lemma RunSound(steps: seq<Step>, id: nat)
    requires id in Exec(steps).db.operations
    ensures OperationSound(Jobs(Exec(steps).jobs, id), Exec(steps).db.operations[id])
  {
    hide DbSound, SessionsSound, Separate, OperationSound, Exec;
    RunKeepsInv(steps);
  }

  lemma RunDbSound(steps: seq<Step>)
    ensures DbSound(Exec(steps).db)
  {
    hide DbSound, SessionsSound, Separate, OperationSound, Exec;
    RunKeepsInv(steps);
  }

  // ----- what one state promises -----

  /** Attempt `n` of operation `id` may be changing its destination: its Job runs, or a create is on its way. */
  ghost predicate Delivering(s: State, id: nat, n: nat) {
    && id in s.db.operations && 1 <= n <= |s.db.operations[id].attempts|
    && s.db.operations[id].attempts[n - 1].kind == Execute
    && ((n in Jobs(s.jobs, id) && !Jobs(s.jobs, id)[n].Ended?)
        || exists sid :: sid in s.sessions && s.sessions[sid].id == id && s.sessions[sid].number == n && s.sessions[sid].at == Marked)
  }

  /** A Job that may run, and a create that may be sent, stand under an open obligation. */
  lemma DeliveringIsOpen(s: State, id: nat, n: nat)
    requires Inv(s) && Delivering(s, id, n)
    ensures id in s.db.operations && Active(s.db.operations[id]) && Newest(s.db.operations[id].attempts, n - 1)
  {
    hide DbSound, Separate, Narrowing, Historic, Newest, Holding, Agrees, Vouched;
    assert OperationSound(Jobs(s.jobs, id), s.db.operations[id]);
    if !(n in Jobs(s.jobs, id) && !Jobs(s.jobs, id)[n].Ended?) {
      var sid :| sid in s.sessions && s.sessions[sid].id == id && s.sessions[sid].number == n && s.sessions[sid].at == Marked;
      SoundHere(s, sid);
    }
    assert Open(s.db.operations[id].attempts[n - 1]);
  }

  lemma ExclusiveDelivery(steps: seq<Step>, p: nat, m: nat, q: nat, n: nat)
    requires Delivering(Exec(steps), p, m) && Delivering(Exec(steps), q, n)
    requires Exec(steps).db.operations[p].destination == Exec(steps).db.operations[q].destination
    ensures p == q && m == n
  {
    hide Inv, Delivering, Exec, Published, Exclusive;
    var s := Exec(steps);
    RunKeepsInv(steps);
    RunDbSound(steps);
    DeliveringIsOpen(s, p, m);
    DeliveringIsOpen(s, q, n);
    OneActive(s.db, p, q);
  }

  lemma OneActive(db: Db, p: nat, q: nat)
    requires Exclusive(db) && p in db.operations && q in db.operations && Active(db.operations[p]) && Active(db.operations[q])
    requires db.operations[p].destination == db.operations[q].destination
    ensures p == q
  {
    hide Exclusive;
    if p != q { ExcludesOf(db, p, q); }
  }

  lemma ExcludesOf(db: Db, p: nat, q: nat)
    requires Exclusive(db) && p in db.operations && q in db.operations && p != q
    ensures Excludes(db.operations[p], db.operations[q])
  {
    hide Excludes;
  }

  /** Final states are sound: every obligation is resolved, and no executor of the operation runs. */
  lemma FinalStatesSound(steps: seq<Step>, id: nat, n: nat)
    requires id in Exec(steps).db.operations
    requires Exec(steps).db.operations[id].state == Succeeded || Exec(steps).db.operations[id].state == Failed
    ensures !Unresolved(Exec(steps).db.operations[id])
    ensures n in Jobs(Exec(steps).jobs, id) ==> Jobs(Exec(steps).jobs, id)[n].Ended?
  {
    hide Exec, Narrowing, Historic, Newest;
    RunSound(steps, id);
  }

  /** A success rests on the newest delivery: its executor has ended, whether its report or a later observation's decided. */
  lemma SuccessIsProven(steps: seq<Step>, id: nat)
    requires id in Exec(steps).db.operations && Exec(steps).db.operations[id].state == Succeeded
    ensures var s := Exec(steps); var op := s.db.operations[id];
            exists n :: n > 0 && Newest(op.attempts, n - 1) && HasEnded(Jobs(s.jobs, id), n) && (id, n) in s.db.outbox
                        && s.db.outbox[(id, n)] == Last(op.attempts).externalId != ""
  {
    hide Exec, Narrowing, Exclusive, Obliged, Credentialed, JobsMarked, Delivers, Vouched;
    var s := Exec(steps);
    RunSound(steps, id);
    RunDbSound(steps);
    var n :| (id, n) in s.db.outbox;
    EventOf(s.db, id, n);
    DeliversBound(s.db.operations[id].attempts);
    assert Delivers(s.db.operations[id].attempts, n - 1, |s.db.operations[id].attempts| - 1);
  }

  /**
   A recorded release was reported: an ended executor of the delivery that the attempt refers to, or
   of an observation of it, names it. A successful attempt was reported deployed, a failed one broken.
   */
  lemma RecordsAreReported(steps: seq<Step>, id: nat, i: nat) returns (m: nat)
    requires id in Exec(steps).db.operations && i < |Exec(steps).db.operations[id].attempts|
    requires Exec(steps).db.operations[id].attempts[i].externalId != ""
    ensures var attempts, jobs := Exec(steps).db.operations[id].attempts, Jobs(Exec(steps).jobs, id);
            && 1 <= m <= i + 1 && (forall j :: m <= j <= i ==> attempts[j].kind != Execute)
            && m in jobs && jobs[m].Ended? && !jobs[m].report.Silent? && jobs[m].report.id == attempts[i].externalId
            && (attempts[i].state == Succeeded ==> jobs[m] == Ended(Deployed(attempts[i].externalId)))
            && (attempts[i].state == Failed ==> jobs[m] == Ended(Broken(attempts[i].externalId)))
  {
    hide Exec, Coherent, Narrowing, Historic, JobsMarked;
    RunSound(steps, id);
    var attempts, jobs := Exec(steps).db.operations[id].attempts, Jobs(Exec(steps).jobs, id);
    var d: int;
    d, m :| Delivers(attempts, d, i) && d < m <= i + 1 && m in jobs && jobs[m].Ended? && Says(jobs[m].report, attempts[i].state, attempts[i].externalId);
  }

  /**
   The state of an operation rests on a report: it succeeded only if an executor of its newest
   delivery, or of an observation of that, reported the recorded release deployed, and it failed with
   a recorded release only if one reported it broken.
   */
  lemma OutcomeIsReported(steps: seq<Step>, id: nat) returns (m: nat)
    requires id in Exec(steps).db.operations
    requires var op := Exec(steps).db.operations[id];
             op.state == Succeeded || (op.state == Failed && op.attempts != [] && Last(op.attempts).externalId != "")
    ensures Exec(steps).db.operations[id].attempts != []
    ensures var op, jobs := Exec(steps).db.operations[id], Jobs(Exec(steps).jobs, id);
            && 1 <= m <= |op.attempts| && (forall j :: m <= j < |op.attempts| ==> op.attempts[j].kind != Execute) && m in jobs
            && jobs[m] == Ended(if op.state == Succeeded then Deployed(Last(op.attempts).externalId) else Broken(Last(op.attempts).externalId))
  {
    hide Exec, Narrowing, JobsMarked, Vouched, Obliged, Credentialed, Numbered, Delivers;
    RunSound(steps, id);
    m := RecordsAreReported(steps, id, |Exec(steps).db.operations[id].attempts| - 1);
  }

  /** A failure without a recorded release means that the newest delivery never ran. */
  lemma FailureIsProven(steps: seq<Step>, id: nat, d: nat)
    requires id in Exec(steps).db.operations && Exec(steps).db.operations[id].state == Failed
    requires Newest(Exec(steps).db.operations[id].attempts, d)
    ensures Reported(Exec(steps).db.operations[id].attempts, d) <==> d + 1 in Jobs(Exec(steps).jobs, id)
  {
    hide Exec, Narrowing, JobsMarked, Obliged, Credentialed;
    RunSound(steps, id);
  }

  /** The event of a success is there exactly when the operation succeeded, once, under its newest delivery. */
  lemma OneEvent(steps: seq<Step>, id: nat, n: nat)
    requires id in Exec(steps).db.operations
    ensures var s := Exec(steps);
            (id, n) in s.db.outbox <==>
            s.db.operations[id].state == Succeeded && Newest(s.db.operations[id].attempts, n - 1)
  {
    hide Exec, Exclusive;
    var s := Exec(steps);
    RunDbSound(steps);
    if (id, n) in s.db.outbox { EventOf(s.db, id, n); }
    if s.db.operations[id].state == Succeeded && Newest(s.db.operations[id].attempts, n - 1) {
      var m :| (id, m) in s.db.outbox;
      EventOf(s.db, id, m);
    }
  }

  /** Attempts are numbered 1..n; only the last may run, and the operation is in its state. */
  lemma AttemptsCoherent(steps: seq<Step>, id: nat, i: nat)
    requires id in Exec(steps).db.operations
    ensures var op := Exec(steps).db.operations[id];
            && (op.state == Pending <==> op.attempts == [])
            && (i < |op.attempts| ==>
                  && op.attempts[i].number == i + 1
                  && (op.attempts[i].state == Running ==> i == |op.attempts| - 1)
                  && (i == |op.attempts| - 1 ==> op.attempts[i].state == op.state))
  {
    hide Exec, Narrowing, Historic, JobsMarked, Obliged;
    RunSound(steps, id);
  }

  /** A superseded executor's result never takes effect. */
  lemma SupersededFinishIsVoid(steps: seq<Step>, id: nat, number: nat, state: Status, externalId: string)
    requires id in Exec(steps).db.operations && number < |Exec(steps).db.operations[id].attempts|
    ensures FinishTx(Exec(steps).db, id, number, state, externalId) == (Exec(steps).db, false)
  {
    hide Exec, Narrowing, Historic, JobsMarked, Obliged;
    RunSound(steps, id);
  }

  /** An unfinished operation can always be observed: no other operation can lock it out. */
  lemma RecoveryNeverBlocked(steps: seq<Step>, id: nat, kind: Kind, current: Option<Instant>, now: Instant)
    requires id in Exec(steps).db.operations && Active(Exec(steps).db.operations[id]) && kind != Execute
    ensures StartTx(Exec(steps).db, id, kind, Exec(steps).db.operations[id], current, now).1.Some?
  {
    hide Exec, Narrowing, Historic, JobsMarked, Newest, Numbered, Sequenced, Credentialed, Published;
    var s := Exec(steps);
    var op := s.db.operations[id];
    RunDbSound(steps);
    forall other | other in s.db.operations && other != id
      ensures !Blocks(s.db.operations[other], op.org, op.destination, op.createdAt)
    {
      assert Excludes(op, s.db.operations[other]);
      RunSound(steps, other);
    }
  }

  /** Authority: later attempts hold no more than earlier ones, and no credential outlives its attempt's bounds. */
  lemma AuthorityNarrows(steps: seq<Step>, id: nat, i: nat, j: nat)
    requires id in Exec(steps).db.operations && i <= j < |Exec(steps).db.operations[id].attempts|
    ensures var op := Exec(steps).db.operations[id];
            && Within(op.attempts[j].authorizedUntil, op.attempts[i].authorizedUntil)
            && Within(op.effectiveUntil, op.attempts[i].authorizedUntil)
            && Within(op.effectiveUntil, op.authorizedUntil)
            && op.attempts[j].credentialExpiresAt.Some?
            && op.attempts[j].credentialExpiresAt.value <= op.attempts[j].startedAt + 12 * MINUTE
            && Within(op.attempts[j].credentialExpiresAt, op.attempts[i].authorizedUntil)
  {
    hide Exec, Historic, Coherent, JobsMarked;
    RunSound(steps, id);
  }

  // ----- what one step, and so every longer run, keeps -----

  /** An attempt keeps its identity and authority; its obligation is never reopened, nor its marker removed. */
  ghost predicate AttemptEvolves(a: Attempt, a': Attempt) {
    && a'.number == a.number && a'.kind == a.kind && a'.startedAt == a.startedAt
    && a'.authorizedUntil == a.authorizedUntil && a'.credentialExpiresAt == a.credentialExpiresAt
    && (a.state != Running ==> a'.state == a.state && a'.externalId == a.externalId)
    && (a.credential.Some? <==> a'.credential.Some?)
    && (a.credential.Some? && a.credential.value.resolved ==> a'.credential == a.credential)
    && (a.credential.Some? && a.credential.value.phase == Dispatching ==> a'.credential.value.phase == Dispatching)
  }

  /** New attempts hold no more than what was left of the operation's authority. */
  ghost predicate Evolves(op: Operation, op': Operation) {
    && op'.org == op.org && op'.destination == op.destination && op'.createdAt == op.createdAt
    && op'.authorizedUntil == op.authorizedUntil && Within(op'.effectiveUntil, op.effectiveUntil)
    && |op.attempts| <= |op'.attempts|
    && (forall i :: 0 <= i < |op.attempts| ==> AttemptEvolves(op.attempts[i], op'.attempts[i]))
    && (op'.state == Pending ==> op.state == Pending)
    && (forall i :: |op.attempts| <= i < |op'.attempts| ==> Within(op'.attempts[i].authorizedUntil, op.effectiveUntil))
    && (op.state == Succeeded ==> op'.(effectiveUntil := op.effectiveUntil) == op)
  }

  lemma EvolvesTransitive(p: Operation, q: Operation, r: Operation)
    requires Evolves(p, q) && Evolves(q, r)
    ensures Evolves(p, r)
  {
    hide AttemptEvolves;
    forall i | 0 <= i < |p.attempts| ensures AttemptEvolves(p.attempts[i], r.attempts[i]) {
      AttemptEvolvesTransitive(p.attempts[i], q.attempts[i], r.attempts[i]);
    }
    forall i | |p.attempts| <= i < |r.attempts| ensures Within(r.attempts[i].authorizedUntil, p.effectiveUntil) {
      if i < |q.attempts| { SameAuthority(q.attempts[i], r.attempts[i]); }
    }
  }

  lemma SameAuthority(a: Attempt, a': Attempt)
    requires AttemptEvolves(a, a')
    ensures a'.authorizedUntil == a.authorizedUntil
  {
  }

  lemma AttemptEvolvesTransitive(a: Attempt, b: Attempt, c: Attempt)
    requires AttemptEvolves(a, b) && AttemptEvolves(b, c)
    ensures AttemptEvolves(a, c)
  {
  }

  lemma EvolvesReflexive(op: Operation)
    ensures Evolves(op, op)
  {
  }

  lemma JournalEvolves(op: Operation, number: nat, dispatch: bool)
    requires Coherent(op)
    ensures Evolves(op, op.(attempts := Journal(op.attempts, number, dispatch)))
  {
    hide Numbered, Credentialed, Sequenced, Newest;
    var attempts' := Journal(op.attempts, number, dispatch);
    if op.state == Succeeded { assert attempts' == op.attempts; }
  }

  lemma StartEvolves(op: Operation, kind: Kind, current: Option<Instant>, now: Instant)
    requires Startable(op.state, kind)
    ensures Evolves(op, StartedRow(op, kind, current, now))
  {
    hide StartCeiling, EarlierExpiry;
  }

  lemma FinishEvolves(op: Operation, number: nat, state: Status, externalId: string)
    requires op.state == Running && state != Pending
    ensures Evolves(op, FinishedRow(op, number, state, externalId))
  {
  }

  lemma ActEvolves(s: State, sid: nat, e: Action, id: nat)
    requires Inv(s) && id in s.db.operations
    ensures id in DoAct(s, sid, e).db.operations && Evolves(s.db.operations[id], DoAct(s, sid, e).db.operations[id])
  {
    hide Inv, Act, Evolves, OperationSound, Sound;
    EvolvesReflexive(s.db.operations[id]);
    if sid in s.sessions && s.sessions[sid].id in s.db.operations {
      var x := s.sessions[sid];
      var op := s.db.operations[x.id];
      var write := Act(Jobs(s.jobs, x.id), op, x, e).write;
      SoundHere(s, sid);
      CoherentOf(Jobs(s.jobs, x.id), op);
      WrittenRow(s, x.id, write);
      if write.Dispatch? || write.Acknowledge? { JournalEvolves(op, write.number, write.Dispatch?); }
    }
  }

  lemma CoherentOf(jobs: map<nat, Job>, op: Operation)
    requires OperationSound(jobs, op)
    ensures Coherent(op)
  {
  }

  lemma DoStartEvolves(s: State, sid: nat, current: Option<Instant>, now: Instant, id: nat)
    requires Inv(s) && id in s.db.operations
    ensures var s' := DoStart(s, sid, current, now); id in s'.db.operations && Evolves(s.db.operations[id], s'.db.operations[id])
  {
    hide Inv, Evolves, OperationSound, Lingering, Holding, StartTx, Unresolved, Blocked, StartedRow;
    EvolvesReflexive(s.db.operations[id]);
    if sid in s.sessions && s.sessions[sid].id in s.db.operations && s.sessions[sid].at == Loaded && s.sessions[sid].alive {
      var x := s.sessions[sid];
      var op := s.db.operations[x.id];
      SoundHere(s, sid);
      LoadedIs(Jobs(s.jobs, x.id), op, x);
      MarkedOf(Jobs(s.jobs, x.id), op);
      StartTxIs(s.db, x.id, KindOf(x.work), current, now);
      if Startable(op.state, KindOf(x.work)) { StartEvolves(op, KindOf(x.work), current, now); }
    }
  }

  lemma LoadedIs(jobs: map<nat, Job>, op: Operation, x: Session)
    requires Sound(jobs, op, x) && x.at == Loaded && x.alive
    ensures x.local == op
  {
  }

  lemma DoFinishEvolves(s: State, sid: nat, id: nat)
    requires Inv(s) && id in s.db.operations
    ensures var s' := DoFinish(s, sid); id in s'.db.operations && Evolves(s.db.operations[id], s'.db.operations[id])
  {
    hide Inv, Evolves, OperationSound, Lingering, Holding, SettlesOne, MaxExecute;
    EvolvesReflexive(s.db.operations[id]);
    if sid in s.sessions && s.sessions[sid].id in s.db.operations && s.sessions[sid].at.Settling? && s.sessions[sid].alive {
      var x := s.sessions[sid];
      var op := s.db.operations[x.id];
      SoundHere(s, sid);
      SettlerKnows(Jobs(s.jobs, x.id), op, x);
      ConclusiveStates(Jobs(s.jobs, x.id), op, x.at.state, x.at.settledId);
      FinishEvolves(op, x.number, x.at.state, x.at.settledId);
    }
  }

  lemma NarrowEvolves(op: Operation, ceiling: Instant)
    ensures Evolves(op, op.(effectiveUntil := Least(op.effectiveUntil, Some(ceiling))))
  {
  }

  /** No step forgets an operation, undoes an attempt, or withdraws an event. */
  lemma StepEvolves(s: State, e: Step, id: nat)
    requires Inv(s) && id in s.db.operations
    ensures id in Do(s, e).db.operations && Evolves(s.db.operations[id], Do(s, e).db.operations[id])
  {
    hide Inv, Evolves, DoStart, DoFinish, DoAct;
    var op := s.db.operations[id];
    EvolvesReflexive(op);
    match e
    case NarrowReplay(_, until) => NarrowEvolves(op, until);
    case Start(sid, authority, at) => DoStartEvolves(s, sid, authority, at, id);
    case Step(sid, action) => ActEvolves(s, sid, action, id);
    case Finish(sid) => DoFinishEvolves(s, sid, id);
    case _ =>
  }

  lemma OperationsEvolve(a: seq<Step>, b: seq<Step>, id: nat)
    requires id in Exec(a).db.operations
    ensures id in Exec(a + b).db.operations && Evolves(Exec(a).db.operations[id], Exec(a + b).db.operations[id])
  {
    hide Evolves, Do, Inv;
    AllKeepInv();
    forall s: State ensures Kept(s, s, id) { if id in s.db.operations { EvolvesReflexive(s.db.operations[id]); } }
    forall s, t, e | Kept(s, t, id) && Inv(t) ensures Kept(s, Do(t, e), id) {
      if id in s.db.operations {
        StepEvolves(t, e, id);
        EvolvesTransitive(s.db.operations[id], t.db.operations[id], Do(t, e).db.operations[id]);
      }
    }
    Onward(Do, INITIAL, s => Inv(s), (s, t) => Kept(s, t, id), a, b);
  }

  ghost predicate Kept(s: State, t: State, id: nat) {
    id in s.db.operations ==> id in t.db.operations && Evolves(s.db.operations[id], t.db.operations[id])
  }

  /** A narrowing replay binds every attempt that starts after it, and so every later credential. */
  lemma NarrowingBinds(a: seq<Step>, b: seq<Step>, id: nat, until: Instant, i: nat)
    requires id in Exec(a).db.operations && !Held(Exec(a).sessions, Exec(a).db.operations[id].destination)
    ensures var s := Exec(a + [NarrowReplay(id, until)] + b);
            && id in s.db.operations && Within(s.db.operations[id].effectiveUntil, Some(until))
            && (|Exec(a).db.operations[id].attempts| <= i < |s.db.operations[id].attempts| ==>
                  Within(s.db.operations[id].attempts[i].authorizedUntil, Some(until))
                  && Within(s.db.operations[id].attempts[i].credentialExpiresAt, Some(until)))
  {
    hide Exec, Historic, Coherent, JobsMarked;
    NarrowReplayed(a, id, until);
    OperationsEvolve(a + [NarrowReplay(id, until)], b, id);
    RunSound(a + [NarrowReplay(id, until)] + b, id);
  }

  lemma NarrowReplayed(a: seq<Step>, id: nat, until: Instant)
    requires id in Exec(a).db.operations && !Held(Exec(a).sessions, Exec(a).db.operations[id].destination)
    ensures Exec(a + [NarrowReplay(id, until)]).db == NarrowTx(Exec(a).db, id, until)
  {
    EndOfNext(Do, INITIAL, a, NarrowReplay(id, until));
  }

  /**
   The journal only goes one way. A marker may come again, an acknowledgement is the last update of
   its attempt, no update touches another attempt, and what is once refused is refused ever after.
   */
  lemma JournalIsOneWay(a: seq<Step>, b: seq<Step>, id: nat, n: nat, dispatch: bool, again: bool)
    requires id in Exec(a).db.operations && 1 <= n <= |Exec(a).db.operations[id].attempts|
    ensures id in Exec(a + b).db.operations
    ensures var db := Exec(a).db; var op := db.operations[id]; var (db', ok) := JournalTx(db, id, n, dispatch);
            && (ok <==> Open(op.attempts[n - 1]))
            && (forall i :: 0 <= i < |op.attempts| && i != n - 1 ==> db'.operations[id].attempts[i] == op.attempts[i])
            && (ok && dispatch ==> JournalTx(db', id, n, true) == (db', true))
            && (ok && !dispatch ==> JournalTx(db', id, n, again) == (db', false))
            && (!ok ==> db' == db && JournalTx(Exec(a + b).db, id, n, again) == (Exec(a + b).db, false))
  {
    hide Exec, Narrowing, Historic, JobsMarked, JournalOpen, Sequenced, Obliged;
    OperationsEvolve(a, b, id);
    RunSound(a, id);
    RunSound(a + b, id);
    var op := Exec(a).db.operations[id];
    JournalOf(op, n);
    if Open(op.attempts[n - 1]) { JournalTwice(Exec(a).db, id, n); }
    JournalOf(op.(attempts := Journal(op.attempts, n, dispatch)), n);
    JournalOf(Exec(a + b).db.operations[id], n);
    assert AttemptEvolves(op.attempts[n - 1], Exec(a + b).db.operations[id].attempts[n - 1]);
  }

  lemma JournalTwice(db: Db, id: nat, n: nat)
    requires id in db.operations && Numbered(db.operations[id].attempts) && 1 <= n <= |db.operations[id].attempts|
    requires JournalTx(db, id, n, true).1
    ensures var (db', _) := JournalTx(db, id, n, true); JournalTx(db', id, n, true) == (db', true)
  {
    hide JournalOpen;
    var op := db.operations[id];
    var op' := op.(attempts := Journal(op.attempts, n, true));
    JournalOf(op, n);
    JournalOf(op', n);
    var operations' := db.operations[id := op'];
    assert operations'[id := op'] == operations';
  }

  lemma JournalOf(op: Operation, n: nat)
    requires Numbered(op.attempts) && 1 <= n <= |op.attempts|
    ensures JournalOpen(op, n) <==> Open(op.attempts[n - 1])
    ensures Open(op.attempts[n - 1]) && op.attempts[n - 1].credential.value.phase == Dispatching ==> Journal(op.attempts, n, true) == op.attempts
  {
    assert op.attempts[n - 1].number == n;
  }

  // ----- a resolved attempt stays without a Job -----

  /** The attempt has no open obligation and no Job. */
  ghost predicate Stillborn(s: State, id: nat, n: nat) {
    && id in s.db.operations && 1 <= n <= |s.db.operations[id].attempts|
    && !Open(s.db.operations[id].attempts[n - 1]) && n !in Jobs(s.jobs, id)
  }

  lemma EvolvesKeepsClosed(op: Operation, op': Operation, n: nat)
    requires Evolves(op, op') && 1 <= n <= |op.attempts| && !Open(op.attempts[n - 1])
    ensures n <= |op'.attempts| && !Open(op'.attempts[n - 1])
  {
    assert AttemptEvolves(op.attempts[n - 1], op'.attempts[n - 1]);
  }

  /** Only a create for an open obligation adds a Job. */
  lemma StepAddsJob(s: State, e: Step, id: nat, n: nat)
    requires Inv(s) && n !in Jobs(s.jobs, id) && n in Jobs(Do(s, e).jobs, id)
    ensures id in s.db.operations && 1 <= n <= |s.db.operations[id].attempts| && Open(s.db.operations[id].attempts[n - 1])
  {
    hide Inv, DoStart, DoFinish, DoRequest, Holding, OperationSound, Act;
    match e
    case Step(sid, action) =>
      if sid in s.sessions && s.sessions[sid].id in s.db.operations {
        var x := s.sessions[sid];
        var write := Act(Jobs(s.jobs, x.id), s.db.operations[x.id], x, action).write;
        SoundHere(s, sid);
        WritesHeld(Jobs(s.jobs, x.id), s.db.operations[x.id], x, action);
        WrittenRow(s, x.id, write);
        assert write.Create?;
        SendTarget(Jobs(s.jobs, x.id), s.db.operations[x.id], x);
      }
    case Start(sid, authority, at) => StartKeepsJobs(s, sid, authority, at);
    case Finish(sid) => FinishKeepsJobs(s, sid);
    case Request(rid, org, destination, createdAt, ceiling) => RequestKeepsJobs(s, rid, org, destination, createdAt, ceiling);
    case _ =>
  }

  lemma StartKeepsJobs(s: State, sid: nat, current: Option<Instant>, now: Instant)
    ensures DoStart(s, sid, current, now).jobs == s.jobs
  {
    hide StartTx, Unresolved;
  }

  lemma FinishKeepsJobs(s: State, sid: nat)
    ensures DoFinish(s, sid).jobs == s.jobs
  {
    hide FinishTx;
  }

  lemma RequestKeepsJobs(s: State, id: nat, org: nat, destination: string, createdAt: Instant, ceiling: Option<Instant>)
    ensures DoRequest(s, id, org, destination, createdAt, ceiling).jobs == s.jobs
  {
    hide InsertTx;
  }

  lemma SendTarget(jobs: map<nat, Job>, op: Operation, x: Session)
    requires Sound(jobs, op, x) && x.at == Marked
    ensures Act(jobs, op, x, Send).write == Create(x.number) && 1 <= x.number <= |op.attempts| && Open(op.attempts[x.number - 1])
  {
    hide Holding;
  }

  /**
   An attempt whose obligation was resolved without a Job never gets one, however long a process
   that lost its lock goes on.
   */
  lemma ResolvedNeverDispatched(a: seq<Step>, b: seq<Step>, id: nat, n: nat)
    requires Stillborn(Exec(a), id, n)
    ensures Stillborn(Exec(a + b), id, n)
  {
    hide Do, Inv, Stillborn;
    AllKeepInv();
    forall s, t, e | (Stillborn(s, id, n) ==> Stillborn(t, id, n)) && Inv(t)
      ensures Stillborn(s, id, n) ==> Stillborn(Do(t, e), id, n)
    {
      if Stillborn(s, id, n) { StepKeepsStillborn(t, e, id, n); }
    }
    Onward(Do, INITIAL, s => Inv(s), (s, t) => Stillborn(s, id, n) ==> Stillborn(t, id, n), a, b);
  }

  lemma StepKeepsStillborn(s: State, e: Step, id: nat, n: nat)
    requires Inv(s) && Stillborn(s, id, n)
    ensures Stillborn(Do(s, e), id, n)
  {
    hide Evolves, Do, Inv, Open;
    StepEvolves(s, e, id);
    EvolvesKeepsClosed(s.db.operations[id], Do(s, e).db.operations[id], n);
    if n in Jobs(Do(s, e).jobs, id) { StepAddsJob(s, e, id, n); }
  }

  /**
   A resolved obligation is quiet: the attempt's Job has ended or is absent, and one that was resolved
   in preparation has none, then or ever after.
   */
  lemma ResolvedIsQuiet(a: seq<Step>, b: seq<Step>, id: nat, n: nat)
    requires id in Exec(a).db.operations && 1 <= n <= |Exec(a).db.operations[id].attempts|
    requires var c := Exec(a).db.operations[id].attempts[n - 1].credential; c.Some? && c.value.resolved
    ensures n in Jobs(Exec(a).jobs, id) ==> Jobs(Exec(a).jobs, id)[n].Ended?
    ensures Exec(a).db.operations[id].attempts[n - 1].credential.value.phase == Preparing ==> n !in Jobs(Exec(a + b).jobs, id)
    ensures n !in Jobs(Exec(a).jobs, id) ==> n !in Jobs(Exec(a + b).jobs, id)
  {
    hide Exec, Narrowing, Historic, Coherent;
    RunSound(a, id);
    if n !in Jobs(Exec(a).jobs, id) { ResolvedNeverDispatched(a, b, id, n); }
  }

  // ----- nothing rolls back -----

  /** The step begins a new attempt of operation `id`. */
  ghost predicate Begins(s: State, e: Step, id: nat) {
    id in s.db.operations && id in Do(s, e).db.operations && |Do(s, e).db.operations[id].attempts| > |s.db.operations[id].attempts|
  }

  lemma BeginsUnblocked(s: State, e: Step, id: nat)
    requires Inv(s) && Begins(s, e, id)
    ensures var op := s.db.operations[id];
            && !Blocked(s.db, id, op.org, op.destination, op.createdAt)
            && Do(s, e).db.operations[id].state == Running
  {
    hide Inv, Act, Blocked, Unresolved, Lingering, Holding, OperationSound, FinishTx, StartTx, StartCeiling, EarlierExpiry, Interrupt;
    match e
    case Start(sid, authority, at) =>
      var x := s.sessions[sid];
      SoundHere(s, sid);
      LoadedIs(Jobs(s.jobs, x.id), s.db.operations[x.id], x);
      MarkedOf(Jobs(s.jobs, x.id), s.db.operations[x.id]);
      StartTxIs(s.db, x.id, KindOf(x.work), authority, at);
    case Finish(sid) => FinishKeepsLength(s, sid, id);
    case Step(sid, action) => ActKeepsLength(s, sid, action, id);
    case _ =>
  }

  lemma FinishKeepsLength(s: State, sid: nat, id: nat)
    requires id in s.db.operations
    ensures id in DoFinish(s, sid).db.operations && |DoFinish(s, sid).db.operations[id].attempts| == |s.db.operations[id].attempts|
  {
    hide SettlesOne, MaxExecute;
  }

  lemma ActKeepsLength(s: State, sid: nat, e: Action, id: nat)
    requires id in s.db.operations
    ensures id in DoAct(s, sid, e).db.operations && |DoAct(s, sid, e).db.operations[id].attempts| == |s.db.operations[id].attempts|
  {
    hide Act;
    if sid in s.sessions && s.sessions[sid].id in s.db.operations {
      var x := s.sessions[sid];
      WrittenRow(s, x.id, Act(Jobs(s.jobs, x.id), s.db.operations[x.id], x, e).write);
    }
  }

  /** The requests that start on a destination are never older than one that has started there. */
  lemma NothingRollsBack(a: seq<Step>, e: Step, b: seq<Step>, f: Step, p: nat, q: nat)
    requires Begins(Exec(a), e, p) && Begins(Exec(a + [e] + b), f, q)
    requires Exec(a).db.operations[p].destination == Exec(a + [e] + b).db.operations[q].destination
    ensures Exec(a).db.operations[p].createdAt <= Exec(a + [e] + b).db.operations[q].createdAt
  {
    hide Evolves, Do, Inv, Blocked;
    var s := Exec(a + [e] + b);
    RunKeepsInv(a);
    BeginsUnblocked(Exec(a), e, p);
    EndOfNext(Do, INITIAL, a, e);
    OperationsEvolve(a, [e], p);
    OperationsEvolve(a + [e], b, p);
    EvolvesFacts(Exec(a).db.operations[p], Exec(a + [e]).db.operations[p]);
    EvolvesFacts(Exec(a + [e]).db.operations[p], s.db.operations[p]);
    RunKeepsInv(a + [e] + b);
    BeginsUnblocked(s, f, q);
    RunDbSound(a + [e] + b);
    if p != q { UnblockedIsNewer(s.db, p, q); }
  }

  lemma EvolvesFacts(op: Operation, op': Operation)
    requires Evolves(op, op')
    ensures op'.destination == op.destination && op'.createdAt == op.createdAt && (op'.state == Pending ==> op.state == Pending)
  {
  }

  lemma UnblockedIsNewer(db: Db, p: nat, q: nat)
    requires Owned(db) && p in db.operations && q in db.operations && p != q
    requires db.operations[p].destination == db.operations[q].destination && db.operations[p].state != Pending
    requires var op := db.operations[q]; !Blocked(db, q, op.org, op.destination, op.createdAt)
    ensures db.operations[p].createdAt <= db.operations[q].createdAt
  {
    hide Unresolved;
    assert !Blocks(db.operations[p], db.operations[q].org, db.operations[q].destination, db.operations[q].createdAt);
  }

  // ----- events -----

  lemma ActKeepsOutbox(s: State, sid: nat, e: Action)
    ensures DoAct(s, sid, e).db.outbox == s.db.outbox
  {
    hide Act;
    if sid in s.sessions && s.sessions[sid].id in s.db.operations {
      var x := s.sessions[sid];
      WrittenRow(s, x.id, Act(Jobs(s.jobs, x.id), s.db.operations[x.id], x, e).write);
    }
  }

  lemma StartKeepsOutbox(s: State, sid: nat, current: Option<Instant>, now: Instant)
    ensures DoStart(s, sid, current, now).db.outbox == s.db.outbox
  {
    hide Unresolved, Blocked, MaxNumber, StartCeiling, EarlierExpiry;
  }

  lemma StepKeepsEvent(s: State, e: Step, key: (nat, nat))
    requires Inv(s) && key in s.db.outbox
    ensures key in Do(s, e).db.outbox && Do(s, e).db.outbox[key] == s.db.outbox[key]
  {
    hide Inv, DoStart, DoAct, DoFinish;
    match e
    case Start(sid, authority, at) => StartKeepsOutbox(s, sid, authority, at);
    case Step(sid, action) => ActKeepsOutbox(s, sid, action);
    case Finish(sid) => DoFinishKeepsEvent(s, sid, key);
    case _ =>
  }

  lemma DoFinishKeepsEvent(s: State, sid: nat, key: (nat, nat))
    requires key in s.db.outbox
    ensures key in DoFinish(s, sid).db.outbox && DoFinish(s, sid).db.outbox[key] == s.db.outbox[key]
  {
    hide SettlesOne, MaxExecute;
  }

  /** An event, once committed with its success, stays as it is. */
  lemma EventsStay(a: seq<Step>, b: seq<Step>, key: (nat, nat))
    requires key in Exec(a).db.outbox
    ensures key in Exec(a + b).db.outbox && Exec(a + b).db.outbox[key] == Exec(a).db.outbox[key]
  {
    hide Do, Inv;
    AllKeepInv();
    forall s, t, e | EventKept(s, t, key) && Inv(t) ensures EventKept(s, Do(t, e), key) {
      if key in s.db.outbox { StepKeepsEvent(t, e, key); }
    }
    Onward(Do, INITIAL, s => Inv(s), (s, t) => EventKept(s, t, key), a, b);
  }

  predicate EventKept(s: State, t: State, key: (nat, nat)) {
    key in s.db.outbox ==> key in t.db.outbox && t.db.outbox[key] == s.db.outbox[key]
  }
}
