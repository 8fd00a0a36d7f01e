/** Every step of the delivery protocol keeps the invariant, so every run does. */
module DeliverySteps {
  import opened Wrappers
  import opened Expiry
  import opened DeploymentStore
  import opened Delivery
  import opened DeliveryInvariant
  import opened Traces

  // ----- requests -----

  lemma FreshOperationSound(org: nat, destination: string, createdAt: Instant, ceiling: Option<Instant>)
    ensures OperationSound(map[], Operation(org, destination, createdAt, Pending, [], ceiling, ceiling))
  {
  }

  lemma InsertKeepsDb(db: Db, id: nat, org: nat, destination: string, createdAt: Instant, ceiling: Option<Instant>)
    requires DbSound(db)
    ensures DbSound(InsertTx(db, id, org, destination, createdAt, ceiling).0)
  {
    hide Announces, Excludes;
    var db' := InsertTx(db, id, org, destination, createdAt, ceiling).0;
    forall p, q | p in db'.operations && q in db'.operations && p != q
      ensures Excludes(db'.operations[p], db'.operations[q])
    {
      if p in db.operations && q in db.operations {
        assert Excludes(db.operations[p], db.operations[q]);
      } else {
        PendingExcludes(db'.operations[p], db'.operations[q]);
      }
    }
    assert Published(db') by {
      forall k | k in db'.operations && db'.operations[k].state == Succeeded ensures exists n :: (k, n) in db'.outbox {
        assert db.operations[k].state == Succeeded;
      }
    }
  }

  lemma PendingExcludes(p: Operation, q: Operation)
    ensures p.state == Pending || q.state == Pending ==> Excludes(p, q)
  {
  }

  lemma RequestKeepsInv(s: State, id: nat, org: nat, destination: string, createdAt: Instant, ceiling: Option<Instant>)
    requires Inv(s)
    ensures Inv(DoRequest(s, id, org, destination, createdAt, ceiling))
  {
    hide DbSound, OperationSound, Sound, Separate;
    var s' := DoRequest(s, id, org, destination, createdAt, ceiling);
    InsertKeepsDb(s.db, id, org, destination, createdAt, ceiling);
    FreshOperationSound(org, destination, createdAt, ceiling);
    forall sid | sid in s'.sessions ensures SessionSound(s'.db.operations, s'.jobs, s'.sessions[sid]) {
      assert SessionSound(s.db.operations, s.jobs, s.sessions[sid]);
    }
  }

  // ----- one row at a time -----

  /** A new row, and new Jobs, that suit every session of the operation. */
  lemma RowKeepsAllSessions(s: State, id: nat, op': Operation, jobs': map<nat, map<nat, Job>>)
    requires SessionsSound(s.db.operations, s.jobs, s.sessions) && JobsElsewhere(s.jobs, jobs', id)
    requires forall q :: q in s.sessions && s.sessions[q].id == id ==> Sound(Jobs(jobs', id), op', s.sessions[q])
    ensures SessionsSound(s.db.operations[id := op'], jobs', s.sessions)
  {
    hide Sound;
    forall q | q in s.sessions ensures SessionSound(s.db.operations[id := op'], jobs', s.sessions[q]) {
      assert SessionSound(s.db.operations, s.jobs, s.sessions[q]);
    }
  }

  lemma NarrowedSound(jobs: map<nat, Job>, op: Operation, ceiling: Instant)
    requires OperationSound(jobs, op)
    ensures var op' := op.(effectiveUntil := Least(op.effectiveUntil, Some(ceiling))); SameRow(op, op') && OperationSound(jobs, op')
  {
    var op' := op.(effectiveUntil := Least(op.effectiveUntil, Some(ceiling)));
    hide Vouched;
    EvidenceKeepsHistory(jobs, op, op');
    EvidenceKeepsVouched(jobs, op, op');
    SameNewest(op, op');
  }

  lemma LingersOn(jobs: map<nat, Job>, op: Operation, x: Session, ceiling: Option<Instant>)
    requires Lingering(jobs, op, x)
    ensures Lingering(jobs, op.(effectiveUntil := ceiling), x)
  {
  }

  lemma NarrowKeepsInv(s: State, id: nat, ceiling: Instant)
    requires Inv(s)
    ensures Inv(DoNarrow(s, id, ceiling))
  {
    hide DbSound, OperationSound, Lingering, Holding, Separate;
    if id in s.db.operations && !Held(s.sessions, s.db.operations[id].destination) {
      var op := s.db.operations[id];
      var op' := op.(effectiveUntil := Least(op.effectiveUntil, Some(ceiling)));
      NarrowedSound(Jobs(s.jobs, id), op, ceiling);
      forall q | q in s.sessions && s.sessions[q].id == id ensures Sound(Jobs(s.jobs, id), op', s.sessions[q]) {
        SoundHere(s, q);
        OnDestination(s, q);
        LingersOn(Jobs(s.jobs, id), op, s.sessions[q], op'.effectiveUntil);
      }
      RowKeepsAllSessions(s, id, op', s.jobs);
      RowKeepsOperations(s.db.operations, s.jobs, id, op', s.jobs);
      RowKeepsDb(s.db, id, op');
    }
  }

  lemma OnDestination(s: State, q: nat)
    requires Inv(s) && q in s.sessions
    ensures s.sessions[q].id in s.db.operations && s.sessions[q].destination == s.db.operations[s.sessions[q].id].destination
  {
    hide DbSound, OperationSound, Holding, Separate;
    SoundHere(s, q);
  }

  // ----- sessions come and go -----

  lemma OpenKeepsInv(s: State, sid: nat, id: nat, work: Work)
    requires Inv(s)
    ensures Inv(DoOpen(s, sid, id, work))
  {
    hide DbSound, OperationSound;
    if !(sid in s.sessions || id !in s.db.operations || Held(s.sessions, s.db.operations[id].destination)) {
      var op := s.db.operations[id];
      var x := Session(id, op.destination, work, true, 0, op, Locked);
      assert Sound(Jobs(s.jobs, id), op, x);
      OpenKeepsSound(s, sid, x);
      OpenKeepsSeparate(s.sessions, sid, x);
    }
  }

  lemma OpenKeepsSound(s: State, sid: nat, x: Session)
    requires SessionsSound(s.db.operations, s.jobs, s.sessions) && SessionSound(s.db.operations, s.jobs, x)
    ensures SessionsSound(s.db.operations, s.jobs, s.sessions[sid := x])
  {
    hide Sound;
  }

  lemma OpenKeepsSeparate(sessions: map<nat, Session>, sid: nat, x: Session)
    requires Separate(sessions) && sid !in sessions && x.number == 0 && (x.alive ==> !Held(sessions, x.destination))
    ensures Separate(sessions[sid := x])
  {
    var sessions' := sessions[sid := x];
    forall p, q | p in sessions' && q in sessions' && p != q ensures Apart(sessions'[p], sessions'[q]) {
      if p != sid && q != sid { assert Apart(sessions[p], sessions[q]); }
    }
  }

  lemma CrashKeepsInv(s: State, sid: nat)
    requires Inv(s)
    ensures Inv(s.(sessions := s.sessions - {sid}))
  {
    hide DbSound, OperationSound, Sound;
    var sessions' := s.sessions - {sid};
    forall q | q in sessions' ensures SessionSound(s.db.operations, s.jobs, sessions'[q]) {
      assert SessionSound(s.db.operations, s.jobs, s.sessions[q]);
    }
    forall p, q | p in sessions' && q in sessions' && p != q ensures Apart(sessions'[p], sessions'[q]) {
      assert Apart(s.sessions[p], s.sessions[q]);
    }
  }

  // ----- the cluster -----

  lemma ChangeAdvances(op: Operation, jobs: map<nat, Job>, number: nat, change: Change)
    ensures JobsAdvance(op, jobs, Changed(jobs, number, change)) && Changed(jobs, number, change).Keys <= jobs.Keys
  {
  }

  lemma ClusterKeepsInv(s: State, id: nat, number: nat, change: Change)
    requires Inv(s)
    ensures Inv(DoCluster(s, id, number, change))
  {
    hide DbSound, OperationSound, Lingering, Holding, Separate, JobsAdvance, Changed;
    if id in s.jobs {
      var op, jobs := s.db.operations[id], s.jobs[id];
      var jobs' := Changed(jobs, number, change);
      ChangeAdvances(op, jobs, number, change);
      OperationKeepsJobs(op, jobs, jobs');
      forall q | q in s.sessions && s.sessions[q].id == id ensures Sound(jobs', op, s.sessions[q]) {
        SoundHere(s, q);
        SessionKeepsJobs(op, jobs, jobs', s.sessions[q]);
      }
      assert s.db.operations[id := op] == s.db.operations;
      RowKeepsAllSessions(s, id, op, s.jobs[id := jobs']);
      RowKeepsOperations(s.db.operations, s.jobs, id, op, s.jobs[id := jobs']);
    }
  }

  // ----- a new attempt -----

  lemma {:induction false} MaxNumberIs(attempts: seq<Attempt>)
    requires Numbered(attempts)
    ensures MaxNumber(attempts) == |attempts|
  {
    if attempts != [] { MaxNumberIs(attempts[..|attempts| - 1]); }
  }

  /** The row that `StartTx` writes. */
  function StartedRow(op: Operation, kind: Kind, current: Option<Instant>, now: Instant): Operation {
    var attempts := if kind == Execute then op.attempts else Interrupt(op.attempts);
    var ceiling := StartCeiling(op, current);
    op.(state := Running, effectiveUntil := Least(op.effectiveUntil, ceiling),
        attempts := attempts + [NewAttempt(|op.attempts| + 1, kind, ceiling, now)])
  }

  lemma StartTxIs(db: Db, id: nat, kind: Kind, current: Option<Instant>, now: Instant)
    requires id in db.operations && Numbered(db.operations[id].attempts)
    ensures var op := db.operations[id];
            StartTx(db, id, kind, op, current, now) ==
            if !Startable(op.state, kind) || Blocked(db, id, op.org, op.destination, op.createdAt) then (db, None)
            else (db.(operations := db.operations[id := StartedRow(op, kind, current, now)]), Some(|op.attempts| + 1))
  {
    hide Blocked, Startable;
    var op := db.operations[id];
    MaxNumberIs(op.attempts);
    MaxNumberIs(Interrupt(op.attempts));
  }

  /** The earlier attempts keep their kind, number, credential, release and authority. */
  ghost predicate Extends(op: Operation, op': Operation) {
    var a, b := op.attempts, op'.attempts;
    && |b| == |a| + 1
    && (forall i :: 0 <= i < |a| ==> b[i] == a[i] || b[i] == Interrupted(a[i]))
  }

  lemma StartedLast(op: Operation, kind: Kind, current: Option<Instant>, now: Instant)
    ensures var op' := StartedRow(op, kind, current, now);
            op'.state == Running && op'.attempts != [] && Last(op'.attempts).externalId == "" && Last(op'.attempts).kind == kind
  {
  }

  lemma ExtendsByOne(op: Operation, op': Operation)
    requires Extends(op, op')
    ensures |op'.attempts| == |op.attempts| + 1
  {
  }

  lemma LingeringNumber(jobs: map<nat, Job>, op: Operation, y: Session)
    requires Lingering(jobs, op, y)
    ensures y.number <= |op.attempts|
  {
  }

  lemma StartedExtends(op: Operation, kind: Kind, current: Option<Instant>, now: Instant)
    ensures Extends(op, StartedRow(op, kind, current, now))
  {
  }

  lemma ExtendsDelivers(op: Operation, op': Operation)
    requires Extends(op, op')
    ensures forall d, i :: i < |op.attempts| ==> (Delivers(op.attempts, d, i) <==> Delivers(op'.attempts, d, i))
    ensures forall d :: Newest(op.attempts, d) && op'.attempts[|op.attempts|].kind != Execute ==> Newest(op'.attempts, d)
  {
  }

  lemma StartedSequenced(op: Operation, kind: Kind, current: Option<Instant>, now: Instant)
    requires Sequenced(op) && Startable(op.state, kind)
    ensures Sequenced(StartedRow(op, kind, current, now))
  {
  }

  lemma StartedObliged(op: Operation, kind: Kind, current: Option<Instant>, now: Instant)
    requires Obliged(op) && (kind == Execute ==> !Unresolved(op))
    ensures Obliged(StartedRow(op, kind, current, now))
  {
    hide Newest;
    var op' := StartedRow(op, kind, current, now);
    StartedExtends(op, kind, current, now);
    ExtendsDelivers(op, op');
    forall i | 0 <= i < |op'.attempts| && Open(op'.attempts[i]) && op'.attempts[i].kind == Execute
      ensures Newest(op'.attempts, i)
    {
      if i == |op.attempts| { NewestIsLast(op'.attempts); } else { assert Open(op.attempts[i]); }
    }
  }

  lemma NewestIsLast(attempts: seq<Attempt>)
    requires attempts != [] && attempts[|attempts| - 1].kind == Execute
    ensures forall d :: Newest(attempts, d) <==> d == |attempts| - 1
  {
  }

  lemma StartedNarrowing(op: Operation, kind: Kind, current: Option<Instant>, now: Instant)
    requires Narrowing(op)
    ensures Narrowing(StartedRow(op, kind, current, now))
  {
    hide Truncate;
  }

  lemma StartedHistoric(jobs: map<nat, Job>, op: Operation, op': Operation)
    requires Historic(jobs, op) && Extends(op, op') && op'.state == Running && Last(op'.attempts).externalId == ""
    requires Last(op'.attempts).kind == Execute ==> op.state == Failed || op.attempts == []
    requires |op.attempts| + 1 !in jobs
    ensures Historic(jobs, op')
  {
    hide Newest, Delivers;
    ExtendsDelivers(op, op');
    DeliversBound(op'.attempts);
    ExtendsReported(op, op');
    assert forall d, i :: Delivers(op'.attempts, d, i) && op'.attempts[i].externalId != "" ==> Delivers(op.attempts, d, i);
  }

  lemma StartedVouched(jobs: map<nat, Job>, op: Operation, op': Operation)
    requires Vouched(jobs, op.attempts) && Extends(op, op') && Last(op'.attempts).externalId == ""
    ensures Vouched(jobs, op'.attempts)
  {
    hide Delivers;
    ExtendsDelivers(op, op');
    forall i | 0 <= i < |op'.attempts| && op'.attempts[i].externalId != ""
      ensures Attested(jobs, op'.attempts, i, op'.attempts[i].state, op'.attempts[i].externalId)
    {
      assert op'.attempts[i] == op.attempts[i] || op'.attempts[i] == Interrupted(op.attempts[i]);
      assert Attested(jobs, op.attempts, i, op.attempts[i].state, op.attempts[i].externalId);
      var d, m: nat :| Delivers(op.attempts, d, i) && d < m <= i + 1 && m in jobs && jobs[m].Ended? && Says(jobs[m].report, op.attempts[i].state, op.attempts[i].externalId);
      assert Delivers(op'.attempts, d, i) && Says(jobs[m].report, op'.attempts[i].state, op'.attempts[i].externalId);
    }
  }

  lemma ExtendsReported(op: Operation, op': Operation)
    requires Extends(op, op')
    ensures forall d :: Reported(op.attempts, d) ==> Reported(op'.attempts, d)
  {
    forall d | Reported(op.attempts, d) ensures Reported(op'.attempts, d) {
      var i :| Delivers(op.attempts, d, i) && op.attempts[i].externalId != "";
      assert Delivers(op'.attempts, d, i) && op'.attempts[i].externalId != "";
    }
  }

  lemma DeliversBound(attempts: seq<Attempt>)
    ensures forall d, i :: Delivers(attempts, d, i) ==> 0 <= d <= i < |attempts|
  {
  }

  lemma StartedMarked(jobs: map<nat, Job>, op: Operation, op': Operation)
    requires JobsMarked(jobs, op) && Extends(op, op')
    ensures JobsMarked(jobs, op')
  {
  }

  lemma StartedNumbered(op: Operation, kind: Kind, current: Option<Instant>, now: Instant)
    requires Numbered(op.attempts) && Credentialed(op.attempts) && (op.attempts == [] ==> kind == Execute)
    ensures var a := StartedRow(op, kind, current, now).attempts; Numbered(a) && Credentialed(a)
  {
    hide StartCeiling, EarlierExpiry, Truncate;
  }

  lemma NextUnsent(jobs: map<nat, Job>, op: Operation)
    requires JobsMarked(jobs, op)
    ensures |op.attempts| + 1 !in jobs
  {
  }

  lemma StartedSound(jobs: map<nat, Job>, op: Operation, kind: Kind, current: Option<Instant>, now: Instant)
    requires OperationSound(jobs, op) && Startable(op.state, kind) && (kind == Execute ==> !Unresolved(op))
    ensures OperationSound(jobs, StartedRow(op, kind, current, now))
  {
    hide Sequenced, Narrowing, Historic, Obliged, StartedRow, JobsMarked, Numbered, Credentialed, Unresolved, Vouched;
    StartedLast(op, kind, current, now);
    NextUnsent(jobs, op);
    EmptyIsPending(op);
    StartedExtends(op, kind, current, now);
    StartedNumbered(op, kind, current, now);
    StartedSequenced(op, kind, current, now);
    StartedObliged(op, kind, current, now);
    StartedNarrowing(op, kind, current, now);
    StartedHistoric(jobs, op, StartedRow(op, kind, current, now));
    StartedVouched(jobs, op, StartedRow(op, kind, current, now));
    StartedMarked(jobs, op, StartedRow(op, kind, current, now));
  }

  lemma EmptyIsPending(op: Operation)
    requires Sequenced(op)
    ensures op.attempts == [] <==> op.state == Pending
  {
  }

  /** A started operation was the only claim on its destination, and nothing newer there had begun. */
  lemma StartedKeepsDb(db: Db, id: nat, op': Operation)
    requires DbSound(db) && id in db.operations
    requires var op := db.operations[id];
             && op'.org == op.org && op'.destination == op.destination && op'.createdAt == op.createdAt
             && op'.state == Running && op.state != Succeeded
             && !Blocked(db, id, op.org, op.destination, op.createdAt)
    ensures DbSound(db.(operations := db.operations[id := op']))
  {
    hide Announces, Unresolved;
    NotAnnounced(db, id);
    var db' := db.(operations := db.operations[id := op']);
    forall p, q | p in db'.operations && q in db'.operations && p != q
      ensures Excludes(db'.operations[p], db'.operations[q])
    {
      StartedExcludes(db, id, op', p, q);
    }
    forall k | k in db'.operations && db'.operations[k].state == Succeeded ensures exists n :: (k, n) in db'.outbox {
      assert db.operations[k].state == Succeeded;
    }
  }

  lemma StartedExcludes(db: Db, id: nat, op': Operation, p: nat, q: nat)
    requires DbSound(db) && id in db.operations && p in db.operations && q in db.operations && p != q
    requires var op := db.operations[id];
             && op'.org == op.org && op'.destination == op.destination && op'.createdAt == op.createdAt
             && !Blocked(db, id, op.org, op.destination, op.createdAt)
    ensures Excludes(db.operations[id := op'][p], db.operations[id := op'][q])
  {
    hide Published, Unresolved;
    assert Excludes(db.operations[p], db.operations[q]);
    if p == id { assert !Blocks(db.operations[q], op'.org, op'.destination, op'.createdAt); }
    if q == id { assert !Blocks(db.operations[p], op'.org, op'.destination, op'.createdAt); }
  }

  lemma StarterSound(jobs: map<nat, Job>, op: Operation, x: Session, current: Option<Instant>, now: Instant)
    requires Sound(jobs, op, x) && x.at == Loaded && x.alive && !x.work.CleanUp? && JobsMarked(jobs, op)
    ensures Sound(jobs, StartedRow(op, KindOf(x.work), current, now), x.(number := |op.attempts| + 1, at := Started))
  {
    hide StartCeiling, EarlierExpiry;
  }

  lemma LingersWhileStarted(jobs: map<nat, Job>, op: Operation, op': Operation, y: Session)
    requires Lingering(jobs, op, y) && Extends(op, op') && op'.destination == op.destination
    ensures Lingering(jobs, op', y)
  {
  }

  lemma StartedKeepsSeparate(sessions: map<nat, Session>, sid: nat, number: nat)
    requires Separate(sessions) && sid in sessions && number > 0
    requires forall q :: q in sessions && q != sid && sessions[q].id == sessions[sid].id ==> sessions[q].number < number
    ensures Separate(sessions[sid := sessions[sid].(number := number, at := Started)])
  {
    var sessions' := sessions[sid := sessions[sid].(number := number, at := Started)];
    forall p, q | p in sessions' && q in sessions' && p != q ensures Apart(sessions'[p], sessions'[q]) {
      assert Apart(sessions[p], sessions[q]);
    }
  }

  lemma OtherKeepsStart(s: State, sid: nat, q: nat, op': Operation)
    requires Inv(s) && sid in s.sessions && q in s.sessions && q != sid
    requires s.sessions[q].id == s.sessions[sid].id && s.sessions[sid].alive
    requires s.sessions[sid].id in s.db.operations
    requires var op := s.db.operations[s.sessions[sid].id]; Extends(op, op') && op'.destination == op.destination
    ensures Sound(Jobs(s.jobs, s.sessions[sid].id), op', s.sessions[q])
    ensures s.sessions[q].number < |op'.attempts|
  {
    hide DbSound, OperationSound, Holding, Extends, Separate;
    var id := s.sessions[sid].id;
    OthersDead(s, sid, q);
    SoundHere(s, q);
    LingersWhileStarted(Jobs(s.jobs, id), s.db.operations[id], op', s.sessions[q]);
    ExtendsByOne(s.db.operations[id], op');
    LingeringNumber(Jobs(s.jobs, id), s.db.operations[id], s.sessions[q]);
  }

  lemma StartedKeepsInv(s: State, sid: nat, current: Option<Instant>, now: Instant)
    requires Inv(s) && sid in s.sessions && s.sessions[sid].id in s.db.operations
    requires var x := s.sessions[sid]; var op := s.db.operations[x.id];
             && x.at == Loaded && x.alive && !x.work.CleanUp? && Startable(op.state, KindOf(x.work))
             && !(x.work.Deliver? && Unresolved(op)) && !Blocked(s.db, x.id, op.org, op.destination, op.createdAt)
    ensures var x := s.sessions[sid]; var op := s.db.operations[x.id];
            Inv(State(s.db.(operations := s.db.operations[x.id := StartedRow(op, KindOf(x.work), current, now)]),
                      s.sessions[sid := x.(number := |op.attempts| + 1, at := Started)], s.jobs))
  {
    hide DbSound, OperationSound, Sound, Separate, Extends, Unresolved, Blocked, StartCeiling, EarlierExpiry, Interrupt;
    var x := s.sessions[sid];
    var id := x.id;
    var op, jobs := s.db.operations[id], Jobs(s.jobs, id);
    var op' := StartedRow(op, KindOf(x.work), current, now);
    SoundHere(s, sid);
    StartedSound(jobs, op, KindOf(x.work), current, now);
    StartedExtends(op, KindOf(x.work), current, now);
    MarkedOf(jobs, op);
    StarterSound(jobs, op, x, current, now);
    forall q | q in s.sessions && q != sid && s.sessions[q].id == id
      ensures Sound(jobs, op', s.sessions[q]) && s.sessions[q].number < |op.attempts| + 1
    {
      OtherKeepsStart(s, sid, q, op');
      ExtendsByOne(op, op');
    }
    StartedKeepsSeparate(s.sessions, sid, |op.attempts| + 1);
    StartedKeepsDb(s.db, id, op');
    RowKeepsOperations(s.db.operations, s.jobs, id, op', s.jobs);
    RowKeepsSessions(s, sid, op', s.jobs, Some(x.(number := |op.attempts| + 1, at := Started)));
  }

  lemma MarkedOf(jobs: map<nat, Job>, op: Operation)
    requires OperationSound(jobs, op)
    ensures JobsMarked(jobs, op) && Numbered(op.attempts)
  {
  }

  lemma StartKeepsInv(s: State, sid: nat, current: Option<Instant>, now: Instant)
    requires Inv(s)
    ensures Inv(DoStart(s, sid, current, now))
  {
    hide DbSound, OperationSound, Lingering, Separate, StartTx, Inv, Unresolved, Admitted;
    CrashKeepsInv(s, sid);
    if sid in s.sessions && s.sessions[sid].id in s.db.operations && s.sessions[sid].at == Loaded && !s.sessions[sid].work.CleanUp? && s.sessions[sid].alive {
      var x := s.sessions[sid];
      var op := s.db.operations[x.id];
      SoundHere(s, sid);
      MarkedOf(Jobs(s.jobs, x.id), op);
      StartTxIs(s.db, x.id, KindOf(x.work), current, now);
      if Startable(op.state, KindOf(x.work)) && !Blocked(s.db, x.id, op.org, op.destination, op.createdAt) && !(x.work.Deliver? && Unresolved(op)) {
        StartedKeepsInv(s, sid, current, now);
      }
    }
  }

  // ----- the end of an attempt -----

  /** The row that `FinishTx` writes. */
  function FinishedRow(op: Operation, number: nat, state: Status, externalId: string): Operation {
    op.(state := state, attempts := Settle(op.attempts, number, state, externalId))
  }

  /** The execute attempt the outbox event names is the newest delivery. */
  lemma {:induction false} MaxExecuteIs(attempts: seq<Attempt>, upTo: nat)
    requires Numbered(attempts) && |attempts| <= upTo
    ensures var m := MaxExecute(attempts, upTo);
            m <= |attempts| &&
            if m == 0 then forall i :: 0 <= i < |attempts| ==> attempts[i].kind != Execute else Newest(attempts, m - 1)
  {
    if attempts != [] { MaxExecuteIs(attempts[..|attempts| - 1], upTo); }
  }

  /** Only the last attempt changes, in its state and its recorded release. */
  ghost predicate Settles(op: Operation, op': Operation, state: Status, externalId: string) {
    var a, b := op.attempts, op'.attempts;
    && op'.org == op.org && op'.destination == op.destination && op'.createdAt == op.createdAt && op'.state == state
    && op'.authorizedUntil == op.authorizedUntil && op'.effectiveUntil == op.effectiveUntil
    && |b| == |a| > 0
    && (forall i :: 0 <= i < |a| - 1 ==> b[i] == a[i])
    && b[|a| - 1] == a[|a| - 1].(state := state, externalId := externalId)
  }

  lemma FinishedSettles(op: Operation, number: nat, state: Status, externalId: string)
    requires Numbered(op.attempts) && number == |op.attempts| && SettlesOne(op.attempts, number)
    ensures Settles(op, FinishedRow(op, number, state, externalId), state, externalId)
  {
  }

  lemma SettlesDelivers(op: Operation, op': Operation, state: Status, externalId: string)
    requires Settles(op, op', state, externalId)
    ensures forall d, i :: Delivers(op.attempts, d, i) <==> Delivers(op'.attempts, d, i)
  {
  }

  lemma SettledCoherent(op: Operation, op': Operation, state: Status, externalId: string)
    requires Coherent(op) && Settles(op, op', state, externalId) && Active(op)
    requires state == Succeeded || state == Failed || state == Uncertain
    requires state != Uncertain ==> !Unresolved(op)
    ensures Coherent(op')
  {
    hide Newest;
    SettlesDelivers(op, op', state, externalId);
    SettledObliged(op, op', state, externalId);
  }

  lemma SettledObliged(op: Operation, op': Operation, state: Status, externalId: string)
    requires Obliged(op) && Settles(op, op', state, externalId) && (state != Uncertain ==> !Unresolved(op))
    ensures Obliged(op')
  {
    SettlesDelivers(op, op', state, externalId);
    forall i | 0 <= i < |op'.attempts| && Open(op'.attempts[i])
      ensures Active(op') && (op'.attempts[i].kind == Execute ==> Newest(op'.attempts, i))
    {
      assert Open(op.attempts[i]);
    }
  }

  lemma SettledHistoric(jobs: map<nat, Job>, op: Operation, op': Operation, state: Status, externalId: string)
    requires Historic(jobs, op) && Settles(op, op', state, externalId) && op.state == Running && Sequenced(op)
    requires Conclusive(jobs, op, state, externalId)
    ensures Historic(jobs, op')
  {
    hide Delivers;
    var last := |op.attempts| - 1;
    SettlesDelivers(op, op', state, externalId);
    DeliversBound(op.attempts);
    forall d, i | Delivers(op'.attempts, d, i) && op'.attempts[i].externalId != "" ensures HasEnded(jobs, d + 1) {
      assert i == last ==> Newest(op.attempts, d);
      assert i != last ==> Delivers(op.attempts, d, i) && op.attempts[i].externalId != "";
    }
    forall d | 0 <= d < |op.attempts| && op.attempts[d].kind == Execute && d + 1 in jobs && (state == Failed || !Newest(op'.attempts, d))
      ensures Reported(op'.attempts, d)
    {
      if Newest(op.attempts, d) {
        assert Delivers(op'.attempts, d, last) && op'.attempts[last].externalId != "";
      } else {
        var i :| Delivers(op.attempts, d, i) && op.attempts[i].externalId != "";
        assert Delivers(op'.attempts, d, i) && op'.attempts[i].externalId != "";
      }
    }
  }

  lemma SettledVouched(jobs: map<nat, Job>, op: Operation, op': Operation, state: Status, externalId: string)
    requires Vouched(jobs, op.attempts) && Settles(op, op', state, externalId) && Conclusive(jobs, op, state, externalId)
    ensures Vouched(jobs, op'.attempts)
  {
    hide Delivers, Says;
    SettlesDelivers(op, op', state, externalId);
    forall i | 0 <= i < |op'.attempts| && op'.attempts[i].externalId != ""
      ensures Attested(jobs, op'.attempts, i, op'.attempts[i].state, op'.attempts[i].externalId)
    {
      assert Attested(jobs, op.attempts, i, op'.attempts[i].state, op'.attempts[i].externalId);
      var d, m: nat :| Delivers(op.attempts, d, i) && d < m <= i + 1 && m in jobs && jobs[m].Ended? && Says(jobs[m].report, op'.attempts[i].state, op'.attempts[i].externalId);
      assert Delivers(op'.attempts, d, i);
    }
  }

  lemma SettledMarked(jobs: map<nat, Job>, op: Operation, op': Operation, state: Status, externalId: string)
    requires JobsMarked(jobs, op) && Settles(op, op', state, externalId)
    ensures JobsMarked(jobs, op')
  {
  }

  lemma SettledNarrowing(op: Operation, op': Operation, state: Status, externalId: string)
    requires Narrowing(op) && Settles(op, op', state, externalId)
    ensures Narrowing(op')
  {
  }

  lemma SettledSound(jobs: map<nat, Job>, op: Operation, op': Operation, state: Status, externalId: string)
    requires OperationSound(jobs, op) && Settles(op, op', state, externalId) && op.state == Running
    requires Conclusive(jobs, op, state, externalId)
    ensures OperationSound(jobs, op')
  {
    hide Settles, Conclusive, Narrowing, Historic, JobsMarked, Numbered, Credentialed, Obliged, Sequenced, Vouched;
    SettledVouched(jobs, op, op', state, externalId);
    ConclusiveStates(jobs, op, state, externalId);
    SettledCoherent(op, op', state, externalId);
    SettledHistoric(jobs, op, op', state, externalId);
    SettledMarked(jobs, op, op', state, externalId);
    SettledNarrowing(op, op', state, externalId);
  }

  lemma ConclusiveStates(jobs: map<nat, Job>, op: Operation, state: Status, externalId: string)
    requires Conclusive(jobs, op, state, externalId)
    ensures state == Succeeded || state == Failed || state == Uncertain
    ensures state != Uncertain ==> !Unresolved(op)
  {
  }

  lemma LingersWhileSettled(jobs: map<nat, Job>, op: Operation, op': Operation, state: Status, externalId: string, y: Session)
    requires Lingering(jobs, op, y) && Settles(op, op', state, externalId)
    ensures Lingering(jobs, op', y)
  {
  }

  /** The outbox with the event of a success. */
  function OutboxWith(outbox: map<(nat, nat), string>, id: nat, execute: nat, externalId: string): map<(nat, nat), string> {
    if (id, execute) in outbox then outbox else outbox[(id, execute) := externalId]
  }

  /** A finished operation stops excluding, and a success gets its event under its newest delivery. */
  lemma FinishedKeepsDb(db: Db, id: nat, op': Operation, execute: nat, externalId: string)
    requires DbSound(db) && id in db.operations && Active(db.operations[id]) && Settles(db.operations[id], op', op'.state, externalId)
    requires op'.state != Running && op'.state != Pending
    requires op'.state == Succeeded ==> Announces(op', execute, externalId)
    ensures DbSound(Db(db.owners, db.operations[id := op'],
                       OutboxAfter(db, id, op', execute, externalId)))
  {
    hide Announces, Settles, OutboxAfter;
    var operations' := db.operations[id := op'];
    SettlesRow(db.operations[id], op', externalId);
    forall p, q | p in operations' && q in operations' && p != q ensures Excludes(operations'[p], operations'[q]) {
      assert Excludes(db.operations[p], db.operations[q]) && Excludes(db.operations[q], db.operations[p]);
    }
    FinishedKeepsPublished(db, id, op', execute, externalId);
  }

  lemma SettlesRow(op: Operation, op': Operation, externalId: string)
    requires Settles(op, op', op'.state, externalId)
    ensures op'.org == op.org && op'.destination == op.destination && op'.createdAt == op.createdAt
  {
  }

  /** The outbox after a finish. */
  function OutboxAfter(db: Db, id: nat, op': Operation, execute: nat, externalId: string): map<(nat, nat), string> {
    if op'.state == Succeeded then OutboxWith(db.outbox, id, execute, externalId) else db.outbox
  }

  lemma FinishedEvents(db: Db, id: nat, op': Operation, execute: nat, externalId: string, key: (nat, nat))
    requires Published(db) && id in db.operations && Active(db.operations[id])
    requires op'.state == Succeeded ==> Announces(op', execute, externalId)
    requires key in OutboxAfter(db, id, op', execute, externalId)
    ensures key.0 in db.operations
    ensures Announces(db.operations[id := op'][key.0], key.1, OutboxAfter(db, id, op', execute, externalId)[key])
  {
    NotAnnounced(db, id);
    hide Announces;
  }

  lemma FinishedHasEvent(db: Db, id: nat, op': Operation, execute: nat, externalId: string, k: nat)
    requires Published(db) && k in db.operations && (k != id ==> db.operations[k].state == Succeeded)
    requires k == id ==> op'.state == Succeeded
    ensures exists n :: (k, n) in OutboxAfter(db, id, op', execute, externalId)
  {
    hide Announces;
    var outbox' := OutboxAfter(db, id, op', execute, externalId);
    if k == id {
      assert (id, execute) in outbox';
    } else {
      var n :| (k, n) in db.outbox;
      assert (k, n) in outbox';
    }
  }

  lemma FinishedKeepsPublished(db: Db, id: nat, op': Operation, execute: nat, externalId: string)
    requires Published(db) && id in db.operations && Active(db.operations[id])
    requires op'.state == Succeeded ==> Announces(op', execute, externalId)
    ensures Published(Db(db.owners, db.operations[id := op'], OutboxAfter(db, id, op', execute, externalId)))
  {
    var outbox', operations' := OutboxAfter(db, id, op', execute, externalId), db.operations[id := op'];
    assert Published(Db(db.owners, operations', outbox')) by {
      hide Announces, OutboxAfter;
      forall key | key in outbox' ensures key.0 in operations' && Announces(operations'[key.0], key.1, outbox'[key]) {
        FinishedEvents(db, id, op', execute, externalId, key);
      }
      forall k | k in operations' && operations'[k].state == Succeeded ensures exists n :: (k, n) in outbox' {
        FinishedHasEvent(db, id, op', execute, externalId, k);
      }
    }
  }

  lemma EventOf(db: Db, id: nat, n: nat)
    requires Published(db) && (id, n) in db.outbox
    ensures id in db.operations && Announces(db.operations[id], n, db.outbox[(id, n)])
  {
    hide Announces;
    var key := (id, n);
    assert Announces(db.operations[key.0], key.1, db.outbox[key]);
  }

  lemma NotAnnounced(db: Db, id: nat)
    requires Published(db) && id in db.operations && db.operations[id].state != Succeeded
    ensures forall n :: (id, n) !in db.outbox
  {
    hide Published;
    forall n ensures (id, n) !in db.outbox {
      if (id, n) in db.outbox { EventOf(db, id, n); }
    }
  }

  lemma FinishTxIs(db: Db, id: nat, state: Status, externalId: string)
    requires id in db.operations && Numbered(db.operations[id].attempts) && Credentialed(db.operations[id].attempts)
    requires db.operations[id].state == Running && SettlesOne(db.operations[id].attempts, |db.operations[id].attempts|)
    requires state == Succeeded ==> externalId != ""
    ensures var op := db.operations[id];
            var op' := FinishedRow(op, |op.attempts|, state, externalId);
            var execute := MaxExecute(op'.attempts, |op.attempts|);
            && Newest(op'.attempts, execute - 1)
            && FinishTx(db, id, |op.attempts|, state, externalId) ==
               (Db(db.owners, db.operations[id := op'], OutboxAfter(db, id, op', execute, externalId)), true)
  {
    hide SettlesOne;
    var op := db.operations[id];
    var op' := FinishedRow(op, |op.attempts|, state, externalId);
    MaxExecuteIs(op'.attempts, |op.attempts|);
    assert op.attempts != [] by { OneIsSome(op.attempts, |op.attempts|); }
    assert op'.attempts[0].kind == Execute;
  }

  lemma OneIsSome(attempts: seq<Attempt>, number: nat)
    requires SettlesOne(attempts, number)
    ensures attempts != []
  {
  }

  lemma LastRuns(op: Operation)
    requires Coherent(op) && op.state == Running
    ensures op.attempts != [] && SettlesOne(op.attempts, |op.attempts|)
  {
    hide Obliged, Credentialed;
    assert op.attempts[|op.attempts| - 1].number == |op.attempts|;
  }

  lemma OtherKeepsFinish(s: State, sid: nat, q: nat, op': Operation, externalId: string)
    requires Inv(s) && sid in s.sessions && q in s.sessions && q != sid
    requires s.sessions[q].id == s.sessions[sid].id && s.sessions[sid].alive
    requires s.sessions[sid].id in s.db.operations
    requires Settles(s.db.operations[s.sessions[sid].id], op', op'.state, externalId)
    ensures Sound(Jobs(s.jobs, s.sessions[sid].id), op', s.sessions[q])
  {
    hide DbSound, OperationSound, Holding, Settles, Separate;
    var id := s.sessions[sid].id;
    OthersDead(s, sid, q);
    SoundHere(s, q);
    LingersWhileSettled(Jobs(s.jobs, id), s.db.operations[id], op', op'.state, externalId, s.sessions[q]);
  }

  /** What a session that still has its lock knows when it writes its result. */
  lemma SettlerKnows(jobs: map<nat, Job>, op: Operation, x: Session)
    requires Sound(jobs, op, x) && x.at.Settling? && x.alive
    ensures x.number == |op.attempts| > 0 && op.state == Running && Conclusive(jobs, op, x.at.state, x.at.settledId)
  {
  }

  lemma FinishedKeepsInv(s: State, sid: nat, op': Operation, execute: nat)
    requires Inv(s) && sid in s.sessions && s.sessions[sid].id in s.db.operations
    requires s.sessions[sid].at.Settling? && s.sessions[sid].alive
    requires var x := s.sessions[sid];
             && Settles(s.db.operations[x.id], op', x.at.state, x.at.settledId)
             && (op'.state == Succeeded ==> Announces(op', execute, x.at.settledId))
    ensures var x := s.sessions[sid];
            Inv(State(Db(s.db.owners, s.db.operations[x.id := op'], OutboxAfter(s.db, x.id, op', execute, x.at.settledId)),
                      s.sessions - {sid}, s.jobs))
  {
    hide DbSound, OperationSound, Sound, Separate, Settles, Conclusive, Announces, OutboxAfter;
    var x := s.sessions[sid];
    var op, jobs := s.db.operations[x.id], Jobs(s.jobs, x.id);
    SoundHere(s, sid);
    SettlerKnows(jobs, op, x);
    ConclusiveStates(jobs, op, x.at.state, x.at.settledId);
    SettlesState(op, op', x.at.state, x.at.settledId);
    SettledSound(jobs, op, op', x.at.state, x.at.settledId);
    forall q | q in s.sessions && q != sid && s.sessions[q].id == x.id ensures Sound(jobs, op', s.sessions[q]) {
      OtherKeepsFinish(s, sid, q, op', x.at.settledId);
    }
    FinishedKeepsDb(s.db, x.id, op', execute, x.at.settledId);
    RowKeepsOperations(s.db.operations, s.jobs, x.id, op', s.jobs);
    RowKeepsSessions(s, sid, op', s.jobs, None);
    BecomesKeepsSeparate(s.sessions, sid, None);
  }

  lemma SettlesState(op: Operation, op': Operation, state: Status, externalId: string)
    requires Settles(op, op', state, externalId)
    ensures op'.state == state && op'.attempts != [] && Last(op'.attempts).externalId == externalId
  {
  }

  lemma FinishKeepsInv(s: State, sid: nat)
    requires Inv(s)
    ensures Inv(DoFinish(s, sid))
  {
    hide DbSound, Narrowing, Historic, JobsMarked, Obliged, Sequenced, Numbered, Credentialed, Lingering, Holding,
      Separate, Inv, FinishTx, SettlesOne, OutboxAfter, Settles, FinishedRow, MaxExecute, Conclusive, Sound;
    CrashKeepsInv(s, sid);
    if sid in s.sessions && s.sessions[sid].id in s.db.operations && s.sessions[sid].at.Settling? && s.sessions[sid].alive {
      var x := s.sessions[sid];
      var op := s.db.operations[x.id];
      SoundHere(s, sid);
      SettlerKnows(Jobs(s.jobs, x.id), op, x);
      LastRuns(op);
      SucceededNamed(Jobs(s.jobs, x.id), op, x.at.state, x.at.settledId);
      FinishTxIs(s.db, x.id, x.at.state, x.at.settledId);
      FinishedSettles(op, x.number, x.at.state, x.at.settledId);
      var op' := FinishedRow(op, x.number, x.at.state, x.at.settledId);
      SettlesState(op, op', x.at.state, x.at.settledId);
      FinishedKeepsInv(s, sid, op', MaxExecute(op'.attempts, |op.attempts|));
    }
  }

  lemma SucceededNamed(jobs: map<nat, Job>, op: Operation, state: Status, externalId: string)
    requires Conclusive(jobs, op, state, externalId)
    ensures state == Succeeded ==> externalId != ""
  {
  }

  // ----- every run -----

  lemma ActKeepsInv(s: State, sid: nat, e: Action)
    requires Inv(s)
    ensures Inv(DoAct(s, sid, e))
  {
    hide Inv, Fits, Applied;
    if sid in s.sessions && s.sessions[sid].id in s.db.operations {
      var x := s.sessions[sid];
      if e == Send && x.at == Marked { SendFits(s, sid); } else { JournalFits(s, sid, e); }
      EffectKeepsInv(s, sid, Act(Jobs(s.jobs, x.id), s.db.operations[x.id], x, e));
    }
  }

  lemma StepKeepsInv(s: State, e: Step)
    requires Inv(s)
    ensures Inv(Do(s, e))
  {
    hide Inv, DoRequest, DoNarrow, DoOpen, DoStart, DoAct, DoFinish, DoCluster;
    match e
    case Request(id, org, destination, createdAt, ceiling) => RequestKeepsInv(s, id, org, destination, createdAt, ceiling);
    case NarrowReplay(id, until) => NarrowKeepsInv(s, id, until);
    case OpenLock(sid, id, work) => OpenKeepsInv(s, sid, id, work);
    case Start(sid, authority, at) => StartKeepsInv(s, sid, authority, at);
    case Step(sid, action) => ActKeepsInv(s, sid, action);
    case Finish(sid) => FinishKeepsInv(s, sid);
    case Crash(sid) => CrashKeepsInv(s, sid);
    case Cluster(id, number, change) => ClusterKeepsInv(s, id, number, change);
  }

  /** The invariant holds at first, and every step keeps it. */
  lemma AllKeepInv()
    ensures Inv(INITIAL) && forall s, e :: Inv(s) ==> Inv(Do(s, e))
  {
    hide Do;
    forall s, e | Inv(s) ensures Inv(Do(s, e)) { hide Inv; StepKeepsInv(s, e); }
  }

  lemma RunKeepsInv(steps: seq<Step>)
    ensures Inv(Exec(steps))
  {
    hide Do, Inv;
    AllKeepInv();
    Always(Do, INITIAL, s => Inv(s), steps);
  }
}
