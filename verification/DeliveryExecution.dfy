/**
 A delivery and an observation can be carried through: from any reachable state that admits them, one
 process and a cluster that does its part settle the operation as the new executor reports.
 */
module DeliveryExecution {
  import opened Wrappers
  import opened Expiry
  import opened DeploymentStore
  import opened Delivery
  import opened DeliveryInvariant
  import opened DeliverySteps
  import opened DeliverySafety
  import opened DeliveryProgress
  import opened DeliveryAdmission
  import opened Traces

  function Runner(id: nat, local: Operation, work: Work, at: Point): Session {
    Session(id, local.destination, work, true, |local.attempts|, local, at)
  }

  /** An admitted session starts its attempt and fetches it. */
  lemma StartsWork(steps: seq<Step>, sid: nat, id: nat, work: Work, now: Instant) returns (more: seq<Step>)
    requires Free(Exec(steps), sid, id) && Suits(work, Exec(steps).db.operations[id]) && Undisputed(Exec(steps).db, id)
    ensures var s := Exec(steps); var op' := StartedRow(s.db.operations[id], KindOf(work), None, now);
            steps <= more && Inv(Exec(more))
            && Exec(more) == State(s.db.(operations := s.db.operations[id := op']), s.sessions[sid := Runner(id, op', work, Fetched)], s.jobs)
  {
    hide Exec, Inv, Held, StartedRow, DoStart, Undisputed, Suits;
    var s := Exec(steps);
    var op := s.db.operations[id];
    var op' := StartedRow(op, KindOf(work), None, now);
    more := Opens(steps, sid, id, work);
    StartIs(more, s, sid, id, work, now);
    StartedSame(op, KindOf(work), now);
    more := Next(more, Start(sid, None, now));
    var s1 := State(s.db.(operations := s.db.operations[id := op']), s.sessions[sid := Runner(id, op', work, Started).(local := op)], s.jobs);
    assert s.sessions[sid := Runner(id, op, work, Loaded).(number := 0)][sid := s1.sessions[sid]] == s1.sessions;
    ActIs(s1, sid, Fetch);
    more := Next(more, Step(sid, Fetch));
    assert s1.db.operations[id := op'] == s1.db.operations;
  }

  lemma StartIs(steps: seq<Step>, s: State, sid: nat, id: nat, work: Work, now: Instant)
    requires id in s.db.operations && Suits(work, s.db.operations[id]) && Undisputed(s.db, id)
    requires Exec(steps) == s.(sessions := s.sessions[sid := Runner(id, s.db.operations[id], work, Loaded).(number := 0)])
    ensures var op := s.db.operations[id]; var op' := StartedRow(op, KindOf(work), None, now);
            Do(Exec(steps), Start(sid, None, now))
            == State(s.db.(operations := s.db.operations[id := op']), Exec(steps).sessions[sid := Runner(id, op, work, Started).(number := |op.attempts| + 1)], s.jobs)
  {
    hide Exec, Inv, Blocked, StartedRow, StartTx, Unresolved, Undisputed;
    RunDbSound(steps);
    UndisputedIs(s.db, id);
    NumberedHere(steps, id);
    StartTxIs(s.db, id, KindOf(work), None, now);
  }

  lemma StartedSame(op: Operation, kind: Kind, now: Instant)
    ensures StartedRow(op, kind, None, now).destination == op.destination
    ensures |StartedRow(op, kind, None, now).attempts| == |op.attempts| + 1
  {
  }

  /** What a session at its start knows of its own attempt: it is the last, open and not dispatched. */
  predicate AtWork(s: State, sid: nat, id: nat, at: Point) {
    && sid in s.sessions && id in s.db.operations && s.db.operations[id].attempts != []
    && var x, op := s.sessions[sid], s.db.operations[id];
       && x.id == id && x.alive && x.at == at && !x.work.CleanUp? && !x.work.Passively? && x.number == |op.attempts| == Current(x)
       && Last(op.attempts).credential == Some(Credential(Preparing, false)) && Deadline(x) == Last(op.attempts).credentialExpiresAt
       && x.number !in Jobs(s.jobs, id)
  }

  /** The state with the session at this point, and this row. */
  function With(s: State, sid: nat, op: Operation, at: Point): State
    requires sid in s.sessions
  {
    s.(db := s.db.(operations := s.db.operations[s.sessions[sid].id := op]), sessions := s.sessions[sid := s.sessions[sid].(at := at)])
  }

  lemma MarkIs(s: State, sid: nat, id: nat)
    requires Inv(s) && AtWork(s, sid, id, Prepared)
    ensures var x, op := s.sessions[sid], s.db.operations[id];
            && Act(Jobs(s.jobs, id), op, x, Mark(true, true)) == Effect(Dispatch(x.number), Some(x.(at := Marked)))
            && JournalOpen(RowAfter(op, Dispatch(x.number)), x.number)
  {
    hide Inv, JournalOpen;
    var op := s.db.operations[id];
    OpenHere(s, id, |op.attempts|);
    JournalOf(RowAfter(op, Dispatch(|op.attempts|)), |op.attempts|);
  }

  /** The credential is prepared, the marker set and the Job created; it appears and is watched. */
  lemma Dispatches(steps: seq<Step>, sid: nat, id: nat, now: Instant) returns (more: seq<Step>)
    requires AtWork(Exec(steps), sid, id, Ready) && Deadline(Exec(steps).sessions[sid]).Some?
    requires now + 5 * MINUTE <= Deadline(Exec(steps).sessions[sid]).value
    ensures steps <= more
    ensures var s := Exec(steps); var x, op := s.sessions[sid], s.db.operations[id];
            Exec(more) == With(s, sid, RowAfter(op, Dispatch(x.number)), Sent).(jobs := s.jobs[id := Jobs(s.jobs, id)[x.number := InFlight]])
  {
    hide Exec, Inv, JournalOpen;
    var s := Exec(steps);
    var x, op := s.sessions[sid], s.db.operations[id];
    more := Prepares(steps, sid, id, now);
    var s1 := With(s, sid, op, Prepared);
    RunKeepsInv(more);
    MarkIs(s1, sid, id);
    ActIs(s1, sid, Mark(true, true));
    more := Next(more, Step(sid, Mark(true, true)));
    var s2 := With(s, sid, RowAfter(op, Dispatch(x.number)), Marked);
    assert Exec(more) == s2;
    SendIs(s2, sid, id);
    more := Next(more, Step(sid, Send));
    assert Exec(more).sessions == s.sessions[sid := x.(at := Sent)];
  }

  lemma Prepares(steps: seq<Step>, sid: nat, id: nat, now: Instant) returns (more: seq<Step>)
    requires AtWork(Exec(steps), sid, id, Ready) && Deadline(Exec(steps).sessions[sid]).Some?
    requires now + 5 * MINUTE <= Deadline(Exec(steps).sessions[sid]).value
    ensures steps <= more && Exec(more) == With(Exec(steps), sid, Exec(steps).db.operations[id], Prepared)
  {
    hide Exec, Inv;
    var s := Exec(steps);
    assert s.db.operations[id := s.db.operations[id]] == s.db.operations;
    ActIs(s, sid, Prepare(now, true, false));
    more := Next(steps, Step(sid, Prepare(now, true, false)));
  }

  lemma SendIs(s: State, sid: nat, id: nat)
    requires sid in s.sessions && s.sessions[sid].id == id && id in s.db.operations && s.sessions[sid].at == Marked
    requires s.sessions[sid].number == Current(s.sessions[sid]) && s.sessions[sid].number !in Jobs(s.jobs, id)
    ensures Do(s, Step(sid, Send))
            == s.(sessions := s.sessions[sid := s.sessions[sid].(at := Sent)],
                  jobs := s.jobs[id := Jobs(s.jobs, id)[s.sessions[sid].number := InFlight]])
  {
  }

  function Put(jobs: map<nat, Job>, n: nat, job: Job): map<nat, Job> { jobs[n := job] }

  /** The created Job appears, is watched under its marker, and its executor ends with this report. */
  lemma Runs(steps: seq<Step>, sid: nat, id: nat, n: nat, report: Report) returns (more: seq<Step>)
    requires sid in Exec(steps).sessions && id in Exec(steps).db.operations && 1 <= n <= |Exec(steps).db.operations[id].attempts|
    requires var x := Exec(steps).sessions[sid]; x.id == id && x.alive && x.at == Sent && Current(x) == n
    requires id in Exec(steps).jobs && n in Exec(steps).jobs[id] && Exec(steps).jobs[id][n] == InFlight
    requires Open(Exec(steps).db.operations[id].attempts[n - 1])
    ensures steps <= more
    ensures var s := Exec(steps);
            Exec(more) == s.(sessions := s.sessions[sid := s.sessions[sid].(at := Watching(n))], jobs := s.jobs[id := Put(s.jobs[id], n, Ended(report))])
  {
    hide Exec, Inv, JournalOpen;
    var s := Exec(steps);
    var x, op := s.sessions[sid], s.db.operations[id];
    more := Next(steps, Cluster(id, n, Appear));
    var s1 := s.(jobs := s.jobs[id := Put(s.jobs[id], n, Live)]);
    assert Exec(more) == s1;
    OpenHere(s1, id, n);
    ArriveIs(Jobs(s1.jobs, id), op, x);
    ActIs(s1, sid, Arrive);
    more := Next(more, Step(sid, Arrive));
    assert s.db.operations[id := op] == s.db.operations;
    var s2 := s1.(sessions := s.sessions[sid := x.(at := Watching(n))]);
    assert Exec(more) == s2;
    more := Next(more, Cluster(id, n, End(report)));
    assert Put(s1.jobs[id], n, Ended(report)) == Put(s.jobs[id], n, Ended(report));
    assert s1.jobs[id := Put(s.jobs[id], n, Ended(report))] == s.jobs[id := Put(s.jobs[id], n, Ended(report))];
  }

  // ----- earlier obligations -----

  /** An observing session sweeps, on an exact copy of its operation. */
  predicate Sweeps(s: State, sid: nat, id: nat) {
    && sid in s.sessions && id in s.db.operations
    && var x, op := s.sessions[sid], s.db.operations[id];
       x.id == id && x.alive && x.at == Sweeping && x.work == Reobserve && x.number == |op.attempts| && x.local.attempts == op.attempts
  }

  /** The state with this row, and this copy of it in the session at this point. */
  function Swept(s: State, sid: nat, id: nat, op: Operation, at: Point): State
    requires sid in s.sessions
  {
    var x := s.sessions[sid];
    s.(db := s.db.(operations := s.db.operations[id := op]),
       sessions := s.sessions[sid := x.(local := x.local.(attempts := op.attempts), at := at)])
  }

  lemma SweepIs(jobs: map<nat, Job>, op: Operation, x: Session, n: nat)
    requires Numbered(op.attempts) && 1 <= n < |op.attempts| && Open(op.attempts[n - 1]) && Over(jobs, op.attempts[n - 1], n)
    requires x.alive && x.at == Sweeping && x.work == Reobserve && x.local.attempts == op.attempts
    ensures Act(jobs, op, x, Inspect(n)) ==
            if HasEnded(jobs, n) then Effect(Dispatch(n), Some(x.(at := Watching(n)))) else Effect(Nothing, Some(x.(at := Fencing(n, Sweep))))
    ensures HasEnded(jobs, n) ==> Act(jobs, op, x.(at := Watching(n)), Confirm(true, true)) == Effect(Nothing, Some(x.(at := Fencing(n, Sweep))))
    ensures var after := x.local.(attempts := Journal(op.attempts, n, false));
            Act(jobs, op, x.(at := Fencing(n, Sweep)), Resolve(true, true)) == Effect(Acknowledge(n), Some(x.(local := after)))
  {
    JournalOf(op, n);
  }

  lemma SweepsOne(steps: seq<Step>, sid: nat, id: nat, n: nat) returns (more: seq<Step>)
    requires Sweeps(Exec(steps), sid, id) && 1 <= n < |Exec(steps).db.operations[id].attempts|
    requires var op := Exec(steps).db.operations[id]; Open(op.attempts[n - 1]) && Over(Jobs(Exec(steps).jobs, id), op.attempts[n - 1], n)
    ensures steps <= more
    ensures var s := Exec(steps); Exec(more) == Swept(s, sid, id, RowAfter(s.db.operations[id], Acknowledge(n)), Sweeping)
  {
    hide Exec, Inv, Act, JournalOpen, Open;
    var s := Exec(steps);
    var x, op, jobs := s.sessions[sid], s.db.operations[id], Jobs(s.jobs, id);
    RunKeepsInv(steps);
    OpenHere(s, id, n);
    SweepIs(jobs, op, x, n);
    assert s.db.operations[id := op] == s.db.operations;
    ActIs(s, sid, Inspect(n));
    more := Next(steps, Step(sid, Inspect(n)));
    if HasEnded(jobs, n) {
      var s1 := s.(sessions := s.sessions[sid := x.(at := Watching(n))]);
      assert Exec(more) == s1;
      ActIs(s1, sid, Confirm(true, true));
      more := Next(more, Step(sid, Confirm(true, true)));
    }
    var s2 := s.(sessions := s.sessions[sid := x.(at := Fencing(n, Sweep))]);
    assert Exec(more) == s2;
    ActIs(s2, sid, Resolve(true, true));
    more := Next(more, Step(sid, Resolve(true, true)));
    assert Exec(more).sessions == Swept(s, sid, id, RowAfter(op, Acknowledge(n)), Sweeping).sessions;
  }

  lemma {:induction false} SweepsAll(steps: seq<Step>, sid: nat, id: nat, n: nat) returns (more: seq<Step>)
    requires Sweeps(Exec(steps), sid, id) && n < |Exec(steps).db.operations[id].attempts|
    requires var op := Exec(steps).db.operations[id];
             forall i :: 0 <= i < n && Open(op.attempts[i]) ==> Over(Jobs(Exec(steps).jobs, id), op.attempts[i], i + 1)
    ensures var s, s' := Exec(steps), Exec(more);
            && steps <= more && id in s'.db.operations && ClearedUpTo(s.db.operations[id], s'.db.operations[id], n)
            && s' == Swept(s, sid, id, s'.db.operations[id], Sweeping)
  {
    hide Exec, Inv, Open, Over;
    var s := Exec(steps);
    var op := s.db.operations[id];
    more := steps;
    if n == 0 {
      assert s.db.operations[id := op] == s.db.operations;
      assert s.sessions[sid].(local := s.sessions[sid].local.(attempts := op.attempts), at := Sweeping) == s.sessions[sid];
    } else {
      more := SweepsAll(steps, sid, id, n - 1);
      var s' := Exec(more);
      RunKeepsInv(more);
      NumberedHere(more, id);
      assert op.attempts[n - 1] == s'.db.operations[id].attempts[n - 1];
      if Open(op.attempts[n - 1]) {
        AcknowledgeClears(op, s'.db.operations[id], n - 1);
        more := SweepsOne(more, sid, id, n);
      } else {
        ClosedClears(op, s'.db.operations[id], n - 1);
      }
    }
  }

  // ----- the new executor decides -----

  /** The session's own obligation is the only open one. */
  predicate Alone(op: Operation) {
    op.attempts != [] && forall i :: 0 <= i < |op.attempts| - 1 ==> !Open(op.attempts[i])
  }

  lemma DispatchedAlone(op: Operation, d: int)
    requires Numbered(op.attempts) && Alone(op) && Last(op.attempts).credential == Some(Credential(Preparing, false)) && Newest(op.attempts, d)
    ensures var op' := RowAfter(op, Dispatch(|op.attempts|));
            && Numbered(op'.attempts) && Alone(op') && |op'.attempts| == |op.attempts| && Open(Last(op'.attempts)) && Newest(op'.attempts, d)
  {
  }

  /** From its start on, an executor of the newest delivery settles its operation as it reports. */
  lemma Executes(steps: seq<Step>, sid: nat, id: nat, d: nat, now: Instant, report: Report) returns (more: seq<Step>)
    requires AtWork(Exec(steps), sid, id, Ready) && Deadline(Exec(steps).sessions[sid]).Some?
    requires now + 5 * MINUTE <= Deadline(Exec(steps).sessions[sid]).value
    requires var op := Exec(steps).db.operations[id];
             Alone(op) && Newest(op.attempts, d) && (d + 1 == |op.attempts| || HasEnded(Jobs(Exec(steps).jobs, id), d + 1))
    ensures steps <= more && id in Exec(more).db.operations && Exec(more).db.operations[id].attempts != []
    ensures var op' := Exec(more).db.operations[id]; var n := |Exec(steps).db.operations[id].attempts|;
            (op'.state, Last(op'.attempts).externalId) == Verdict(map[n := Ended(report)], n) && !Unresolved(op')
  {
    hide Exec, Inv, Verdict, Unresolved, RowAfter, Newest, Open;
    var s := Exec(steps);
    var op := s.db.operations[id];
    var n := |op.attempts|;
    NumberedHere(steps, id);
    DispatchedAlone(op, d);
    more := Dispatches(steps, sid, id, now);
    more := Runs(more, sid, id, n, report);
    assert Watches(Exec(more), sid, d);
    SameVerdict(Jobs(Exec(more).jobs, id), n, report);
    more := ReportDecides(more, sid, d, true);
  }

  lemma SameVerdict(jobs: map<nat, Job>, n: nat, report: Report)
    requires n in jobs && jobs[n] == Ended(report)
    ensures Verdict(jobs, n) == Verdict(map[n := Ended(report)], n)
  {
  }

  // ----- the whole way -----

  /** The credential that a start at this time would get covers an execution. */
  predicate Covered(op: Operation, work: Work, now: Instant) {
    var until := Last(StartedRow(op, KindOf(work), None, now).attempts).credentialExpiresAt;
    until.Some? && now + 5 * MINUTE <= until.value
  }

  lemma StartedFacts(op: Operation, work: Work, now: Instant)
    requires Numbered(op.attempts) && (work.Deliver? || work == Reobserve)
    ensures var op' := StartedRow(op, KindOf(work), None, now); var n := |op.attempts| + 1;
            && |op'.attempts| == n && Numbered(op'.attempts) && Last(op'.attempts).credential == Some(Credential(Preparing, false))
            && JournalOpen(op', n) && Current(Runner(0, op', work, Fetched)) == n
            && Deadline(Runner(0, op', work, Fetched)) == Last(op'.attempts).credentialExpiresAt
            && (forall i :: 0 <= i < |op.attempts| ==> op'.attempts[i].credential == op.attempts[i].credential && op'.attempts[i].kind == op.attempts[i].kind)
            && op'.attempts[n - 1].kind == KindOf(work)
  {
    hide StartCeiling, EarlierExpiry, JournalOpen;
    JournalOf(StartedRow(op, KindOf(work), None, now), |op.attempts| + 1);
  }

  lemma RequireIs(jobs: map<nat, Job>, op: Operation, x: Session)
    requires x.alive && JournalOpen(op, Current(x)) && ((x.at == Fetched && (x.work.Deliver? || x.work == Reobserve)) || x.at == Sweeping)
    ensures Act(jobs, op, x, Require) == GoTo(x, if x.at == Fetched && x.work == Reobserve then Sweeping else Ready)
  {
    hide JournalOpen;
  }

  lemma Requires(steps: seq<Step>, sid: nat) returns (more: seq<Step>)
    requires sid in Exec(steps).sessions && Exec(steps).sessions[sid].id in Exec(steps).db.operations
    requires var x := Exec(steps).sessions[sid];
             x.alive && JournalOpen(Exec(steps).db.operations[x.id], Current(x))
             && ((x.at == Fetched && (x.work.Deliver? || x.work == Reobserve)) || x.at == Sweeping)
    ensures steps <= more
    ensures var s := Exec(steps); var x := s.sessions[sid];
            Exec(more) == s.(sessions := s.sessions[sid := x.(at := if x.at == Fetched && x.work == Reobserve then Sweeping else Ready)])
  {
    hide Exec, Inv, JournalOpen;
    var s := Exec(steps);
    var x := s.sessions[sid];
    RequireIs(Jobs(s.jobs, x.id), s.db.operations[x.id], x);
    ActIs(s, sid, Require);
    assert s.db.operations[x.id := s.db.operations[x.id]] == s.db.operations;
    more := Next(steps, Step(sid, Require));
  }

  lemma NoJobYet(steps: seq<Step>, id: nat)
    requires id in Exec(steps).db.operations
    ensures |Exec(steps).db.operations[id].attempts| + 1 !in Jobs(Exec(steps).jobs, id)
  {
    hide Exec, Coherent, Narrowing, Historic, Vouched;
    RunSound(steps, id);
  }

  /** An admitted delivery with time left can be carried out, and its operation comes out as its executor reports. */
  lemma CanBeDelivered(steps: seq<Step>, sid: nat, id: nat, retry: bool, now: Instant, report: Report) returns (more: seq<Step>)
    requires Free(Exec(steps), sid, id)
    requires Suits(Deliver(retry), Exec(steps).db.operations[id]) && Undisputed(Exec(steps).db, id) && Covered(Exec(steps).db.operations[id], Deliver(retry), now)
    ensures steps <= more && id in Exec(more).db.operations && Exec(more).db.operations[id].attempts != []
    ensures var op' := Exec(more).db.operations[id]; var n := |Exec(steps).db.operations[id].attempts| + 1;
            (op'.state, Last(op'.attempts).externalId) == Verdict(map[n := Ended(report)], n) && !Unresolved(op')
  {
    hide Exec, Inv, Verdict, StartedRow, Held, Undisputed, JournalOpen;
    var s := Exec(steps);
    var op := s.db.operations[id];
    NumberedHere(steps, id);
    NoJobYet(steps, id);
    StartedFacts(op, Deliver(retry), now);
    more := StartsWork(steps, sid, id, Deliver(retry), now);
    more := Requires(more, sid);
    var op' := StartedRow(op, Execute, None, now);
    DeliversItself(op, op');
    more := Executes(more, sid, id, |op.attempts|, now, report);
  }

  lemma DeliversItself(op: Operation, op': Operation)
    requires !Unresolved(op) && |op'.attempts| == |op.attempts| + 1 && op'.attempts[|op.attempts|].kind == Execute
    requires forall i :: 0 <= i < |op.attempts| ==> op'.attempts[i].credential == op.attempts[i].credential
    ensures Alone(op') && Newest(op'.attempts, |op.attempts|)
  {
    forall i | 0 <= i < |op.attempts| ensures !Open(op'.attempts[i]) { assert !Open(op.attempts[i]); }
  }

  /**
   An unfinished operation whose delivery has ended, and whose other executors are over, can be observed
   if time is left; its session acknowledges what they owe, and it comes out as the observation reports.
   */
  lemma CanBeObserved(steps: seq<Step>, sid: nat, id: nat, d: nat, now: Instant, report: Report) returns (more: seq<Step>)
    requires Free(Exec(steps), sid, id) && Active(Exec(steps).db.operations[id]) && AllOver(Exec(steps), id)
    requires Newest(Exec(steps).db.operations[id].attempts, d) && HasEnded(Jobs(Exec(steps).jobs, id), d + 1)
    requires Covered(Exec(steps).db.operations[id], Reobserve, now)
    ensures steps <= more && id in Exec(more).db.operations && Exec(more).db.operations[id].attempts != []
    ensures var op' := Exec(more).db.operations[id]; var n := |Exec(steps).db.operations[id].attempts| + 1;
            (op'.state, Last(op'.attempts).externalId) == Verdict(map[n := Ended(report)], n) && !Unresolved(op')
  {
    hide Exec, Inv, Verdict, StartedRow, Held, Undisputed, JournalOpen, Newest, Over, Open;
    var s := Exec(steps);
    var op := s.db.operations[id];
    NumberedHere(steps, id);
    NoJobYet(steps, id);
    ActiveIsUndisputed(steps, id);
    StartedFacts(op, Reobserve, now);
    more := StartsWork(steps, sid, id, Reobserve, now);
    more := Requires(more, sid);
    var op1 := StartedRow(op, Observe, None, now);
    OverStays(s, id, op1);
    more := SweepsAll(more, sid, id, |op.attempts|);
    var op2 := Exec(more).db.operations[id];
    NumberedHere(more, id);
    SweptIsAlone(op, op1, op2, d);
    more := Requires(more, sid);
    more := Executes(more, sid, id, d, now, report);
  }

  lemma ActiveIsUndisputed(steps: seq<Step>, id: nat)
    requires id in Exec(steps).db.operations && Active(Exec(steps).db.operations[id])
    ensures Undisputed(Exec(steps).db, id)
  {
    hide Exec, Blocked, Undisputed;
    RunDbSound(steps);
    UndisputedIs(Exec(steps).db, id);
    RecoveryNeverBlocked(steps, id, Recover, None, 0);
  }

  lemma OverStays(s: State, id: nat, op': Operation)
    requires id in s.db.operations && AllOver(s, id) && |op'.attempts| == |s.db.operations[id].attempts| + 1
    requires forall i :: 0 <= i < |s.db.operations[id].attempts| ==> op'.attempts[i].credential == s.db.operations[id].attempts[i].credential
    ensures forall i :: 0 <= i < |s.db.operations[id].attempts| && Open(op'.attempts[i]) ==> Over(Jobs(s.jobs, id), op'.attempts[i], i + 1)
  {
    forall i | 0 <= i < |s.db.operations[id].attempts| && Open(op'.attempts[i]) ensures Over(Jobs(s.jobs, id), op'.attempts[i], i + 1) {
      assert Open(s.db.operations[id].attempts[i]);
    }
  }

  lemma SweptIsAlone(op: Operation, op1: Operation, op2: Operation, d: nat)
    requires |op1.attempts| == |op.attempts| + 1 && ClearedUpTo(op1, op2, |op.attempts|) && Numbered(op2.attempts) && Newest(op.attempts, d)
    requires forall i :: 0 <= i < |op.attempts| ==> op1.attempts[i].kind == op.attempts[i].kind
    requires Last(op1.attempts).kind == Observe && Last(op1.attempts).credential == Some(Credential(Preparing, false))
    ensures Alone(op2) && Newest(op2.attempts, d) && JournalOpen(op2, |op2.attempts|) && Last(op2.attempts) == Last(op1.attempts)
  {
    JournalOf(op2, |op2.attempts|);
  }

  // ----- a preparation that fails -----

  /**
   An executor that was never created is no delivery: without the time for it, or without a
   credential, the credential is revoked, the obligation acknowledged, and a delivery fails for good
   unless the issuer may have issued; an observation stays uncertain. No Job is created.
   */
  lemma UnpreparedIsRefused(steps: seq<Step>, sid: nat, id: nat, now: Instant, uncertain: bool, issued: bool) returns (more: seq<Step>)
    requires AtWork(Exec(steps), sid, id, Ready) && Alone(Exec(steps).db.operations[id])
    requires var until := Deadline(Exec(steps).sessions[sid]); issued ==> until.None? || until.value < now + 5 * MINUTE
    ensures steps <= more && id in Exec(more).db.operations && Exec(more).db.operations[id].attempts != []
    ensures var s := Exec(steps); var op' := Exec(more).db.operations[id];
            var late := Deadline(s.sessions[sid]).None? || Deadline(s.sessions[sid]).value < now + 5 * MINUTE;
            && Last(op'.attempts).externalId == "" && !Unresolved(op') && Exec(more).jobs == s.jobs
            && op'.state == (if s.sessions[sid].work.Deliver? && (late || !uncertain) then Failed else Uncertain)
  {
    hide Exec, Inv, Unresolved, Open, Act;
    var s := Exec(steps);
    var x, op := s.sessions[sid], s.db.operations[id];
    var outcome := if Deadline(x).None? || Deadline(x).value < now + 5 * MINUTE || !uncertain then Rejected else Unsure;
    RunKeepsInv(steps);
    LastIsOpen(op);
    AloneIsLast(s, sid, id);
    PrepareFails(Jobs(s.jobs, id), op, x, now, issued, uncertain);
    ActIs(s, sid, Prepare(now, issued, uncertain));
    more := Next(steps, Step(sid, Prepare(now, issued, uncertain)));
    assert s.db.operations[id := op] == s.db.operations;
    assert Exec(more) == s.(sessions := s.sessions[sid := x.(at := Fencing(x.number, Return(outcome, "")))]);
    more := Revokes(more, sid);
  }

  lemma LastIsOpen(op: Operation)
    requires op.attempts != [] && Last(op.attempts).credential == Some(Credential(Preparing, false))
    ensures Open(op.attempts[|op.attempts| - 1])
  {
  }

  lemma AloneIsLast(s: State, sid: nat, id: nat)
    requires Inv(s) && AtWork(s, sid, id, Ready) && Alone(s.db.operations[id])
    ensures var op := s.db.operations[id];
            Last(op.attempts).state == Running && forall i :: 0 <= i < |op.attempts| && i != |op.attempts| - 1 ==> !Open(op.attempts[i])
  {
    hide DbSound, SessionsSound, Separate, Narrowing, Historic, Vouched, JobsMarked, Obliged, Lingering, Open;
    SoundHere(s, sid);
    HolderRuns(Jobs(s.jobs, id), s.db.operations[id], s.sessions[sid]);
  }

  lemma HolderRuns(jobs: map<nat, Job>, op: Operation, x: Session)
    requires Sound(jobs, op, x) && x.alive && x.number > 0 && Sequenced(op) && op.attempts != []
    ensures Last(op.attempts).state == Running
  {
    hide Lingering;
  }

  lemma PrepareFails(jobs: map<nat, Job>, op: Operation, x: Session, now: Instant, issued: bool, uncertain: bool)
    requires x.at == Ready && x.number == Current(x) && x.number !in jobs
    requires issued ==> Deadline(x).None? || Deadline(x).value < now + 5 * MINUTE
    ensures var late := Deadline(x).None? || Deadline(x).value < now + 5 * MINUTE;
            Act(jobs, op, x, Prepare(now, issued, uncertain))
            == GoTo(x, Fencing(x.number, Return(if late || !uncertain then Rejected else Unsure, "")))
  {
  }

  /** An observation whose delivery was given up in preparation has its proof without an executor: the operation failed undelivered. */
  lemma UndeliveredIsFailed(steps: seq<Step>, sid: nat, id: nat, d: nat) returns (more: seq<Step>)
    requires Sweeps(Exec(steps), sid, id) && Alone(Exec(steps).db.operations[id])
    requires var op := Exec(steps).db.operations[id];
             && Newest(op.attempts, d) && op.attempts[d].credential == Some(Credential(Preparing, true)) && d + 1 !in Jobs(Exec(steps).jobs, id)
             && Open(Last(op.attempts)) && Current(Exec(steps).sessions[sid]) == |op.attempts|
    ensures steps <= more && id in Exec(more).db.operations && Exec(more).db.operations[id].attempts != []
    ensures var op' := Exec(more).db.operations[id];
            op'.state == Failed && Last(op'.attempts).externalId == "" && !Unresolved(op') && Exec(more).jobs == Exec(steps).jobs
  {
    hide Exec, Inv, Unresolved, Open, Act, Newest;
    var s := Exec(steps);
    var x, op := s.sessions[sid], s.db.operations[id];
    RunKeepsInv(steps);
    SoundHere(s, sid);
    SweeperRuns(Jobs(s.jobs, id), op, x);
    StopIs(Jobs(s.jobs, id), op, x, d);
    ActIs(s, sid, Stop);
    more := Next(steps, Step(sid, Stop));
    assert s.db.operations[id := op] == s.db.operations;
    assert Exec(more) == s.(sessions := s.sessions[sid := x.(at := Fencing(|op.attempts|, Return(DeliveryFailed, "")))]);
    more := Revokes(more, sid);
  }

  lemma SweeperRuns(jobs: map<nat, Job>, op: Operation, x: Session)
    requires OperationSound(jobs, op) && Sound(jobs, op, x) && x.alive && x.at == Sweeping
    ensures op.attempts != [] && Last(op.attempts).state == Running && Numbered(op.attempts)
  {
    hide Narrowing, Historic, Vouched, JobsMarked, Obliged, Agrees;
  }

  lemma StopIs(jobs: map<nat, Job>, op: Operation, x: Session, d: nat)
    requires x.at == Sweeping && x.local.attempts == op.attempts && Numbered(op.attempts) && op.attempts != []
    requires Newest(op.attempts, d) && op.attempts[d].credential == Some(Credential(Preparing, true)) && d + 1 !in jobs
    ensures Act(jobs, op, x, Stop) == GoTo(x, Fencing(|op.attempts|, Return(DeliveryFailed, "")))
  {
    LatestDeliveryIs(op.attempts, |op.attempts|);
  }
}
