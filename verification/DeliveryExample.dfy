/** The promises are not kept by doing nothing: one request is delivered, from its insertion to its event. */
module DeliveryExample {
  import opened Wrappers
  import opened Expiry
  import opened DeploymentStore
  import opened Delivery
  import opened DeliveryInvariant
  import opened DeliverySteps
  import opened Traces

  const NOW: Instant := 1000 * MINUTE

  /** The one attempt of the example. */
  function First(state: Status, phase: Phase, resolved: bool, externalId: string): Attempt {
    Attempt(1, Execute, state, externalId, Some(Credential(phase, resolved)), NOW, None, Some(NOW + 12 * MINUTE))
  }

  const REQUESTED: Operation := Operation(1, "d", 0, Pending, [], None, None)

  function Row(phase: Phase, resolved: bool): Operation {
    Operation(1, "d", 0, Running, [First(Running, phase, resolved, "")], None, None)
  }

  const DONE: Operation := Operation(1, "d", 0, Succeeded, [First(Succeeded, Dispatching, true, "r")], None, None)

  function Of(row: Operation, session: Session, jobs: map<nat, Job>): State {
    State(Db(map["d" := 1], map[1 := row], map[]), map[1 := session], if jobs == map[] then map[] else map[1 := jobs])
  }

  function Fresh(at: Point): Session { Session(1, "d", Deliver(false), true, 0, REQUESTED, at) }

  /** The session after it fetched its own attempt. */
  function At(at: Point): Session { Session(1, "d", Deliver(false), true, 1, Row(Preparing, false), at) }

  lemma Next(steps: seq<Step>, s: State, e: Step, s': State) returns (more: seq<Step>)
    requires s == Exec(steps) && s' == Do(s, e)
    ensures s' == Exec(more)
  {
    hide Do;
    more := steps + [e];
    assert more[..|more| - 1] == steps;
    EndOfLast(Do, INITIAL, more);
  }

  lemma Requests()
    ensures Do(Do(Do(INITIAL, Request(1, 1, "d", 0, None)), OpenLock(1, 1, Deliver(false))), Step(1, Load)) == Of(REQUESTED, Fresh(Loaded), map[])
  {
    var s := Do(INITIAL, Request(1, 1, "d", 0, None));
    assert Do(s, OpenLock(1, 1, Deliver(false))) == Of(REQUESTED, Fresh(Locked), map[]);
  }

  lemma Starts()
    ensures Do(Of(REQUESTED, Fresh(Loaded), map[]), Start(1, None, NOW))
            == Of(Row(Preparing, false), Fresh(Loaded).(number := 1, at := Started), map[])
  {
    hide StartTx, Blocked, Unresolved;
    var s := Of(REQUESTED, Fresh(Loaded), map[]);
    assert Row(Preparing, false) == StartedRow(REQUESTED, Execute, None, NOW);
    assert !Unresolved(REQUESTED) by { NoAttempts(REQUESTED); }
    assert !Blocked(s.db, 1, 1, "d", 0) by { Alone(s.db); }
    StartTxIs(s.db, 1, Execute, None, NOW);
  }

  lemma NoAttempts(op: Operation)
    requires op.attempts == []
    ensures !Unresolved(op)
  {
  }

  lemma Alone(db: Db)
    requires db.operations.Keys == {1}
    ensures !Blocked(db, 1, 1, "d", 0)
  {
    assert forall other :: other in db.operations ==> other in db.operations.Keys;
  }

  lemma OpenHere(phase: Phase)
    ensures JournalOpen(Row(phase, false), 1)
    ensures Journal(Row(phase, false).attempts, 1, true) == Row(Dispatching, false).attempts
    ensures Journal(Row(phase, false).attempts, 1, false) == Row(phase, true).attempts
  {
    assert IsOpenAttempt(Row(phase, false).attempts[0], 1);
  }

  lemma Fetches()
    ensures Do(Of(Row(Preparing, false), Fresh(Loaded).(number := 1, at := Started), map[]), Step(1, Fetch)) == Of(Row(Preparing, false), At(Fetched), map[])
  {
  }

  lemma Requires()
    ensures Do(Of(Row(Preparing, false), At(Fetched), map[]), Step(1, Require)) == Of(Row(Preparing, false), At(Ready), map[])
  {
    hide JournalOpen;
    OpenHere(Preparing);
  }

  lemma Prepares()
    ensures Do(Of(Row(Preparing, false), At(Ready), map[]), Step(1, Prepare(NOW, true, false))) == Of(Row(Preparing, false), At(Prepared), map[])
  {
    hide JournalOpen;
  }

  lemma Marks()
    ensures Do(Of(Row(Preparing, false), At(Prepared), map[]), Step(1, Mark(true, true))) == Of(Row(Dispatching, false), At(Marked), map[])
  {
    hide JournalOpen, Journal;
    OpenHere(Preparing);
  }

  lemma Sends()
    ensures Do(Of(Row(Dispatching, false), At(Marked), map[]), Step(1, Send)) == Of(Row(Dispatching, false), At(Sent), map[1 := InFlight])
  {
  }

  /** The cluster changes the one Job of the example. */
  lemma Changes(x: Session, job: Job, change: Change, job': Job)
    requires Changed(map[1 := job], 1, change) == map[1 := job']
    ensures Do(Of(Row(Dispatching, false), x, map[1 := job]), Cluster(1, 1, change)) == Of(Row(Dispatching, false), x, map[1 := job'])
  {
    hide Changed;
    var jobs: map<nat, map<nat, Job>> := map[1 := map[1 := job]];
    assert jobs[1 := map[1 := job']] == map[1 := map[1 := job']];
    assert map[1 := job'] != map[] by { assert 1 in map[1 := job']; }
    assert map[1 := job] != map[] by { assert 1 in map[1 := job]; }
  }

  lemma Watches()
    ensures Do(Of(Row(Dispatching, false), At(Sent), map[1 := Live]), Step(1, Arrive)) == Of(Row(Dispatching, false), At(Watching(1)), map[1 := Live])
  {
    hide JournalOpen, Journal;
    OpenHere(Dispatching);
  }

  const ENDED: map<nat, Job> := map[1 := Ended(Deployed("r"))]

  lemma Confirms()
    ensures Do(Of(Row(Dispatching, false), At(Watching(1)), ENDED), Step(1, Confirm(true, true)))
            == Of(Row(Dispatching, false), At(Fencing(1, Return(Success, "r"))), ENDED)
  {
  }

  lemma Resolves()
    ensures Do(Of(Row(Dispatching, false), At(Fencing(1, Return(Success, "r"))), ENDED), Step(1, Resolve(true, true)))
            == Of(Row(Dispatching, true), At(Returned(Success, "r")), ENDED)
  {
    hide JournalOpen, Journal;
    OpenHere(Dispatching);
  }

  lemma Concludes()
    ensures Do(Of(Row(Dispatching, true), At(Returned(Success, "r")), ENDED), Step(1, Conclude(true)))
            == Of(Row(Dispatching, true), At(Settling(Succeeded, "r")), ENDED)
  {
    assert !Unresolved(Row(Dispatching, true));
  }

  lemma Finishes()
    ensures Do(Of(Row(Dispatching, true), At(Settling(Succeeded, "r")), ENDED), Finish(1))
            == State(Db(map["d" := 1], map[1 := DONE], map[(1, 1) := "r"]), map[], map[1 := ENDED])
  {
    hide SettlesOne, MaxExecute;
    var row := Row(Dispatching, true);
    var s := Of(row, At(Settling(Succeeded, "r")), ENDED);
    assert Settle(row.attempts, 1, Succeeded, "r") == DONE.attempts;
    assert row.attempts[0].number == 1 && row.attempts[0].state == Running;
    OneRuns(row.attempts);
    MaxExecuteIs(DONE.attempts, 1);
    assert DONE.attempts[0].kind == Execute;
    assert s.sessions - {1} == map[];
  }

  lemma OneRuns(attempts: seq<Attempt>)
    requires |attempts| == 1 && attempts[0].number == 1 && attempts[0].state == Running
    ensures SettlesOne(attempts, 1)
  {
  }

  /** A reachable state in which the operation succeeded, its executor ended and its event is out. */
  lemma ADeliverySucceeds() returns (steps: seq<Step>)
    ensures Exec(steps) == State(Db(map["d" := 1], map[1 := DONE], map[(1, 1) := "r"]), map[], map[1 := ENDED])
  {
    hide Do, Of, At, Row, Fresh;
    Requests();
    Starts();
    Fetches();
    Requires();
    Prepares();
    Marks();
    Sends();
    Changes(At(Sent), InFlight, Appear, Live);
    Watches();
    Changes(At(Watching(1)), Live, End(Deployed("r")), Ended(Deployed("r")));
    Confirms();
    Resolves();
    Concludes();
    Finishes();
    var s := INITIAL;
    EndOfNone(Do, INITIAL);
    steps := Next([], s, Request(1, 1, "d", 0, None), Do(s, Request(1, 1, "d", 0, None)));
    s := Exec(steps);
    steps := Next(steps, s, OpenLock(1, 1, Deliver(false)), Do(s, OpenLock(1, 1, Deliver(false))));
    s := Exec(steps);
    steps := Next(steps, s, Step(1, Load), Do(s, Step(1, Load)));
    steps := Next(steps, Exec(steps), Start(1, None, NOW), Of(Row(Preparing, false), Fresh(Loaded).(number := 1, at := Started), map[]));
    steps := Next(steps, Exec(steps), Step(1, Fetch), Of(Row(Preparing, false), At(Fetched), map[]));
    steps := Next(steps, Exec(steps), Step(1, Require), Of(Row(Preparing, false), At(Ready), map[]));
    steps := Next(steps, Exec(steps), Step(1, Prepare(NOW, true, false)), Of(Row(Preparing, false), At(Prepared), map[]));
    steps := Next(steps, Exec(steps), Step(1, Mark(true, true)), Of(Row(Dispatching, false), At(Marked), map[]));
    steps := Next(steps, Exec(steps), Step(1, Send), Of(Row(Dispatching, false), At(Sent), map[1 := InFlight]));
    steps := Next(steps, Exec(steps), Cluster(1, 1, Appear), Of(Row(Dispatching, false), At(Sent), map[1 := Live]));
    steps := Next(steps, Exec(steps), Step(1, Arrive), Of(Row(Dispatching, false), At(Watching(1)), map[1 := Live]));
    steps := Next(steps, Exec(steps), Cluster(1, 1, End(Deployed("r"))), Of(Row(Dispatching, false), At(Watching(1)), ENDED));
    steps := Next(steps, Exec(steps), Step(1, Confirm(true, true)), Of(Row(Dispatching, false), At(Fencing(1, Return(Success, "r"))), ENDED));
    steps := Next(steps, Exec(steps), Step(1, Resolve(true, true)), Of(Row(Dispatching, true), At(Returned(Success, "r")), ENDED));
    steps := Next(steps, Exec(steps), Step(1, Conclude(true)), Of(Row(Dispatching, true), At(Settling(Succeeded, "r")), ENDED));
    steps := Next(steps, Exec(steps), Finish(1), State(Db(map["d" := 1], map[1 := DONE], map[(1, 1) := "r"]), map[], map[1 := ENDED]));
  }
}
