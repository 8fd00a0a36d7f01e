/**
 The delivery protocol can finish: from any reachable state in which an operation's executors have
 ended, cleanup and recovery settle it as the executor of its newest delivery reported. Nothing else
 than the steps of one process is needed.
 */
module DeliveryProgress {
  import opened Wrappers
  import opened Expiry
  import opened DeploymentStore
  import opened Delivery
  import opened DeliveryInvariant
  import opened DeliverySteps
  import opened DeliverySafety
  import opened Traces

  lemma Next(steps: seq<Step>, e: Step) returns (more: seq<Step>)
    ensures more == steps + [e] && Exec(more) == Do(Exec(steps), e) && Inv(Exec(more))
  {
    more := steps + [e];
    EndOfNext(Do, INITIAL, steps, e);
    RunKeepsInv(more);
  }

  /** The state once the session's row and point have changed. */
  function Turned(s: State, sid: nat, op': Operation, next: Option<Session>): State
    requires sid in s.sessions
  {
    State(s.db.(operations := s.db.operations[s.sessions[sid].id := op']), Becomes(s.sessions, sid, next), s.jobs)
  }

  lemma ActIs(s: State, sid: nat, e: Action)
    requires sid in s.sessions && s.sessions[sid].id in s.db.operations
    requires var x := s.sessions[sid]; !Act(Jobs(s.jobs, x.id), s.db.operations[x.id], x, e).write.Create?
    ensures var x := s.sessions[sid]; var op := s.db.operations[x.id]; var effect := Act(Jobs(s.jobs, x.id), op, x, e);
            Do(s, Step(sid, e)) == Turned(s, sid, RowAfter(op, effect.write), effect.next)
  {
    hide Act;
    var x := s.sessions[sid];
    WrittenRow(s, x.id, Act(Jobs(s.jobs, x.id), s.db.operations[x.id], x, e).write);
  }

  // ----- one obligation -----

  /** The attempt's executor has ended, or none was ever dispatched. */
  predicate Over(jobs: map<nat, Job>, a: Attempt, n: nat) {
    HasEnded(jobs, n) || (n !in jobs && (a.credential.Some? ==> a.credential.value.phase == Preparing))
  }

  /** Nobody holds the destination, and the session number is free. */
  predicate Free(s: State, sid: nat, id: nat) {
    id in s.db.operations && sid !in s.sessions && !Held(s.sessions, s.db.operations[id].destination)
  }

  function Cleaner(id: nat, op: Operation, n: nat, at: Point): Session {
    Session(id, op.destination, CleanUp(n), true, 0, op, at)
  }

  lemma Opens(steps: seq<Step>, sid: nat, id: nat, work: Work) returns (more: seq<Step>)
    requires Free(Exec(steps), sid, id)
    ensures var s := Exec(steps); var op := s.db.operations[id];
            steps <= more && Inv(Exec(more))
            && Exec(more) == s.(sessions := s.sessions[sid := Session(id, op.destination, work, true, 0, op, Loaded)])
  {
    hide Exec, Inv, Held;
    var s := Exec(steps);
    more := Next(steps, OpenLock(sid, id, work));
    assert Exec(more) == s.(sessions := s.sessions[sid := Session(id, s.db.operations[id].destination, work, true, 0, s.db.operations[id], Locked)]);
    ActIs(Exec(more), sid, Load);
    more := Next(more, Step(sid, Load));
    assert s.db.operations[id := s.db.operations[id]] == s.db.operations;
  }

  /** A cleaner that found its executor over goes on to acknowledge. */
  lemma Inspects(steps: seq<Step>, s: State, sid: nat, id: nat, n: nat) returns (more: seq<Step>)
    requires id in s.db.operations && sid !in s.sessions && 1 <= n <= |s.db.operations[id].attempts|
    requires Exec(steps) == s.(sessions := s.sessions[sid := Cleaner(id, s.db.operations[id], n, Loaded)])
    requires Open(s.db.operations[id].attempts[n - 1]) && Over(Jobs(s.jobs, id), s.db.operations[id].attempts[n - 1], n)
    ensures steps <= more
    ensures Exec(more) == s.(sessions := s.sessions[sid := Cleaner(id, s.db.operations[id], n, Fencing(n, Leave))])
  {
    hide Exec, Inv;
    var op, jobs := s.db.operations[id], Jobs(s.jobs, id);
    RunKeepsInv(steps);
    OpenHere(Exec(steps), id, n);
    assert s.db.operations[id := op] == s.db.operations;
    ActIs(Exec(steps), sid, Inspect(n));
    InspectIs(jobs, op, Cleaner(id, op, n, Loaded), n);
    more := Next(steps, Step(sid, Inspect(n)));
    if HasEnded(jobs, n) {
      assert Exec(more) == s.(sessions := s.sessions[sid := Cleaner(id, op, n, Watching(n))]);
      ActIs(Exec(more), sid, Confirm(true, true));
      more := Next(more, Step(sid, Confirm(true, true)));
    }
  }

  lemma InspectIs(jobs: map<nat, Job>, op: Operation, x: Session, n: nat)
    requires x.local == op && x.at == Loaded && x.work == CleanUp(n) && x.alive && 1 <= n <= |op.attempts| && Numbered(op.attempts)
    requires Open(op.attempts[n - 1]) && Over(jobs, op.attempts[n - 1], n)
    ensures Act(jobs, op, x, Inspect(n)) ==
            if HasEnded(jobs, n) then Effect(Dispatch(n), Some(x.(at := Watching(n)))) else Effect(Nothing, Some(x.(at := Fencing(n, Leave))))
  {
    JournalOf(op, n);
  }

  /** An open obligation is found by its number, and its marker is there if its Job is. */
  lemma OpenHere(s: State, id: nat, n: nat)
    requires Inv(s) && id in s.db.operations && 1 <= n <= |s.db.operations[id].attempts| && Open(s.db.operations[id].attempts[n - 1])
    ensures var op := s.db.operations[id];
            Numbered(op.attempts) && JournalOpen(op, n) && (n in Jobs(s.jobs, id) ==> RowAfter(op, Dispatch(n)) == op)
  {
    hide DbSound, SessionsSound, Separate, Narrowing, Historic, Vouched;
    assert OperationSound(Jobs(s.jobs, id), s.db.operations[id]);
    JournalOf(s.db.operations[id], n);
  }

  /** One obligation whose executor is over is acknowledged, and nothing else changes. */
  lemma Cleans(steps: seq<Step>, sid: nat, id: nat, n: nat) returns (more: seq<Step>)
    requires Free(Exec(steps), sid, id) && 1 <= n <= |Exec(steps).db.operations[id].attempts|
    requires var op := Exec(steps).db.operations[id]; Open(op.attempts[n - 1]) && Over(Jobs(Exec(steps).jobs, id), op.attempts[n - 1], n)
    ensures var s := Exec(steps);
            steps <= more
            && Exec(more) == s.(db := s.db.(operations := s.db.operations[id := RowAfter(s.db.operations[id], Acknowledge(n))]))
  {
    hide Exec, Inv, Held;
    var s := Exec(steps);
    more := Opens(steps, sid, id, CleanUp(n));
    more := Inspects(more, s, sid, id, n);
    RunKeepsInv(steps);
    OpenHere(s, id, n);
    ActIs(Exec(more), sid, Resolve(true, true));
    more := Next(more, Step(sid, Resolve(true, true)));
    assert s.sessions[sid := Cleaner(id, s.db.operations[id], n, Fencing(n, Leave))] - {sid} == s.sessions;
  }

  // ----- all obligations -----

  function Resolved(a: Attempt): Attempt { if Open(a) then a.(credential := Some(a.credential.value.(resolved := true))) else a }

  /** The first `n` obligations are acknowledged, and nothing else changed. */
  predicate ClearedUpTo(op: Operation, op': Operation, n: nat) {
    && op' == op.(attempts := op'.attempts) && |op'.attempts| == |op.attempts|
    && forall i :: 0 <= i < |op.attempts| ==> op'.attempts[i] == if i < n then Resolved(op.attempts[i]) else op.attempts[i]
  }

  /** Every open obligation has its executor over. */
  predicate AllOver(s: State, id: nat)
    requires id in s.db.operations
  {
    forall i :: 0 <= i < |s.db.operations[id].attempts| && Open(s.db.operations[id].attempts[i]) ==>
      Over(Jobs(s.jobs, id), s.db.operations[id].attempts[i], i + 1)
  }

  lemma AcknowledgeClears(op: Operation, op': Operation, n: nat)
    requires Numbered(op'.attempts) && n < |op.attempts| && ClearedUpTo(op, op', n)
    ensures ClearedUpTo(op, RowAfter(op', Acknowledge(n + 1)), n + 1)
  {
  }

  lemma ClosedClears(op: Operation, op': Operation, n: nat)
    requires n < |op.attempts| && ClearedUpTo(op, op', n) && !Open(op.attempts[n])
    ensures ClearedUpTo(op, op', n + 1)
  {
  }

  lemma {:induction false} Clears(steps: seq<Step>, sid: nat, id: nat, n: nat) returns (more: seq<Step>)
    requires Free(Exec(steps), sid, id) && AllOver(Exec(steps), id) && n <= |Exec(steps).db.operations[id].attempts|
    ensures var s, s' := Exec(steps), Exec(more);
            && steps <= more && id in s'.db.operations && ClearedUpTo(s.db.operations[id], s'.db.operations[id], n)
            && s' == s.(db := s.db.(operations := s.db.operations[id := s'.db.operations[id]]))
  {
    hide Exec, Inv, Held, Over;
    var s := Exec(steps);
    if n == 0 {
      more := steps;
      assert s.db.operations == s.db.operations[id := s.db.operations[id]];
    } else {
      more := Clears(steps, sid, id, n - 1);
      var s' := Exec(more);
      assert s.db.operations[id].attempts[n - 1] == s'.db.operations[id].attempts[n - 1];
      if Open(s.db.operations[id].attempts[n - 1]) {
        RunKeepsInv(more);
        OpenHere(s', id, n);
        AcknowledgeClears(s.db.operations[id], s'.db.operations[id], n - 1);
        more := Cleans(more, sid, id, n);
      } else {
        ClosedClears(s.db.operations[id], s'.db.operations[id], n - 1);
      }
    }
  }

  // ----- recovery -----

  /** How the newest delivery came out: as its report says, or undelivered if it was never dispatched. */
  function Verdict(jobs: map<nat, Job>, n: nat): (Status, string) {
    if n !in jobs then (Failed, "")
    else match jobs[n]
      case Ended(Deployed(id)) => if id != "" then (Succeeded, id) else (Uncertain, "")
      case Ended(Broken(id)) => if id != "" then (Failed, id) else (Uncertain, "")
      case Ended(Unclear(id)) => (Uncertain, id)
      case _ => (Uncertain, "")
  }

  function Recoverer(id: nat, local: Operation, at: Point): Session {
    Session(id, local.destination, Passively, true, |local.attempts|, local, at)
  }

  lemma Starts(steps: seq<Step>, sid: nat, id: nat, now: Instant) returns (more: seq<Step>)
    requires Free(Exec(steps), sid, id) && Active(Exec(steps).db.operations[id])
    ensures var s := Exec(steps); var op' := StartedRow(s.db.operations[id], Recover, None, now);
            steps <= more
            && Exec(more) == State(s.db.(operations := s.db.operations[id := op']), s.sessions[sid := Recoverer(id, op', Fetched)], s.jobs)
  {
    hide Exec, Inv, Held, Blocked, StartedRow, StartTx, Unresolved;
    var s := Exec(steps);
    var op := s.db.operations[id];
    var op' := StartedRow(op, Recover, None, now);
    RecoveryNeverBlocked(steps, id, Recover, None, now);
    NumberedHere(steps, id);
    StartTxIs(s.db, id, Recover, None, now);
    StartedKeepsRow(op, now);
    more := Opens(steps, sid, id, Passively);
    more := Next(more, Start(sid, None, now));
    var s1 := State(s.db.(operations := s.db.operations[id := op']), s.sessions[sid := Recoverer(id, op', Started).(local := op)], s.jobs);
    assert Exec(more) == s1;
    ActIs(s1, sid, Fetch);
    more := Next(more, Step(sid, Fetch));
    assert s1.db.operations[id := op'] == s1.db.operations;
  }

  lemma StartedKeepsRow(op: Operation, now: Instant)
    ensures var op' := StartedRow(op, Recover, None, now); op'.destination == op.destination && |op'.attempts| == |op.attempts| + 1
  {
  }

  lemma NumberedHere(steps: seq<Step>, id: nat)
    requires id in Exec(steps).db.operations
    ensures Numbered(Exec(steps).db.operations[id].attempts)
  {
    hide Exec, Narrowing, Historic, JobsMarked, Vouched, Obliged, Sequenced, Credentialed;
    RunSound(steps, id);
  }

  /** The newest delivery is over, with its obligation acknowledged. */
  ghost predicate Decided(jobs: map<nat, Job>, op: Operation, d: nat) {
    && Newest(op.attempts, d) && Numbered(op.attempts) && !Unresolved(op)
    && (HasEnded(jobs, d + 1) || (d + 1 !in jobs && op.attempts[d].credential == Some(Credential(Preparing, true))))
  }

  lemma Observes(jobs: map<nat, Job>, id: nat, op: Operation, d: nat, now: Instant) returns (outcome: Outcome, externalId: string)
    requires Decided(jobs, op, d)
    ensures var op' := StartedRow(op, Recover, None, now); var x := Recoverer(id, op', Fetched);
            && Act(jobs, op', x, ObservePassively(true)) == GoTo(x, Returned(outcome, externalId))
            && (Classify(Passively, outcome), externalId) == Verdict(jobs, d + 1)
            && !Unresolved(op') && op'.state == Running
  {
    hide StartedRow, Newest, Unresolved, Act;
    var op' := StartedRow(op, Recover, None, now);
    ScansSame(op, op', d, now);
    RecoveryOwesNothing(op, now);
    outcome, externalId := Reads(jobs, op', Recoverer(id, op', Fetched), d + 1);
  }

  lemma Reads(jobs: map<nat, Job>, op: Operation, x: Session, n: nat) returns (outcome: Outcome, externalId: string)
    requires x.local == op && x.at == Fetched && x.work == Passively && 1 <= n < |op.attempts|
    requires LatestDelivery(op.attempts, |op.attempts|) == LatestDelivery(op.attempts, |op.attempts| - 1) == n
    requires HasEnded(jobs, n) || (n !in jobs && op.attempts[n - 1].credential == Some(Credential(Preparing, true)))
    ensures Act(jobs, op, x, ObservePassively(true)) == GoTo(x, Returned(outcome, externalId))
    ensures (Classify(Passively, outcome), externalId) == Verdict(jobs, n)
  {
    if HasEnded(jobs, n) {
      var r := ReadReport(jobs[n].report, true);
      outcome, externalId := r.0, r.1;
    } else {
      outcome, externalId := DeliveryFailed, "";
    }
  }

  /** The recovery attempt hides nothing: both scans of its copy find the newest delivery. */
  lemma ScansSame(op: Operation, op': Operation, d: nat, now: Instant)
    requires Newest(op.attempts, d) && Numbered(op.attempts) && op' == StartedRow(op, Recover, None, now)
    ensures d < |op.attempts| && |op'.attempts| == |op.attempts| + 1 >= 2 && op'.attempts[d].credential == op.attempts[d].credential
    ensures LatestDelivery(op'.attempts, |op'.attempts|) == LatestDelivery(op'.attempts, |op'.attempts| - 1) == d + 1
  {
    StartedExtends(op, Recover, None, now);
    ExtendsDelivers(op, op');
    StartedNumbers(op, now);
    hide StartedRow, Extends, Interrupted;
    LatestDeliveryIs(op'.attempts, |op.attempts|);
  }

  lemma StartedNumbers(op: Operation, now: Instant)
    requires Numbered(op.attempts)
    ensures var a := StartedRow(op, Recover, None, now).attempts;
            && |a| == |op.attempts| + 1 && Numbered(a) && a[|op.attempts|].kind == Recover
            && forall i :: 0 <= i < |op.attempts| ==> a[i].credential == op.attempts[i].credential
  {
    hide StartCeiling, EarlierExpiry;
  }

  lemma RecoveryOwesNothing(op: Operation, now: Instant)
    requires !Unresolved(op)
    ensures !Unresolved(StartedRow(op, Recover, None, now)) && StartedRow(op, Recover, None, now).state == Running
  {
    var op' := StartedRow(op, Recover, None, now);
    forall i | 0 <= i < |op'.attempts| ensures !Open(op'.attempts[i]) {
      if i < |op.attempts| { assert !Open(op.attempts[i]); }
    }
  }

  /** A session that returned settles its attempt, as uncertain while any obligation is open. */
  lemma Concludes(steps: seq<Step>, sid: nat) returns (more: seq<Step>)
    requires sid in Exec(steps).sessions && Exec(steps).sessions[sid].at.Returned? && Exec(steps).sessions[sid].alive
    requires Exec(steps).sessions[sid].id in Exec(steps).db.operations
    ensures steps <= more && Inv(Exec(more))
    ensures var s := Exec(steps); var x := s.sessions[sid]; var op := s.db.operations[x.id];
            var state := if Unresolved(op) then Uncertain else Classify(x.work, x.at.outcome);
            && Exec(more).sessions == s.sessions - {sid} && Exec(more).jobs == s.jobs
            && Exec(more).db.operations == s.db.operations[x.id := FinishedRow(op, |op.attempts|, state, x.at.externalId)]
  {
    hide Exec, Inv, Unresolved, FinishTx, SettlesOne, MaxExecute;
    var s := Exec(steps);
    var x := s.sessions[sid];
    var op := s.db.operations[x.id];
    var state := if Unresolved(op) then Uncertain else Classify(x.work, x.at.outcome);
    ActIs(s, sid, Conclude(true));
    more := Next(steps, Step(sid, Conclude(true)));
    var s1 := Exec(more);
    assert s.db.operations[x.id := op] == s.db.operations;
    assert s1 == s.(sessions := s.sessions[sid := x.(at := Settling(state, x.at.externalId))]);
    FinishIs(s1, sid);
    more := Next(more, Finish(sid));
    assert s1.sessions - {sid} == s.sessions - {sid};
  }

  lemma FinishIs(s: State, sid: nat)
    requires Inv(s) && sid in s.sessions && s.sessions[sid].at.Settling? && s.sessions[sid].alive
    ensures var x := s.sessions[sid];
            && x.id in s.db.operations
            && Do(s, Finish(sid)).db.operations == s.db.operations[x.id := FinishedRow(s.db.operations[x.id], |s.db.operations[x.id].attempts|, x.at.state, x.at.settledId)]
            && Do(s, Finish(sid)).sessions == s.sessions - {sid} && Do(s, Finish(sid)).jobs == s.jobs
  {
    hide Inv, FinishTx, SettlesOne, MaxExecute, Conclusive, Sound, Obliged, Sequenced, Narrowing, Historic, JobsMarked, Vouched, FinishedRow, Numbered, Credentialed;
    var x := s.sessions[sid];
    SoundHere(s, sid);
    var op := s.db.operations[x.id];
    SettlerKnows(Jobs(s.jobs, x.id), op, x);
    LastRuns(op);
    SucceededNamed(Jobs(s.jobs, x.id), op, x.at.state, x.at.settledId);
    FinishTxIs(s.db, x.id, x.at.state, x.at.settledId);
  }

  /** A decided operation is recovered as its verdict says. */
  lemma Recovers(steps: seq<Step>, sid: nat, id: nat, d: nat, now: Instant) returns (more: seq<Step>)
    requires Free(Exec(steps), sid, id) && Active(Exec(steps).db.operations[id])
    requires Decided(Jobs(Exec(steps).jobs, id), Exec(steps).db.operations[id], d)
    ensures steps <= more && id in Exec(more).db.operations && Exec(more).db.operations[id].attempts != []
    ensures var op' := Exec(more).db.operations[id];
            (op'.state, Last(op'.attempts).externalId) == Verdict(Jobs(Exec(steps).jobs, id), d + 1) && Exec(more).sessions == Exec(steps).sessions
  {
    hide Exec, Inv, Held, StartedRow, Unresolved, Act, Verdict, Classify, Decided, FinishedRow;
    var s := Exec(steps);
    var op, jobs := s.db.operations[id], Jobs(s.jobs, id);
    var outcome, externalId := Observes(jobs, id, op, d, now);
    more := Starts(steps, sid, id, now);
    var op', s1 := StartedRow(op, Recover, None, now), Exec(more);
    assert s1.db.operations[id] == op' && s1.sessions[sid] == Recoverer(id, op', Fetched);
    ActIs(s1, sid, ObservePassively(true));
    more := Next(more, Step(sid, ObservePassively(true)));
    assert Exec(more).db.operations[id] == op' && Exec(more).sessions == s.sessions[sid := Recoverer(id, op', Returned(outcome, externalId))];
    NumberedHere(more, id);
    StartedRuns(op, now);
    FinishedLast(op', Classify(Passively, outcome), externalId);
    more := Concludes(more, sid);
    assert s.sessions[sid := Recoverer(id, op', Returned(outcome, externalId))] - {sid} == s.sessions;
  }

  lemma StartedRuns(op: Operation, now: Instant)
    ensures var a := StartedRow(op, Recover, None, now).attempts; a != [] && Last(a).state == Running
  {
  }

  lemma FinishedLast(op: Operation, state: Status, externalId: string)
    requires Numbered(op.attempts) && op.attempts != [] && Last(op.attempts).state == Running
    ensures var op' := FinishedRow(op, |op.attempts|, state, externalId);
            op'.state == state && op'.attempts != [] && Last(op'.attempts).externalId == externalId
  {
  }

  /**
   Nothing is stuck once its executors are over: an active operation whose open obligations all belong
   to ended or never dispatched executors can be settled, and comes out as its newest delivery did.
   */
  lemma EndedCanBeSettled(steps: seq<Step>, sid: nat, id: nat, d: nat, now: Instant) returns (more: seq<Step>)
    requires Free(Exec(steps), sid, id) && Active(Exec(steps).db.operations[id]) && AllOver(Exec(steps), id)
    requires Newest(Exec(steps).db.operations[id].attempts, d)
    requires Over(Jobs(Exec(steps).jobs, id), Exec(steps).db.operations[id].attempts[d], d + 1)
    ensures steps <= more && id in Exec(more).db.operations && Exec(more).db.operations[id].attempts != []
    ensures var op' := Exec(more).db.operations[id];
            (op'.state, Last(op'.attempts).externalId) == Verdict(Jobs(Exec(steps).jobs, id), d + 1)
  {
    hide Exec, Inv, Held, Over, Verdict;
    var s := Exec(steps);
    var op := s.db.operations[id];
    more := Clears(steps, sid, id, |op.attempts|);
    var op' := Exec(more).db.operations[id];
    NumberedHere(more, id);
    CredentialHere(steps, id, d);
    ClearedIsDecided(Jobs(s.jobs, id), op, op', d);
    more := Recovers(more, sid, id, d, now);
  }

  lemma CredentialHere(steps: seq<Step>, id: nat, d: nat)
    requires id in Exec(steps).db.operations && Newest(Exec(steps).db.operations[id].attempts, d)
    ensures Exec(steps).db.operations[id].attempts[d].credential.Some?
  {
    hide Exec, Narrowing, Historic, JobsMarked, Vouched, Obliged, Sequenced, Numbered;
    RunSound(steps, id);
  }

  lemma ClearedIsDecided(jobs: map<nat, Job>, op: Operation, op': Operation, d: nat)
    requires ClearedUpTo(op, op', |op.attempts|) && Numbered(op'.attempts) && Newest(op.attempts, d) && op.attempts[d].credential.Some?
    requires Over(jobs, op.attempts[d], d + 1)
    ensures Decided(jobs, op', d)
  {
  }

  // ----- the executing session -----

  /** A session that watches its own ended Job, which is the only obligation left. */
  ghost predicate Watches(s: State, sid: nat, d: nat) {
    sid in s.sessions && s.sessions[sid].id in s.db.operations &&
    var x := s.sessions[sid];
    var op, jobs := s.db.operations[x.id], Jobs(s.jobs, x.id);
    && x.alive && !x.work.CleanUp? && x.at == Watching(x.number) && HasEnded(jobs, x.number)
    && Newest(op.attempts, d) && HasEnded(jobs, d + 1)
    && 1 <= x.number <= |op.attempts| && Open(op.attempts[x.number - 1])
    && forall i :: 0 <= i < |op.attempts| && i != x.number - 1 ==> !Open(op.attempts[i])
  }

  lemma WatchIs(s: State, sid: nat, d: nat, readable: bool, again: bool) returns (outcome: Outcome, externalId: string)
    requires Inv(s) && Watches(s, sid, d)
    ensures var x := s.sessions[sid]; var op, jobs := s.db.operations[x.id], Jobs(s.jobs, x.id);
            && Act(jobs, op, x, Confirm(readable, again)) ==
               GoTo(x, if again then Fencing(x.number, Return(outcome, externalId)) else Returned(Unsure, externalId))
            && (Classify(x.work, outcome), externalId) == (if readable then Verdict(jobs, x.number) else (Uncertain, ""))
            && JournalOpen(op, x.number) && x.number == |op.attempts| && Last(op.attempts).state == Running && Numbered(op.attempts)
  {
    hide DbSound, SessionsSound, Separate, Narrowing, Historic, Vouched, JobsMarked, Obliged;
    var x := s.sessions[sid];
    var op, jobs := s.db.operations[x.id], Jobs(s.jobs, x.id);
    SoundHere(s, sid);
    WatcherIs(jobs, op, x);
    OpenHere(s, x.id, x.number);
    LocalDelivery(jobs, op, x);
    hide Newest, Agrees, Sound;
    var r := ReadReport(jobs[x.number].report, readable);
    outcome, externalId := r.0, r.1;
  }

  lemma WatcherIs(jobs: map<nat, Job>, op: Operation, x: Session)
    requires OperationSound(jobs, op) && Sound(jobs, op, x) && x.at == Watching(x.number) && x.alive && !x.work.CleanUp? && x.number > 0
    ensures x.number == |op.attempts| == Current(x) && Agrees(jobs, op, x.local, x.number) && !x.work.Passively?
    ensures op.attempts[x.number - 1].kind == KindOf(x.work) && Last(op.attempts).state == Running
  {
    hide Agrees, Narrowing, Historic, Vouched, JobsMarked, Obliged;
  }

  lemma LastObligation(op: Operation, n: nat)
    requires Numbered(op.attempts) && n == |op.attempts| > 0 && forall i :: 0 <= i < |op.attempts| && i != n - 1 ==> !Open(op.attempts[i])
    ensures var op' := RowAfter(op, Acknowledge(n));
            !Unresolved(op') && Numbered(op'.attempts) && |op'.attempts| == |op.attempts| && Last(op'.attempts).state == Last(op.attempts).state
  {
  }

  /** A session that revoked its own credential, the only obligation left, settles its attempt with its outcome. */
  lemma Revokes(steps: seq<Step>, sid: nat) returns (more: seq<Step>)
    requires sid in Exec(steps).sessions && Exec(steps).sessions[sid].id in Exec(steps).db.operations
    requires var x := Exec(steps).sessions[sid]; var op := Exec(steps).db.operations[x.id];
             && x.alive && x.at.Fencing? && x.at.after.Return? && x.at.target == |op.attempts| > 0 && Last(op.attempts).state == Running
             && Open(Last(op.attempts)) && forall i :: 0 <= i < |op.attempts| - 1 ==> !Open(op.attempts[i])
    ensures steps <= more && Exec(steps).sessions[sid].id in Exec(more).db.operations
    ensures var s := Exec(steps); var x := s.sessions[sid]; var op' := Exec(more).db.operations[x.id];
            && |op'.attempts| == |s.db.operations[x.id].attempts| > 0 && !Unresolved(op')
            && Exec(more).sessions == s.sessions - {sid} && Exec(more).jobs == s.jobs
            && (op'.state, Last(op'.attempts).externalId) == (Classify(x.work, x.at.after.outcome), x.at.after.externalId)
  {
    hide Exec, Inv, Act, Classify, Unresolved, JournalOpen, FinishedRow, Open;
    var s := Exec(steps);
    var x := s.sessions[sid];
    var op, n, after := s.db.operations[x.id], x.at.target, x.at.after;
    RunKeepsInv(steps);
    OpenHere(s, x.id, n);
    LastObligation(op, n);
    ResolveIs(Jobs(s.jobs, x.id), op, x);
    ActIs(s, sid, Resolve(true, true));
    more := Next(steps, Step(sid, Resolve(true, true)));
    var op' := RowAfter(op, Acknowledge(n));
    assert Exec(more).db.operations[x.id] == op' && Exec(more).sessions[sid] == x.(at := Returned(after.outcome, after.externalId));
    FinishedLast(op', Classify(x.work, after.outcome), after.externalId);
    FinishedOwesNothing(op', Classify(x.work, after.outcome), after.externalId);
    more := Concludes(more, sid);
    assert s.sessions[sid := x.(at := Returned(after.outcome, after.externalId))] - {sid} == s.sessions - {sid};
  }

  /** The attempt with its obligation acknowledged, if the write took effect, and uncertain, without a release. */
  predicate EndedUncertain(op: Operation, op': Operation, acknowledged: bool) {
    && op'.state == Uncertain && |op'.attempts| == |op.attempts| > 0 && Last(op'.attempts).externalId == ""
    && (forall i :: 0 <= i < |op.attempts| - 1 ==> op'.attempts[i].credential == op.attempts[i].credential)
    && Open(Last(op.attempts))
    && Last(op'.attempts).credential == Some(Last(op.attempts).credential.value.(resolved := acknowledged))
  }

  lemma AcknowledgedUncertain(op: Operation, acknowledged: bool)
    requires Numbered(op.attempts) && op.attempts != [] && Last(op.attempts).state == Running && Open(Last(op.attempts))
    ensures var n := |op.attempts|; var op1 := if acknowledged then RowAfter(op, Acknowledge(n)) else op;
            EndedUncertain(op, FinishedRow(op1, n, Uncertain, ""), acknowledged)
  {
  }

  /** A revocation whose acknowledgement failed, or whose reply was lost, forgets the executor's answer: the attempt ends uncertain. */
  lemma UnacknowledgedIsUncertain(steps: seq<Step>, sid: nat, applied: bool, acked: bool) returns (more: seq<Step>)
    requires sid in Exec(steps).sessions && Exec(steps).sessions[sid].id in Exec(steps).db.operations && !(applied && acked)
    requires var x := Exec(steps).sessions[sid]; var op := Exec(steps).db.operations[x.id];
             && x.alive && x.at.Fencing? && x.at.after.Return? && x.at.target == |op.attempts| > 0 && Last(op.attempts).state == Running
             && Open(Last(op.attempts))
    ensures steps <= more && Exec(steps).sessions[sid].id in Exec(more).db.operations
    ensures var s := Exec(steps); var x := s.sessions[sid]; EndedUncertain(s.db.operations[x.id], Exec(more).db.operations[x.id], applied)
  {
    hide Exec, Inv, Act, Unresolved, JournalOpen, FinishedRow, Open, RowAfter, EndedUncertain;
    var s := Exec(steps);
    var x := s.sessions[sid];
    var op, n := s.db.operations[x.id], x.at.target;
    RunKeepsInv(steps);
    OpenHere(s, x.id, n);
    AcknowledgedUncertain(op, applied);
    UnresolvedReturns(Jobs(s.jobs, x.id), op, x, applied, acked);
    ActIs(s, sid, Resolve(applied, acked));
    more := Next(steps, Step(sid, Resolve(applied, acked)));
    NothingIsOp(op);
    var op' := if applied then RowAfter(op, Acknowledge(n)) else op;
    AcknowledgedLength(op, n);
    assert Exec(more).db.operations[x.id] == op' && Exec(more).sessions[sid] == x.(at := Returned(Unsure, ""));
    more := Concludes(more, sid);
  }

  lemma NothingIsOp(op: Operation)
    ensures RowAfter(op, Nothing) == op
  {
  }

  lemma AcknowledgedLength(op: Operation, n: nat)
    ensures |RowAfter(op, Acknowledge(n)).attempts| == |op.attempts|
  {
  }

  lemma UnresolvedReturns(jobs: map<nat, Job>, op: Operation, x: Session, applied: bool, acked: bool)
    requires x.at.Fencing? && x.at.after.Return? && x.alive && JournalOpen(op, x.at.target) && !(applied && acked)
    ensures Act(jobs, op, x, Resolve(applied, acked))
            == Effect(if applied then Acknowledge(x.at.target) else Nothing, Some(x.(at := Returned(Unsure, ""))))
  {
    hide JournalOpen;
  }

  /**
   With its own ended Job the only obligation left, a session settles its attempt as the report says,
   and as uncertain if the report cannot be read.
   */
  lemma ReportDecides(steps: seq<Step>, sid: nat, d: nat, readable: bool) returns (more: seq<Step>)
    requires Watches(Exec(steps), sid, d)
    ensures steps <= more && Exec(steps).sessions[sid].id in Exec(more).db.operations
    ensures var x := Exec(steps).sessions[sid]; var op' := Exec(more).db.operations[x.id];
            && |op'.attempts| == x.number > 0 && !Unresolved(op') && sid !in Exec(more).sessions
            && (op'.state, Last(op'.attempts).externalId) == (if readable then Verdict(Jobs(Exec(steps).jobs, x.id), x.number) else (Uncertain, ""))
  {
    hide Exec, Inv, Act, Verdict, Classify, Unresolved, JournalOpen;
    var s := Exec(steps);
    RunKeepsInv(steps);
    var x := s.sessions[sid];
    var op := s.db.operations[x.id];
    var outcome, externalId := WatchIs(s, sid, d, readable, true);
    ActIs(s, sid, Confirm(readable, true));
    more := Next(steps, Step(sid, Confirm(readable, true)));
    assert s.db.operations[x.id := op] == s.db.operations;
    assert Exec(more) == s.(sessions := s.sessions[sid := x.(at := Fencing(x.number, Return(outcome, externalId)))]);
    more := Revokes(more, sid);
  }

  /** Nothing of the journal changed, and the last attempt ended uncertain with this release. */
  predicate LeftUncertain(op: Operation, op': Operation, externalId: string) {
    && op'.state == Uncertain && |op'.attempts| == |op.attempts| > 0 && Last(op'.attempts).externalId == externalId
    && forall i :: 0 <= i < |op.attempts| ==> op'.attempts[i].credential == op.attempts[i].credential
  }

  lemma FinishedUncertain(op: Operation, externalId: string)
    requires Numbered(op.attempts) && op.attempts != [] && Last(op.attempts).state == Running
    ensures LeftUncertain(op, FinishedRow(op, |op.attempts|, Uncertain, externalId), externalId)
  {
  }

  /** If the Pod cannot be confirmed after its report was read, the release is recorded, nothing is acknowledged, and nothing decided. */
  lemma UnconfirmedStaysOpen(steps: seq<Step>, sid: nat, d: nat) returns (more: seq<Step>)
    requires Watches(Exec(steps), sid, d)
    ensures steps <= more && Exec(steps).sessions[sid].id in Exec(more).db.operations
    ensures var s := Exec(steps); var x := s.sessions[sid];
            LeftUncertain(s.db.operations[x.id], Exec(more).db.operations[x.id], Verdict(Jobs(s.jobs, x.id), x.number).1)
  {
    hide Exec, Inv, Act, Verdict, Unresolved, JournalOpen, FinishedRow;
    var s := Exec(steps);
    RunKeepsInv(steps);
    var x := s.sessions[sid];
    var op := s.db.operations[x.id];
    var outcome, externalId := WatchIs(s, sid, d, true, false);
    ActIs(s, sid, Confirm(true, false));
    more := Next(steps, Step(sid, Confirm(true, false)));
    assert s.db.operations[x.id := op] == s.db.operations;
    FinishedUncertain(op, externalId);
    more := Concludes(more, sid);
  }

  /** A session that meets an error leaves its attempt uncertain and its obligations as they are. */
  lemma GivenUpIsUncertain(steps: seq<Step>, sid: nat) returns (more: seq<Step>)
    requires sid in Exec(steps).sessions && Exec(steps).sessions[sid].alive
    requires var x := Exec(steps).sessions[sid];
             x.at == Fetched || x.at == Ready || x.at == Marked || x.at == Sent || (x.at.Watching? && x.at.watched == Current(x) && !x.work.CleanUp?)
    ensures steps <= more && Exec(steps).sessions[sid].id in Exec(steps).db.operations && Exec(steps).sessions[sid].id in Exec(more).db.operations
    ensures var s := Exec(steps); var x := s.sessions[sid];
            LeftUncertain(s.db.operations[x.id], Exec(more).db.operations[x.id], "") && Exec(more).jobs == s.jobs
  {
    hide Exec, Inv, Unresolved, FinishedRow, Sound, OperationSound;
    var s := Exec(steps);
    var x := s.sessions[sid];
    RunKeepsInv(steps);
    SoundHere(s, sid);
    var op := s.db.operations[x.id];
    WorkerRuns(Jobs(s.jobs, x.id), op, x);
    ActIs(s, sid, GiveUp);
    more := Next(steps, Step(sid, GiveUp));
    assert s.db.operations[x.id := op] == s.db.operations;
    FinishedUncertain(op, "");
    more := Concludes(more, sid);
  }

  lemma WorkerRuns(jobs: map<nat, Job>, op: Operation, x: Session)
    requires OperationSound(jobs, op) && Sound(jobs, op, x) && x.alive
    requires x.at == Fetched || x.at == Ready || x.at == Marked || x.at == Sent || (x.at.Watching? && !x.work.CleanUp?)
    ensures op.attempts != [] && Last(op.attempts).state == Running && Numbered(op.attempts)
  {
    hide Narrowing, Historic, Vouched, JobsMarked, Obliged, Agrees;
  }

  lemma ResolveIs(jobs: map<nat, Job>, op: Operation, x: Session)
    requires x.at.Fencing? && x.at.after.Return? && x.alive && JournalOpen(op, x.at.target)
    ensures Act(jobs, op, x, Resolve(true, true))
            == Effect(Acknowledge(x.at.target), Some(x.(at := Returned(x.at.after.outcome, x.at.after.externalId))))
  {
    hide JournalOpen;
  }

  lemma FinishedOwesNothing(op: Operation, state: Status, externalId: string)
    requires !Unresolved(op)
    ensures var op' := FinishedRow(op, |op.attempts|, state, externalId); !Unresolved(op') && |op'.attempts| == |op.attempts|
  {
    var op' := FinishedRow(op, |op.attempts|, state, externalId);
    forall i | 0 <= i < |op'.attempts| ensures !Open(op'.attempts[i]) { assert !Open(op.attempts[i]); }
  }

  // ----- what stays stuck -----

  /** The newest delivery's create was lost after its marker, and nobody runs that attempt any more. */
  predicate Lost(s: State, id: nat, n: nat) {
    && id in s.db.operations && 1 <= n <= |s.db.operations[id].attempts| && n !in Jobs(s.jobs, id)
    && s.db.operations[id].attempts[n - 1].credential == Some(Credential(Dispatching, false))
    && forall sid :: sid in s.sessions && s.sessions[sid].id == id ==> s.sessions[sid].number != n
  }

  /** What an action of a session writes: its own create, or the journal, but never an acknowledgement of a lost create. */
  lemma ActWrites(jobs: map<nat, Job>, op: Operation, x: Session, e: Action, n: nat)
    requires OperationSound(jobs, op) && Sound(jobs, op, x) && x.number != n && 1 <= n <= |op.attempts|
    requires n !in jobs && op.attempts[n - 1].credential == Some(Credential(Dispatching, false))
    ensures var effect := Act(jobs, op, x, e);
            && (effect.next.Some? ==> effect.next.value.number == x.number && effect.next.value.id == x.id)
            && (effect.write.Create? ==> effect.write.number != n)
            && RowAfter(op, effect.write).attempts[n - 1].credential == op.attempts[n - 1].credential
            && |RowAfter(op, effect.write).attempts| == |op.attempts|
  {
    hide Act, Sound, OperationSound, Fenced;
    WritesHeld(jobs, op, x, e);
    if e == Send && x.at == Marked {
      SendTarget(jobs, op, x);
      SendSound(jobs, op, x);
      SentKeepsNumber(jobs, op, x);
    } else {
      MarkedOf(jobs, op);
      ActionSound(jobs, op, x, e);
      if Act(jobs, op, x, e).write.Acknowledge? { NotFenced(jobs, op, x.number, n, Act(jobs, op, x, e).write.number); }
    }
  }

  lemma SentKeepsNumber(jobs: map<nat, Job>, op: Operation, x: Session)
    requires x.at == Marked
    ensures Act(jobs, op, x, Send) == Effect(Create(Current(x)), Some(x.(at := Sent)))
  {
  }

  lemma NotFenced(jobs: map<nat, Job>, op: Operation, number: nat, n: nat, target: nat)
    requires Fenced(jobs, op, number, target) && number != n && 1 <= n <= |op.attempts|
    requires n !in jobs && op.attempts[n - 1].credential == Some(Credential(Dispatching, false))
    ensures target != n
  {
  }

  lemma ActKeepsLost(s: State, sid: nat, e: Action, id: nat, n: nat)
    requires Inv(s) && Lost(s, id, n)
    ensures Lost(DoAct(s, sid, e), id, n)
  {
    hide Inv, Act, Sound, OperationSound;
    if sid in s.sessions && s.sessions[sid].id in s.db.operations {
      var x := s.sessions[sid];
      SoundHere(s, sid);
      WrittenRow(s, x.id, Act(Jobs(s.jobs, x.id), s.db.operations[x.id], x, e).write);
      if x.id == id {
        ActWrites(Jobs(s.jobs, id), s.db.operations[id], x, e, n);
      } else {
        ActKeepsId(Jobs(s.jobs, x.id), s.db.operations[x.id], x, e);
      }
    }
  }

  lemma ActKeepsId(jobs: map<nat, Job>, op: Operation, x: Session, e: Action)
    ensures var next := Act(jobs, op, x, e).next; next.Some? ==> next.value.id == x.id
  {
    hide JournalOpen, PreparationStopped, Unresolved, Evidence, ReadReport;
  }

  lemma StartKeepsLost(s: State, sid: nat, current: Option<Instant>, now: Instant, id: nat, n: nat)
    requires Inv(s) && Lost(s, id, n)
    ensures Lost(DoStart(s, sid, current, now), id, n)
  {
    hide Inv, StartTx, Unresolved, Blocked, Lingering, Holding, OperationSound;
    if sid in s.sessions && s.sessions[sid].id in s.db.operations && s.sessions[sid].at == Loaded && s.sessions[sid].alive {
      var x := s.sessions[sid];
      SoundHere(s, sid);
      LoadedIs(Jobs(s.jobs, x.id), s.db.operations[x.id], x);
      MarkedOf(Jobs(s.jobs, x.id), s.db.operations[x.id]);
      StartTxIs(s.db, x.id, KindOf(x.work), current, now);
      StartedExtends(s.db.operations[x.id], KindOf(x.work), current, now);
      hide StartedRow;
    }
  }

  lemma FinishKeepsLost(s: State, sid: nat, id: nat, n: nat)
    requires Lost(s, id, n)
    ensures Lost(DoFinish(s, sid), id, n)
  {
    hide SettlesOne, MaxExecute;
  }

  lemma StepKeepsLost(s: State, e: Step, id: nat, n: nat)
    requires Inv(s) && Lost(s, id, n)
    ensures Lost(Do(s, e), id, n)
  {
    hide Inv, DoStart, DoAct, DoFinish;
    match e
    case Start(sid, authority, at) => StartKeepsLost(s, sid, authority, at, id, n);
    case Step(sid, action) => ActKeepsLost(s, sid, action, id, n);
    case Finish(sid) => FinishKeepsLost(s, sid, id, n);
    case _ =>
  }

  /**
   A dispatched create that was lost with its process is never given up: the operation stays active
   for ever, and no other operation starts on its destination.
   */
  lemma LostIsStuck(a: seq<Step>, b: seq<Step>, id: nat, n: nat, other: nat, kind: Kind, current: Option<Instant>, now: Instant)
    requires Lost(Exec(a), id, n) && other != id
    requires other in Exec(a + b).db.operations && id in Exec(a + b).db.operations
             ==> Exec(a + b).db.operations[other].destination == Exec(a + b).db.operations[id].destination
    ensures Lost(Exec(a + b), id, n) && Active(Exec(a + b).db.operations[id])
    ensures var db := Exec(a + b).db;
            other in db.operations ==> StartTx(db, other, kind, db.operations[other], current, now) == (db, None)
  {
    hide Do, Inv, Lost, StartTx;
    AllKeepInv();
    forall s, t, e | (Lost(s, id, n) ==> Lost(t, id, n)) && Inv(t) ensures Lost(s, id, n) ==> Lost(Do(t, e), id, n) {
      if Lost(s, id, n) { StepKeepsLost(t, e, id, n); }
    }
    Onward(Do, INITIAL, s => Inv(s), (s, t) => Lost(s, id, n) ==> Lost(t, id, n), a, b);
    LostIsActive(a + b, id, n);
    if other in Exec(a + b).db.operations { BlockedBy(a + b, id, other, kind, current, now); }
  }

  lemma LostIsActive(steps: seq<Step>, id: nat, n: nat)
    requires Lost(Exec(steps), id, n)
    ensures id in Exec(steps).db.operations && Active(Exec(steps).db.operations[id])
  {
    hide Exec, Narrowing, Historic, JobsMarked, Vouched, Numbered, Credentialed, Sequenced;
    RunSound(steps, id);
    assert Open(Exec(steps).db.operations[id].attempts[n - 1]);
  }

  lemma BlockedBy(steps: seq<Step>, id: nat, other: nat, kind: Kind, current: Option<Instant>, now: Instant)
    requires var db := Exec(steps).db;
             id in db.operations && other in db.operations && other != id
             && db.operations[id].destination == db.operations[other].destination && Active(db.operations[id])
    ensures var db := Exec(steps).db; StartTx(db, other, kind, db.operations[other], current, now) == (db, None)
  {
    hide Exec, Published, Exclusive;
    RunDbSound(steps);
    var db := Exec(steps).db;
    assert Blocks(db.operations[id], db.operations[other].org, db.operations[other].destination, db.operations[other].createdAt);
  }
}
