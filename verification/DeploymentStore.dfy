/**
 Deployment operations, their attempts and credential obligations, and the transactions that
 change them: `internal/deployment/store.go`, `credentials.go` and `outbox.go`. Each transaction
 is a function from database to database; the class `Store` carries it out statement by statement.
 An attempt row is kept together with its credential obligation, which has the same key.
 */
module DeploymentStore {
  import opened Wrappers
  import opened Expiry

  datatype Kind = Execute | Observe | Recover
  datatype Status = Pending | Running | Succeeded | Failed | Uncertain
  datatype Phase = Preparing | Dispatching
  datatype Credential = Credential(phase: Phase, resolved: bool)
  datatype Attempt = Attempt(number: nat, kind: Kind, state: Status, externalId: string,
                             credential: Option<Credential>, startedAt: Instant,
                             authorizedUntil: Option<Instant>, credentialExpiresAt: Option<Instant>)
  datatype Operation = Operation(org: nat, destination: string, createdAt: Instant, state: Status,
                                 attempts: seq<Attempt>, authorizedUntil: Option<Instant>,
                                 effectiveUntil: Option<Instant>)

  /** `owners` are the destination rows; `outbox` is keyed by operation and execute attempt. */
  datatype Db = Db(owners: map<string, nat>, operations: map<nat, Operation>, outbox: map<(nat, nat), string>)

  predicate Active(op: Operation) { op.state == Running || op.state == Uncertain }

  predicate Open(a: Attempt) { a.credential.Some? && !a.credential.value.resolved }

  /** Some credential obligation of the operation is not resolved. */
  predicate Unresolved(op: Operation) {
    exists i :: 0 <= i < |op.attempts| && Open(op.attempts[i])
  }

  // ----- statements over the attempts of one operation -----

  predicate IsOpenAttempt(a: Attempt, number: nat) { a.number == number && Open(a) }

  /** The journal update of one attempt: a dispatch marker, or an acknowledgement. */
  function Journaled(a: Attempt, number: nat, dispatch: bool): Attempt {
    if !IsOpenAttempt(a, number) then a
    else if dispatch then a.(credential := Some(a.credential.value.(phase := Dispatching)))
    else a.(credential := Some(a.credential.value.(resolved := true)))
  }

  function Journal(attempts: seq<Attempt>, number: nat, dispatch: bool): (r: seq<Attempt>)
    ensures |r| == |attempts|
    ensures forall i :: 0 <= i < |attempts| ==> r[i] == Journaled(attempts[i], number, dispatch)
  {
    seq(|attempts|, i requires 0 <= i < |attempts| => Journaled(attempts[i], number, dispatch))
  }

  function Interrupted(a: Attempt): Attempt {
    if a.state == Running then a.(state := Uncertain) else a
  }

  function Interrupt(attempts: seq<Attempt>): (r: seq<Attempt>)
    ensures |r| == |attempts|
    ensures forall i :: 0 <= i < |attempts| ==> r[i] == Interrupted(attempts[i])
  {
    seq(|attempts|, i requires 0 <= i < |attempts| => Interrupted(attempts[i]))
  }

  function Settled(a: Attempt, number: nat, state: Status, externalId: string): Attempt {
    if a.number == number && a.state == Running then a.(state := state, externalId := externalId) else a
  }

  function Settle(attempts: seq<Attempt>, number: nat, state: Status, externalId: string): (r: seq<Attempt>)
    ensures |r| == |attempts|
    ensures forall i :: 0 <= i < |attempts| ==> r[i] == Settled(attempts[i], number, state, externalId)
  {
    seq(|attempts|, i requires 0 <= i < |attempts| => Settled(attempts[i], number, state, externalId))
  }

  /** `COALESCE(MAX(number),0)` over every attempt, or over the execute attempts up to a number. */
  function MaxNumber(attempts: seq<Attempt>): nat {
    if attempts == [] then 0
    else
      var rest := MaxNumber(attempts[..|attempts| - 1]);
      var last := attempts[|attempts| - 1].number;
      if rest < last then last else rest
  }

  function MaxExecute(attempts: seq<Attempt>, upTo: nat): nat {
    if attempts == [] then 0
    else
      var rest := MaxExecute(attempts[..|attempts| - 1], upTo);
      var last := attempts[|attempts| - 1];
      if last.kind == Execute && last.number <= upTo && rest < last.number then last.number else rest
  }

  // ----- transactions -----

  function InsertTx(db: Db, id: nat, org: nat, destination: string, createdAt: Instant, ceiling: Option<Instant>): (r: (Db, bool)) {
    var owners := if destination in db.owners then db.owners else db.owners[destination := org];
    if owners[destination] != org then (db, false)
    else if id in db.operations then (db.(owners := owners), true)
    else (db.(owners := owners,
              operations := db.operations[id := Operation(org, destination, createdAt, Pending, [], ceiling, ceiling)]), true)
  }

  function NarrowTx(db: Db, id: nat, ceiling: Instant): Db
    requires id in db.operations
  {
    var op := db.operations[id];
    db.(operations := db.operations[id := op.(effectiveUntil := Least(op.effectiveUntil, Some(ceiling)))])
  }

  predicate Startable(state: Status, kind: Kind) {
    if kind == Execute then state == Pending || state == Failed else state == Running || state == Uncertain
  }

  /** One other operation that keeps `id` from starting on its destination. */
  predicate Blocks(other: Operation, org: nat, destination: string, createdAt: Instant) {
    other.org == org && other.destination == destination &&
    (Active(other) || Unresolved(other) || (createdAt < other.createdAt && other.state != Pending))
  }

  predicate Blocked(db: Db, id: nat, org: nat, destination: string, createdAt: Instant) {
    exists other :: other in db.operations && other != id && Blocks(db.operations[other], org, destination, createdAt)
  }

  /** The ceiling of a new attempt: request, latest narrowing and current authority together. */
  function StartCeiling(op: Operation, current: Option<Instant>): (r: Option<Instant>)
    ensures Within(r, op.authorizedUntil) && Within(r, op.effectiveUntil) && Within(r, current)
  {
    Narrow(Narrow(op.authorizedUntil, op.effectiveUntil), current)
  }

  function NewAttempt(number: nat, kind: Kind, ceiling: Option<Instant>, now: Instant): Attempt {
    var started := Truncate(now);
    Attempt(number, kind, Running, "", if kind == Recover then None else Some(Credential(Preparing, false)),
            started, ceiling, EarlierExpiry(ceiling, started + 12 * MINUTE))
  }

  /** `op` is the caller's snapshot of the row; `current` the authority it just re-validated. */
  function StartTx(db: Db, id: nat, kind: Kind, op: Operation, current: Option<Instant>, now: Instant): (r: (Db, Option<nat>))
    requires id in db.operations
  {
    var row := db.operations[id];
    if row.org != op.org || !Startable(row.state, kind) || Blocked(db, id, op.org, op.destination, op.createdAt) then (db, None)
    else
      var attempts := if kind == Execute then row.attempts else Interrupt(row.attempts);
      var ceiling := StartCeiling(op, current);
      var number := MaxNumber(attempts) + 1;
      var row' := row.(state := Running, effectiveUntil := Least(row.effectiveUntil, ceiling),
                       attempts := attempts + [NewAttempt(number, kind, ceiling, now)]);
      (db.(operations := db.operations[id := row']), Some(number))
  }

  predicate SettlesOne(attempts: seq<Attempt>, number: nat) {
    exists i :: 0 <= i < |attempts| && attempts[i].number == number && attempts[i].state == Running
  }

  function FinishTx(db: Db, id: nat, number: nat, state: Status, externalId: string): (r: (Db, bool))
    requires id in db.operations
  {
    var row := db.operations[id];
    if !SettlesOne(row.attempts, number) || row.state != Running then (db, false)
    else
      var row' := row.(state := state, attempts := Settle(row.attempts, number, state, externalId));
      var db' := db.(operations := db.operations[id := row']);
      if state != Succeeded then (db', true)
      else
        var execute := MaxExecute(row'.attempts, number);
        if externalId == "" || execute == 0 then (db, false)
        else if (id, execute) in db.outbox then (db', true)
        else (db'.(outbox := db.outbox[(id, execute) := externalId]), true)
  }

  predicate JournalOpen(op: Operation, number: nat) {
    exists i :: 0 <= i < |op.attempts| && IsOpenAttempt(op.attempts[i], number)
  }

  function JournalTx(db: Db, id: nat, number: nat, dispatch: bool): (r: (Db, bool))
    requires id in db.operations
  {
    var row := db.operations[id];
    if !JournalOpen(row, number) then (db, false)
    else (db.(operations := db.operations[id := row.(attempts := Journal(row.attempts, number, dispatch))]), true)
  }
}
