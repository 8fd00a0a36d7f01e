/**
 The tables of a deployment database and its transactions as sequences of statements: `insert`,
 `start` and `finish` of `internal/deployment/store.go`, the journal updates of `credentials.go`
 and `enqueueSuccess` of `outbox.go`. A transaction that is denied rolls back every statement.
 */
module StoreStatements {
  import opened Wrappers
  import opened Expiry
  import opened DeploymentStore

  class Store {
    var owners: map<string, nat>
    var operations: map<nat, Operation>
    var outbox: map<(nat, nat), string>

    constructor ()
      ensures View() == Db(map[], map[], map[])
    {
      owners, operations, outbox := map[], map[], map[];
    }

    function View(): Db
      reads this
    {
      Db(owners, operations, outbox)
    }

    /** Leaves the tables as they were when the transaction began. */
    method Rollback(snapshot: Db)
      modifies this
      ensures View() == snapshot
    {
      owners, operations, outbox := snapshot.owners, snapshot.operations, snapshot.outbox;
    }

    method Insert(id: nat, org: nat, destination: string, createdAt: Instant, ceiling: Option<Instant>) returns (ok: bool)
      modifies this
      ensures (View(), ok) == InsertTx(old(View()), id, org, destination, createdAt, ceiling)
    {
      var snapshot := View();
      if destination !in owners { owners := owners[destination := org]; }
      if owners[destination] != org {
        Rollback(snapshot);
        return false;
      }
      if id !in operations {
        operations := operations[id := Operation(org, destination, createdAt, Pending, [], ceiling, ceiling)];
      }
      return true;
    }

    method NarrowAuthority(id: nat, ceiling: Instant)
      requires id in operations
      modifies `operations
      ensures View() == NarrowTx(old(View()), id, ceiling)
    {
      var op := operations[id];
      operations := operations[id := op.(effectiveUntil := Least(op.effectiveUntil, Some(ceiling)))];
    }

    /** The row is taken first, so a denied start also takes back its new state. */
    method Start(id: nat, kind: Kind, op: Operation, current: Option<Instant>, now: Instant) returns (number: Option<nat>)
      requires id in operations
      modifies this
      ensures (View(), number) == StartTx(old(View()), id, kind, op, current, now)
    {
      hide Blocked, MaxNumber, NewAttempt, Narrow, Least, Startable;
      var snapshot := View();
      var row := operations[id];
      if row.org != op.org || !Startable(row.state, kind) { return None; }
      operations := operations[id := row.(state := Running)];
      if Blocked(View(), id, op.org, op.destination, op.createdAt) {
        BlockedElsewhere(snapshot, id, row.(state := Running), op);
        Rollback(snapshot);
        return None;
      }
      BlockedElsewhere(snapshot, id, row.(state := Running), op);
      if kind != Execute {
        operations := operations[id := operations[id].(attempts := Interrupt(operations[id].attempts))];
      }
      var ceiling := Narrow(Narrow(op.authorizedUntil, op.effectiveUntil), current);
      operations := operations[id := operations[id].(effectiveUntil := Least(operations[id].effectiveUntil, ceiling))];
      var next := MaxNumber(operations[id].attempts) + 1;
      operations := operations[id := operations[id].(attempts := operations[id].attempts + [NewAttempt(next, kind, ceiling, now)])];
      assert operations == snapshot.operations[id := operations[id]];
      return Some(next);
    }

    method Finish(id: nat, number: nat, state: Status, externalId: string) returns (ok: bool)
      requires id in operations
      modifies this
      ensures (View(), ok) == FinishTx(old(View()), id, number, state, externalId)
    {
      var snapshot := View();
      if !SettlesOne(operations[id].attempts, number) { return false; }
      operations := operations[id := operations[id].(attempts := Settle(operations[id].attempts, number, state, externalId))];
      if operations[id].state != Running {
        Rollback(snapshot);
        return false;
      }
      operations := operations[id := operations[id].(state := state)];
      assert operations == snapshot.operations[id := operations[id]];
      if state == Succeeded {
        var execute := MaxExecute(operations[id].attempts, number);
        if externalId == "" || execute == 0 {
          Rollback(snapshot);
          return false;
        }
        if (id, execute) !in outbox { outbox := outbox[(id, execute) := externalId]; }
      }
      return true;
    }

    method UpdateJournal(id: nat, number: nat, dispatch: bool) returns (ok: bool)
      requires id in operations
      modifies `operations
      ensures (View(), ok) == JournalTx(old(View()), id, number, dispatch)
    {
      ok := JournalOpen(operations[id], number);
      if ok {
        operations := operations[id := operations[id].(attempts := Journal(operations[id].attempts, number, dispatch))];
      }
    }
  }

  /** The exclusion query never looks at the row it protects. */
  lemma BlockedElsewhere(db: Db, id: nat, row: Operation, op: Operation)
    requires id in db.operations
    ensures Blocked(db.(operations := db.operations[id := row]), id, op.org, op.destination, op.createdAt)
            <==> Blocked(db, id, op.org, op.destination, op.createdAt)
  {
    hide Blocks;
    var operations' := db.operations[id := row];
    forall other | other in db.operations && other != id && Blocks(db.operations[other], op.org, op.destination, op.createdAt)
      ensures Blocks(operations'[other], op.org, op.destination, op.createdAt)
    {
    }
  }
}
