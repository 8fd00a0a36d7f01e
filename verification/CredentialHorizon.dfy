/**
 The two protocols of one credential together: a request is built from the stored attempt
 (`intent` of `internal/deployment/materialization.go`), so the attempt's ceiling bounds the Secret.
 */
module CredentialHorizon {
  import opened Wrappers
  import opened Expiry
  import opened DeploymentStore
  import Delivery
  import DeliverySafety
  import Materialization

  /** The request asks for no more than the attempt's own deadline. */
  predicate RequestOf(attempt: Attempt, intent: Materialization.Intent) { attempt.credentialExpiresAt == Some(intent.expiresAt) }

  /** A credential that is handed out ends within twelve minutes of its attempt's start and within every ceiling so far. */
  lemma CredentialWithinAuthority(deliveries: seq<Delivery.Step>, id: nat, i: nat, j: nat, steps: seq<Materialization.Step>, pid: nat)
    requires id in Delivery.Exec(deliveries).db.operations && i <= j < |Delivery.Exec(deliveries).db.operations[id].attempts|
    requires pid in Materialization.Exec(steps).processes && Materialization.Exec(steps).processes[pid].at.Prepared?
    requires RequestOf(Delivery.Exec(deliveries).db.operations[id].attempts[j], Materialization.Exec(steps).processes[pid].intent)
    ensures var attempts := Delivery.Exec(deliveries).db.operations[id].attempts;
            var s := Materialization.Exec(steps); var until := s.processes[pid].at.expiresAt;
            && until <= attempts[j].startedAt + 12 * MINUTE && Within(Some(until), attempts[i].authorizedUntil)
            && s.world.row.Some? && s.world.sent == [Materialization.Made(s.world.row.value.uid)]
  {
    hide Delivery.Exec, Materialization.Exec;
    DeliverySafety.AuthorityNarrows(deliveries, id, i, j);
    Materialization.CredentialIsReal(steps, pid);
  }

  /** A narrowing replay bounds the credential of every attempt that starts after it. */
  lemma NarrowingBoundsCredentials(a: seq<Delivery.Step>, b: seq<Delivery.Step>, id: nat, until: Instant, j: nat, steps: seq<Materialization.Step>, pid: nat)
    requires id in Delivery.Exec(a).db.operations
    requires !Delivery.Held(Delivery.Exec(a).sessions, Delivery.Exec(a).db.operations[id].destination)
    requires var db := Delivery.Exec(a + [Delivery.NarrowReplay(id, until)] + b).db;
             && id in db.operations && |Delivery.Exec(a).db.operations[id].attempts| <= j < |db.operations[id].attempts|
             && pid in Materialization.Exec(steps).processes && Materialization.Exec(steps).processes[pid].at.Prepared?
             && RequestOf(db.operations[id].attempts[j], Materialization.Exec(steps).processes[pid].intent)
    ensures Materialization.Exec(steps).processes[pid].at.expiresAt <= until
  {
    hide Delivery.Exec, Materialization.Exec;
    DeliverySafety.NarrowingBinds(a, b, id, until, j);
    Materialization.CredentialIsReal(steps, pid);
  }
}
