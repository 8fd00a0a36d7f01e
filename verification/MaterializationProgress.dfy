/**
 A revocation can finish, exactly when the row's one create is accounted for: from every reachable
 state, whatever earlier processes left behind, one undisturbed process ends in success or cannot.
 */
module MaterializationProgress {
  import opened Wrappers
  import opened Expiry
  import opened Materialization
  import opened Traces

  /** Nothing fails, and every reply arrives. */
  function Good(now: Instant, expiresAt: Instant): Luck { Luck(now, expiresAt, true, true) }

  lemma Next(steps: seq<Step>, e: Step) returns (more: seq<Step>)
    ensures more == steps + [e] && Exec(more) == Do(Exec(steps), e)
  {
    more := steps + [e];
    EndOfNext(Do, INITIAL, steps, e);
  }

  /** One step of the process, which leaves it at this point of this world. */
  lemma Goes(steps: seq<Step>, s: State, pid: nat, luck: Luck, w: World, p: Process) returns (more: seq<Step>)
    requires s == Exec(steps) && pid in s.processes && Act(s.world, s.processes[pid], luck) == (w, p)
    ensures more == steps + [Go(pid, luck)] && Exec(more) == State(w, s.processes[pid := p])
  {
    hide Act, Exec;
    more := Next(steps, Go(pid, luck));
  }

  /** The stored intent, or the one that a first call would store. */
  function Stored(w: World, intent: Intent): Row { if w.row.Some? then w.row.value else Row(intent, Intended, 0, false, None) }

  /** No create is unaccounted for: none was begun, its Secret is known, or stands there with its marker. */
  predicate Revocable(w: World, intent: Intent) {
    var r := Stored(w, intent);
    r.intent == intent && (r.phase == Creating ==> w.secret.Some? && w.secret.value.marked)
  }

  function Closed(w: World, intent: Intent): World {
    w.(row := Some(Stored(w, intent).(closed := true)), fenced := true)
  }

  /** The process closed the row and fenced the issuer. */
  function Remover(w: World, intent: Intent, at: Point): Process { Process(intent, at, Stored(w, intent).(closed := true), true) }

  lemma Closes(steps: seq<Step>, pid: nat, intent: Intent) returns (more: seq<Step>)
    requires pid !in Exec(steps).processes && Stored(Exec(steps).world, intent).intent == intent
    ensures steps <= more
    ensures var s := Exec(steps);
            Exec(more) == State(Closed(s.world, intent), s.processes[pid := Remover(s.world, intent, Removing)])
  {
    hide Exec;
    var s := Exec(steps);
    var w, r := s.world, Stored(s.world, intent).(closed := true);
    more := Next(steps, Revoke(pid, intent));
    more := Goes(more, Exec(more), pid, Good(0, 0), w.(row := Some(r)), Process(intent, Fencing, r, false));
    more := Goes(more, Exec(more), pid, Good(0, 0), Closed(w, intent), Remover(w, intent, Removing));
    assert Exec(more).processes == s.processes[pid := Remover(w, intent, Removing)];
  }

  lemma RowHere(steps: seq<Step>)
    ensures var w := Exec(steps).world; WorldSound(w)
  {
    hide Exec, ProcessesSound;
    RunKeepsInv(steps);
  }

  /** The Secret is gone, so its absence is recorded. */
  lemma Marks(steps: seq<Step>, w: World, others: map<nat, Process>, pid: nat, p: Process, uid: nat) returns (more: seq<Step>)
    requires w.row.Some? && w.row.value.closed && w.row.value.uid == uid && p.at == MarkingAbsent(uid) && p.cleared
    requires Exec(steps) == State(w, others[pid := p])
    ensures steps <= more
    ensures Exec(more) == State(w.(row := Some(w.row.value.(phase := Absent))), others[pid := At(p, Materialization.Revoked)])
  {
    hide Exec;
    more := Goes(steps, Exec(steps), pid, Good(0, 0), w.(row := Some(w.row.value.(phase := Absent))), At(p, Materialization.Revoked));
  }

  /** The Secret stands there with its marker: it is recorded, deleted by its UID, and its absence recorded. */
  lemma Removes(steps: seq<Step>, w: World, others: map<nat, Process>, pid: nat, p: Process) returns (more: seq<Step>)
    requires WorldSound(w) && w.secret.Some? && w.secret.value.marked && w.row.Some? && w.row.value.closed
    requires w.row.value.phase == Creating || w.row.value.phase == Materialized
    requires p.at == Removing && p.cleared && p.row == w.row.value
    requires Exec(steps) == State(w, others[pid := p])
    ensures steps <= more
    ensures var uid := w.secret.value.uid; var s := Exec(more);
            && s.processes == others[pid := At(p, Materialization.Revoked)]
            && s.world.row == Some(w.row.value.(phase := Absent, uid := uid)) && s.world.secret.None? && s.world.fenced == w.fenced
  {
    hide Exec, Act;
    var uid := w.secret.value.uid;
    var found := At(p, Recording(w.secret.value, Delete));
    RemovingFinds(w, p);
    more := Goes(steps, Exec(steps), pid, Good(0, 0), w, found);
    var w1 := w.(row := Some(w.row.value.(phase := Materialized, uid := uid)));
    var deleter := At(p, Deleting(uid));
    RecordingDeletes(w, found);
    more := Goes(more, Exec(more), pid, Good(0, 0), w1, deleter);
    var w2 := w1.(deletes := w1.deletes + {uid});
    DeletingConfirms(w1, deleter);
    more := Goes(more, Exec(more), pid, Good(0, 0), w2, At(p, Confirming(uid)));
    more := Next(more, Deletes);
    var w3 := w2.(deleted := w2.deleted + {uid}, secret := None);
    ConfirmingMarks(w3, At(p, Confirming(uid)));
    var others3 := others[pid := At(p, Confirming(uid))];
    assert Exec(more) == State(w3, others3);
    more := Goes(more, Exec(more), pid, Good(0, 0), w3, At(p, MarkingAbsent(uid)));
    more := Marks(more, w3, others, pid, At(p, MarkingAbsent(uid)), uid);
  }

  lemma RemovingFinds(w: World, p: Process)
    requires WorldSound(w) && w.secret.Some? && w.secret.value.marked && w.row.Some? && p.at == Removing && p.row == w.row.value
    requires p.row.phase == Creating || p.row.phase == Materialized
    ensures Act(w, p, Good(0, 0)) == (w, At(p, Recording(w.secret.value, Delete)))
  {
  }

  lemma RecordingDeletes(w: World, p: Process)
    requires WorldSound(w) && w.secret.Some? && w.secret.value.marked && w.row.Some?
    requires w.row.value.phase == Creating || w.row.value.phase == Materialized
    requires p.at == Recording(w.secret.value, Delete)
    ensures var uid := w.secret.value.uid;
            Act(w, p, Good(0, 0)) == (w.(row := Some(w.row.value.(phase := Materialized, uid := uid))), At(p, Deleting(uid)))
  {
  }

  lemma DeletingConfirms(w: World, p: Process)
    requires w.row.Some? && p.at.Deleting?
    ensures Act(w, p, Good(0, 0)) == (w.(deletes := w.deletes + {p.at.uid}), At(p, Confirming(p.at.uid)))
  {
  }

  lemma ConfirmingMarks(w: World, p: Process)
    requires w.row.Some? && p.at.Confirming? && w.secret.None?
    ensures Act(w, p, Good(0, 0)) == (w, At(p, MarkingAbsent(p.at.uid)))
  {
  }

  /**
   Whatever earlier processes left behind, a new revocation that nothing disturbs succeeds if the
   create is accounted for; it ends with the row closed and absent, or still without a create.
   */
  lemma CanBeRevoked(steps: seq<Step>, pid: nat, intent: Intent) returns (more: seq<Step>)
    requires pid !in Exec(steps).processes && Revocable(Exec(steps).world, intent)
    ensures steps <= more && pid in Exec(more).processes && Exec(more).processes[pid].at == Materialization.Revoked
    ensures var r := Stored(Exec(steps).world, intent);
            && Exec(more).world.row.Some? && Exec(more).world.row.value.closed && Exec(more).world.fenced
            && Exec(more).world.row.value.phase == (if r.phase == Intended then Intended else Absent)
  {
    hide Exec, WorldSound;
    var w := Exec(steps).world;
    var r := Stored(w, intent);
    more := Closes(steps, pid, intent);
    var w1, p, others := Closed(w, intent), Remover(w, intent, Removing), Exec(more).processes;
    RowHere(more);
    assert others == others[pid := p];
    if r.phase == Intended || r.phase == Absent {
      more := Goes(more, Exec(more), pid, Good(0, 0), w1, At(p, Materialization.Revoked));
    } else if w1.secret.None? || (r.uid != 0 && r.uid != w1.secret.value.uid) {
      KnownUid(w1);
      more := Goes(more, Exec(more), pid, Good(0, 0), w1, At(p, MarkingAbsent(r.uid)));
      more := Marks(more, w1, others, pid, At(p, MarkingAbsent(r.uid)), r.uid);
    } else {
      KnownUid(w1);
      more := Removes(more, w1, others, pid, p);
    }
  }

  lemma KnownUid(w: World)
    requires WorldSound(w) && w.row.Some? && (w.row.value.phase == Materialized || w.row.value.phase == Creating)
    ensures w.row.value.phase == Materialized ==> w.row.value.uid != 0
    ensures w.row.value.phase == Creating ==> w.row.value.uid == 0
    ensures w.row.value.uid != 0 && w.secret.Some? && w.secret.value.uid == w.row.value.uid ==> w.secret.value.marked
  {
  }

  // ----- what cannot be revoked -----

  /** The revoking process never gets past a create that is unaccounted for. */
  predicate Doomed(s: State, pid: nat, intent: Intent) {
    && pid in s.processes && s.processes[pid].intent == intent && !Revocable(s.world, intent)
    && var p := s.processes[pid];
       || p.at == Revoking || p.at == Failed
       || (s.world.row.Some? && p.row.phase == Creating && p.row.uid == 0 && s.world.row.value.intent == intent
           && (p.at == Fencing || p.at == Removing || (p.at.Recording? && !p.at.found.marked)))
  }

  lemma GoStaysDoomed(s: State, pid: nat, luck: Luck, intent: Intent)
    requires WorldSound(s.world) && Doomed(s, pid, intent)
    ensures Doomed(Do(s, Go(pid, luck)), pid, intent)
  {
  }

  lemma {:induction false} AloneStaysDoomed(a: seq<Step>, pid: nat, intent: Intent, b: seq<Step>)
    requires Doomed(Exec(a), pid, intent) && forall e :: e in b ==> e.Go? && e.pid == pid
    ensures Doomed(Exec(a + b), pid, intent)
    decreases |b|
  {
    hide Exec, Doomed, Do, WorldSound;
    if b == [] {
      assert a + b == a;
    } else {
      var n := |b| - 1;
      AloneStaysDoomed(a, pid, intent, b[..n]);
      RowHere(a + b[..n]);
      Last(a, b);
      GoStaysDoomed(Exec(a + b[..n]), pid, b[n].luck, intent);
    }
  }

  lemma Last(a: seq<Step>, b: seq<Step>)
    requires b != []
    ensures Exec(a + b) == Do(Exec(a + b[..|b| - 1]), b[|b| - 1])
  {
    EndOfMore(Do, INITIAL, a, b);
  }

  /** The condition is exact: a process alone, however lucky, does not revoke past an unaccounted create. */
  lemma CannotBeRevokedAlone(a: seq<Step>, pid: nat, intent: Intent, b: seq<Step>)
    requires pid !in Exec(a).processes && !Revocable(Exec(a).world, intent)
    requires forall e :: e in b ==> e.Go? && e.pid == pid
    ensures var s := Exec(a + [Revoke(pid, intent)] + b); pid in s.processes && s.processes[pid].at != Materialization.Revoked
  {
    hide Exec;
    var more := Next(a, Revoke(pid, intent));
    AloneStaysDoomed(more, pid, intent, b);
  }

  /** A create that was lost is never accounted for: no revocation of its row ever succeeds. */
  lemma LostIsNeverRevoked(a: seq<Step>, b: seq<Step>, pid: nat)
    requires Exec(a).world.sent == [Lost] && pid in Exec(a + b).processes
    ensures Exec(a + b).processes[pid].at != Materialization.Revoked
  {
    hide Exec;
    RunKeepsInv(a + b);
    RunForward(a, b);
    assert ProcessSound(Exec(a + b).world, Exec(a + b).processes[pid]);
  }

  // ----- an unconfirmed fence -----

  /** The issuer never confirmed its fence to this process. */
  predicate Unconfirmed(s: State, pid: nat) {
    pid in s.processes && !s.processes[pid].cleared && s.processes[pid].at != Materialization.Revoked && s.processes[pid].at != Revoking && s.processes[pid].at != Fencing
  }

  lemma StepStaysUnconfirmed(s: State, e: Step, pid: nat)
    requires Unconfirmed(s, pid) && e != Crash(pid)
    ensures Unconfirmed(Do(s, e), pid)
  {
    if e.Go? && e.pid == pid { ActStaysUnconfirmed(s.world, s.processes[pid], e.luck); }
    hide Act;
  }

  lemma ActStaysUnconfirmed(w: World, p: Process, luck: Luck)
    requires !p.cleared && p.at != Materialization.Revoked && p.at != Revoking && p.at != Fencing
    ensures var p' := Act(w, p, luck).1; !p'.cleared && p'.at != Materialization.Revoked && p'.at != Revoking && p'.at != Fencing
  {
  }

  lemma {:induction false} RunStaysUnconfirmed(a: seq<Step>, pid: nat, b: seq<Step>)
    requires Unconfirmed(Exec(a), pid) && Crash(pid) !in b
    ensures Unconfirmed(Exec(a + b), pid)
    decreases |b|
  {
    hide Exec, Unconfirmed, Do;
    if b == [] {
      assert a + b == a;
    } else {
      RunStaysUnconfirmed(a, pid, b[..|b| - 1]);
      Last(a, b);
      StepStaysUnconfirmed(Exec(a + b[..|b| - 1]), b[|b| - 1], pid);
    }
  }

  /** A revocation whose issuer did not confirm its fence never reports success, though it goes on to remove the Secret. */
  lemma UnconfirmedIsNotRevoked(a: seq<Step>, pid: nat, luck: Luck, b: seq<Step>)
    requires pid in Exec(a).processes && Exec(a).processes[pid].at == Fencing && Exec(a).world.row.Some?
    requires !(luck.applied && luck.acked) && Crash(pid) !in b
    ensures var s := Exec(a + [Go(pid, luck)] + b); pid in s.processes && s.processes[pid].at != Materialization.Revoked
    ensures var s := Exec(a + [Go(pid, luck)]); pid in s.processes && s.processes[pid].at == Removing
  {
    hide Exec;
    var more := Next(a, Go(pid, luck));
    RunStaysUnconfirmed(more, pid, b);
  }

  // ----- preparation -----

  /** Nothing was begun, and nothing bars the request: a fresh preparation hands out a credential. */
  lemma CanBePrepared(steps: seq<Step>, pid: nat, intent: Intent, now: Instant, until: Instant) returns (more: seq<Step>)
    requires pid !in Exec(steps).processes
    requires var w := Exec(steps).world;
             var r := Stored(w, intent); r.intent == intent && r.phase == Intended && !r.closed && w.secret.None? && !w.fenced
    requires now + 5 * MINUTE <= Truncate(until) && until <= intent.expiresAt
    ensures steps <= more && pid in Exec(more).processes && Exec(more).processes[pid].at == Materialization.Prepared(Truncate(until))
  {
    hide Exec, WorldSound;
    var s, luck := Exec(steps), Good(now, until);
    var w, r := s.world, Stored(s.world, intent);
    RowHere(steps);
    NothingSent(w, intent);
    var p := Process(intent, Issuing, r, false);
    var w2 := w.(row := Some(r.(phase := Creating, issued := Some(Truncate(until)))));
    more := Claims(steps, pid, intent, now, until);
    assert w2.sent + [Flying] == [Flying];
    ActCreates(w2, At(p, MayCreate), luck);
    more := Goes(more, Exec(more), pid, luck, w2.(sent := [Flying]), At(p, Awaiting(0)));
    more := Next(more, Applies(0));
    var w3 := w2.(sent := [Made(w.nextUid)], secret := Some(Secret(w.nextUid, true)), nextUid := w.nextUid + 1);
    var others := Exec(more).processes;
    assert Exec(more) == State(w3, others[pid := At(p, Awaiting(0))]);
    more := Obtains(more, w3, others, pid, p, luck);
  }

  lemma Claims(steps: seq<Step>, pid: nat, intent: Intent, now: Instant, until: Instant) returns (more: seq<Step>)
    requires pid !in Exec(steps).processes
    requires var w := Exec(steps).world; var r := Stored(w, intent); r.intent == intent && r.phase == Intended && !r.closed && !w.fenced
    requires now + 5 * MINUTE <= Truncate(until) && until <= intent.expiresAt
    ensures steps <= more
    ensures var s := Exec(steps); var r := Stored(s.world, intent);
            Exec(more) == State(s.world.(row := Some(r.(phase := Creating, issued := Some(Truncate(until))))),
                                s.processes[pid := Process(intent, MayCreate, r, false)])
  {
    hide Exec;
    var s, luck := Exec(steps), Good(now, until);
    var w, r := s.world, Stored(s.world, intent);
    var p := Process(intent, Issuing, r, false);
    more := Next(steps, Prepare(pid, intent));
    var w1 := w.(row := Some(r));
    more := Goes(more, Exec(more), pid, luck, w1, p);
    more := Goes(more, Exec(more), pid, luck, w1, At(p, Claiming(until)));
    more := Goes(more, Exec(more), pid, luck, w1.(row := Some(r.(phase := Creating, issued := Some(Truncate(until))))), At(p, MayCreate));
    assert Exec(more).processes == s.processes[pid := At(p, MayCreate)];
  }

  lemma NothingSent(w: World, intent: Intent)
    requires WorldSound(w) && Stored(w, intent).phase == Intended
    ensures w.sent == [] && w.nextUid > 0 && Stored(w, intent).uid == 0
  {
  }

  lemma Obtains(steps: seq<Step>, w: World, others: map<nat, Process>, pid: nat, p: Process, luck: Luck) returns (more: seq<Step>)
    requires w.nextUid > 1 && w.sent == [Made(w.nextUid - 1)] && w.secret == Some(Secret(w.nextUid - 1, true)) && w.row.Some?
    requires var r := w.row.value;
             && r.phase == Creating && !r.closed && r.intent == p.intent && r.issued.Some? && p.row.uid == 0
             && CoversExecution(r.issued.value, luck.now) && r.issued.value <= p.intent.expiresAt && luck.applied && luck.acked
    requires Exec(steps) == State(w, others[pid := At(p, Awaiting(0))])
    ensures steps <= more && pid in Exec(more).processes && Exec(more).processes[pid].at == Materialization.Prepared(w.row.value.issued.value)
  {
    hide Exec;
    var uid := w.nextUid - 1;
    more := Goes(steps, Exec(steps), pid, luck, w, At(p, Recording(Secret(uid, true), Recover)));
    var w1 := w.(row := Some(w.row.value.(phase := Materialized, uid := uid)));
    more := Goes(more, Exec(more), pid, luck, w1, At(p, Recovering));
    more := Recalls(more, Exec(more), pid, luck);
  }

  /** What an earlier process prepared, a later one finds, with the recorded horizon. */
  lemma Recalls(steps: seq<Step>, s: State, pid: nat, luck: Luck) returns (more: seq<Step>)
    requires s == Exec(steps) && pid in s.processes && s.processes[pid].at == Recovering && luck.applied && luck.acked
    requires s.world.row.Some? && s.world.secret == Some(Secret(s.world.row.value.uid, true))
    requires var p, r := s.processes[pid], s.world.row.value;
             && r.phase == Materialized && !r.closed && r.intent == p.intent && r.issued.Some? && r.uid != 0 && (p.row.uid == 0 || p.row.uid == r.uid)
             && CoversExecution(r.issued.value, luck.now) && r.issued.value <= p.intent.expiresAt
    ensures steps <= more && pid in Exec(more).processes && Exec(more).processes[pid].at == Materialization.Prepared(s.world.row.value.issued.value)
  {
    hide Exec;
    var w, p := s.world, s.processes[pid];
    more := Goes(steps, s, pid, luck, w, At(p, Recording(w.secret.value, Reread)));
    more := Goes(more, Exec(more), pid, luck, w, At(p, Rereading));
    more := Goes(more, Exec(more), pid, luck, w, At(p, Materialization.Prepared(w.row.value.issued.value)));
  }

  /** A credential whose holder crashed is found again while its row is open and its horizon covers an execution. */
  lemma CanBeRecovered(steps: seq<Step>, pid: nat, intent: Intent, now: Instant) returns (more: seq<Step>)
    requires pid !in Exec(steps).processes && Exec(steps).world.row.Some?
    requires var w := Exec(steps).world; var r := w.row.value;
             && r.intent == intent && r.phase == Materialized && !r.closed && w.secret.Some? && w.secret.value.uid == r.uid
             && r.issued.Some? && now + 5 * MINUTE <= r.issued.value
    ensures steps <= more && pid in Exec(more).processes
    ensures Exec(more).processes[pid].at == Materialization.Prepared(Exec(steps).world.row.value.issued.value)
  {
    hide Exec, WorldSound;
    var s := Exec(steps);
    RowHere(steps);
    KnownUid(s.world);
    WithinRequest(s.world);
    more := Next(steps, Prepare(pid, intent));
    more := Goes(more, Exec(more), pid, Good(now, 0), s.world, Process(intent, Recovering, s.world.row.value, false));
    more := Recalls(more, Exec(more), pid, Good(now, 0));
  }

  lemma WithinRequest(w: World)
    requires WorldSound(w) && w.row.Some? && w.row.value.issued.Some?
    ensures w.row.value.issued.value <= w.row.value.intent.expiresAt
  {
  }

  /** A create that was refused is over: its process, told so, records that no Secret of the row will ever exist. */
  lemma RefusedIsAbsent(steps: seq<Step>, pid: nat) returns (more: seq<Step>)
    requires pid in Exec(steps).processes && Exec(steps).processes[pid].at == Awaiting(0) && Exec(steps).world.sent == [Refused]
    ensures steps <= more && Exec(more).world.row.Some? && Exec(more).world.row.value.phase == Absent && Exec(more).world.row.value.uid == 0
  {
    hide Exec, WorldSound;
    var s := Exec(steps);
    RowHere(steps);
    RefusedRow(steps, pid);
    more := Goes(steps, s, pid, Good(0, 0), s.world, At(s.processes[pid], Refusing));
    var w := s.world.(row := Some(s.world.row.value.(phase := Absent)));
    more := Goes(more, Exec(more), pid, Good(0, 0), w, At(s.processes[pid], Failed));
  }

  lemma RefusedRow(steps: seq<Step>, pid: nat)
    requires pid in Exec(steps).processes && Exec(steps).processes[pid].at == Awaiting(0) && Exec(steps).world.sent == [Refused]
    ensures var w := Exec(steps).world;
            w.row.Some? && w.row.value.uid == 0 && (w.row.value.phase == Creating || w.row.value.phase == Absent)
  {
    hide Exec;
    RunKeepsInv(steps);
    assert ProcessSound(Exec(steps).world, Exec(steps).processes[pid]);
  }

  /**
   The issuer is asked only for an open row without a create and with time left, and what it issues is
   used only while it is not fenced, within the request, and with time left.
   */
  lemma IssuedInTime(steps: seq<Step>, e: Step, pid: nat)
    requires var s, s' := Exec(steps), Do(Exec(steps), e);
             pid in s'.processes && s'.processes[pid].at != (if pid in s.processes then s.processes[pid].at else Failed)
    ensures var s, s' := Exec(steps), Do(Exec(steps), e); var p := s'.processes[pid];
            && (p.at == Issuing ==>
                  e.Go? && e.pid == pid && s'.world.row.Some? && !s'.world.row.value.closed && s'.world.row.value.phase == Intended
                  && e.luck.now + 5 * MINUTE <= p.intent.expiresAt)
            && (p.at.Claiming? ==>
                  e.Go? && e.pid == pid && !s.world.fenced && e.luck.now + 5 * MINUTE <= p.at.issued <= p.intent.expiresAt)
  {
    hide Exec;
  }

  /** A credential is handed out only over an open row and with time left for a whole execution, never by another step. */
  lemma HandedOutInTime(steps: seq<Step>, e: Step, pid: nat)
    requires var s, s' := Exec(steps), Do(Exec(steps), e);
             pid in s'.processes && s'.processes[pid].at.Prepared? && !(pid in s.processes && s.processes[pid].at.Prepared?)
    ensures e.Go? && e.pid == pid && e.luck.now + 5 * MINUTE <= Do(Exec(steps), e).processes[pid].at.expiresAt
    ensures Exec(steps).world.row.Some? && !Exec(steps).world.row.value.closed && Exec(steps).world.row.value.phase == Materialized
  {
    hide Exec;
  }
}
