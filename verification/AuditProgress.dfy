/**
 What the writers of the tool-call log store, exactly, and that notifications can always be brought
 up to date: `Record` and `Complete` of `internal/agents/audit.go`, `publishRun` of `audit_events.go`.
 */
module AuditProgress {
  import opened Wrappers
  import opened Audit
  import opened AuditSafety
  import opened Traces

  lemma Next(steps: seq<Step>, s: State, e: Step, s': State) returns (more: seq<Step>)
    requires s == Exec(steps) && s' == Do(s, e)
    ensures more == steps + [e] && Exec(more) == s'
  {
    EndOfNext(Do, INITIAL, steps, e);
    more := steps + [e];
  }

  // ----- one write -----

  /** A call is opened unless another call has its id; it is ended once, as asked, and never as pending. */
  predicate Takes(s: State, w: Write) {
    match w
    case Record(id, body) => id in s.calls ==> s.calls[id].body == body
    case Complete(id, outcome) => outcome != Pending && id in s.calls && (s.calls[id].outcome == Pending || s.calls[id].outcome == outcome)
  }

  /** The write changes something: it is not a replay. */
  predicate IsNew(s: State, w: Write) {
    match w
    case Record(id, _) => id !in s.calls
    case Complete(id, _) => id in s.calls && s.calls[id].outcome == Pending
  }

  /** The call that the write asks for. */
  function Asked(s: State, w: Write): Call
    requires Takes(s, w)
  {
    match w
    case Record(_, body) => if IsNew(s, w) then Call(body, Pending) else s.calls[w.id]
    case Complete(id, outcome) => Call(s.calls[id].body, outcome)
  }

  lemma CallIs(s: State, w: Write)
    ensures CallTx(s.calls, w) == if Takes(s, w) then Some(Asked(s, w)) else None
  {
  }

  /** In a reachable state the events of a call say what was written of it, so only a new write adds one. */
  lemma NewIsUnlogged(steps: seq<Step>, w: Write)
    requires Takes(Exec(steps), w)
    ensures Logged(Exec(steps).log, w.id, if w.Record? then Pending else w.outcome) <==> !IsNew(Exec(steps), w)
  {
    hide Exec, StreamSound, WritersSound;
    var s := Exec(steps);
    RunKeepsInv(steps);
    if w.id in s.calls { assert Logged(s.log, w.id, Pending) && Logged(s.log, w.id, s.calls[w.id].outcome); }
  }

  /**
   A write alone stores exactly what it was asked to, and one event exactly if it is new; a write that
   conflicts leaves no trace. The lock is free afterwards either way.
   */
  lemma WritesExactly(steps: seq<Step>, wid: nat, w: Write) returns (more: seq<Step>)
    requires wid !in Exec(steps).writers && Exec(steps).holder.None?
    ensures more == steps + [OpenWriter(wid, w), Lock(wid), Insert(wid), Commit(wid)]
    ensures var s, s' := Exec(steps), Exec(more);
            && s'.writers == s.writers && s'.holder.None? && s'.published == s.published && s'.stream == s.stream
            && s'.calls == (if Takes(s, w) then s.calls[w.id := Asked(s, w)] else s.calls)
            && s'.log == (if Takes(s, w) && IsNew(s, w) then s.log + [Event(s.counter, w.id, if w.Record? then Pending else w.outcome)] else s.log)
  {
    hide Exec, CallTx, Logged, IsNew, Takes, Asked;
    var s := Exec(steps);
    CallIs(s, w);
    if Takes(s, w) { NewIsUnlogged(steps, w); }
    var s1 := s.(holder := Some(wid), writers := s.writers[wid := Writer(w, Locked)]);
    more := Next(steps, s, OpenWriter(wid, w), s.(writers := s.writers[wid := Writer(w, Waiting)]));
    assert s1.writers == s.writers[wid := Writer(w, Waiting)][wid := Writer(w, Locked)];
    more := Next(more, s.(writers := s.writers[wid := Writer(w, Waiting)]), Lock(wid), s1);
    more := Next(more, s1, Insert(wid), Do(s1, Insert(wid)));
    more := Next(more, Exec(more), Commit(wid), Do(Exec(more), Commit(wid)));
    assert s.writers[wid := Writer(w, Locked)] - {wid} == s.writers;
  }

  /** A rolled back write leaves no trace but its number, and frees the lock if it had it. */
  lemma AbortsExactly(steps: seq<Step>, wid: nat)
    requires wid in Exec(steps).writers
    ensures var s, s' := Exec(steps), Do(Exec(steps), Abort(wid));
            s' == s.(writers := s.writers - {wid}, holder := if s.holder == Some(wid) then None else s.holder)
  {
    hide Exec, StreamSound, Paired;
    RunKeepsInv(steps);
    RunKeepsHolder(steps);
  }

  /** The lock is with a writer that is past waiting for it. */
  predicate HolderSound(s: State) {
    s.holder.Some? ==> s.holder.value in s.writers && s.writers[s.holder.value].at != Waiting
  }

  lemma RunKeepsHolder(steps: seq<Step>)
    ensures HolderSound(Exec(steps))
  {
    hide Do, HolderSound, Inv;
    Audit.AllKeepInv();
    forall s, e | HolderSound(s) && Inv(s) ensures HolderSound(Do(s, e)) { StepKeepsHolder(s, e); }
    forall s, e | HolderSound(s) && Inv(s) ensures HolderSound(Do(s, e)) && Inv(Do(s, e)) {}
    NoHolder();
    Always(Do, INITIAL, s => HolderSound(s) && Inv(s), steps);
  }

  lemma NoHolder()
    ensures HolderSound(INITIAL)
  {
  }

  lemma StepKeepsHolder(s: State, e: Step)
    requires HolderSound(s) && Inv(s)
    ensures HolderSound(Do(s, e))
  {
    hide StreamSound, Paired, CallTx, Logged, Unpublished, DoReadBatch, DoSend, DoReply, DoAcknowledge;
    match e
    case ReadBatch(_) => PublishersKeepWriters(s, e);
    case Send(_) => PublishersKeepWriters(s, e);
    case Reply(_, _) => PublishersKeepWriters(s, e);
    case Acknowledge(_, _, _) => PublishersKeepWriters(s, e);
    case _ =>
  }

  lemma PublishersKeepWriters(s: State, e: Step)
    requires e.ReadBatch? || e.Send? || e.Reply? || e.Acknowledge?
    ensures Do(s, e).writers == s.writers && Do(s, e).holder == s.holder
  {
    hide Unpublished;
  }

  // ----- where calls and outcomes come from -----

  /** The k-th step commits this write. */
  ghost predicate Commits(steps: seq<Step>, k: int, w: Write) {
    0 <= k < |steps| && steps[k].Commit? && steps[k].wid in Exec(steps[..k]).writers && Exec(steps[..k]).writers[steps[k].wid].write == w
  }

  lemma StepCalls(s: State, e: Step, id: nat)
    requires id in Do(s, e).calls
    ensures id in s.calls ==> Do(s, e).calls[id].body == s.calls[id].body
    ensures id !in s.calls ==> e.Commit? && e.wid in s.writers && s.writers[e.wid].write == Record(id, Do(s, e).calls[id].body)
                               && Do(s, e).calls[id].outcome == Pending
    ensures id in s.calls && Do(s, e).calls[id].outcome != s.calls[id].outcome ==>
              e.Commit? && e.wid in s.writers && s.writers[e.wid].write == Complete(id, Do(s, e).calls[id].outcome)
  {
  }

  lemma NoCalls(id: nat)
    ensures id !in Exec([]).calls
  {
    EndOfNone(Do, INITIAL);
  }

  lemma Last(steps: seq<Step>)
    requires steps != []
    ensures Exec(steps) == Do(Exec(steps[..|steps| - 1]), steps[|steps| - 1])
  {
    EndOfLast(Do, INITIAL, steps);
  }

  /** Every stored call was recorded with just this content by some committed write. */
  lemma {:induction false} CallWasRecorded(steps: seq<Step>, id: nat) returns (k: nat)
    requires id in Exec(steps).calls
    ensures Commits(steps, k, Record(id, Exec(steps).calls[id].body))
  {
    hide Exec, Do;
    if steps == [] {
      NoCalls(id);
    } else {
      k := |steps| - 1;
      Last(steps);
      StepCalls(Exec(steps[..k]), steps[k], id);
      if id in Exec(steps[..k]).calls {
        k := CallWasRecorded(steps[..k], id);
        assert steps[..|steps| - 1][..k] == steps[..k];
      }
    }
  }

  /** Every terminal outcome, and so every end event, is the one that some committed write reported. */
  lemma {:induction false} OutcomeWasReported(steps: seq<Step>, id: nat) returns (k: nat)
    requires id in Exec(steps).calls && Exec(steps).calls[id].outcome != Pending
    ensures Commits(steps, k, Complete(id, Exec(steps).calls[id].outcome))
  {
    hide Exec, Do;
    if steps == [] {
      NoCalls(id);
    } else {
      k := |steps| - 1;
      var s := Exec(steps[..k]);
      Last(steps);
      StepCalls(s, steps[k], id);
      if id in s.calls && s.calls[id].outcome == Exec(steps).calls[id].outcome {
        k := OutcomeWasReported(steps[..k], id);
        assert steps[..|steps| - 1][..k] == steps[..k];
      }
    }
  }

  // ----- publishing -----

  /** A publisher of this batch has announced its first entries. */
  function Publishing(s: State, pid: nat, batch: seq<nat>, n: nat): State
    requires n <= |batch|
  {
    s.(publishers := s.publishers[pid := Publisher(true, batch, Sending(n))], stream := s.stream + batch[..n],
       published := s.published + (set k | 0 <= k < n :: batch[k]))
  }

  /** The publisher's next entry reached the stream, and the reply its publisher. */
  function Announced(s: State, pid: nat, batch: seq<nat>, n: nat): State
    requires n < |batch|
  {
    s.(publishers := s.publishers[pid := Publisher(true, batch, Acking(n))], stream := s.stream + [batch[n]])
  }

  lemma Announces(steps: seq<Step>, s: State, pid: nat, batch: seq<nat>, n: nat) returns (more: seq<Step>)
    requires n < |batch| && Exec(steps) == s && pid in s.publishers && s.publishers[pid] == Publisher(true, batch, Sending(n))
    ensures steps <= more && Exec(more) == Announced(s, pid, batch, n)
  {
    hide Exec;
    var x := batch[n];
    var s1 := s.(flying := s.flying + multiset{x}, publishers := s.publishers[pid := Publisher(true, batch, Sent(n))]);
    more := Next(steps, s, Send(pid), s1);
    var s2 := s1.(flying := s.flying, stream := s.stream + [x]);
    assert s1.flying - multiset{x} == s.flying;
    more := Next(more, s1, Land(x), s2);
    assert Announced(s, pid, batch, n).publishers == s2.publishers[pid := Publisher(true, batch, Acking(n))];
    more := Next(more, s2, Reply(pid, true), Announced(s, pid, batch, n));
  }

  lemma PublishesOne(steps: seq<Step>, s: State, pid: nat, batch: seq<nat>, n: nat) returns (more: seq<Step>)
    requires n < |batch| && Exec(steps) == Publishing(s, pid, batch, n)
    ensures steps <= more && Exec(more) == Publishing(s, pid, batch, n + 1)
  {
    hide Exec;
    var s0 := Publishing(s, pid, batch, n);
    more := Announces(steps, s0, pid, batch, n);
    var s3, s4 := Announced(s0, pid, batch, n), Publishing(s, pid, batch, n + 1);
    assert batch[..n + 1] == batch[..n] + [batch[n]];
    assert s4.stream == s3.stream;
    assert s4.published == s3.published + {batch[n]};
    assert s4.publishers == s3.publishers[pid := Publisher(true, batch, Sending(n + 1))];
    AcknowledgeIs(s3, s4, pid, batch, n);
    more := Next(more, s3, Acknowledge(pid, true, true), s4);
  }

  lemma AcknowledgeIs(s: State, s': State, pid: nat, batch: seq<nat>, n: nat)
    requires n < |batch| && pid in s.publishers && s.publishers[pid] == Publisher(true, batch, Acking(n))
    requires s' == s.(published := s.published + {batch[n]}, publishers := s.publishers[pid := Publisher(true, batch, Sending(n + 1))])
    ensures Do(s, Acknowledge(pid, true, true)) == s'
  {
  }

  lemma {:induction false} PublishesRest(steps: seq<Step>, s: State, pid: nat, batch: seq<nat>, n: nat) returns (more: seq<Step>)
    requires n <= |batch| && Exec(steps) == Publishing(s, pid, batch, n)
    ensures steps <= more && Exec(more) == Publishing(s, pid, batch, |batch|)
    decreases |batch| - n
  {
    more := steps;
    if n < |batch| {
      more := PublishesOne(steps, s, pid, batch, n);
      more := PublishesRest(more, s, pid, batch, n + 1);
    }
  }

  /** One undisturbed publisher announces the next hundred unpublished events in order, and marks exactly them. */
  lemma BatchIsPublished(steps: seq<Step>, pid: nat) returns (more: seq<Step>, batch: seq<nat>)
    requires pid !in Exec(steps).publishers && !PublisherLocked(Exec(steps).publishers)
    ensures var s := Exec(steps);
            && batch == Unpublished(s.log, s.published, 100) && steps <= more
            && Exec(more) == s.(stream := s.stream + batch, published := s.published + (set k | 0 <= k < |batch| :: batch[k]))
  {
    hide Exec, Unpublished;
    var s := Exec(steps);
    batch := Unpublished(s.log, s.published, BATCH);
    more := Next(steps, s, OpenPublisher(pid), s.(publishers := s.publishers[pid := Publisher(true, [], Reading)]));
    var s1 := s.(publishers := s.publishers[pid := Publisher(true, [], Reading)]);
    var s2 := Publishing(s, pid, batch, 0);
    assert s2.publishers == s1.publishers[pid := Publisher(true, batch, Sending(0))];
    assert s2.stream == s.stream && s2.published == s.published;
    more := Next(more, s1, ReadBatch(pid), s2);
    more := PublishesRest(more, s, pid, batch, 0);
    var s3 := Publishing(s, pid, batch, |batch|);
    assert batch[..|batch|] == batch;
    assert s3.publishers - {pid} == s.publishers;
    more := Next(more, s3, Send(pid), s3.(publishers := s.publishers));
  }

  /** How many events nobody has marked. */
  function Left(log: seq<Event>, published: set<nat>): nat {
    if log == [] then 0 else (if log[0].sequence in published then 0 else 1) + Left(log[1..], published)
  }

  lemma {:induction false} LeftShrinks(log: seq<Event>, published: set<nat>, more: set<nat>)
    requires published <= more
    ensures Left(log, more) <= Left(log, published)
    ensures (exists i :: 0 <= i < |log| && log[i].sequence in more - published) ==> Left(log, more) < Left(log, published)
  {
    if log != [] {
      LeftShrinks(log[1..], published, more);
      assert forall i :: 0 < i < |log| ==> log[i] == log[1..][i - 1];
    }
  }

  lemma {:induction false} UnpublishedFirst(log: seq<Event>, published: set<nat>, limit: nat)
    requires limit > 0
    ensures var u := Unpublished(log, published, limit);
            if u == [] then forall i :: 0 <= i < |log| ==> log[i].sequence in published
            else exists i :: 0 <= i < |log| && log[i].sequence == u[0] && u[0] !in published
  {
    if log != [] && log[0].sequence in published {
      UnpublishedFirst(log[1..], published, limit);
      assert forall i :: 0 < i < |log| ==> log[i] == log[1..][i - 1];
      var u := Unpublished(log[1..], published, limit);
      if u != [] {
        var i :| 0 <= i < |log[1..]| && log[1..][i].sequence == u[0] && u[0] !in published;
        assert log[i + 1].sequence == u[0];
      }
    }
  }

  /** Notifications catch up: from every state without a live publisher all events can be announced and marked. */
  lemma {:induction false} AllCanBePublished(steps: seq<Step>, pid: nat) returns (more: seq<Step>)
    requires pid !in Exec(steps).publishers && !PublisherLocked(Exec(steps).publishers)
    ensures steps <= more && Exec(more).log == Exec(steps).log
    ensures forall i :: 0 <= i < |Exec(more).log| ==> Exec(more).log[i].sequence in Exec(more).published
    decreases Left(Exec(steps).log, Exec(steps).published)
  {
    hide Exec, Unpublished, PublisherLocked;
    var s, batch := Exec(steps), [];
    UnpublishedFirst(s.log, s.published, 100);
    more := steps;
    if Unpublished(s.log, s.published, 100) != [] {
      more, batch := BatchIsPublished(steps, pid);
      assert batch[0] in Exec(more).published;
      LeftShrinks(s.log, s.published, Exec(more).published);
      more := AllCanBePublished(more, pid);
    }
  }
}
