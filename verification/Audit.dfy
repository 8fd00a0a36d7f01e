/**
 The tool-call log of one run and its notifications: `internal/agents/audit.go` and
 `audit_events.go`. Writers take sequence numbers from a counter shared with every other run, but
 only while they hold the run's row lock. Publishers serialize on a session lock and append to a
 stream that may accept an entry late, or accept it and lose the reply.
 */
module Audit {
  import opened Wrappers
  import opened Traces

  datatype Outcome = Pending | Ok | Error | Denied | Refused | Cancelled | Unavailable

  /** `body` stands for the tool and its audited arguments. */
  datatype Call = Call(body: nat, outcome: Outcome)

  datatype Event = Event(sequence: nat, call: nat, outcome: Outcome)

  /** The two writers: `Record` opens a call, `Complete` ends it. */
  datatype Write = Record(id: nat, body: nat) | Complete(id: nat, outcome: Outcome)

  datatype WriterAt = Waiting | Locked | Inserted(event: Option<Event>)

  datatype Writer = Writer(write: Write, at: WriterAt)

  datatype PublisherAt = Reading | Sending(next: nat) | Sent(next: nat) | Acking(next: nat)

  /** `alive` is the publisher's session; without it the lock is free and its queries fail. */
  datatype Publisher = Publisher(alive: bool, batch: seq<nat>, at: PublisherAt)

  /** `log` are the run's committed events, `counter` the next number of the shared sequence. */
  datatype State = State(calls: map<nat, Call>, log: seq<Event>, published: set<nat>, counter: nat, holder: Option<nat>,
                         writers: map<nat, Writer>, publishers: map<nat, Publisher>, flying: multiset<nat>, stream: seq<nat>)

  const INITIAL: State := State(map[], [], {}, 1, None, map[], map[], multiset{}, [])

  const BATCH: nat := 100

  // ----- reading events -----

  /** `sequence > after ORDER BY sequence LIMIT n` over a log in sequence order. */
  function Page(log: seq<Event>, after: nat, limit: nat): seq<Event> {
    if log == [] || limit == 0 then []
    else if log[0].sequence > after then [log[0]] + Page(log[1..], after, limit - 1)
    else Page(log[1..], after, limit)
  }

  function Sequences(log: seq<Event>): (r: seq<nat>)
    ensures |r| == |log| && forall i :: 0 <= i < |log| ==> r[i] == log[i].sequence
  {
    seq(|log|, i requires 0 <= i < |log| => log[i].sequence)
  }

  function Unpublished(log: seq<Event>, published: set<nat>, limit: nat): seq<nat> {
    if log == [] || limit == 0 then []
    else if log[0].sequence in published then Unpublished(log[1..], published, limit)
    else [log[0].sequence] + Unpublished(log[1..], published, limit - 1)
  }

  // ----- writers -----

  predicate Logged(log: seq<Event>, call: nat, outcome: Outcome) {
    exists i :: 0 <= i < |log| && log[i].call == call && log[i].outcome == outcome
  }

  /** The row a write leaves, or none when it conflicts with what is stored. */
  function CallTx(calls: map<nat, Call>, w: Write): Option<Call> {
    match w
    case Record(id, body) =>
      if id !in calls then Some(Call(body, Pending)) else if calls[id].body == body then Some(calls[id]) else None
    case Complete(id, outcome) =>
      if id !in calls || outcome == Pending then None
      else if calls[id].outcome == Pending || calls[id].outcome == outcome then Some(calls[id].(outcome := outcome))
      else None
  }

  function OutcomeOf(w: Write): Outcome { if w.Record? then Pending else w.outcome }

  datatype Step =
    | OpenWriter(wid: nat, write: Write)
    | Lock(wid: nat)
    | Insert(wid: nat)
    | Commit(wid: nat)
    | Abort(wid: nat)
    | Elsewhere
    | OpenPublisher(pid: nat)
    | ReadBatch(pid: nat)
    | Send(pid: nat)
    | Land(sequence: nat)
    | Lose(sequence: nat)
    | Reply(pid: nat, ok: bool)
    | Acknowledge(pid: nat, applied: bool, acked: bool)
    | LoseSession(pid: nat)
    | StopPublisher(pid: nat)

  function DoInsert(s: State, wid: nat): State {
    if wid !in s.writers || s.writers[wid].at != Locked then s
    else
      var w := s.writers[wid].write;
      if CallTx(s.calls, w).None? then s.(writers := s.writers - {wid}, holder := None)
      else
        var event := if Logged(s.log, w.id, OutcomeOf(w)) then None else Some(Event(s.counter, w.id, OutcomeOf(w)));
        s.(counter := s.counter + 1, writers := s.writers[wid := Writer(w, Inserted(event))])
  }

  function DoCommit(s: State, wid: nat): State {
    if wid !in s.writers || !s.writers[wid].at.Inserted? || CallTx(s.calls, s.writers[wid].write).None? then s
    else
      var w := s.writers[wid];
      s.(calls := s.calls[w.write.id := CallTx(s.calls, w.write).value],
         log := if w.at.event.Some? then s.log + [w.at.event.value] else s.log,
         writers := s.writers - {wid}, holder := None)
  }

  /** A rolled back transaction gives its lock back, but never its sequence number. */
  function DoAbort(s: State, wid: nat): State {
    if wid !in s.writers then s
    else s.(writers := s.writers - {wid}, holder := if s.writers[wid].at == Waiting then s.holder else None)
  }

  predicate PublisherLocked(publishers: map<nat, Publisher>) { exists p :: p in publishers && publishers[p].alive }

  function At(s: State, pid: nat, at: PublisherAt): State
    requires pid in s.publishers
  {
    s.(publishers := s.publishers[pid := s.publishers[pid].(at := at)])
  }

  function DoReadBatch(s: State, pid: nat): State {
    if pid !in s.publishers || s.publishers[pid].at != Reading then s
    else if !s.publishers[pid].alive then s.(publishers := s.publishers - {pid})
    else s.(publishers := s.publishers[pid := Publisher(true, Unpublished(s.log, s.published, BATCH), Sending(0))])
  }

  function DoSend(s: State, pid: nat): State {
    if pid !in s.publishers || !s.publishers[pid].at.Sending? then s
    else
      var p := s.publishers[pid];
      if p.at.next >= |p.batch| then s.(publishers := s.publishers - {pid})
      else At(s.(flying := s.flying + multiset{p.batch[p.at.next]}), pid, Sent(p.at.next))
  }

  /** A success reply means that the entry is in the stream; everything else ends the publisher. */
  function DoReply(s: State, pid: nat, ok: bool): State {
    if pid !in s.publishers || !s.publishers[pid].at.Sent? then s
    else
      var p := s.publishers[pid];
      if p.at.next < |p.batch| && ok && p.batch[p.at.next] in s.stream then At(s, pid, Acking(p.at.next))
      else s.(publishers := s.publishers - {pid})
  }

  function DoAcknowledge(s: State, pid: nat, applied: bool, acked: bool): State {
    if pid !in s.publishers || !s.publishers[pid].at.Acking? || s.publishers[pid].at.next >= |s.publishers[pid].batch| then s
    else
      var p := s.publishers[pid];
      var s1 := if applied && p.alive then s.(published := s.published + {p.batch[p.at.next]}) else s;
      if applied && acked && p.alive then At(s1, pid, Sending(p.at.next + 1)) else s1.(publishers := s1.publishers - {pid})
  }

  function Do(s: State, e: Step): State {
    match e
    case OpenWriter(wid, write) => if wid in s.writers then s else s.(writers := s.writers[wid := Writer(write, Waiting)])
    case Lock(wid) =>
      if wid in s.writers && s.writers[wid].at == Waiting && s.holder.None? then
        s.(holder := Some(wid), writers := s.writers[wid := s.writers[wid].(at := Locked)])
      else s
    case Insert(wid) => DoInsert(s, wid)
    case Commit(wid) => DoCommit(s, wid)
    case Abort(wid) => DoAbort(s, wid)
    case Elsewhere => s.(counter := s.counter + 1)
    case OpenPublisher(pid) =>
      if pid in s.publishers || PublisherLocked(s.publishers) then s
      else s.(publishers := s.publishers[pid := Publisher(true, [], Reading)])
    case ReadBatch(pid) => DoReadBatch(s, pid)
    case Send(pid) => DoSend(s, pid)
    case Land(x) => if x in s.flying then s.(flying := s.flying - multiset{x}, stream := s.stream + [x]) else s
    case Lose(x) => s.(flying := s.flying - multiset{x})
    case Reply(pid, ok) => DoReply(s, pid, ok)
    case Acknowledge(pid, applied, acked) => DoAcknowledge(s, pid, applied, acked)
    case LoseSession(pid) => if pid in s.publishers then s.(publishers := s.publishers[pid := s.publishers[pid].(alive := false)]) else s
    case StopPublisher(pid) => s.(publishers := s.publishers - {pid})
  }

  ghost function Exec(steps: seq<Step>): State { EndOf(Do, INITIAL, steps) }

  // ----- invariants of the log -----

  predicate Ascending(log: seq<Event>) {
    forall i, j :: 0 <= i < j < |log| ==> log[i].sequence < log[j].sequence
  }

  predicate Under(log: seq<Event>, counter: nat) { forall i :: 0 <= i < |log| ==> 0 < log[i].sequence < counter }

  /** Each event belongs to a stored call; a call has its opening event, and its end if it ended; none comes twice. */
  predicate Paired(calls: map<nat, Call>, log: seq<Event>) {
    EventsStored(calls, log) && EventsOnce(log) && CallsLogged(calls, log)
  }

  predicate EventsStored(calls: map<nat, Call>, log: seq<Event>) {
    forall i :: 0 <= i < |log| ==> log[i].call in calls && (log[i].outcome == Pending || log[i].outcome == calls[log[i].call].outcome)
  }

  predicate EventsOnce(log: seq<Event>) {
    forall i, j :: 0 <= i < j < |log| && log[i].call == log[j].call ==> log[i].outcome == Pending && log[j].outcome != Pending
  }

  predicate CallsLogged(calls: map<nat, Call>, log: seq<Event>) {
    forall id :: id in calls ==> Logged(log, id, Pending) && Logged(log, id, calls[id].outcome)
  }

  /** Only the lock holder is past its lock, and the number it took is above every committed one. */
  predicate WritersSound(s: State) {
    forall wid :: wid in s.writers && s.writers[wid].at != Waiting ==>
      && s.holder == Some(wid)
      && (s.writers[wid].at.Inserted? ==> InsertSound(s, s.writers[wid]))
  }

  predicate InsertSound(s: State, w: Writer)
    requires w.at.Inserted?
  {
    && CallTx(s.calls, w.write).Some?
    && Inserts(s.log, w.write, w.at.event)
    && (w.at.event.Some? ==>
          0 < w.at.event.value.sequence < s.counter && forall i :: 0 <= i < |s.log| ==> s.log[i].sequence < w.at.event.value.sequence)
  }

  predicate LogSound(s: State) {
    s.counter > 0 && Ascending(s.log) && Under(s.log, s.counter) && Paired(s.calls, s.log) && WritersSound(s)
  }

  // ----- invariants of the stream -----

  predicate InLog(log: seq<Event>, x: nat) { exists i :: 0 <= i < |log| && log[i].sequence == x }

  /** Everything committed below `x` is among `done`. */
  predicate Covered(log: seq<Event>, x: nat, done: seq<nat>) {
    InLog(log, x) && forall i :: 0 <= i < |log| && log[i].sequence < x ==> log[i].sequence in done
  }

  /** What is left of a batch continues what the stream already has. */
  predicate BatchSound(log: seq<Event>, stream: seq<nat>, batch: seq<nat>, from: nat) {
    forall k :: from <= k < |batch| ==> Covered(log, batch[k], stream + batch[from..k])
  }

  predicate PublisherSound(log: seq<Event>, stream: seq<nat>, flying: multiset<nat>, p: Publisher) {
    match p.at
    case Reading => true
    case Sending(i) => BatchSound(log, stream, p.batch, i)
    case Sent(i) => BatchSound(log, stream, p.batch, i)
    case Acking(i) => i < |p.batch| && p.batch[i] in stream && BatchSound(log, stream, p.batch, i)
  }

  predicate StreamOrdered(log: seq<Event>, stream: seq<nat>) {
    forall j :: 0 <= j < |stream| ==> Covered(log, stream[j], stream[..j])
  }

  predicate StreamSound(s: State) {
    && StreamOrdered(s.log, s.stream)
    && (forall x :: x in s.flying ==> Covered(s.log, x, s.stream))
    && (forall x :: x in s.published ==> x in s.stream)
    && (forall p :: p in s.publishers ==> PublisherSound(s.log, s.stream, s.flying, s.publishers[p]))
  }

  predicate Inv(s: State) { LogSound(s) && StreamSound(s) }

  // ----- writers keep it -----

  /** Commits only append, above everything committed before. */
  predicate Appends(log: seq<Event>, log': seq<Event>) {
    log' == log || (|log'| == |log| + 1 && log'[..|log|] == log && forall i :: 0 <= i < |log| ==> log[i].sequence < log'[|log|].sequence)
  }

  lemma AppendsKeepsCovered(log: seq<Event>, log': seq<Event>, x: nat, done: seq<nat>)
    requires Covered(log, x, done) && Appends(log, log')
    ensures Covered(log', x, done)
  {
    if log' != log {
      assert forall i :: 0 <= i < |log| ==> log'[i] == log[i];
      var i :| 0 <= i < |log| && log[i].sequence == x;
      assert log'[i].sequence == x;
    }
  }

  lemma AppendsKeepsPublisher(log: seq<Event>, log': seq<Event>, stream: seq<nat>, flying: multiset<nat>, p: Publisher)
    requires PublisherSound(log, stream, flying, p) && Appends(log, log')
    ensures PublisherSound(log', stream, flying, p)
  {
    hide Appends, Covered;
    if !p.at.Reading? {
      forall k | p.at.next <= k < |p.batch| ensures Covered(log', p.batch[k], stream + p.batch[p.at.next..k]) {
        AppendsKeepsCovered(log, log', p.batch[k], stream + p.batch[p.at.next..k]);
      }
    }
  }

  lemma AppendsKeepsStream(s: State, s': State)
    requires StreamSound(s) && Appends(s.log, s'.log)
    requires s'.stream == s.stream && s'.flying == s.flying && s'.published == s.published && s'.publishers == s.publishers
    ensures StreamSound(s')
  {
    hide Appends, Covered, PublisherSound;
    forall j | 0 <= j < |s.stream| ensures Covered(s'.log, s.stream[j], s.stream[..j]) {
      AppendsKeepsCovered(s.log, s'.log, s.stream[j], s.stream[..j]);
    }
    forall x | x in s.flying ensures Covered(s'.log, x, s.stream) { AppendsKeepsCovered(s.log, s'.log, x, s.stream); }
    forall p | p in s.publishers ensures PublisherSound(s'.log, s'.stream, s'.flying, s'.publishers[p]) {
      AppendsKeepsPublisher(s.log, s'.log, s.stream, s.flying, s.publishers[p]);
    }
  }

  lemma InsertKeeps(s: State, wid: nat)
    requires LogSound(s)
    ensures LogSound(DoInsert(s, wid))
  {
    hide Paired, Ascending;
  }

  /** The event that a write inserts: none when the call already has it. */
  predicate Inserts(log: seq<Event>, w: Write, event: Option<Event>) {
    match event
    case None => Logged(log, w.id, OutcomeOf(w))
    case Some(e) => e.call == w.id && e.outcome == OutcomeOf(w) && !Logged(log, e.call, e.outcome)
  }

  function Extended(log: seq<Event>, event: Option<Event>): seq<Event> { if event.Some? then log + [event.value] else log }

  lemma CommitKeepsStored(calls: map<nat, Call>, log: seq<Event>, w: Write, event: Option<Event>)
    requires Paired(calls, log) && CallTx(calls, w).Some? && Inserts(log, w, event)
    ensures EventsStored(calls[w.id := CallTx(calls, w).value], Extended(log, event))
  {
    hide CallsLogged, EventsOnce, Logged;
  }

  /** A call that has ended, or that a record repeats, has its events already. */
  lemma NewEventIsNext(calls: map<nat, Call>, log: seq<Event>, w: Write, event: Option<Event>, i: nat)
    requires Paired(calls, log) && CallTx(calls, w).Some? && Inserts(log, w, event) && event.Some?
    requires i < |log| && log[i].call == w.id
    ensures log[i].outcome == Pending && event.value.outcome != Pending
  {
    hide EventsOnce, Logged;
    if log[i].outcome != Pending { HasLogged(log, i); }
  }

  lemma HasLogged(log: seq<Event>, i: nat)
    requires i < |log|
    ensures Logged(log, log[i].call, log[i].outcome)
  {
  }

  lemma CommitKeepsOnce(calls: map<nat, Call>, log: seq<Event>, w: Write, event: Option<Event>)
    requires Paired(calls, log) && CallTx(calls, w).Some? && Inserts(log, w, event)
    ensures EventsOnce(Extended(log, event))
  {
    hide CallsLogged, EventsStored, Logged, CallTx;
    if event.Some? {
      forall i | 0 <= i < |log| && log[i].call == w.id ensures log[i].outcome == Pending && event.value.outcome != Pending {
        NewEventIsNext(calls, log, w, event, i);
      }
    }
  }

  lemma CommitKeepsCalls(calls: map<nat, Call>, log: seq<Event>, w: Write, event: Option<Event>)
    requires Paired(calls, log) && CallTx(calls, w).Some? && Inserts(log, w, event)
    ensures CallsLogged(calls[w.id := CallTx(calls, w).value], Extended(log, event))
  {
    hide EventsStored, EventsOnce, Logged;
    var calls', log' := calls[w.id := CallTx(calls, w).value], Extended(log, event);
    LoggedStays(log, log', w.id, OutcomeOf(w));
    if event.Some? { HasLogged(log', |log|); }
    forall id | id in calls' ensures Logged(log', id, Pending) && Logged(log', id, calls'[id].outcome) {
      LoggedStays(log, log', id, Pending);
      if id in calls { LoggedStays(log, log', id, calls[id].outcome); }
    }
  }

  lemma CommitKeepsPaired(calls: map<nat, Call>, log: seq<Event>, w: Write, event: Option<Event>)
    requires Paired(calls, log) && CallTx(calls, w).Some? && Inserts(log, w, event)
    ensures Paired(calls[w.id := CallTx(calls, w).value], Extended(log, event))
  {
    hide EventsStored, EventsOnce, CallsLogged, CallTx, Inserts, Extended;
    CommitKeepsStored(calls, log, w, event);
    CommitKeepsOnce(calls, log, w, event);
    CommitKeepsCalls(calls, log, w, event);
  }

  lemma LoggedStays(log: seq<Event>, log': seq<Event>, call: nat, outcome: Outcome)
    requires log <= log'
    ensures Logged(log, call, outcome) ==> Logged(log', call, outcome)
  {
    if Logged(log, call, outcome) {
      var i :| 0 <= i < |log| && log[i].call == call && log[i].outcome == outcome;
      assert log'[i] == log[i];
    }
  }

  lemma CommitKeeps(s: State, wid: nat)
    requires LogSound(s)
    ensures LogSound(DoCommit(s, wid)) && Appends(s.log, DoCommit(s, wid).log)
  {
    hide Paired, CallTx, Logged;
    if wid in s.writers && s.writers[wid].at.Inserted? && CallTx(s.calls, s.writers[wid].write).Some? {
      CommitKeepsPaired(s.calls, s.log, s.writers[wid].write, s.writers[wid].at.event);
    }
  }

  lemma WriterKeepsInv(s: State, e: Step)
    requires Inv(s) && (e.OpenWriter? || e.Lock? || e.Insert? || e.Commit? || e.Abort? || e.Elsewhere?)
    ensures Inv(Do(s, e)) && Appends(s.log, Do(s, e).log)
  {
    hide StreamSound, Paired, Ascending;
    match e
    case Insert(wid) => InsertKeeps(s, wid); AppendsKeepsStream(s, Do(s, e));
    case Commit(wid) => CommitKeeps(s, wid); AppendsKeepsStream(s, Do(s, e));
    case _ => AppendsKeepsStream(s, Do(s, e));
  }

  // ----- publishers keep it -----

  lemma MoreDoneCovers(log: seq<Event>, x: nat, done: seq<nat>, more: seq<nat>)
    requires Covered(log, x, done) && forall y :: y in done ==> y in more
    ensures Covered(log, x, more)
  {
  }

  lemma {:induction false} UnpublishedIs(log: seq<Event>, published: set<nat>, limit: nat)
    requires Ascending(log)
    ensures var u := Unpublished(log, published, limit);
            && |u| <= limit
            && (forall k :: 0 <= k < |u| ==> InLog(log, u[k]) && u[k] !in published)
            && (forall k, i :: 0 <= k < |u| && 0 <= i < |log| && log[i].sequence < u[k] ==> log[i].sequence in published || log[i].sequence in u[..k])
  {
    if log != [] && limit > 0 {
      var first := log[0].sequence;
      var rest := log[1..];
      var m := if first in published then limit else limit - 1;
      UnpublishedIs(rest, published, m);
      var v, u := Unpublished(rest, published, m), Unpublished(log, published, limit);
      assert forall i :: 0 < i < |log| ==> log[i] == rest[i - 1];
      forall k | 0 <= k < |v| ensures InLog(log, v[k]) {
        var i :| 0 <= i < |rest| && rest[i].sequence == v[k];
        assert log[i + 1].sequence == v[k];
      }
      if first !in published {
        assert u == [first] + v;
        forall k, i | 0 <= k < |u| && 0 <= i < |log| && log[i].sequence < u[k]
          ensures log[i].sequence in published || log[i].sequence in u[..k]
        {
          if k > 0 {
            assert u[..k] == [first] + v[..k - 1];
            if i > 0 { assert rest[i - 1].sequence < v[k - 1]; }
          }
        }
        forall k | 0 <= k < |u| ensures InLog(log, u[k]) && u[k] !in published {
          if k == 0 { assert log[0].sequence == u[0]; }
        }
      } else {
        assert u == v;
        forall k, i | 0 <= k < |u| && 0 <= i < |log| && log[i].sequence < u[k]
          ensures log[i].sequence in published || log[i].sequence in u[..k]
        {
          if i > 0 { assert rest[i - 1].sequence < v[k]; }
        }
      }
    }
  }

  /** A fresh batch continues the stream: what it leaves out below was published. */
  lemma BatchIsSound(s: State)
    requires Inv(s)
    ensures BatchSound(s.log, s.stream, Unpublished(s.log, s.published, BATCH), 0)
  {
    hide Unpublished, Paired, WritersSound;
    var u := Unpublished(s.log, s.published, BATCH);
    UnpublishedIs(s.log, s.published, BATCH);
    forall k | 0 <= k < |u| ensures Covered(s.log, u[k], s.stream + u[0..k]) {
      assert u[0..k] == u[..k];
    }
  }

  lemma LandKeepsPublisher(log: seq<Event>, stream: seq<nat>, flying: multiset<nat>, flying': multiset<nat>, x: nat, p: Publisher)
    requires PublisherSound(log, stream, flying, p)
    ensures PublisherSound(log, stream + [x], flying', p)
  {
    hide Covered;
    if !p.at.Reading? {
      forall k | p.at.next <= k < |p.batch| ensures Covered(log, p.batch[k], (stream + [x]) + p.batch[p.at.next..k]) {
        MoreDoneCovers(log, p.batch[k], stream + p.batch[p.at.next..k], (stream + [x]) + p.batch[p.at.next..k]);
      }
    }
  }

  lemma LandKeeps(s: State, x: nat)
    requires StreamSound(s) && x in s.flying
    ensures StreamSound(s.(flying := s.flying - multiset{x}, stream := s.stream + [x]))
  {
    hide Covered, PublisherSound;
    var stream' := s.stream + [x];
    forall j | 0 <= j < |stream'| ensures Covered(s.log, stream'[j], stream'[..j]) {
      if j < |s.stream| { assert stream'[..j] == s.stream[..j]; } else { assert stream'[..j] == s.stream; }
    }
    forall y | y in s.flying - multiset{x} ensures Covered(s.log, y, stream') { MoreDoneCovers(s.log, y, s.stream, stream'); }
    forall p | p in s.publishers ensures PublisherSound(s.log, stream', s.flying - multiset{x}, s.publishers[p]) {
      LandKeepsPublisher(s.log, s.stream, s.flying, s.flying - multiset{x}, x, s.publishers[p]);
    }
  }

  /** After an acknowledged entry the rest of the batch continues a stream that has it. */
  lemma NextIsSound(log: seq<Event>, stream: seq<nat>, batch: seq<nat>, i: nat)
    requires BatchSound(log, stream, batch, i) && i < |batch| && batch[i] in stream
    ensures BatchSound(log, stream, batch, i + 1)
  {
    hide Covered;
    forall k | i + 1 <= k < |batch| ensures Covered(log, batch[k], stream + batch[i + 1..k]) {
      assert batch[i..k] == [batch[i]] + batch[i + 1..k];
      MoreDoneCovers(log, batch[k], stream + batch[i..k], stream + batch[i + 1..k]);
    }
  }

  lemma OnePublisher(s: State, pid: nat, p': Publisher)
    requires StreamSound(s) && PublisherSound(s.log, s.stream, s.flying, p')
    ensures StreamSound(s.(publishers := s.publishers[pid := p']))
  {
    hide Covered, PublisherSound, StreamOrdered;
  }

  lemma NoPublisher(s: State, pid: nat)
    requires StreamSound(s)
    ensures StreamSound(s.(publishers := s.publishers - {pid}))
  {
    hide Covered, PublisherSound, StreamOrdered;
  }

  lemma PublisherOf(s: State, pid: nat)
    requires StreamSound(s) && pid in s.publishers
    ensures PublisherSound(s.log, s.stream, s.flying, s.publishers[pid])
  {
    hide Covered, PublisherSound, StreamOrdered;
  }

  lemma SendKeeps(s: State, pid: nat)
    requires StreamSound(s)
    ensures StreamSound(DoSend(s, pid))
  {
    hide StreamOrdered;
    NoPublisher(s, pid);
    if pid in s.publishers && s.publishers[pid].at.Sending? && s.publishers[pid].at.next < |s.publishers[pid].batch| {
      var p := s.publishers[pid];
      PublisherOf(s, pid);
      FirstCovered(s.log, s.stream, p.batch, p.at.next);
      var s1 := s.(flying := s.flying + multiset{p.batch[p.at.next]});
      FlyingMore(s, p.batch[p.at.next]);
      OnePublisher(s1, pid, p.(at := Sent(p.at.next)));
    }
  }

  lemma FirstCovered(log: seq<Event>, stream: seq<nat>, batch: seq<nat>, i: nat)
    requires BatchSound(log, stream, batch, i) && i < |batch|
    ensures Covered(log, batch[i], stream)
  {
    hide Covered;
    assert stream + batch[i..i] == stream;
  }

  lemma FlyingMore(s: State, x: nat)
    requires StreamSound(s) && Covered(s.log, x, s.stream)
    ensures StreamSound(s.(flying := s.flying + multiset{x}))
  {
    hide Covered, StreamOrdered, BatchSound;
  }

  lemma AcknowledgeKeeps(s: State, pid: nat, applied: bool, acked: bool)
    requires StreamSound(s)
    ensures StreamSound(DoAcknowledge(s, pid, applied, acked))
  {
    hide StreamOrdered, Covered, BatchSound;
    if pid in s.publishers && s.publishers[pid].at.Acking? && s.publishers[pid].at.next < |s.publishers[pid].batch| {
      var p := s.publishers[pid];
      PublisherOf(s, pid);
      NextIsSound(s.log, s.stream, p.batch, p.at.next);
      var s1 := if applied && p.alive then s.(published := s.published + {p.batch[p.at.next]}) else s;
      assert StreamSound(s1);
      NoPublisher(s1, pid);
      OnePublisher(s1, pid, p.(at := Sending(p.at.next + 1)));
    }
  }

  lemma PublisherKeepsStream(s: State, e: Step)
    requires Inv(s) && !(e.OpenWriter? || e.Lock? || e.Insert? || e.Commit? || e.Abort? || e.Elsewhere?)
    ensures StreamSound(Do(s, e))
  {
    hide LogSound, StreamSound, DoSend, DoAcknowledge, BatchSound, Unpublished;
    match e
    case OpenPublisher(pid) => OnePublisher(s, pid, Publisher(true, [], Reading));
    case ReadBatch(pid) => NoPublisher(s, pid); BatchIsSound(s); OnePublisher(s, pid, Publisher(true, Unpublished(s.log, s.published, BATCH), Sending(0)));
    case Send(pid) => SendKeeps(s, pid);
    case Land(x) => if x in s.flying { LandKeeps(s, x); }
    case Lose(x) => FlyingLess(s, x);
    case Reply(pid, ok) => ReplyKeeps(s, pid, ok);
    case Acknowledge(pid, applied, acked) => AcknowledgeKeeps(s, pid, applied, acked);
    case LoseSession(pid) => if pid in s.publishers { PublisherOf(s, pid); OnePublisher(s, pid, s.publishers[pid].(alive := false)); }
    case StopPublisher(pid) => NoPublisher(s, pid);
  }

  lemma FlyingLess(s: State, x: nat)
    requires StreamSound(s)
    ensures StreamSound(s.(flying := s.flying - multiset{x}))
  {
    hide Covered, StreamOrdered, BatchSound;
  }

  lemma ReplyKeeps(s: State, pid: nat, ok: bool)
    requires StreamSound(s)
    ensures StreamSound(DoReply(s, pid, ok))
  {
    hide StreamSound, BatchSound;
    NoPublisher(s, pid);
    if pid in s.publishers && s.publishers[pid].at.Sent? {
      var p := s.publishers[pid];
      PublisherOf(s, pid);
      if p.at.next < |p.batch| && p.batch[p.at.next] in s.stream { OnePublisher(s, pid, p.(at := Acking(p.at.next))); }
    }
  }

  /** The log's soundness looks at the tables and the writers only. */
  predicate SameTables(s: State, s': State) {
    s'.calls == s.calls && s'.log == s.log && s'.counter == s.counter && s'.holder == s.holder && s'.writers == s.writers
  }

  lemma SameTablesKeepLog(s: State, s': State)
    requires LogSound(s) && SameTables(s, s')
    ensures LogSound(s')
  {
    hide Ascending, Under, Paired, CallTx, Inserts;
  }

  lemma PublishingKeepsTables(s: State, pid: nat, ok: bool, applied: bool, acked: bool)
    ensures SameTables(s, DoReadBatch(s, pid)) && SameTables(s, DoSend(s, pid))
    ensures SameTables(s, DoReply(s, pid, ok)) && SameTables(s, DoAcknowledge(s, pid, applied, acked))
  {
    hide Unpublished, BATCH;
  }

  lemma BatchStepsKeepTables(s: State, e: Step)
    requires e.ReadBatch? || e.Send? || e.Reply? || e.Acknowledge?
    ensures SameTables(s, Do(s, e))
  {
    hide DoReadBatch, DoSend, DoReply, DoAcknowledge, DoInsert, DoCommit, DoAbort, PublisherLocked;
    match e
    case ReadBatch(pid) => PublishingKeepsTables(s, pid, false, false, false);
    case Send(pid) => PublishingKeepsTables(s, pid, false, false, false);
    case Reply(pid, ok) => PublishingKeepsTables(s, pid, ok, false, false);
    case Acknowledge(pid, applied, acked) => PublishingKeepsTables(s, pid, false, applied, acked);
  }

  lemma StreamStepsKeepTables(s: State, e: Step)
    requires e.Land? || e.Lose?
    ensures SameTables(s, Do(s, e))
  {
    hide DoReadBatch, DoSend, DoReply, DoAcknowledge, DoInsert, DoCommit, DoAbort, PublisherLocked;
  }

  lemma SessionStepsKeepTables(s: State, e: Step)
    requires e.OpenPublisher? || e.LoseSession? || e.StopPublisher?
    ensures SameTables(s, Do(s, e))
  {
    hide DoReadBatch, DoSend, DoReply, DoAcknowledge, DoInsert, DoCommit, DoAbort, PublisherLocked;
  }

  lemma PublisherKeepsLog(s: State, e: Step)
    requires LogSound(s) && !(e.OpenWriter? || e.Lock? || e.Insert? || e.Commit? || e.Abort? || e.Elsewhere?)
    ensures LogSound(Do(s, e)) && Do(s, e).log == s.log
  {
    hide LogSound, Do;
    if e.ReadBatch? || e.Send? || e.Reply? || e.Acknowledge? { BatchStepsKeepTables(s, e); }
    else if e.Land? || e.Lose? { StreamStepsKeepTables(s, e); }
    else { SessionStepsKeepTables(s, e); }
    SameTablesKeepLog(s, Do(s, e));
  }

  lemma StepKeepsInv(s: State, e: Step)
    requires Inv(s)
    ensures Inv(Do(s, e)) && Appends(s.log, Do(s, e).log)
  {
    hide Do, LogSound, StreamSound;
    if e.OpenWriter? || e.Lock? || e.Insert? || e.Commit? || e.Abort? || e.Elsewhere? {
      WriterKeepsInv(s, e);
    } else {
      PublisherKeepsStream(s, e);
      PublisherKeepsLog(s, e);
    }
  }

  /** The invariant holds at first, and every step keeps it. */
  lemma AllKeepInv()
    ensures Inv(INITIAL) && forall s, e :: Inv(s) ==> Inv(Do(s, e))
  {
    hide Do;
    forall s, e | Inv(s) ensures Inv(Do(s, e)) { hide Inv; StepKeepsInv(s, e); }
  }

  lemma RunKeepsInv(steps: seq<Step>)
    ensures Inv(Exec(steps))
  {
    hide Do, Inv;
    AllKeepInv();
    Always(Do, INITIAL, s => Inv(s), steps);
  }
}
