/** One job is reserved, sent, printed, journaled and closed by its receipt. */
module CiExample {
  import opened Wrappers
  import opened CiJournal
  import opened Traces

  function JobAt(status: Status, runner: Option<nat>, lines: map<nat, Line>, receipt: Option<Receipt>): Job {
    Job(status, {}, runner, runner, runner.Some?, |lines|, lines, receipt, 5)
  }

  const PRINTED: map<nat, Line> := map[1 := Line("hello", 42)]
  const RECEIPT: Receipt := Receipt(Success, 1, 9)

  lemma Next(steps: seq<Step>, s: State, e: Step) returns (more: seq<Step>, s': State)
    requires s == Exec(steps)
    ensures more == steps + [e] && s' == Do(s, e) == Exec(more)
  {
    EndOfNext(Do, INITIAL, steps, e);
    more, s' := steps + [e], Do(s, e);
  }

  lemma Nothing()
    ensures Exec([]) == INITIAL
  {
    EndOfNone(Do, INITIAL);
  }

  const ORGS: map<nat, nat> := map[1 := 5]

  const CONNECTED: map<nat, Option<nat>> := map[1 := Some(1)]

  /** The job is with runner 1 on connection 1, held by no pump or by the first. */
  function Of(job: Job, pump: Option<Pump>, delivered: map<nat, (nat, Option<nat>)>, emitted: map<nat, seq<nat>>, closed: map<nat, Receipt>): State {
    State(map[1 := job], CONNECTED, 2, if pump.Some? then map[0 := pump.value] else map[], delivered, emitted, closed, ORGS)
  }

  const SENT: map<nat, (nat, Option<nat>)> := map[1 := (1, Some(1))]

  lemma Connects() returns (steps: seq<Step>, s: State)
    ensures s == Exec(steps) == INITIAL.(runners := CONNECTED, nextConnection := 2, orgs := ORGS)
  {
    hide Exec;
    Nothing();
    steps, s := Next([], INITIAL, AddRunner(1, 5));
    assert s == INITIAL.(runners := map[1 := None], orgs := ORGS);
    steps, s := Next(steps, s, Begin(1));
    assert s.jobs == map[];
  }

  lemma Reserves(before: seq<Step>, t: State) returns (steps: seq<Step>, s: State)
    requires t == Exec(before) == INITIAL.(runners := CONNECTED, nextConnection := 2, orgs := ORGS)
    ensures s == Exec(steps) == Of(JobAt(Pending, Some(1), map[], None), Some(Pump(1, 1, Some(1), Reserved)), map[], map[], map[])
  {
    hide Exec, InterruptAll;
    steps, s := Next(before, t, AddJob(1, {}, 5));
    assert s == Of(JobAt(Pending, None, map[], None), None, map[], map[], map[]);
    steps, s := Next(steps, s, Claim(0, 1, Some(1), 1));
  }

  lemma Delivers(before: seq<Step>, t: State) returns (steps: seq<Step>, s: State)
    requires t == Exec(before) == Of(JobAt(Pending, Some(1), map[], None), Some(Pump(1, 1, Some(1), Reserved)), map[], map[], map[])
    ensures s == Exec(steps) == Of(JobAt(Running, Some(1), map[], None), None, SENT, map[1 := []], map[])
  {
    hide Exec, InterruptAll;
    steps, s := Next(before, t, Start(0, true, true));
    assert s == Of(JobAt(Running, Some(1), map[], None), Some(Pump(1, 1, Some(1), Started)), map[], map[], map[]);
    steps, s := Next(steps, s, Deliver(0, true));
  }

  lemma Prints(before: seq<Step>, t: State) returns (steps: seq<Step>, s: State)
    requires t == Exec(before) == Of(JobAt(Running, Some(1), map[], None), None, SENT, map[1 := []], map[])
    ensures s == Exec(steps) == Of(JobAt(Running, Some(1), map[], None), None, SENT, map[1 := [42]], map[])
  {
    hide Exec, InterruptAll, AppendTx, ReceiptTx;
    steps, s := Next(before, t, Emit(1, 42));
    assert t.emitted[1] + [42] == [42];
    assert s.emitted == map[1 := [42]];
  }

  lemma Appends(before: seq<Step>, t: State) returns (steps: seq<Step>, s: State)
    requires t == Exec(before) == Of(JobAt(Running, Some(1), map[], None), None, SENT, map[1 := [42]], map[])
    ensures s == Exec(steps) == Of(JobAt(Running, Some(1), PRINTED, None), None, SENT, map[1 := [42]], map[])
  {
    hide Exec, InterruptAll, ReceiptTx;
    steps, s := Next(before, t, Frame(1, 1, 1, 1, "hello", 42));
  }

  lemma Closes(before: seq<Step>, t: State) returns (steps: seq<Step>, s: State)
    requires t == Exec(before) == Of(JobAt(Running, Some(1), PRINTED, None), None, SENT, map[1 := [42]], map[])
    ensures s == Exec(steps) == Of(JobAt(Running, Some(1), PRINTED, None), None, SENT, map[1 := [42]], map[1 := RECEIPT])
  {
    hide Exec, InterruptAll, AppendTx, ReceiptTx;
    steps, s := Next(before, t, Close(1, Success, 9));
  }

  /** A run to a journal that its receipt closed, with all that the runner printed. */
  lemma AJournalCloses() returns (steps: seq<Step>)
    ensures Exec(steps) == Of(JobAt(Success, Some(1), PRINTED, Some(RECEIPT)), None, SENT, map[1 := [42]], map[1 := RECEIPT])
  {
    hide Exec, InterruptAll, AppendTx;
    var s;
    steps, s := Connects();
    steps, s := Reserves(steps, s);
    steps, s := Delivers(steps, s);
    steps, s := Prints(steps, s);
    steps, s := Appends(steps, s);
    steps, s := Closes(steps, s);
    steps, s := Next(steps, s, Report(1, 1, 1, Success, Some(1), 9));
  }
}
