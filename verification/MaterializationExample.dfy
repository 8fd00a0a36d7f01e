/** One credential is prepared, handed out and revoked: both ends of the protocol are reached. */
module MaterializationExample {
  import opened Wrappers
  import opened Expiry
  import opened Materialization
  import opened Traces

  const REQUEST: Intent := Intent(0, 12 * MINUTE)
  const UNTIL: Instant := 10 * MINUTE
  const LUCK: Luck := Luck(0, UNTIL, true, true)

  const FIRST: Row := Row(REQUEST, Intended, 0, false, None)

  function Stored(phase: Phase, uid: nat, closed: bool): Row { Row(REQUEST, phase, uid, closed, Some(UNTIL)) }

  /** The world once the Secret is there. */
  function Created(row: Row): World { World(Some(row), Some(Secret(1, true)), [Made(1)], {}, {}, 2, false) }

  const GONE: World := World(Some(Stored(Absent, 1, true)), None, [Made(1)], {1}, {1}, 2, true)

  const HOLDER: Process := Process(REQUEST, Prepared(UNTIL), FIRST, false)

  lemma Next(steps: seq<Step>, s: State, e: Step) returns (more: seq<Step>, s': State)
    requires s == Exec(steps)
    ensures more == steps + [e] && s' == Do(s, e) == Exec(more)
  {
    EndOfNext(Do, INITIAL, steps, e);
    more, s' := steps + [e], Do(s, e);
  }

  lemma Creates() returns (steps: seq<Step>, s: State)
    ensures s == Exec(steps) == State(Created(Stored(Creating, 0, false)), map[0 := HOLDER.(at := Awaiting(0))])
  {
    hide Exec;
    steps, s := [], INITIAL;
    Nothing();
    steps, s := Next(steps, s, Prepare(0, REQUEST));
    steps, s := Next(steps, s, Go(0, LUCK));
    steps, s := Next(steps, s, Go(0, LUCK));
    steps, s := Next(steps, s, Go(0, LUCK));
    assert s == State(World(Some(Stored(Creating, 0, false)), None, [], {}, {}, 1, false), map[0 := HOLDER.(at := MayCreate)]);
    steps, s := Next(steps, s, Go(0, LUCK));
    steps, s := Next(steps, s, Applies(0));
  }

  lemma Nothing()
    ensures Exec([]) == INITIAL
  {
    EndOfNone(Do, INITIAL);
  }

  lemma Prepares() returns (steps: seq<Step>, s: State)
    ensures s == Exec(steps) == State(Created(Stored(Materialized, 1, false)), map[0 := HOLDER])
  {
    hide Exec;
    steps, s := Creates();
    steps, s := Next(steps, s, Go(0, LUCK));
    steps, s := Next(steps, s, Go(0, LUCK));
    steps, s := Next(steps, s, Go(0, LUCK));
    assert s == State(Created(Stored(Materialized, 1, false)), map[0 := HOLDER.(at := Recording(Secret(1, true), Reread))]);
    steps, s := Next(steps, s, Go(0, LUCK));
    steps, s := Next(steps, s, Go(0, LUCK));
  }

  function Revoker(at: Point): Process { Process(REQUEST, at, Stored(Materialized, 1, true), true) }

  lemma Closes(steps: seq<Step>, s: State) returns (more: seq<Step>, s': State)
    requires s == Exec(steps) == State(Created(Stored(Materialized, 1, false)), map[0 := HOLDER])
    ensures steps <= more
    ensures s' == Exec(more) == State(Created(Stored(Materialized, 1, true)).(fenced := true), map[0 := HOLDER, 1 := Revoker(Recording(Secret(1, true), Delete))])
  {
    hide Exec;
    more, s' := Next(steps, s, Revoke(1, REQUEST));
    more, s' := Next(more, s', Go(1, LUCK));
    more, s' := Next(more, s', Go(1, LUCK));
    more, s' := Next(more, s', Go(1, LUCK));
  }

  lemma Removes(steps: seq<Step>, s: State) returns (more: seq<Step>, s': State)
    requires s == Exec(steps) == State(Created(Stored(Materialized, 1, true)).(fenced := true), map[0 := HOLDER, 1 := Revoker(Recording(Secret(1, true), Delete))])
    ensures steps <= more
    ensures s' == Exec(more) == State(GONE.(row := Some(Stored(Materialized, 1, true))), map[0 := HOLDER, 1 := Revoker(Confirming(1))])
  {
    hide Exec;
    more, s' := Next(steps, s, Go(1, LUCK));
    more, s' := Next(more, s', Go(1, LUCK));
    more, s' := Next(more, s', Deletes);
  }

  /** A run in which a process has its credential, and after which another has revoked it. */
  lemma PreparedThenRevoked() returns (steps: seq<Step>, more: seq<Step>)
    ensures steps <= more && Exec(steps) == State(Created(Stored(Materialized, 1, false)), map[0 := HOLDER])
    ensures Exec(more) == State(GONE, map[0 := HOLDER, 1 := Revoker(Revoked)])
  {
    hide Exec;
    var s;
    steps, s := Prepares();
    more, s := Closes(steps, s);
    more, s := Removes(more, s);
    more, s := Next(more, s, Go(1, LUCK));
    more, s := Next(more, s, Go(1, LUCK));
  }
}
