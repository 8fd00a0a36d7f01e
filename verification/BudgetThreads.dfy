/**
 The budget's counters under concurrency: `add` and `Check` of `internal/agents/budget.go` as the
 atomic loads, stores and compare-and-swaps of any number of goroutines. What was asked of a counter
 is read off the run itself: the deltas of the additions that were called.
 */
module BudgetThreads {
  import opened Budget
  import opened Traces

  datatype Which = Tokens | Cost

  /** `Adding` is the head of the loop; a thread at `Swapping` has read `seen` and, if the sum does not fit, raised the flag. */
  datatype Thread =
    | Adding(counter: Which, n: Int64)
    | Raising(counter: Which, delta: Amount, seen: Amount)
    | Swapping(counter: Which, delta: Amount, seen: Amount)
    | Checking(tokenLimit: Int64, costLimit: Int64)
    | Flagged(tokenLimit: Int64, costLimit: Int64)
    | TokensRead(tokenLimit: Int64, costLimit: Int64)
    | Passed(tokenLimit: Int64, costLimit: Int64)

  /** What a counter can hold: it starts at zero and refuses negative deltas. */
  type Amount = x: int | 0 <= x <= MAX

  datatype State = State(tokens: Amount, cost: Amount, overflow: bool, threads: map<nat, Thread>)

  const INITIAL: State := State(0, 0, false, map[])

  datatype Step =
    | Add(tid: nat, counter: Which, n: Int64)
    | Check(tid: nat, tokenLimit: Int64, costLimit: Int64)
    | Mark
    | Go(tid: nat)

  function Value(s: State, c: Which): Amount { if c == Tokens then s.tokens else s.cost }

  function WithValue(s: State, c: Which, value: Amount): State { if c == Tokens then s.(tokens := value) else s.(cost := value) }

  function Leave(s: State, tid: nat): State { s.(threads := s.threads - {tid}) }

  function Move(s: State, tid: nat, t: Thread): State { s.(threads := s.threads[tid := t]) }

  /** One atomic operation of one goroutine. */
  function DoGo(s: State, tid: nat): State {
    if tid !in s.threads then s
    else match s.threads[tid]
      case Adding(c, n) =>
        if n < 0 then Leave(s.(overflow := true), tid)
        else
          var seen := Value(s, c);
          Move(s, tid, if n > MAX - seen then Raising(c, n, seen) else Swapping(c, n, seen))
      case Raising(c, n, seen) => Move(s.(overflow := true), tid, Swapping(c, n, seen))
      case Swapping(c, n, seen) =>
        if Value(s, c) != seen then Move(s, tid, Adding(c, n))
        else Leave(WithValue(s, c, if n > MAX - seen then MAX else seen + n), tid)
      case Checking(tl, cl) => if s.overflow then Leave(s, tid) else Move(s, tid, Flagged(tl, cl))
      case Flagged(tl, cl) => if s.tokens > tl then Leave(s, tid) else Move(s, tid, TokensRead(tl, cl))
      case TokensRead(tl, cl) => if cl > 0 && s.cost > cl then Leave(s, tid) else Move(s, tid, Passed(tl, cl))
      case Passed(_, _) => s
  }

  function Do(s: State, e: Step): State {
    match e
    case Add(tid, c, n) => if tid in s.threads then s else Move(s, tid, Adding(c, n))
    case Check(tid, tl, cl) => if tid in s.threads then s else Move(s, tid, Checking(tl, cl))
    case Mark => s.(overflow := true)
    case Go(tid) => DoGo(s, tid)
  }

  ghost function Exec(steps: seq<Step>): State { EndOf(Do, INITIAL, steps) }

  // ----- what was asked for -----

  /** The deltas of one counter added up, or the number of negative deltas. */
  datatype Measure = Sum(counter: Which) | Negatives

  function Delta(c: Which, n: Int64, m: Measure): nat {
    match m
    case Sum(counter) => if c == counter && n >= 0 then n else 0
    case Negatives => if n < 0 then 1 else 0
  }

  /** What a step asks for: only the call of `add` does. */
  function Issued(s: State, e: Step, m: Measure): nat {
    if e.Add? && e.tid !in s.threads then Delta(e.counter, e.n, m) else 0
  }

  /** All that was ever asked for in a run. */
  ghost function Requested(steps: seq<Step>, m: Measure): nat {
    if steps == [] then 0
    else
      var before := steps[..|steps| - 1];
      Requested(before, m) + Issued(Exec(before), steps[|steps| - 1], m)
  }

  function Weight(t: Thread, m: Measure): nat {
    if t.Adding? then Delta(t.counter, t.n, m) else if t.Raising? || t.Swapping? then Delta(t.counter, t.delta, m) else 0
  }

  /** What calls of `add` that have not returned still carry. */
  ghost function InFlight(threads: map<nat, Thread>, m: Measure): nat {
    if threads == map[] then 0
    else
      var tid :| tid in threads;
      Weight(threads[tid], m) + InFlight(threads - {tid}, m)
  }

  /** What the calls of `add` that returned had asked for. */
  ghost function Completed(steps: seq<Step>, m: Measure): int {
    Requested(steps, m) - InFlight(Exec(steps).threads, m)
  }

  lemma {:induction false} InFlightSplits(threads: map<nat, Thread>, m: Measure, tid: nat)
    requires tid in threads
    ensures InFlight(threads, m) == Weight(threads[tid], m) + InFlight(threads - {tid}, m)
  {
    var q :| q in threads && InFlight(threads, m) == Weight(threads[q], m) + InFlight(threads - {q}, m);
    if q != tid {
      InFlightSplits(threads - {q}, m, tid);
      InFlightSplits(threads - {tid}, m, q);
      assert threads - {q} - {tid} == threads - {tid} - {q};
    }
  }

  lemma InFlightMoves(threads: map<nat, Thread>, m: Measure, tid: nat, t: Thread)
    ensures InFlight(threads[tid := t], m) == Weight(t, m) + InFlight(threads - {tid}, m)
  {
    InFlightSplits(threads[tid := t], m, tid);
    assert threads[tid := t] - {tid} == threads - {tid};
  }

  lemma {:induction false} NoneInFlight(threads: map<nat, Thread>, m: Measure)
    requires forall tid :: tid in threads ==> Weight(threads[tid], m) == 0
    ensures InFlight(threads, m) == 0
  {
    if threads != map[] {
      var tid :| tid in threads && InFlight(threads, m) == Weight(threads[tid], m) + InFlight(threads - {tid}, m);
      NoneInFlight(threads - {tid}, m);
    }
  }

  /** What a step lets go of: a negative delta refused, or a swap that took place. */
  function Settled(s: State, e: Step, m: Measure): nat {
    if !e.Go? || e.tid !in s.threads then 0
    else match s.threads[e.tid]
      case Adding(c, n) => if n < 0 && m == Negatives then 1 else 0
      case Swapping(c, n, seen) => if Value(s, c) == seen && m == Sum(c) then n else 0
      case _ => 0
  }

  /** What a thread carries it keeps, hands to its counter, or is refused. */
  lemma GoWeighs(s: State, tid: nat, m: Measure)
    requires tid in s.threads
    ensures var w, kept, s' := Weight(s.threads[tid], m), s.threads - {tid}, DoGo(s, tid);
            if tid in s'.threads then s'.threads == s.threads[tid := s'.threads[tid]] && w == Weight(s'.threads[tid], m) + Settled(s, Go(tid), m)
            else s'.threads == kept && w == Settled(s, Go(tid), m)
  {
  }

  /** Every step passes on what it does not let go of. */
  lemma StepConserves(s: State, e: Step, m: Measure)
    ensures InFlight(s.threads, m) + Issued(s, e, m) == InFlight(Do(s, e).threads, m) + Settled(s, e, m)
  {
    hide DoGo;
    match e
    case Go(tid) => GoConserves(s, tid, m);
    case Add(tid, c, n) => if tid !in s.threads { InFlightMoves(s.threads, m, tid, Adding(c, n)); assert s.threads - {tid} == s.threads; }
    case Check(tid, tl, cl) => if tid !in s.threads { InFlightMoves(s.threads, m, tid, Checking(tl, cl)); assert s.threads - {tid} == s.threads; }
    case Mark =>
  }

  lemma GoConserves(s: State, tid: nat, m: Measure)
    ensures InFlight(s.threads, m) == InFlight(DoGo(s, tid).threads, m) + Settled(s, Go(tid), m)
  {
    if tid in s.threads {
      hide DoGo, Settled, Weight;
      GoWeighs(s, tid, m);
      InFlightSplits(s.threads, m, tid);
      if tid in DoGo(s, tid).threads { InFlightMoves(s.threads, m, tid, DoGo(s, tid).threads[tid]); }
    }
  }

  lemma ExecNone()
    ensures Exec([]) == INITIAL
  {
    EndOfNone(Do, INITIAL);
  }

  lemma CompletedNone(m: Measure)
    ensures Completed([], m) == 0
  {
    ExecNone();
    NoneInFlight(map[], m);
  }

  lemma CompletedNext(steps: seq<Step>, e: Step, m: Measure)
    ensures Exec(steps + [e]) == Do(Exec(steps), e)
    ensures Requested(steps + [e], m) == Requested(steps, m) + Issued(Exec(steps), e, m)
    ensures Completed(steps + [e], m) == Completed(steps, m) + Settled(Exec(steps), e, m)
  {
    hide Do, Issued, Settled;
    EndOfNext(Do, INITIAL, steps, e);
    assert (steps + [e])[..|steps + [e]| - 1] == steps;
    StepConserves(Exec(steps), e, m);
  }

  // ----- what every step keeps -----

  /** A thread that does not fit holds a value that its counter had; it raises the flag before it swaps. */
  predicate ThreadSound(s: State, t: Thread) {
    match t
    case Raising(c, n, seen) => n > MAX - seen && seen <= Value(s, c)
    case Swapping(_, n, seen) => n > MAX - seen ==> s.overflow
    case _ => true
  }

  predicate Inv(s: State) { forall tid :: tid in s.threads ==> ThreadSound(s, s.threads[tid]) }

  /** Counters grow and the flag stays up. */
  predicate Grows(s: State, s': State) { s.tokens <= s'.tokens && s.cost <= s'.cost && (s.overflow ==> s'.overflow) }

  lemma StepKeepsInv(s: State, e: Step)
    requires Inv(s)
    ensures Inv(Do(s, e)) && Grows(s, Do(s, e))
  {
    var s' := Do(s, e);
    if e.Go? && e.tid in s.threads { assert ThreadSound(s, s.threads[e.tid]); }
    assert Grows(s, s');
    forall q | q in s'.threads ensures ThreadSound(s', s'.threads[q]) {
      if q in s.threads { assert ThreadSound(s, s.threads[q]); }
    }
  }

  /** The invariant holds at first, and every step keeps it. */
  lemma AllKeepInv()
    ensures Inv(INITIAL) && forall s, e :: Inv(s) ==> Inv(Do(s, e))
  {
    hide Do;
    forall s, e | Inv(s) ensures Inv(Do(s, e)) { hide Inv; StepKeepsInv(s, e); }
  }

  lemma RunKeepsInv(steps: seq<Step>)
    ensures Inv(Exec(steps))
  {
    hide Do, Inv;
    AllKeepInv();
    Always(Do, INITIAL, s => Inv(s), steps);
  }

  // ----- no addition is lost -----

  /** The counter shows what was asked of it and came through, cut off at the largest value, and every cut is flagged. */
  predicate Tallied(s: State, c: Which, sum: int) {
    sum >= 0 && Value(s, c) == (if sum > MAX then MAX else sum) && (sum > MAX ==> s.overflow)
  }

  lemma StepTallies(s: State, e: Step, c: Which, sum: int)
    requires Inv(s) && Tallied(s, c, sum)
    ensures Tallied(Do(s, e), c, sum + Settled(s, e, Sum(c)))
  {
    if e.Go? && e.tid in s.threads { assert ThreadSound(s, s.threads[e.tid]); }
  }

  lemma {:induction false} RunTallies(steps: seq<Step>, c: Which)
    ensures Tallied(Exec(steps), c, Completed(steps, Sum(c)))
    ensures Completed(steps, Negatives) >= 0 && (Completed(steps, Negatives) > 0 ==> Exec(steps).overflow)
  {
    hide Do, Inv, Settled, Completed, Exec;
    if steps == [] {
      AtFirst(c);
    } else {
      var before, e := steps[..|steps| - 1], steps[|steps| - 1];
      assert steps == before + [e];
      RunTallies(before, c);
      RunKeepsInv(before);
      CompletedNext(before, e, Sum(c));
      CompletedNext(before, e, Negatives);
      StepTallies(Exec(before), e, c, Completed(before, Sum(c)));
      StepKeepsInv(Exec(before), e);
      RefusalRaises(Exec(before), e);
    }
  }

  lemma AtFirst(c: Which)
    ensures Tallied(Exec([]), c, Completed([], Sum(c))) && Completed([], Negatives) == 0
  {
    hide Completed;
    EndOfNone(Do, INITIAL);
    CompletedNone(Sum(c));
    CompletedNone(Negatives);
  }

  lemma RefusalRaises(s: State, e: Step)
    ensures Settled(s, e, Negatives) > 0 ==> Do(s, e).overflow
  {
  }

  /** No call of `add` on this counter is between its first and last operation. */
  predicate Quiet(s: State, c: Which) {
    forall tid :: tid in s.threads && (s.threads[tid].Adding? || s.threads[tid].Raising? || s.threads[tid].Swapping?) ==> s.threads[tid].counter != c
  }

  /**
   No addition is lost: a counter is the sum of the deltas whose calls returned, and with no call
   under way of all that were asked for, cut off at the largest value. A cut, or the return of a call
   with a negative delta, is flagged.
   */
  lemma CountersAreSums(steps: seq<Step>, c: Which)
    ensures var s := Exec(steps); var sum := Completed(steps, Sum(c));
            && 0 <= sum <= Requested(steps, Sum(c)) && Value(s, c) == (if sum > MAX then MAX else sum)
            && (Quiet(s, c) ==> sum == Requested(steps, Sum(c)))
            && (sum > MAX || Completed(steps, Negatives) > 0 ==> s.overflow)
  {
    hide Exec;
    RunTallies(steps, c);
    if Quiet(Exec(steps), c) { NoneInFlight(Exec(steps).threads, Sum(c)); }
  }

  // ----- the flag is raised for a reason -----

  /** Somebody marked the budget, or a delta was negative, or more was asked of a counter than it holds. */
  ghost predicate Cause(steps: seq<Step>) {
    Mark in steps || Requested(steps, Negatives) > 0 || Requested(steps, Sum(Tokens)) > MAX || Requested(steps, Sum(Cost)) > MAX
  }

  lemma CauseStays(steps: seq<Step>, e: Step)
    requires Cause(steps)
    ensures Cause(steps + [e])
  {
    hide Completed, Issued, Settled;
    CompletedNext(steps, e, Negatives);
    CompletedNext(steps, e, Sum(Tokens));
    CompletedNext(steps, e, Sum(Cost));
  }

  /** A thread raises the flag only if its delta is negative, or with its counter's value does not fit. */
  lemma RaiseIsCaused(steps: seq<Step>, e: Step)
    requires !Exec(steps).overflow && Do(Exec(steps), e).overflow
    ensures Cause(steps + [e])
  {
    hide Completed, Tallied;
    var s := Exec(steps);
    if e == Mark {
      assert (steps + [e])[|steps|] == Mark;
    } else {
      var t := s.threads[e.tid];
      RunKeepsInv(steps);
      assert ThreadSound(s, t);
      var m := if t.Adding? then Negatives else Sum(t.counter);
      InFlightSplits(s.threads, m, e.tid);
      RunTallies(steps, t.counter);
      CarriedIsRequested(steps, t.counter);
      CauseStays(steps, e);
    }
  }

  lemma CarriedIsRequested(steps: seq<Step>, c: Which)
    ensures Value(Exec(steps), c) + InFlight(Exec(steps).threads, Sum(c)) <= Requested(steps, Sum(c))
    ensures InFlight(Exec(steps).threads, Negatives) <= Requested(steps, Negatives)
  {
    hide Exec;
    RunTallies(steps, c);
  }

  lemma {:induction false} FlagHasCause(steps: seq<Step>)
    ensures Exec(steps).overflow ==> Cause(steps)
  {
    hide Do, Cause, Exec;
    if steps == [] {
      ExecNone();
    } else {
      var before, e := steps[..|steps| - 1], steps[|steps| - 1];
      assert steps == before + [e];
      CompletedNext(before, e, Negatives);
      FlagHasCause(before);
      if Exec(before).overflow { CauseStays(before, e); } else if Exec(steps).overflow { RaiseIsCaused(before, e); }
    }
  }

  lemma MarkRaises(steps: seq<Step>)
    requires Mark in steps
    ensures Exec(steps).overflow
  {
    hide Do, Exec;
    var before, e := steps[..|steps| - 1], steps[|steps| - 1];
    assert steps == before + [e];
    CompletedNext(before, e, Negatives);
    RunKeepsInv(before);
    StepKeepsInv(Exec(before), e);
    if e == Mark { Marked(Exec(before)); } else { MarkRaises(before); }
  }

  lemma Marked(s: State)
    ensures Do(s, Mark).overflow
  {
  }

  /** The flag never goes up without a cause, and once every call has returned it is up exactly when there is one. */
  lemma OverflowIsExact(steps: seq<Step>)
    ensures Exec(steps).overflow ==> Cause(steps)
    ensures Quiet(Exec(steps), Tokens) && Quiet(Exec(steps), Cost) ==> (Exec(steps).overflow <==> Cause(steps))
  {
    hide Exec;
    FlagHasCause(steps);
    CountersAreSums(steps, Tokens);
    CountersAreSums(steps, Cost);
    if Mark in steps { MarkRaises(steps); }
    if Quiet(Exec(steps), Tokens) && Quiet(Exec(steps), Cost) { NoneInFlight(Exec(steps).threads, Negatives); }
  }

  // ----- what a check proves -----

  /** After these steps the thread is at this point. */
  ghost predicate At(steps: seq<Step>, tid: nat, t: Thread) { tid in Exec(steps).threads && Exec(steps).threads[tid] == t }

  /** The load that a checking thread is at lets it pass. */
  predicate LetsPass(s: State, t: Thread) {
    match t
    case Checking(_, _) => !s.overflow
    case Flagged(tl, _) => s.tokens <= tl
    case TokensRead(_, cl) => cl > 0 ==> s.cost <= cl
    case _ => false
  }

  function PastLoad(t: Thread): Thread {
    match t
    case Checking(tl, cl) => Flagged(tl, cl)
    case Flagged(tl, cl) => TokensRead(tl, cl)
    case TokensRead(tl, cl) => Passed(tl, cl)
    case _ => t
  }

  lemma LoadStep(s: State, e: Step, tid: nat, was: Thread)
    requires was.Checking? || was.Flagged? || was.TokensRead?
    requires tid in Do(s, e).threads && Do(s, e).threads[tid] == PastLoad(was)
    ensures tid in s.threads && (s.threads[tid] == PastLoad(was) || (s.threads[tid] == was && LetsPass(s, was)))
  {
  }

  /** A thread that is past a load of its check was at that load, and the load let it pass. */
  lemma {:induction false} Loaded(steps: seq<Step>, tid: nat, was: Thread) returns (i: nat)
    requires (was.Checking? || was.Flagged? || was.TokensRead?) && At(steps, tid, PastLoad(was))
    ensures i < |steps| && At(steps[..i], tid, was) && LetsPass(Exec(steps[..i]), was)
  {
    hide Do, LetsPass, PastLoad;
    if steps == [] {
      Idle(tid, PastLoad(was));
    } else {
      i := |steps| - 1;
      assert steps == steps[..i] + [steps[i]];
      EndOfNext(Do, INITIAL, steps[..i], steps[i]);
      LoadStep(Exec(steps[..i]), steps[i], tid, was);
      if At(steps[..i], tid, PastLoad(was)) {
        var k := Loaded(steps[..i], tid, was);
        assert steps[..i][..k] == steps[..k];
        i := k;
      }
    }
  }

  lemma Idle(tid: nat, t: Thread)
    ensures !At([], tid, t)
  {
    ExecNone();
  }

  lemma {:induction false} CompletedGrows(steps: seq<Step>, i: nat, m: Measure)
    requires i <= |steps|
    ensures Completed(steps[..i], m) <= Completed(steps, m)
  {
    hide Do, Completed, Settled;
    if i == |steps| {
      assert steps[..i] == steps;
    } else {
      var before, e := steps[..|steps| - 1], steps[|steps| - 1];
      assert steps == before + [e] && before[..i] == steps[..i];
      CompletedGrows(before, i, m);
      CompletedNext(before, e, m);
    }
  }

  /**
   A check that passes was at its three loads after i, j and k steps. When it began, no negative
   delta had come through and both sums were within their limits; they still were when it read
   their counters, unless a limit is the largest value itself.
   */
  lemma CheckIsSound(steps: seq<Step>, tid: nat) returns (i: nat, j: nat, k: nat)
    requires tid in Exec(steps).threads && Exec(steps).threads[tid].Passed?
    ensures var t := Exec(steps).threads[tid]; var (tl, cl) := (t.tokenLimit, t.costLimit);
            && i < j < k < |steps|
            && At(steps[..i], tid, Checking(tl, cl)) && At(steps[..j], tid, Flagged(tl, cl)) && At(steps[..k], tid, TokensRead(tl, cl))
            && Completed(steps[..i], Negatives) == 0
            && Completed(steps[..i], Sum(Tokens)) <= tl && (tl < MAX ==> Completed(steps[..j], Sum(Tokens)) <= tl)
            && (cl > 0 ==> Completed(steps[..i], Sum(Cost)) <= cl && (cl < MAX ==> Completed(steps[..k], Sum(Cost)) <= cl))
  {
    hide Exec, Completed;
    var t := Exec(steps).threads[tid];
    k := Loaded(steps, tid, TokensRead(t.tokenLimit, t.costLimit));
    j := Loaded(steps[..k], tid, Flagged(t.tokenLimit, t.costLimit));
    assert steps[..k][..j] == steps[..j];
    i := Loaded(steps[..j], tid, Checking(t.tokenLimit, t.costLimit));
    assert steps[..j][..i] == steps[..i] && steps[..k][..i] == steps[..i];
    CountersAreSums(steps[..i], Tokens);
    CountersAreSums(steps[..i], Cost);
    RunTallies(steps[..i], Tokens);
    CountersAreSums(steps[..j], Tokens);
    CountersAreSums(steps[..k], Cost);
    CompletedGrows(steps[..j], i, Sum(Tokens));
    CompletedGrows(steps[..k], i, Sum(Cost));
  }

  /** The next operation of this thread reads the counter against this limit, and passes. */
  ghost predicate Reads(steps: seq<Step>, tid: nat, c: Which, limit: Int64) {
    && tid in Exec(steps).threads
    && (if c == Tokens then Exec(steps).threads[tid].Flagged? && Exec(steps).threads[tid].tokenLimit == limit
        else Exec(steps).threads[tid].TokensRead? && Exec(steps).threads[tid].costLimit == limit)
    && tid in DoGo(Exec(steps), tid).threads
  }

  /** A passing read bounds the sum at that moment exactly for limits below the largest value, and for costs above zero. */
  lemma LimitIsExact(c: Which, limit: Int64)
    ensures (forall steps, tid :: Reads(steps, tid, c, limit) ==> Completed(steps, Sum(c)) <= limit)
            <==> limit < MAX && (c == Cost ==> limit > 0)
  {
    hide Exec, Completed;
    if limit < MAX && (c == Cost ==> limit > 0) {
      forall steps, tid | Reads(steps, tid, c, limit) ensures Completed(steps, Sum(c)) <= limit { CountersAreSums(steps, c); }
    } else {
      var steps := BlindLimit(c, limit);
    }
  }

  /** A check passes with a sum beyond its limit: two additions overflow the counter after its first load. */
  lemma BlindLimit(c: Which, limit: Int64) returns (steps: seq<Step>)
    requires limit == MAX || (c == Cost && limit <= 0)
    ensures Reads(steps, 0, c, limit) && Completed(steps, Sum(c)) == MAX + 1
    ensures At(steps + (if c == Tokens then [Go(0), Go(0)] else [Go(0)]), 0, if c == Tokens then Passed(MAX, 0) else Passed(0, limit))
  {
    hide Exec, Completed;
    var tl: Int64, cl: Int64 := if c == Tokens then MAX else 0, if c == Tokens then 0 else limit;
    var s := INITIAL;
    steps := [];
    ExecNone();
    CompletedNone(Sum(c));
    steps, s := Next(steps, s, Check(0, tl, cl), c);
    steps, s := Next(steps, s, Go(0), c);
    if c == Cost { steps, s := Next(steps, s, Go(0), c); }
    var t := if c == Tokens then Flagged(tl, cl) else TokensRead(tl, cl);
    assert s == State(0, 0, false, map[0 := t]);
    steps, s := Flood(steps, t, c);
    var more, s' := Next(steps, s, Go(0), c);
    if c == Tokens {
      assert steps + [Go(0), Go(0)] == more + [Go(0)];
      more, s' := Next(more, s', Go(0), c);
    }
  }

  lemma Flood(steps: seq<Step>, t: Thread, c: Which) returns (more: seq<Step>, s: State)
    requires Exec(steps) == State(0, 0, false, map[0 := t]) && Completed(steps, Sum(c)) == 0
    ensures s == Exec(more) == WithValue(State(0, 0, true, map[0 := t]), c, MAX) && Completed(more, Sum(c)) == MAX + 1
  {
    hide Exec, Completed;
    more, s := Next(steps, Exec(steps), Add(1, c, MAX), c);
    more, s := Next(more, s, Go(1), c);
    more, s := Next(more, s, Go(1), c);
    assert s.threads == map[0 := t];
    more, s := Next(more, s, Add(2, c, 1), c);
    more, s := Next(more, s, Go(2), c);
    more, s := Next(more, s, Go(2), c);
    more, s := Next(more, s, Go(2), c);
    assert s.threads == map[0 := t];
  }

  lemma Next(steps: seq<Step>, s: State, e: Step, c: Which) returns (more: seq<Step>, s': State)
    requires s == Exec(steps)
    ensures more == steps + [e] && s' == Do(s, e) == Exec(more)
    ensures Completed(more, Sum(c)) == Completed(steps, Sum(c)) + Settled(s, e, Sum(c))
  {
    more, s' := steps + [e], Do(s, e);
    CompletedNext(steps, e, Sum(c));
  }

  // ----- one goroutine that nothing disturbs -----

  lemma Ends(steps: seq<Step>, s: State, e: Step, s': State) returns (more: seq<Step>)
    requires s == Exec(steps) && s' == Do(s, e)
    ensures more == steps + [e] && Exec(more) == s'
  {
    EndOfNext(Do, INITIAL, steps, e);
    more := steps + [e];
  }

  /** A check alone passes exactly while the flag is down and both counters are within their limits; it changes nothing. */
  lemma ChecksExactly(steps: seq<Step>, tid: nat, tl: Int64, cl: Int64)
    requires tid !in Exec(steps).threads
    ensures var s, s' := Exec(steps), Exec(steps + [Check(tid, tl, cl), Go(tid), Go(tid), Go(tid)]);
            s' == if !s.overflow && s.tokens <= tl && (cl <= 0 || s.cost <= cl) then Move(s, tid, Passed(tl, cl)) else s
  {
    hide Exec;
    var s := Exec(steps);
    var more := Ends(steps, s, Check(tid, tl, cl), Move(s, tid, Checking(tl, cl)));
    var t0 := Exec(more);
    more := Ends(more, t0, Go(tid), Do(t0, Go(tid)));
    var t1 := Exec(more);
    assert t1 == if s.overflow then s else Move(s, tid, Flagged(tl, cl));
    more := Ends(more, t1, Go(tid), Do(t1, Go(tid)));
    var t2 := Exec(more);
    assert t2 == if s.overflow || s.tokens > tl then s else Move(s, tid, TokensRead(tl, cl));
    more := Ends(more, t2, Go(tid), Do(t2, Go(tid)));
    assert more == steps + [Check(tid, tl, cl), Go(tid), Go(tid), Go(tid)];
  }

  /** An addition alone adds its delta, cut off and flagged if it does not fit; a negative one is only flagged. */
  lemma AddsExactly(steps: seq<Step>, tid: nat, c: Which, n: Int64)
    requires tid !in Exec(steps).threads
    ensures var s, s' := Exec(steps), Exec(steps + [Add(tid, c, n), Go(tid), Go(tid), Go(tid)]);
            s' == if n < 0 then s.(overflow := true)
                  else if Value(s, c) + n > MAX then WithValue(s, c, MAX).(overflow := true)
                  else WithValue(s, c, Value(s, c) + n)
  {
    hide Exec;
    var s := Exec(steps);
    var more := Ends(steps, s, Add(tid, c, n), Move(s, tid, Adding(c, n)));
    var t0 := Exec(more);
    more := Ends(more, t0, Go(tid), Do(t0, Go(tid)));
    var t1 := Exec(more);
    var seen := Value(s, c);
    assert t1 == if n < 0 then s.(overflow := true) else Move(s, tid, if n > MAX - seen then Raising(c, n, seen) else Swapping(c, n, seen));
    more := Ends(more, t1, Go(tid), Do(t1, Go(tid)));
    var t2 := Exec(more);
    assert t2 == if n < 0 then s.(overflow := true) else if n > MAX - seen then Move(s.(overflow := true), tid, Swapping(c, n, seen)) else WithValue(s, c, seen + n);
    more := Ends(more, t2, Go(tid), Do(t2, Go(tid)));
    assert more == steps + [Add(tid, c, n), Go(tid), Go(tid), Go(tid)];
  }
}
