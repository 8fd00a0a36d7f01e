/** The order of a workflow's jobs: `TopoSort` of `internal/ci/workflow.go`, Kahn's algorithm with the least name first. */
module Workflow {
  import opened Wrappers
  import opened Names

  /** A workflow maps each job to its needs; a need may be listed twice. */
  type Jobs = map<string, seq<string>>

  // ----- the specification -----

  predicate Has(order: seq<string>, name: string) { name in order }

  predicate NeedsDone(needs: seq<string>, order: seq<string>) { forall n :: n in needs ==> Has(order, n) }

  /** The jobs that may come next. */
  function Available(jobs: Jobs, order: seq<string>): set<string> {
    set name | name in jobs && !Has(order, name) && NeedsDone(jobs[name], order)
  }

  predicate Distinct(order: seq<string>) { forall i, j :: 0 <= i < j < |order| ==> order[i] != order[j] }

  function Left(jobs: Jobs, order: seq<string>): set<string> { set name | name in jobs && !Has(order, name) }

  /** Takes the least available job as long as there is one. */
  ghost function Greedy(jobs: Jobs, order: seq<string>): seq<string>
    decreases |Left(jobs, order)|
  {
    var ready := Available(jobs, order);
    if ready == {} then order
    else
      var next := Least(ready);
      LeftShrinks(jobs, order, next);
      Greedy(jobs, order + [next])
  }

  lemma LeftShrinks(jobs: Jobs, order: seq<string>, next: string)
    requires next in jobs && !Has(order, next)
    ensures |Left(jobs, order + [next])| < |Left(jobs, order)|
  {
    assert Left(jobs, order + [next]) == Left(jobs, order) - {next};
  }

  /** All jobs, each once, each after everything it needs. */
  ghost predicate Valid(jobs: Jobs, order: seq<string>) {
    && Distinct(order) && (forall name :: name in jobs <==> Has(order, name))
    && forall i :: 0 <= i < |order| ==> order[i] in jobs && NeedsDone(jobs[order[i]], order[..i])
  }

  /** What Greedy has built so far. */
  ghost predicate Partial(jobs: Jobs, order: seq<string>) {
    && Distinct(order)
    && forall i :: 0 <= i < |order| ==> order[i] in jobs && NeedsDone(jobs[order[i]], order[..i])
  }

  /** Each job of the cycle needs the next, and the last needs the first. */
  ghost predicate Cycle(jobs: Jobs, c: seq<string>) {
    && c != []
    && (forall i :: 0 <= i < |c| ==> c[i] in jobs)
    && (forall i :: 0 <= i < |c| - 1 ==> c[i + 1] in jobs[c[i]])
    && c[0] in jobs[c[|c| - 1]]
  }

  predicate Known(jobs: Jobs) { forall name :: name in jobs ==> forall n :: n in jobs[name] ==> n in jobs }

  lemma PartialExtends(jobs: Jobs, order: seq<string>, next: string)
    requires Partial(jobs, order) && next in Available(jobs, order)
    ensures Partial(jobs, order + [next])
  {
    var longer := order + [next];
    forall i | 0 <= i < |longer| ensures longer[i] in jobs && NeedsDone(jobs[longer[i]], longer[..i]) {
      assert longer[..i] == order[..i];
      if i == |order| { assert order[..i] == order; }
    }
  }

  lemma {:induction false} GreedyIsPartial(jobs: Jobs, order: seq<string>)
    requires Partial(jobs, order)
    ensures Partial(jobs, Greedy(jobs, order)) && order <= Greedy(jobs, order)
    ensures Available(jobs, Greedy(jobs, order)) == {}
    decreases |Left(jobs, order)|
  {
    if Available(jobs, order) != {} {
      var next := Least(Available(jobs, order));
      LeftShrinks(jobs, order, next);
      PartialExtends(jobs, order, next);
      GreedyIsPartial(jobs, order + [next]);
    }
  }

  /** A partial order of as many names as there are jobs has them all. */
  lemma {:induction false} CountIsAll(jobs: Jobs, order: seq<string>)
    requires Partial(jobs, order)
    ensures |order| <= |jobs| && (|order| == |jobs| <==> forall name :: name in jobs ==> Has(order, name))
  {
    var names := set name | name in order;
    DistinctCount(order);
    assert names <= jobs.Keys;
    SubsetCount(names, jobs.Keys);
    assert |jobs| == |jobs.Keys|;
  }

  lemma SubsetCount(a: set<string>, b: set<string>)
    requires a <= b
    ensures |a| <= |b| && (|a| == |b| <==> a == b)
  {
    assert b == a + (b - a);
    assert |b| == |a| + |b - a|;
  }

  lemma {:induction false} DistinctCount(order: seq<string>)
    requires Distinct(order)
    ensures |set name | name in order| == |order|
  {
    if order != [] {
      var rest := order[..|order| - 1];
      DistinctCount(rest);
      assert order == rest + [order[|order| - 1]];
      assert (set name | name in order) == (set name | name in rest) + {order[|order| - 1]};
    }
  }

  // ----- exactly the acyclic workflows have an order -----

  /** No job of a cycle is ever placed: the first one placed would need another. */
  lemma {:induction false} CycleBlocks(jobs: Jobs, c: seq<string>, order: seq<string>, k: nat)
    requires Cycle(jobs, c) && Partial(jobs, order) && k <= |order|
    ensures forall i :: 0 <= i < |c| ==> !Has(order[..k], c[i])
  {
    if k > 0 {
      CycleBlocks(jobs, c, order, k - 1);
      assert order[..k] == order[..k - 1] + [order[k - 1]];
      forall i | 0 <= i < |c| ensures !Has(order[..k], c[i]) { NextOnCycle(jobs, c, i); }
    }
  }

  lemma NextOnCycle(jobs: Jobs, c: seq<string>, i: nat)
    requires Cycle(jobs, c) && i < |c|
    ensures c[i] in jobs && exists m :: 0 <= m < |c| && c[m] in jobs[c[i]]
  {
    var m := if i == |c| - 1 then 0 else i + 1;
    assert c[m] in jobs[c[i]];
  }

  /** A walk along needs that stays inside a set where everything needs something inside. */
  ghost predicate Walk(jobs: Jobs, rest: set<string>, w: seq<string>) {
    && w != [] && (forall i :: 0 <= i < |w| ==> w[i] in rest)
    && (forall i :: 0 <= i < |w| - 1 ==> w[i] in jobs && w[i + 1] in jobs[w[i]])
  }

  predicate NeedsOneOf(needs: seq<string>, rest: set<string>) { exists n :: n in needs && n in rest }

  ghost predicate Stuck(jobs: Jobs, rest: set<string>) {
    rest <= jobs.Keys && forall name :: name in rest ==> NeedsOneOf(jobs[name], rest)
  }

  lemma StepOf(jobs: Jobs, rest: set<string>, name: string) returns (n: string)
    requires Stuck(jobs, rest) && name in rest
    ensures name in jobs && n in jobs[name] && n in rest
  {
    n :| n in jobs[name] && n in rest;
  }

  lemma {:induction false} WalkOf(jobs: Jobs, rest: set<string>, n: nat) returns (w: seq<string>)
    requires rest != {} && Stuck(jobs, rest)
    ensures Walk(jobs, rest, w) && |w| == n + 1
  {
    hide Stuck;
    if n == 0 {
      var x :| x in rest;
      w := [x];
    } else {
      var v := WalkOf(jobs, rest, n - 1);
      var x := StepOf(jobs, rest, v[|v| - 1]);
      w := v + [x];
    }
  }

  lemma Pigeonhole(rest: set<string>, w: seq<string>)
    requires |w| > |rest| && forall i :: 0 <= i < |w| ==> w[i] in rest
    ensures !Distinct(w)
  {
    if Distinct(w) {
      DistinctCount(w);
      SubsetCount((set name | name in w), rest);
    }
  }

  /** What Greedy could not place holds a cycle, when every need is known. */
  lemma StuckHasCycle(jobs: Jobs, rest: set<string>) returns (c: seq<string>)
    requires rest != {} && Stuck(jobs, rest)
    ensures Cycle(jobs, c)
  {
    hide Stuck;
    var w := WalkOf(jobs, rest, |rest|);
    Pigeonhole(rest, w);
    var i, j :| 0 <= i < j < |w| && w[i] == w[j];
    c := w[i..j];
    RepeatIsCycle(jobs, rest, w, i, j);
  }

  lemma RepeatIsCycle(jobs: Jobs, rest: set<string>, w: seq<string>, i: nat, j: nat)
    requires Walk(jobs, rest, w) && i < j < |w| && w[i] == w[j]
    ensures Cycle(jobs, w[i..j])
  {
    var c := w[i..j];
    assert forall k :: 0 <= k < |c| ==> c[k] == w[i + k] && c[k] in jobs && w[i + k + 1] in jobs[w[i + k]];
    assert w[i + (|c| - 1) + 1] in jobs[w[i + (|c| - 1)]];
  }

  lemma LeftIsStuck(jobs: Jobs, order: seq<string>)
    requires Known(jobs) && Available(jobs, order) == {}
    ensures Stuck(jobs, Left(jobs, order))
  {
    forall name | name in Left(jobs, order) ensures NeedsOneOf(jobs[name], Left(jobs, order)) {
      assert name !in Available(jobs, order);
      var n :| n in jobs[name] && !Has(order, n);
      assert n in Left(jobs, order);
    }
  }

  ghost predicate Acyclic(jobs: Jobs) { forall c :: !Cycle(jobs, c) }

  lemma ValidIsKnown(jobs: Jobs, order: seq<string>)
    requires Valid(jobs, order)
    ensures Known(jobs)
  {
    forall name, n | name in jobs && n in jobs[name] ensures n in jobs {
      var i :| 0 <= i < |order| && order[i] == name;
      assert Has(order[..i], n);
      assert Has(order, n);
    }
  }

  lemma ValidIsAcyclic(jobs: Jobs, order: seq<string>)
    requires Valid(jobs, order)
    ensures Acyclic(jobs)
  {
    forall c ensures !Cycle(jobs, c) {
      if Cycle(jobs, c) {
        assert order[..|order|] == order;
        CycleBlocks(jobs, c, order, |order|);
        assert false;
      }
    }
  }

  lemma StuckIsCyclic(jobs: Jobs, order: seq<string>)
    requires Known(jobs) && Available(jobs, order) == {} && Left(jobs, order) != {}
    ensures !Acyclic(jobs)
  {
    LeftIsStuck(jobs, order);
    var c := StuckHasCycle(jobs, Left(jobs, order));
    assert Cycle(jobs, c);
  }

  /** The sort succeeds exactly on workflows that have no cycle, and know what they need. */
  lemma SortsAcyclic(jobs: Jobs)
    ensures |Greedy(jobs, [])| == |jobs| <==> Known(jobs) && Acyclic(jobs)
  {
    hide Greedy, Acyclic, Known, Available, Valid;
    var order := Greedy(jobs, []);
    GreedyIsPartial(jobs, []);
    CountIsAll(jobs, order);
    if |order| == |jobs| {
      GreedyIsValid(jobs);
      ValidIsKnown(jobs, order);
      ValidIsAcyclic(jobs, order);
    } else if Known(jobs) {
      var name :| name in jobs && !Has(order, name);
      assert name in Left(jobs, order);
      StuckIsCyclic(jobs, order);
    }
  }

  /** A complete result is a permutation of the jobs in which everything follows its needs. */
  lemma GreedyIsValid(jobs: Jobs)
    requires |Greedy(jobs, [])| == |jobs|
    ensures Valid(jobs, Greedy(jobs, []))
  {
    GreedyIsPartial(jobs, []);
    CountIsAll(jobs, Greedy(jobs, []));
    var order := Greedy(jobs, []);
    forall name | Has(order, name) ensures name in jobs {
      var i :| 0 <= i < |order| && order[i] == name;
    }
  }

  // ----- it is the least of all orders -----

  /** `a` comes before `b` at the first place where they differ. */
  ghost predicate Precedes(a: seq<string>, b: seq<string>) {
    exists k :: 0 <= k < |a| && k < |b| && a[..k] == b[..k] && Below(a[k], b[k])
  }

  /** Every other valid order has the same jobs at first, and then a later name. */
  lemma {:induction false} GreedyFrom(jobs: Jobs, order: seq<string>, other: seq<string>)
    requires Partial(jobs, order) && Valid(jobs, other) && order <= other
    ensures Greedy(jobs, order) == other || Precedes(Greedy(jobs, order), other)
    decreases |Left(jobs, order)|
  {
    hide Available, Partial, Precedes, NeedsDone, Distinct;
    var ready := Available(jobs, order);
    if order == other {
      CompleteHasNone(jobs, other);
    } else {
      NextIsAvailable(jobs, order, other);
      var next := Least(ready);
      AvailableIsNew(jobs, order, next);
      PartialExtends(jobs, order, next);
      LeftShrinks(jobs, order, next);
      if next == other[|order|] {
        assert order + [next] == other[..|order| + 1];
        GreedyFrom(jobs, order + [next], other);
      } else {
        GreedyIsPartial(jobs, order + [next]);
        DiffersAt(Greedy(jobs, order), order, next, other);
      }
    }
  }

  lemma DiffersAt(result: seq<string>, order: seq<string>, next: string, other: seq<string>)
    requires order + [next] <= result && order <= other && |order| < |other| && Below(next, other[|order|])
    ensures Precedes(result, other)
  {
    hide Below;
    assert result[|order|] == (order + [next])[|order|] == next;
    assert result[..|order|] == order == other[..|order|];
  }

  lemma CompleteHasNone(jobs: Jobs, order: seq<string>)
    requires Valid(jobs, order)
    ensures Available(jobs, order) == {}
  {
  }

  lemma NextIsNew(order: seq<string>, other: seq<string>)
    requires Distinct(other) && order <= other && order != other
    ensures !Has(order, other[|order|])
  {
    assert forall j :: 0 <= j < |order| ==> order[j] == other[j] != other[|order|];
  }

  lemma NextIsAvailable(jobs: Jobs, order: seq<string>, other: seq<string>)
    requires Valid(jobs, other) && order <= other && order != other
    ensures other[|order|] in Available(jobs, order)
  {
    assert order == other[..|order|];
    NextIsNew(order, other);
  }

  /** The result does not depend on how the jobs were listed: it is the least valid order of all. */
  lemma SortIsLeast(jobs: Jobs, other: seq<string>)
    requires Valid(jobs, other)
    ensures Greedy(jobs, []) == other || Precedes(Greedy(jobs, []), other)
  {
    GreedyFrom(jobs, [], other);
  }

  // ----- the algorithm -----

  /** How many entries of `needs` are not placed yet, counting repetitions. */
  function Missing(needs: seq<string>, order: seq<string>): nat {
    if needs == [] then 0
    else Missing(needs[..|needs| - 1], order) + (if Has(order, needs[|needs| - 1]) then 0 else 1)
  }

  lemma {:induction false} MissingNone(needs: seq<string>, order: seq<string>)
    ensures Missing(needs, order) == 0 <==> NeedsDone(needs, order)
    ensures Missing(needs, []) == |needs|
  {
    if needs != [] {
      MissingNone(needs[..|needs| - 1], order);
      assert needs == needs[..|needs| - 1] + [needs[|needs| - 1]];
    }
  }

  lemma {:induction false} MissingLess(needs: seq<string>, order: seq<string>, next: string)
    requires !Has(order, next)
    ensures Missing(needs, order + [next]) == Missing(needs, order) - multiset(needs)[next]
  {
    if needs != [] {
      MissingLess(needs[..|needs| - 1], order, next);
      assert needs == needs[..|needs| - 1] + [needs[|needs| - 1]];
    }
  }

  function Deps(dependents: map<string, seq<string>>, x: string): seq<string> {
    if x in dependents then dependents[x] else []
  }

  /** Each need of each counted job is recorded once on both sides. */
  ghost predicate Recorded(jobs: Jobs, dependents: map<string, seq<string>>, counted: set<string>) {
    forall x, n :: multiset(Deps(dependents, x))[n] == if n in jobs && n in counted then multiset(jobs[n])[x] else 0
  }

  predicate Counted(jobs: Jobs, inDegree: map<string, int>, order: seq<string>) {
    inDegree.Keys == jobs.Keys && forall n :: n in jobs ==> inDegree[n] == Missing(jobs[n], order)
  }

  /** The first loop over one job's needs. */
  method Record(needs: seq<string>, name: string, inDegree: map<string, int>, dependents: map<string, seq<string>>)
    returns (inDegree': map<string, int>, dependents': map<string, seq<string>>)
    requires name in inDegree && inDegree[name] == 0
    ensures inDegree' == inDegree[name := |needs|]
    ensures forall x, n :: multiset(Deps(dependents', x))[n] == multiset(Deps(dependents, x))[n] + if n == name then multiset(needs)[x] else 0
  {
    inDegree', dependents' := inDegree, dependents;
    for i := 0 to |needs|
      invariant inDegree' == inDegree[name := i]
      invariant forall x, n :: multiset(Deps(dependents', x))[n] ==
                               multiset(Deps(dependents, x))[n] + if n == name then multiset(needs[..i])[x] else 0
    {
      assert needs[..i + 1] == needs[..i] + [needs[i]];
      inDegree' := inDegree'[name := inDegree'[name] + 1];
      dependents' := dependents'[needs[i] := Deps(dependents', needs[i]) + [name]];
    }
    assert needs[..|needs|] == needs;
  }

  /** In-degrees and dependents of every job, in whatever order the map lists them. */
  method Prepare(jobs: Jobs) returns (inDegree: map<string, int>, dependents: map<string, seq<string>>)
    ensures Counted(jobs, inDegree, []) && Recorded(jobs, dependents, jobs.Keys)
  {
    inDegree := map name | name in jobs :: 0;
    dependents := map[];
    var rest := jobs.Keys;
    while rest != {}
      invariant rest <= jobs.Keys && inDegree.Keys == jobs.Keys
      invariant forall n :: n in jobs ==> inDegree[n] == if n in rest then 0 else |jobs[n]|
      invariant Recorded(jobs, dependents, jobs.Keys - rest)
      decreases rest
    {
      var name :| name in rest;
      ghost var before := dependents;
      inDegree, dependents := Record(jobs[name], name, inDegree, dependents);
      RecordedMore(jobs, before, dependents, jobs.Keys - rest, name);
      rest := rest - {name};
      assert jobs.Keys - rest == jobs.Keys - (rest + {name}) + {name};
    }
    forall n | n in jobs ensures inDegree[n] == Missing(jobs[n], []) { MissingNone(jobs[n], []); }
    assert jobs.Keys - rest == jobs.Keys;
  }

  lemma RecordedMore(jobs: Jobs, before: map<string, seq<string>>, after: map<string, seq<string>>, counted: set<string>, name: string)
    requires Recorded(jobs, before, counted) && name in jobs && name !in counted
    requires forall x, n :: multiset(Deps(after, x))[n] == multiset(Deps(before, x))[n] + if n == name then multiset(jobs[name])[x] else 0
    ensures Recorded(jobs, after, counted + {name})
  {
  }

  /** The jobs ready to go are those not placed whose count has come down to zero, each once. */
  ghost predicate Ready(jobs: Jobs, inDegree: map<string, int>, order: seq<string>, ready: seq<string>)
    requires inDegree.Keys == jobs.Keys
  {
    Distinct(ready) && forall n :: n in ready <==> n in jobs && !Has(order, n) && inDegree[n] == 0
  }

  lemma ReadyIsAvailable(jobs: Jobs, inDegree: map<string, int>, order: seq<string>, ready: seq<string>)
    requires Counted(jobs, inDegree, order) && Ready(jobs, inDegree, order, ready)
    ensures forall n :: n in ready <==> n in Available(jobs, order)
  {
    forall n | n in jobs ensures Missing(jobs[n], order) == 0 <==> NeedsDone(jobs[n], order) { MissingNone(jobs[n], order); }
  }

  method FirstReady(jobs: Jobs, inDegree: map<string, int>) returns (ready: seq<string>)
    requires inDegree.Keys == jobs.Keys
    ensures Ready(jobs, inDegree, [], ready)
  {
    ready := [];
    var rest := jobs.Keys;
    while rest != {}
      invariant rest <= jobs.Keys && Distinct(ready)
      invariant forall n :: n in ready <==> n in jobs && n !in rest && inDegree[n] == 0
      decreases rest
    {
      var name :| name in rest;
      if inDegree[name] == 0 { ready := ready + [name]; }
      rest := rest - {name};
    }
  }

  /** A job that needs `next` was not placed before it. */
  lemma DependentWaits(jobs: Jobs, order: seq<string>, next: string, n: string)
    requires Partial(jobs, order) && next in Available(jobs, order) && n in jobs && next in jobs[n]
    ensures n != next && !Has(order, n)
  {
    if Has(order, n) { PlacedHasNeeds(jobs, order, n, next); }
  }

  lemma PlacedHasNeeds(jobs: Jobs, order: seq<string>, n: string, need: string)
    requires Partial(jobs, order) && Has(order, n) && n in jobs && need in jobs[n]
    ensures Has(order, need)
  {
    var i :| 0 <= i < |order| && order[i] == n;
    assert NeedsDone(jobs[n], order[..i]);
    assert Has(order[..i], need);
  }

  /** Half way through the inner loop: the first entries have been counted off. */
  ghost predicate Counting(jobs: Jobs, inDegree: map<string, int>, order: seq<string>, seen: multiset<string>) {
    inDegree.Keys == jobs.Keys && forall n :: n in jobs ==> inDegree[n] == Missing(jobs[n], order) - seen[n]
  }

  lemma ReadyAfter(jobs: Jobs, inDegree: map<string, int>, order: seq<string>, ready: seq<string>, dep: string)
    requires inDegree.Keys == jobs.Keys && Ready(jobs, inDegree, order, ready) && dep in jobs && !Has(order, dep) && inDegree[dep] > 0
    ensures Ready(jobs, inDegree[dep := inDegree[dep] - 1], order, if inDegree[dep] == 1 then ready + [dep] else ready)
  {
  }

  lemma CountingAfter(jobs: Jobs, inDegree: map<string, int>, order: seq<string>, seen: multiset<string>, dep: string)
    requires Counting(jobs, inDegree, order, seen) && dep in jobs
    ensures Counting(jobs, inDegree[dep := inDegree[dep] - 1], order, seen + multiset{dep})
  {
    hide Missing;
  }

  lemma CountedAfter(jobs: Jobs, dependents: map<string, seq<string>>, inDegree: map<string, int>, order: seq<string>, next: string)
    requires Recorded(jobs, dependents, jobs.Keys) && Counting(jobs, inDegree, order, multiset(Deps(dependents, next))) && !Has(order, next)
    ensures Counted(jobs, inDegree, order + [next])
  {
    forall n | n in jobs ensures inDegree[n] == Missing(jobs[n], order + [next]) {
      MissingLess(jobs[n], order, next);
    }
  }

  /** The inner loop: every dependent of the placed job counts one need less. */
  method Place(jobs: Jobs, dependents: map<string, seq<string>>, inDegree: map<string, int>, ghost order: seq<string>, next: string, ready: seq<string>)
    returns (inDegree': map<string, int>, ready': seq<string>)
    requires Counted(jobs, inDegree, order) && Recorded(jobs, dependents, jobs.Keys) && Partial(jobs, order)
    requires next in Available(jobs, order) && Ready(jobs, inDegree, order + [next], ready)
    ensures Counted(jobs, inDegree', order + [next]) && Ready(jobs, inDegree', order + [next], ready')
  {
    hide Available, Missing, Partial, NeedsDone, Ready, Recorded;
    inDegree', ready' := inDegree, ready;
    var deps := Deps(dependents, next);
    StartsCounting(jobs, inDegree, order);
    for i := 0 to |deps|
      invariant Counting(jobs, inDegree', order, multiset(deps[..i]))
      invariant Ready(jobs, inDegree', order + [next], ready')
    {
      var dep := deps[i];
      DependentOf(jobs, dependents, order, next, i);
      assert deps[..i + 1] == deps[..i] + [dep];
      ReadyAfter(jobs, inDegree', order + [next], ready', dep);
      CountingAfter(jobs, inDegree', order, multiset(deps[..i]), dep);
      inDegree' := inDegree'[dep := inDegree'[dep] - 1];
      if inDegree'[dep] == 0 { ready' := ready' + [dep]; }
    }
    assert deps[..|deps|] == deps;
    AvailableIsNew(jobs, order, next);
    CountedAfter(jobs, dependents, inDegree', order, next);
  }

  lemma StartsCounting(jobs: Jobs, inDegree: map<string, int>, order: seq<string>)
    requires Counted(jobs, inDegree, order)
    ensures Counting(jobs, inDegree, order, multiset{})
  {
  }

  lemma AvailableIsNew(jobs: Jobs, order: seq<string>, next: string)
    requires next in Available(jobs, order)
    ensures next in jobs && !Has(order, next)
  {
  }

  lemma DependentOf(jobs: Jobs, dependents: map<string, seq<string>>, order: seq<string>, next: string, i: nat)
    requires Recorded(jobs, dependents, jobs.Keys) && Partial(jobs, order) && next in Available(jobs, order)
    requires i < |Deps(dependents, next)|
    ensures var deps, dep := Deps(dependents, next), Deps(dependents, next)[i];
            && dep in jobs && !Has(order + [next], dep)
            && Missing(jobs[dep], order) - multiset(deps[..i])[dep] > 0
  {
    var deps := Deps(dependents, next);
    var dep := deps[i];
    assert deps == deps[..i] + [dep] + deps[i + 1..];
    assert multiset(deps)[dep] > 0;
    assert dep in jobs && multiset(jobs[dep])[next] > 0;
    DependentWaits(jobs, order, next, dep);
    MissingLess(jobs[dep], order, next);
  }

  /** Kahn's algorithm, as the source runs it. */
  method TopoSort(jobs: Jobs) returns (result: Option<seq<string>>)
    ensures result == if |Greedy(jobs, [])| == |jobs| then Some(Greedy(jobs, [])) else None
  {
    var inDegree, dependents := Prepare(jobs);
    var ready := FirstReady(jobs, inDegree);
    var order := [];
    while |ready| > 0
      invariant Counted(jobs, inDegree, order) && Recorded(jobs, dependents, jobs.Keys)
      invariant Ready(jobs, inDegree, order, ready) && Partial(jobs, order)
      invariant Greedy(jobs, order) == Greedy(jobs, [])
      decreases |Left(jobs, order)|
    {
      var sorted := Sort(ready);
      var next := sorted[0];
      NextIsLeast(jobs, inDegree, order, ready, sorted);
      LeftShrinks(jobs, order, next);
      PartialExtends(jobs, order, next);
      RestIsReady(jobs, inDegree, order, sorted);
      inDegree, ready := Place(jobs, dependents, inDegree, order, next, sorted[1..]);
      order := order + [next];
    }
    ReadyIsAvailable(jobs, inDegree, order, ready);
    assert Available(jobs, order) == {};
    if |order| != |jobs| { return None; }
    return Some(order);
  }

  lemma SameElements(a: seq<string>, b: seq<string>)
    requires multiset(a) == multiset(b) && Distinct(a)
    ensures Distinct(b) && |a| == |b| && forall n :: n in a <==> n in b
  {
    forall n ensures n in a <==> n in b { assert n in multiset(a) <==> n in multiset(b); }
    DistinctOnce(a);
    forall i, j | 0 <= i < j < |b| ensures b[i] != b[j] {
      if b[i] == b[j] { TwiceIn(b, i, j); }
    }
    assert |multiset(a)| == |a| && |multiset(b)| == |b|;
  }

  lemma {:induction false} DistinctOnce(a: seq<string>)
    requires Distinct(a)
    ensures forall n :: multiset(a)[n] <= 1
  {
    if a != [] {
      DistinctOnce(a[..|a| - 1]);
      assert a == a[..|a| - 1] + [a[|a| - 1]];
      assert a[|a| - 1] !in multiset(a[..|a| - 1]);
    }
  }

  lemma TwiceIn(b: seq<string>, i: nat, j: nat)
    requires i < j < |b| && b[i] == b[j]
    ensures multiset(b)[b[i]] >= 2
  {
    assert b == b[..j] + b[j..];
    assert b[i] in multiset(b[..j]) by { assert b[..j][i] == b[i]; }
    assert b[j] in multiset(b[j..]) by { assert b[j..][0] == b[j]; }
  }

  lemma NextIsLeast(jobs: Jobs, inDegree: map<string, int>, order: seq<string>, ready: seq<string>, sorted: seq<string>)
    requires Counted(jobs, inDegree, order) && Ready(jobs, inDegree, order, ready) && ready != []
    requires Sorted(sorted) && multiset(sorted) == multiset(ready)
    ensures sorted != [] && sorted[0] in Available(jobs, order) && Least(Available(jobs, order)) == sorted[0]
    ensures Ready(jobs, inDegree, order, sorted)
  {
    hide Available, Below;
    SameElements(ready, sorted);
    ReadyIsAvailable(jobs, inDegree, order, ready);
    forall x | x in Available(jobs, order) ensures AtMost(sorted[0], x) {
      var i :| 0 <= i < |sorted| && sorted[i] == x;
    }
    LeastIsUnique(Available(jobs, order), sorted[0]);
  }

  lemma RestIsReady(jobs: Jobs, inDegree: map<string, int>, order: seq<string>, sorted: seq<string>)
    requires inDegree.Keys == jobs.Keys && Ready(jobs, inDegree, order, sorted) && sorted != []
    ensures Ready(jobs, inDegree, order + [sorted[0]], sorted[1..])
  {
    var rest := sorted[1..];
    forall n ensures n in rest <==> n in sorted && n != sorted[0] {
      if n in sorted && n != sorted[0] {
        var i :| 0 <= i < |sorted| && sorted[i] == n;
        assert rest[i - 1] == n;
      }
    }
  }
}
