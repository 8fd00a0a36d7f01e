/** What the tool-call log and its notifications promise, over all runs. */
module AuditSafety {
  import opened Audit
  import opened Traces

  // ----- the log only grows -----

  /** A call keeps its identity, and its first terminal outcome for ever. */
  predicate CallEvolves(c: Call, c': Call) { c'.body == c.body && (c.outcome != Pending ==> c' == c) }

  lemma StepKeepsCall(s: State, e: Step, id: nat)
    requires id in s.calls
    ensures id in Do(s, e).calls && CallEvolves(s.calls[id], Do(s, e).calls[id])
  {
  }

  /** Committed events are never changed or reordered, and a terminal outcome is immutable. */
  lemma HistoryIsFixed(a: seq<Step>, b: seq<Step>, id: nat)
    ensures Exec(a).log <= Exec(a + b).log
    ensures id in Exec(a).calls ==> id in Exec(a + b).calls && CallEvolves(Exec(a).calls[id], Exec(a + b).calls[id])
  {
    hide Do, Inv;
    AllKeepInv();
    forall s, t, e | Kept(s, t, id) && Inv(t) ensures Kept(s, Do(t, e), id) {
      StepKeepsInv(t, e);
      if id in s.calls { StepKeepsCall(t, e, id); }
    }
    Onward(Do, INITIAL, s => Inv(s), (s, t) => Kept(s, t, id), a, b);
  }

  predicate Kept(s: State, t: State, id: nat) {
    s.log <= t.log && (id in s.calls ==> id in t.calls && CallEvolves(s.calls[id], t.calls[id]))
  }

  /** Later commits have higher numbers, so the order of the log is the order of its commits. */
  lemma CommitsAscend(steps: seq<Step>, i: nat, j: nat)
    requires i < j < |Exec(steps).log|
    ensures Exec(steps).log[i].sequence < Exec(steps).log[j].sequence
  {
    hide Exec, StreamSound, Paired, WritersSound;
    RunKeepsInv(steps);
  }

  /** The event that the log holds for this call at this outcome, and no other position holds one. */
  predicate LoggedOnceAt(log: seq<Event>, i: nat, id: nat, outcome: Outcome) {
    && i < |log| && log[i].call == id && log[i].outcome == outcome
    && forall k :: 0 <= k < |log| && k != i && log[k].call == id ==> log[k].outcome != outcome
  }

  /**
   Every stored call has exactly one opening event, and an end event exactly when it ended: one,
   later, with the outcome that it keeps. The log holds no events of other calls.
   */
  lemma TwoPhases(steps: seq<Step>, id: nat) returns (first: nat, second: nat)
    requires id in Exec(steps).calls
    ensures var s := Exec(steps); var outcome := s.calls[id].outcome;
            && LoggedOnceAt(s.log, first, id, Pending)
            && (outcome != Pending ==> first < second && LoggedOnceAt(s.log, second, id, outcome))
            && (forall k :: 0 <= k < |s.log| && s.log[k].call == id ==> k == first || (outcome != Pending && k == second))
    ensures forall k :: 0 <= k < |Exec(steps).log| ==> Exec(steps).log[k].call in Exec(steps).calls
  {
    hide Exec, StreamSound, WritersSound;
    RunKeepsInv(steps);
    var s := Exec(steps);
    assert Logged(s.log, id, Pending) && Logged(s.log, id, s.calls[id].outcome);
    first :| 0 <= first < |s.log| && s.log[first].call == id && s.log[first].outcome == Pending;
    second :| 0 <= second < |s.log| && s.log[second].call == id && s.log[second].outcome == s.calls[id].outcome;
  }

  // ----- the stream -----

  /** The stream without its repetitions, in the order of first occurrence. */
  function FirstOccurrences(stream: seq<nat>): seq<nat> {
    if stream == [] then []
    else
      var before := FirstOccurrences(stream[..|stream| - 1]);
      var last := stream[|stream| - 1];
      if last in stream[..|stream| - 1] then before else before + [last]
  }

  lemma {:induction false} FirstsAre(log: seq<Event>, stream: seq<nat>)
    requires Ascending(log) && StreamOrdered(log, stream)
    ensures FirstOccurrences(stream) <= Sequences(log)
    ensures forall x :: x in stream <==> x in FirstOccurrences(stream)
  {
    if stream != [] {
      var before, last := stream[..|stream| - 1], stream[|stream| - 1];
      assert stream == before + [last];
      forall j | 0 <= j < |before| ensures Covered(log, before[j], before[..j]) {
        assert before[..j] == stream[..j] && before[j] == stream[j];
      }
      FirstsAre(log, before);
      assert Covered(log, last, before);
      if last !in before { NextFirst(log, FirstOccurrences(before), before, last); }
    }
  }

  /** The first new entry is the first event that the stream does not have. */
  lemma NextFirst(log: seq<Event>, firsts: seq<nat>, before: seq<nat>, last: nat)
    requires Ascending(log) && Covered(log, last, before) && last !in before
    requires firsts <= Sequences(log) && forall x :: x in before <==> x in firsts
    ensures firsts + [last] <= Sequences(log)
  {
    var i :| 0 <= i < |log| && log[i].sequence == last;
    var all, m := Sequences(log), |firsts|;
    assert forall k :: 0 <= k < m ==> firsts[k] == all[k] && firsts[k] in firsts;
    assert m <= i;
    var y := log[m].sequence;
    assert y in firsts || y >= last;
    assert forall k :: 0 <= k < m ==> firsts[k] < log[m].sequence;
    assert m == i;
    assert all[..i] == firsts;
  }

  /**
   The stream announces the run's events in sequence order without a gap, apart from repetitions,
   and no event is marked published before it was in the stream.
   */
  lemma PublishedInOrder(steps: seq<Step>, x: nat)
    ensures FirstOccurrences(Exec(steps).stream) <= Sequences(Exec(steps).log)
    ensures x in Exec(steps).published ==> x in Exec(steps).stream
  {
    hide Exec, Paired, WritersSound, Covered;
    RunKeepsInv(steps);
    FirstsAre(Exec(steps).log, Exec(steps).stream);
  }

  // ----- paging -----

  /** The cursor of a reader that has seen the first `k` events. */
  function Cursor(log: seq<Event>, k: nat): nat
    requires k <= |log|
  {
    if k == 0 then 0 else log[k - 1].sequence
  }

  function Min(a: nat, b: nat): nat { if a < b then a else b }

  lemma RestSlice(log: seq<Event>, k: nat, n: nat)
    requires 1 <= k <= n <= |log|
    ensures log[1..][k - 1..n - 1] == log[k..n]
  {
  }

  lemma {:induction false} PageIs(log: seq<Event>, after: nat, limit: nat, k: nat)
    requires k <= |log|
    requires (forall i :: 0 <= i < k ==> log[i].sequence <= after) && (forall i :: k <= i < |log| ==> after < log[i].sequence)
    ensures Page(log, after, limit) == log[k..Min(k + limit, |log|)]
  {
    if log != [] && limit > 0 {
      var rest := log[1..];
      if k == 0 {
        PageIs(rest, after, limit - 1, 0);
        assert [log[0]] + rest[0..Min(limit - 1, |rest|)] == log[0..Min(limit, |log|)];
      } else {
        PageIs(rest, after, limit, k - 1);
        RestSlice(log, k, Min(k + limit, |log|));
      }
    } else {
      assert log[k..Min(k + limit, |log|)] == [];
    }
  }

  /** What was seen and the next page are together the beginning of the log. */
  predicate Continues(log: seq<Event>, seen: seq<Event>, page: seq<Event>) {
    && |seen| + |page| <= |log| && seen + page == log[..|seen| + |page|]
    && |page| == Min(BATCH, |log| - |seen|)
  }

  /**
   A reader that has seen the first `k` events and asks for more after its cursor, however much
   later, gets exactly the events that follow, none twice; an empty page means there are no more.
   */
  lemma PagingIsExact(a: seq<Step>, b: seq<Step>, k: nat)
    requires k <= |Exec(a).log|
    ensures Continues(Exec(a + b).log, Exec(a).log[..k], Page(Exec(a + b).log, Cursor(Exec(a).log, k), BATCH))
  {
    hide Exec, StreamSound, Paired, WritersSound, Page;
    HistoryIsFixed(a, b, 0);
    RunKeepsInv(a + b);
    var log, after := Exec(a + b).log, Cursor(Exec(a).log, k);
    assert Exec(a).log == log[..|Exec(a).log|];
    assert k > 0 ==> after == log[k - 1].sequence;
    PageIs(log, after, BATCH, k);
  }

  /** A client that follows its cursor to the first empty page has read the whole log. */
  method FollowPages(log: seq<Event>) returns (seen: seq<Event>)
    requires Ascending(log) && forall i :: 0 <= i < |log| ==> log[i].sequence > 0
    ensures seen == log
  {
    seen := [];
    var page := Page(log, 0, BATCH);
    PageIs(log, 0, BATCH, 0);
    while page != []
      invariant |seen| + |page| <= |log| && seen + page == log[..|seen| + |page|]
      invariant |page| == Min(BATCH, |log| - |seen|)
      decreases |log| - |seen|
    {
      seen := seen + page;
      assert seen[|seen| - 1] == log[|seen| - 1];
      PageIs(log, seen[|seen| - 1].sequence, BATCH, |seen|);
      page := Page(log, seen[|seen| - 1].sequence, BATCH);
    }
  }
}
