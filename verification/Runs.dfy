/**
 One agent run row and every statement that writes it: `internal/agents/store.go`, `completion.go`,
 `recover.go`, `lock.go`, `grant_cleanup.go` and `purge.go`. A statement whose WHERE clause fails
 leaves the row as it is.
 */
module Runs {
  import opened Wrappers
  import opened Expiry
  import Capability

  datatype RunState = Queued | Running | Succeeded | Failed | Cancelled | OverBudget

  datatype Completion = Completion(state: RunState, tokens: int, cost: int, summary: string)

  /**
   A run whose grant comes from an intent. `gone` marks a deleted row, kept with its last contents;
   `claim` 0 is NULL, and `grant` 0 the nil identifier.
   */
  datatype Run = Run(org: nat, repo: nat, agent: nat, grant: nat, intent: Capability.Intent, branch: string,
                     workRequired: bool, wallclock: int, admissionLease: Instant,
                     state: RunState, started: Option<Instant>, ended: Option<Instant>,
                     tokens: int, cost: int, completion: Option<Completion>, executionFinished: bool,
                     grantPending: bool, workPending: bool, claim: nat, lease: Instant, gone: bool)

  const SECOND: int := 1000 * 1000 * 1000
  const ORPHAN_GRACE: int := 15 * MINUTE
  const CLAIM_LEASE: int := 2 * MINUTE

  predicate Terminal(state: RunState) { state != Queued && state != Running }

  predicate ValidTransition(from: RunState, to: RunState) {
    match from
    case Queued => to == Running || to == Cancelled || to == Failed
    case Running => Terminal(to)
    case _ => false
  }

  function Max(a: int, b: int): int { if a < b then b else a }

  /** The end of a run that is still going, with its cleanup intent. */
  function End(r: Run, state: RunState, now: Instant): Run {
    r.(state := state, ended := Some(now), grantPending := r.grant != 0)
  }

  function SetStateTx(r: Run, to: RunState, now: Instant): (Run, bool) {
    if !ValidTransition(r.state, to) then (r, false)
    else if to == Running then (r.(state := to, started := Some(now)), true)
    else (End(r, to, now), true)
  }

  /** `held` says that another running run holds the branch. */
  function AcquireTx(r: Run, held: bool, now: Instant): (Run, bool) {
    if r.state == Queued && !held then (r.(state := Running, started := Some(now)), true) else (r, false)
  }

  function SpendTx(r: Run, tokens: int, cost: int): Run {
    if r.completion.None? && !Terminal(r.state) then r.(tokens := Max(r.tokens, tokens), cost := Max(r.cost, cost)) else r
  }

  /** `unresolved` says that tool evidence or the workspace's end is not confirmed yet. */
  function CompleteTx(r: Run, c: Completion, unresolved: bool, now: Instant): (Run, Option<RunState>) {
    if !ValidReceipt(c) || (c.state == Succeeded && unresolved) then (r, None)
    else if r.completion.Some? then (r, if r.completion.value == c then Some(r.state) else None)
    else if Terminal(r.state) && r.state != Cancelled && r.state != Failed then (r, None)
    else
      var state := if Terminal(r.state) then r.state else c.state;
      (r.(executionFinished := true, state := state, ended := if r.ended.Some? then r.ended else Some(now),
          tokens := Max(r.tokens, c.tokens), cost := Max(r.cost, c.cost), completion := Some(c),
          grantPending := r.grantPending || (r.ended.None? && r.grant != 0)), Some(state))
  }

  predicate LostAdmission(r: Run, now: Instant) { r.state == Queued && r.admissionLease < now }

  predicate Stale(r: Run, now: Instant) {
    r.state == Running && r.completion.None? && r.started.Some?
    && r.started.value + r.wallclock * SECOND + ORPHAN_GRACE < now
  }

  function RecoverTx(r: Run, now: Instant): Run {
    if LostAdmission(r, now) || Stale(r, now) then End(r, Failed, now) else r
  }

  predicate Pending(r: Run) { r.grantPending || r.workPending }

  function ClaimTx(r: Run, claim: nat, now: Instant): (Run, bool) {
    if Terminal(r.state) && Pending(r) && r.lease <= now then (r.(claim := claim, lease := now + CLAIM_LEASE), true) else (r, false)
  }

  predicate Owns(r: Run, claim: nat, now: Instant) { claim != 0 && r.claim == claim && now < r.lease }

  /** The guarded acknowledgement; `grant` is the grant the worker read. */
  function AckTx(r: Run, claim: nat, grant: nat, grantPending: bool, workPending: bool): (Run, bool) {
    if claim != 0 && r.claim == claim && r.grant == grant && Pending(r) then
      (r.(grantPending := grantPending, workPending := workPending, claim := 0, lease := 0), true)
    else (r, false)
  }

  function CancelTx(r: Run, now: Instant): Run { if Terminal(r.state) then r else End(r, Cancelled, now) }

  /** A scope to purge: one repository, or the whole organization. */
  predicate InScope(r: Run, org: nat, repo: Option<nat>) { !r.gone && r.org == org && (repo.None? || r.repo == repo.value) }

  // ----- how a row may change -----

  /** Identity is immutable; ends, receipts and deletions are final; obligations of an ended run only disappear. */
  predicate Evolves(r: Run, r': Run) {
    && r'.org == r.org && r'.repo == r.repo && r'.agent == r.agent && r'.grant == r.grant && r'.intent == r.intent
    && r'.branch == r.branch && r'.workRequired == r.workRequired
    && r'.wallclock == r.wallclock && r'.admissionLease == r.admissionLease
    && (Terminal(r.state) ==>
          && r'.state == r.state && r'.started == r.started && r'.ended == r.ended
          && (r'.grantPending ==> r.grantPending) && (r'.workPending ==> r.workPending))
    && (r.state == Running ==> r'.state != Queued)
    && (r.started.Some? ==> r'.started == r.started)
    && (r.completion.Some? ==> r'.completion == r.completion)
    && (r.executionFinished ==> r'.executionFinished)
    && r.tokens <= r'.tokens && r.cost <= r'.cost
    && (r.gone ==> r' == r)
  }

  /** What holds of every row by itself. */
  predicate RowSound(r: Run) {
    && r.intent.grant.id == r.grant && r.intent.grant.org == r.org
    && (Terminal(r.state) <==> r.ended.Some?)
    && (r.state == Queued ==> r.started.None?) && (r.state == Running ==> r.started.Some?)
    && (!Terminal(r.state) ==> r.claim == 0 && !r.grantPending && r.workPending == r.workRequired && !r.gone)
    && (r.executionFinished <==> r.completion.Some?)
    && (r.completion.Some? ==> Terminal(r.state) && r.completion.value.tokens <= r.tokens && r.completion.value.cost <= r.cost)
    && (r.completion.Some? ==> ValidReceipt(r.completion.value) && (r.state == r.completion.value.state || r.state == Cancelled || r.state == Failed))
    && (r.workPending ==> r.workRequired)
    && (r.gone ==> !Pending(r))
  }

  predicate ValidReceipt(c: Completion) { Terminal(c.state) && c.tokens >= 0 && c.cost >= 0 }

  lemma EvolvesTransitive(a: Run, b: Run, c: Run)
    requires Evolves(a, b) && Evolves(b, c)
    ensures Evolves(a, c)
  {
  }

  /** The writers of one row, apart from a worker's acknowledgement. */
  datatype Write =
    | SetState(to: RunState)
    | Acquire(held: bool)
    | Spend(tokens: int, cost: int)
    | Complete(receipt: Completion, unresolved: bool)
    | Recover
    | Claim(claim: nat)
    | Cancel

  function Written(r: Run, w: Write, now: Instant): Run {
    match w
    case SetState(to) => SetStateTx(r, to, now).0
    case Acquire(held) => AcquireTx(r, held, now).0
    case Spend(tokens, cost) => SpendTx(r, tokens, cost)
    case Complete(c, unresolved) => CompleteTx(r, c, unresolved, now).0
    case Recover => RecoverTx(r, now)
    case Claim(claim) => ClaimTx(r, claim, now).0
    case Cancel => CancelTx(r, now)
  }

  /** The row stays sound and evolves; the flags of an ended run are left alone, and an ending raises what is owed. */
  predicate WrittenWell(r: Run, r': Run) {
    && RowSound(r') && Evolves(r, r') && !r'.gone
    && (Terminal(r.state) ==> r'.grantPending == r.grantPending && r'.workPending == r.workPending)
    && (!Terminal(r.state) && Terminal(r'.state) ==> r'.grantPending == (r.grant != 0) && r'.workPending == r.workPending)
  }

  lemma SetStateSound(r: Run, to: RunState, now: Instant)
    requires RowSound(r) && !r.gone
    ensures WrittenWell(r, SetStateTx(r, to, now).0)
  {
  }

  lemma CompleteSound(r: Run, c: Completion, unresolved: bool, now: Instant)
    requires RowSound(r) && !r.gone
    ensures WrittenWell(r, CompleteTx(r, c, unresolved, now).0)
  {
  }

  lemma RecoverSound(r: Run, now: Instant)
    requires RowSound(r) && !r.gone
    ensures WrittenWell(r, RecoverTx(r, now)) && WrittenWell(r, CancelTx(r, now))
  {
  }

  lemma OthersSound(r: Run, w: Write, now: Instant)
    requires RowSound(r) && !r.gone && (w.Acquire? || w.Spend? || w.Claim?)
    ensures WrittenWell(r, Written(r, w, now))
  {
  }

  lemma WriteKeepsClaim(r: Run, w: Write, now: Instant)
    ensures var r' := Written(r, w, now);
            if w.Claim? then r'.claim == r.claim || (r'.claim == w.claim && Terminal(r.state)) else r'.claim == r.claim
  {
  }

  /** Every writer keeps a row sound and lets it evolve. */
  lemma WriteSound(r: Run, w: Write, now: Instant)
    requires RowSound(r) && !r.gone
    ensures WrittenWell(r, Written(r, w, now))
    ensures var r' := Written(r, w, now);
            if w.Claim? then r'.claim == r.claim || (r'.claim == w.claim && Terminal(r.state)) else r'.claim == r.claim
  {
    hide WrittenWell, RowSound;
    WriteKeepsClaim(r, w, now);
    match w
    case SetState(to) => SetStateSound(r, to, now);
    case Complete(c, unresolved) => CompleteSound(r, c, unresolved, now);
    case Recover => RecoverSound(r, now);
    case Cancel => RecoverSound(r, now);
    case _ => OthersSound(r, w, now);
  }

  /** The acknowledgement clears what was confirmed, never more than was pending. */
  lemma AckSound(r: Run, claim: nat, grant: nat, grantPending: bool, workPending: bool)
    requires RowSound(r) && !r.gone && (grantPending ==> r.grantPending) && (workPending ==> r.workPending)
    ensures var r' := AckTx(r, claim, grant, grantPending, workPending).0;
            RowSound(r') && Evolves(r, r') && !r'.gone && (r'.claim == r.claim || r'.claim == 0)
  {
  }

  // ----- receipts -----

  /** The evidence does not allow this receipt: a success while something is unresolved. */
  predicate Withheld(c: Completion, unresolved: bool) { c.state == Succeeded && unresolved }

  /**
   The same receipt again changes nothing and gives the same answer, exactly unless it is a success
   whose evidence has meanwhile become unresolved; a different receipt is refused.
   */
  lemma CompletionIsIdempotent(r: Run, c: Completion, d: Completion, unresolved: bool, unresolved': bool, now: Instant, later: Instant)
    requires CompleteTx(r, c, unresolved, now).1.Some?
    ensures var (r', state) := CompleteTx(r, c, unresolved, now);
            && (CompleteTx(r', d, unresolved', later) == (r', state) <==> d == c && !Withheld(c, unresolved'))
            && (CompleteTx(r', d, unresolved', later) == (r', None) <==> d != c || Withheld(c, unresolved'))
            && r'.completion == Some(c) && state == Some(r'.state)
            && (Terminal(r.state) ==> r'.state == r.state)
  {
  }

  /** A success is stored, one tool event arrives late, and the identical receipt is refused. */
  lemma SuccessReplayRefused(r: Run, c: Completion)
    requires RowSound(r) && r.state == Running
    requires c == Completion(Succeeded, 0, 0, "")
    ensures var (r', state) := CompleteTx(r, c, false, 0);
            state == Some(Succeeded) && r'.completion == Some(c) && CompleteTx(r', c, true, 0) == (r', None)
  {
  }

  /** `other` is the row if the receipt came first, `r'` if it came after the writer that left the run at `state`. */
  predicate SameReceipt(c: Completion, state: RunState, r': Run, other: Run) {
    && r'.state == (if Terminal(state) then state else c.state)
    && r'.completion == other.completion == Some(c) && r'.executionFinished && other.executionFinished
    && r'.grantPending == other.grantPending && r'.workPending == other.workPending
    && c.tokens <= other.tokens <= r'.tokens && c.cost <= other.cost <= r'.cost
  }

  /**
   A receipt survives every race with another writer, unless that writer had ended the run in another
   way than cancelled or failed. The earlier end decides the state; apart from the spend counters the
   order decides nothing else about receipt, finish and obligations.
   */
  lemma CompletionRace(r: Run, w: Write, c: Completion, unresolved: bool, now: Instant, later: Instant)
    requires RowSound(r) && !r.gone && r.completion.None? && !w.Complete?
    requires CompleteTx(r, c, unresolved, later).1.Some?
    ensures var before, first := Written(r, w, now), CompleteTx(r, c, unresolved, later).0;
            var (r', state) := CompleteTx(before, c, unresolved, later);
            var other := Written(first, w, now);
            && (state.None? <==> before.state == Succeeded || before.state == OverBudget)
            && (state.Some? ==> SameReceipt(c, before.state, r', other) && other.state == first.state)
            && (state.Some? && !w.Spend? ==> other.tokens == r'.tokens && other.cost == r'.cost)
  {
    hide SameReceipt;
    match w
    case SetState(to) => RaceWithSetState(r, to, c, unresolved, now, later);
    case Acquire(held) => RaceWithAcquire(r, held, c, unresolved, now, later);
    case Spend(tokens, cost) => RaceWithSpend(r, tokens, cost, c, unresolved, later);
    case Claim(claim) => RaceWithClaim(r, claim, c, unresolved, now, later);
    case _ => RaceWithEnds(r, w, c, unresolved, now, later);
  }

  lemma RaceWithSetState(r: Run, to: RunState, c: Completion, unresolved: bool, now: Instant, later: Instant)
    requires RowSound(r) && !r.gone && r.completion.None? && CompleteTx(r, c, unresolved, later).1.Some?
    ensures var before, first := SetStateTx(r, to, now).0, CompleteTx(r, c, unresolved, later).0;
            var (r', state) := CompleteTx(before, c, unresolved, later);
            var other := SetStateTx(first, to, now).0;
            && (state.None? <==> before.state == Succeeded || before.state == OverBudget)
            && (state.Some? ==> SameReceipt(c, before.state, r', other) && other.state == first.state && other.tokens == r'.tokens && other.cost == r'.cost)
  {
    hide Evolves;
  }

  lemma RaceWithAcquire(r: Run, held: bool, c: Completion, unresolved: bool, now: Instant, later: Instant)
    requires RowSound(r) && !r.gone && r.completion.None? && CompleteTx(r, c, unresolved, later).1.Some?
    ensures var before, first := AcquireTx(r, held, now).0, CompleteTx(r, c, unresolved, later).0;
            var (r', state) := CompleteTx(before, c, unresolved, later);
            var other := AcquireTx(first, held, now).0;
            && (state.None? <==> before.state == Succeeded || before.state == OverBudget)
            && (state.Some? ==> SameReceipt(c, before.state, r', other) && other.state == first.state && other.tokens == r'.tokens && other.cost == r'.cost)
  {
    hide Evolves;
  }

  lemma RaceWithSpend(r: Run, tokens: int, cost: int, c: Completion, unresolved: bool, later: Instant)
    requires RowSound(r) && !r.gone && r.completion.None? && CompleteTx(r, c, unresolved, later).1.Some?
    ensures var before, first := SpendTx(r, tokens, cost), CompleteTx(r, c, unresolved, later).0;
            var (r', state) := CompleteTx(before, c, unresolved, later);
            var other := SpendTx(first, tokens, cost);
            && (state.None? <==> before.state == Succeeded || before.state == OverBudget)
            && (state.Some? ==> SameReceipt(c, before.state, r', other) && other.state == first.state)
  {
    hide Evolves;
  }

  lemma RaceWithEnds(r: Run, w: Write, c: Completion, unresolved: bool, now: Instant, later: Instant)
    requires RowSound(r) && !r.gone && r.completion.None? && CompleteTx(r, c, unresolved, later).1.Some?
    requires w.Recover? || w.Cancel?
    ensures var before, first := Written(r, w, now), CompleteTx(r, c, unresolved, later).0;
            var (r', state) := CompleteTx(before, c, unresolved, later);
            var other := Written(first, w, now);
            && (state.None? <==> before.state == Succeeded || before.state == OverBudget)
            && (state.Some? ==> SameReceipt(c, before.state, r', other) && other.state == first.state && other.tokens == r'.tokens && other.cost == r'.cost)
  {
    hide Evolves, ClaimTx;
  }

  lemma RaceWithClaim(r: Run, claim: nat, c: Completion, unresolved: bool, now: Instant, later: Instant)
    requires RowSound(r) && !r.gone && r.completion.None? && CompleteTx(r, c, unresolved, later).1.Some?
    ensures var before, first := ClaimTx(r, claim, now).0, CompleteTx(r, c, unresolved, later).0;
            var (r', state) := CompleteTx(before, c, unresolved, later);
            var other := ClaimTx(first, claim, now).0;
            && (state.None? <==> before.state == Succeeded || before.state == OverBudget)
            && (state.Some? ==> SameReceipt(c, before.state, r', other) && other.state == first.state && other.tokens == r'.tokens && other.cost == r'.cost)
  {
    hide Evolves;
  }

  // ----- the transition table -----

  /** A receipt that ends a queued run as a success or over its budget. */
  predicate Skips(r: Run, w: Write) {
    && r.state == Queued && w.Complete? && ValidReceipt(w.receipt) && !Withheld(w.receipt, w.unresolved)
    && (w.receipt.state == Succeeded || w.receipt.state == OverBudget)
  }

  /** Every writer keeps to the table that `SetRunState` enforces, exactly unless a receipt ends a run that never ran. */
  lemma TableIsKept(r: Run, w: Write, now: Instant)
    requires RowSound(r) && !r.gone
    ensures var r' := Written(r, w, now);
            r'.state == r.state || ValidTransition(r.state, r'.state) <==> !Skips(r, w)
  {
    hide Evolves;
  }

  function Stage(state: RunState): nat { if state == Queued then 0 else if state == Running then 1 else 2 }

  function AllWritten(r: Run, writes: seq<(Write, Instant)>): Run {
    if writes == [] then r
    else
      var before := AllWritten(r, writes[..|writes| - 1]);
      var (w, now) := writes[|writes| - 1];
      Written(before, w, now)
  }

  /** How often the state changes under these writes. */
  function Changes(r: Run, writes: seq<(Write, Instant)>): nat {
    if writes == [] then 0
    else
      var before := writes[..|writes| - 1];
      Changes(r, before) + if AllWritten(r, writes).state == AllWritten(r, before).state then 0 else 1
  }

  /** Whoever writes, and in whatever order, a run changes its state at most twice, and never after its end. */
  lemma {:induction false} AtMostTwoChanges(r: Run, writes: seq<(Write, Instant)>)
    requires RowSound(r) && !r.gone
    ensures RowSound(AllWritten(r, writes)) && !AllWritten(r, writes).gone
    ensures Changes(r, writes) <= Stage(AllWritten(r, writes).state) - Stage(r.state) <= 2
    ensures Terminal(r.state) ==> AllWritten(r, writes).state == r.state && AllWritten(r, writes).ended == r.ended
  {
    hide Written, RowSound;
    if writes != [] {
      var before := AllWritten(r, writes[..|writes| - 1]);
      var (w, now) := writes[|writes| - 1];
      AtMostTwoChanges(r, writes[..|writes| - 1]);
      WriteSound(before, w, now);
    }
  }

  // ----- what is recorded -----

  /** The write reports spend that counts: usage of an unended run without receipt, or its one receipt. */
  predicate Counts(r: Run, w: Write) {
    match w
    case Spend(_, _) => !Terminal(r.state) && r.completion.None?
    case Complete(c, unresolved) =>
      ValidReceipt(c) && !Withheld(c, unresolved) && r.completion.None? && r.state != Succeeded && r.state != OverBudget
    case _ => false
  }

  datatype Spent = Tokens | Cost

  function SpentIn(w: Write, what: Spent): int {
    match w
    case Spend(tokens, cost) => if what == Tokens then tokens else cost
    case Complete(c, _) => if what == Tokens then c.tokens else c.cost
    case _ => 0
  }

  function SpentOf(r: Run, what: Spent): int { if what == Tokens then r.tokens else r.cost }

  /** The k-th of these writes counts when its turn comes. */
  predicate Counted(r: Run, writes: seq<(Write, Instant)>, k: int) {
    0 <= k < |writes| && Counts(AllWritten(r, writes[..k]), writes[k].0)
  }

  /** A write that counts raises the spend to its own, if that is more; no other write touches it. */
  lemma SpendStep(r: Run, w: Write, now: Instant, what: Spent)
    ensures SpentOf(Written(r, w, now), what)
            == if Counts(r, w) && SpentOf(r, what) < SpentIn(w, what) then SpentIn(w, what) else SpentOf(r, what)
  {
  }

  /** The recorded spend is the largest that was ever reported and counted, never a sum. */
  lemma {:induction false} SpendIsLargest(r: Run, writes: seq<(Write, Instant)>, what: Spent)
    ensures var spent := SpentOf(AllWritten(r, writes), what);
            && SpentOf(r, what) <= spent && (forall k :: Counted(r, writes, k) ==> SpentIn(writes[k].0, what) <= spent)
            && (spent == SpentOf(r, what) || exists k :: Counted(r, writes, k) && spent == SpentIn(writes[k].0, what))
  {
    hide Written, Counts, SpentIn, SpentOf;
    if writes != [] {
      var n := |writes| - 1;
      var before := writes[..n];
      var r1, r' := AllWritten(r, before), AllWritten(r, writes);
      SpendIsLargest(r, before, what);
      SpendStep(r1, writes[n].0, writes[n].1, what);
      forall k | 0 <= k < n ensures Counted(r, writes, k) <==> Counted(r, before, k) { assert writes[..k] == before[..k]; }
      if Counts(r1, writes[n].0) { assert Counted(r, writes, n); }
      forall k | Counted(r, writes, k) ensures SpentIn(writes[k].0, what) <= SpentOf(r', what) {
        if k < n { assert Counted(r, before, k) && before[k] == writes[k]; }
      }
      if SpentOf(r', what) == SpentOf(r1, what) && SpentOf(r1, what) != SpentOf(r, what) {
        var k :| Counted(r, before, k) && SpentOf(r1, what) == SpentIn(before[k].0, what);
        assert Counted(r, writes, k) && before[k] == writes[k];
      }
    }
  }

  /** A start and an end are stamped with their write's time, once; no other write sets them. */
  lemma TimesAreStamped(r: Run, w: Write, now: Instant)
    requires RowSound(r) && !r.gone
    ensures var r' := Written(r, w, now);
            && r'.started == (if r.state != Running && r'.state == Running then Some(now) else r.started)
            && r'.ended == (if !Terminal(r.state) && Terminal(r'.state) then Some(now) else r.ended)
  {
    hide Evolves;
  }

  /** Each writer takes its own transition exactly when its guard holds, and none otherwise. */
  lemma StateAfter(r: Run, w: Write, now: Instant)
    requires RowSound(r) && !r.gone && !w.Complete? && !w.Recover?
    ensures Written(r, w, now).state ==
            match w
            case SetState(to) =>
              (if (r.state == Queued && (to == Running || to == Cancelled || to == Failed)) || (r.state == Running && to != Queued && to != Running)
               then to else r.state)
            case Acquire(held) => (if r.state == Queued && !held then Running else r.state)
            case Cancel => (if r.state == Queued || r.state == Running then Cancelled else r.state)
            case _ => r.state
    ensures w.Spend? || w.Claim? ==> Written(r, w, now).(tokens := r.tokens, cost := r.cost, claim := r.claim, lease := r.lease) == r
  {
    hide Evolves;
  }

  // ----- recovery and leases -----

  /**
   Recovery fails a run exactly when its admission lease ran out while it was queued, or its wall
   clock and fifteen minutes passed since its start without a receipt; any other run it leaves alone.
   */
  lemma RecoveryIsExact(r: Run, now: Instant)
    requires RowSound(r) && !r.gone
    ensures var late := (r.state == Queued && r.admissionLease < now)
                        || (r.state == Running && r.completion.None? && r.started.value + r.wallclock * 1_000_000_000 + 15 * MINUTE < now);
            RecoverTx(r, now) == if late then r.(state := Failed, ended := Some(now), grantPending := r.grant != 0) else r
  {
    hide Evolves;
  }

  /** A worker gets the row of an ended run that owes something exactly when no lease runs, for two minutes. */
  lemma ClaimIsExact(r: Run, claim: nat, now: Instant)
    ensures ClaimTx(r, claim, now) ==
            if r.state != Queued && r.state != Running && (r.grantPending || r.workPending) && r.lease <= now
            then (r.(claim := claim, lease := now + 2 * MINUTE), true) else (r, false)
  {
  }

  /** While a lease runs, no writer takes the claim away, and no other worker gets the row. */
  lemma {:induction false} LeaseKeepsOut(r: Run, claim: nat, at: Instant, writes: seq<(Write, Instant)>, other: nat, now: Instant)
    requires RowSound(r) && !r.gone && ClaimTx(r, claim, at).1 && now < at + 2 * MINUTE
    requires forall k :: 0 <= k < |writes| ==> writes[k].1 < at + 2 * MINUTE
    ensures var r' := AllWritten(ClaimTx(r, claim, at).0, writes);
            r'.claim == claim && r'.lease == at + 2 * MINUTE && ClaimTx(r', other, now) == (r', false)
  {
    hide RowSound, Evolves;
    if writes != [] {
      var n := |writes| - 1;
      LeaseKeepsOut(r, claim, at, writes[..n], other, now);
      assert writes[n].1 < at + 2 * MINUTE;
      LeaseStays(AllWritten(ClaimTx(r, claim, at).0, writes[..n]), writes[n].0, writes[n].1);
    }
  }

  lemma LeaseStays(r: Run, w: Write, now: Instant)
    requires now < r.lease
    ensures Written(r, w, now).claim == r.claim && Written(r, w, now).lease == r.lease
  {
  }

  // ----- the table, and its loops -----

  /** `RecoverOrphanedRuns` over the ids that its scans returned; each write repeats the guard. */
  function RecoverAll(rows: map<nat, Run>, ids: seq<nat>, now: Instant): map<nat, Run> {
    if ids == [] then rows
    else
      var before := RecoverAll(rows, ids[..|ids| - 1], now);
      var id := ids[|ids| - 1];
      if id in before && !before[id].gone then before[id := RecoverTx(before[id], now)] else before
  }

  /** Which rows a scan listed, and how often, does not matter: the guard decides. */
  lemma {:induction false} RecoverAllIs(rows: map<nat, Run>, ids: seq<nat>, now: Instant, id: nat)
    ensures RecoverAll(rows, ids, now).Keys == rows.Keys
    ensures id in rows ==> RecoverAll(rows, ids, now)[id] == if id in ids && !rows[id].gone then RecoverTx(rows[id], now) else rows[id]
  {
    if ids != [] {
      RecoverAllIs(rows, ids[..|ids| - 1], now, id);
      assert ids == ids[..|ids| - 1] + [ids[|ids| - 1]];
    }
  }

  class Table {
    var rows: map<nat, Run>

    constructor ()
      ensures rows == map[]
    {
      rows := map[];
    }

    predicate Has(id: nat)
      reads this
    {
      id in rows && !rows[id].gone
    }

    method SetRunState(id: nat, to: RunState, now: Instant) returns (ok: bool)
      modifies this
      ensures !old(Has(id)) ==> !ok && rows == old(rows)
      ensures old(Has(id)) ==> (rows, ok) == (old(rows)[id := SetStateTx(old(rows[id]), to, now).0], SetStateTx(old(rows[id]), to, now).1)
    {
      if !Has(id) { return false; }
      var r := rows[id];
      if !ValidTransition(r.state, to) {
        assert rows == rows[id := r];
        return false;
      }
      if to == Running {
        rows := rows[id := r.(state := to, started := Some(now))];
      } else {
        rows := rows[id := r.(state := to, ended := Some(now), grantPending := r.grant != 0)];
      }
      return true;
    }

    method CompleteRun(id: nat, c: Completion, unresolved: bool, now: Instant) returns (state: Option<RunState>)
      modifies this
      ensures !old(Has(id)) ==> state.None? && rows == old(rows)
      ensures old(Has(id)) ==> rows == old(rows)[id := CompleteTx(old(rows[id]), c, unresolved, now).0]
      ensures old(Has(id)) ==> state == CompleteTx(old(rows[id]), c, unresolved, now).1
    {
      if !Has(id) { return None; }
      var r := rows[id];
      assert rows == rows[id := r];
      if !Terminal(c.state) || c.tokens < 0 || c.cost < 0 { return None; }
      if c.state == Succeeded && unresolved { return None; }
      if r.completion.Some? { return if r.completion.value == c then Some(r.state) else None; }
      var outcome := r.state;
      if Terminal(r.state) {
        if r.state != Cancelled && r.state != Failed { return None; }
      } else {
        outcome := c.state;
      }
      var cleanup := r.grantPending || (r.ended.None? && r.grant != 0);
      rows := rows[id := r.(executionFinished := true, state := outcome, ended := if r.ended.Some? then r.ended else Some(now),
                            tokens := Max(r.tokens, c.tokens), cost := Max(r.cost, c.cost), completion := Some(c),
                            grantPending := cleanup)];
      return Some(outcome);
    }

    method Recover(ids: seq<nat>, now: Instant)
      modifies this
      ensures rows == RecoverAll(old(rows), ids, now)
    {
      var i := 0;
      while i < |ids|
        invariant 0 <= i <= |ids|
        invariant rows == RecoverAll(old(rows), ids[..i], now)
      {
        assert ids[..i + 1][..i] == ids[..i];
        if Has(ids[i]) {
          rows := rows[ids[i] := RecoverTx(rows[ids[i]], now)];
        }
        i := i + 1;
      }
      assert ids[..i] == ids;
    }
  }
}
