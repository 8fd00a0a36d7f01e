/**
 The scans of one operation's attempts that name a delivery: `latestDelivery`,
 `existingDelivery` and `previousDeliveryBinding` of `internal/deployment/helm.go`. A binding is
 an injective digest of the operation and its delivery's number, so the number stands for it and
 0 for the text "-".
 */
module HelmScan {
  import opened Wrappers
  import opened DeploymentStore
  import opened Delivery
  import opened DeliveryInvariant
  import opened DeliverySteps
  import opened DeliverySafety

  method Latest(attempts: seq<Attempt>) returns (number: nat)
    ensures number == LatestDelivery(attempts, |attempts|)
  {
    var i := |attempts|;
    while i > 0
      invariant 0 <= i <= |attempts|
      invariant LatestDelivery(attempts, i) == LatestDelivery(attempts, |attempts|)
    {
      i := i - 1;
      if attempts[i].kind == Execute { return attempts[i].number; }
    }
    return 0;
  }

  /** The scan stops at the newest attempt, before the last, that recorded a release of an older delivery. */
  function PreviousFrom(attempts: seq<Attempt>, current: nat, n: nat): nat
    requires n <= |attempts|
  {
    if n == 0 then 0
    else if attempts[n - 1].externalId != "" && LatestDelivery(attempts, n) != current then LatestDelivery(attempts, n)
    else PreviousFrom(attempts, current, n - 1)
  }

  function PreviousDelivery(attempts: seq<Attempt>): nat {
    if attempts == [] then 0
    else PreviousFrom(attempts, LatestDelivery(attempts, |attempts|), |attempts| - 1)
  }

  method Previous(attempts: seq<Attempt>) returns (number: nat)
    ensures number == PreviousDelivery(attempts)
  {
    var current := Latest(attempts);
    var i := |attempts| - 1;
    while i > 0
      invariant attempts != [] ==> 0 <= i < |attempts|
      invariant attempts != [] ==> PreviousFrom(attempts, current, i) == PreviousDelivery(attempts)
    {
      i := i - 1;
      if attempts[i].externalId != "" {
        assert attempts[..i + 1] + attempts[i + 1..] == attempts;
        var prior := Latest(attempts[..i + 1]);
        LatestOfPrefix(attempts, i + 1);
        if prior != current { return prior; }
      }
    }
    return 0;
  }

  lemma {:induction false} LatestOfPrefixTo(attempts: seq<Attempt>, m: nat, n: nat)
    requires n <= m <= |attempts|
    ensures LatestDelivery(attempts[..m], n) == LatestDelivery(attempts, n)
  {
    if n > 0 { LatestOfPrefixTo(attempts, m, n - 1); }
  }

  lemma LatestOfPrefix(attempts: seq<Attempt>, n: nat)
    requires n <= |attempts|
    ensures |attempts[..n]| == n && LatestDelivery(attempts[..n], n) == LatestDelivery(attempts, n)
  {
    LatestOfPrefixTo(attempts, n, n);
  }

  /** Delivery `d` (an index) has a Job and precedes the current delivery. */
  ghost predicate RanBefore(jobs: map<nat, Job>, attempts: seq<Attempt>, d: int) {
    0 <= d < |attempts| && attempts[d].kind == Execute && d + 1 in jobs && !Newest(attempts, d)
  }

  /** The scan from attempt `n` down sees exactly the deliveries that recorded a release below it. */
  lemma {:induction false} ScanFinds(attempts: seq<Attempt>, current: nat, n: nat)
    requires Numbered(attempts) && n <= |attempts| && (attempts != [] ==> attempts[0].kind == Execute)
    ensures var r := PreviousFrom(attempts, current, n);
            && (r > 0 ==> exists i :: i < n && Delivers(attempts, r - 1, i) && attempts[i].externalId != "")
            && (r > 0 ==> r != current)
            && (forall d, i :: 0 <= i < n && Delivers(attempts, d, i) && attempts[i].externalId != "" && d + 1 != current ==> d + 1 <= r)
  {
    if n > 0 {
      LatestDeliveryIs(attempts, n);
      var l := LatestDelivery(attempts, n);
      ScanFinds(attempts, current, n - 1);
      if attempts[n - 1].externalId != "" && l != current {
        assert Delivers(attempts, l - 1, n - 1);
      }
      forall d, i | 0 <= i < n && Delivers(attempts, d, i) && attempts[i].externalId != "" && d + 1 != current
        ensures d + 1 <= PreviousFrom(attempts, current, n)
      {
        if i == n - 1 { assert d + 1 == l; }
      }
    }
  }

  /**
   The base of a retry: the most recent earlier delivery that ran, skipping those that were never
   dispatched, and none exactly when none ran.
   */
  lemma RetryBase(steps: seq<Step>, id: nat)
    requires id in Exec(steps).db.operations && Exec(steps).db.operations[id].attempts != []
    ensures var attempts, jobs := Exec(steps).db.operations[id].attempts, Jobs(Exec(steps).jobs, id);
            var r := PreviousDelivery(attempts);
            && (r > 0 ==> RanBefore(jobs, attempts, r - 1))
            && (forall d :: RanBefore(jobs, attempts, d) ==> d + 1 <= r)
  {
    hide Exec, Narrowing, JobsMarked, Obliged, Sequenced, Vouched, Reported;
    RunSound(steps, id);
    var op, jobs := Exec(steps).db.operations[id], Jobs(Exec(steps).jobs, id);
    var a := op.attempts;
    LatestDeliveryIs(a, |a|);
    var current := LatestDelivery(a, |a|);
    NewestIs(a, current);
    ScanFinds(a, current, |a| - 1);
    ScanMeaning(jobs, op, current);
  }

  lemma NewestIs(attempts: seq<Attempt>, current: nat)
    requires Newest(attempts, current - 1)
    ensures forall d :: Newest(attempts, d) <==> d == current - 1
  {
  }

  lemma ScanMeaning(jobs: map<nat, Job>, op: Operation, current: nat)
    requires Historic(jobs, op) && op.attempts != [] && (forall d :: Newest(op.attempts, d) <==> d == current - 1)
    requires var a, r := op.attempts, PreviousFrom(op.attempts, current, |op.attempts| - 1);
             && (r > 0 ==> exists i :: i < |a| - 1 && Delivers(a, r - 1, i) && a[i].externalId != "")
             && (r > 0 ==> r != current)
             && (forall d, i :: 0 <= i < |a| - 1 && Delivers(a, d, i) && a[i].externalId != "" && d + 1 != current ==> d + 1 <= r)
    ensures var r := PreviousFrom(op.attempts, current, |op.attempts| - 1);
            && (r > 0 ==> RanBefore(jobs, op.attempts, r - 1))
            && (forall d :: RanBefore(jobs, op.attempts, d) ==> d + 1 <= r)
  {
    hide PreviousFrom;
    var a, r := op.attempts, PreviousFrom(op.attempts, current, |op.attempts| - 1);
    if r > 0 {
      var i :| i < |a| - 1 && Delivers(a, r - 1, i) && a[i].externalId != "";
      assert HasEnded(jobs, r - 1 + 1);
    }
    forall d | RanBefore(jobs, a, d) ensures d + 1 <= r {
      var i :| Delivers(a, d, i) && a[i].externalId != "";
      assert i == |a| - 1 ==> Newest(a, d);
    }
  }
}
