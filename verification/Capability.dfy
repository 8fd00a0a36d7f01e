/**
 The grant owner: issuance intents, grants and permanent tombstones, `internal/capability/issuance.go`,
 `legacy.go` and `grant.go`. Every call is one transaction under the advisory lock of its grant's id.
 */
module Capability {
  import opened Wrappers
  import opened Expiry
  import opened Text
  import opened Traces

  datatype Grant = Grant(id: nat, org: nat, subject: nat, subjectKind: string, repoRead: bool, writeBranch: string,
                         secretsProd: bool, deployStaging: bool, deployProd: bool, expiresAt: Instant)
  datatype Intent = Intent(issuer: nat, issuerKind: string, run: nat, grant: Grant)
  datatype Issuance = Issuance(intent: Intent, cancelled: bool)
  datatype Binding = Binding(grant: nat, org: nat, run: nat, agent: nat, branch: string)

  /** The authenticated caller; 0 is the nil identifier. */
  datatype Scope = Scope(org: nat, actor: nat, kind: string, service: string)

  datatype Db = Db(grants: map<nat, Grant>, issuances: map<nat, Issuance>, legacy: map<nat, Binding>)

  const EMPTY: Db := Db(map[], map[], map[])

  const DAY: int := 24 * 60 * MINUTE

  // ----- transactions -----

  predicate Issuer(scope: Scope, i: Intent, delegated: bool) {
    if delegated then scope.kind == "service" && scope.service == "agent-runtime" && i.issuer != 0 && i.issuerKind == "user"
    else scope.actor != 0 && scope.actor == i.issuer && scope.kind == i.issuerKind
  }

  predicate Admissible(scope: Scope, i: Intent, delegated: bool) {
    var g := i.grant;
    && scope.org != 0 && scope.org == g.org && Issuer(scope, i, delegated) && i.run != 0 && g.id != 0 && g.subject != 0
    && g.subjectKind == "agent" && g.repoRead && !g.secretsProd && !g.deployProd && !g.deployStaging
    && HasPrefix(g.writeBranch, "agents/") && HasSuffix(g.writeBranch, "/") && !Contains(g.writeBranch, "..")
  }

  /** Finds or inserts the intent; a different intent, a foreign grant or a tombstone denies. */
  function IntentTx(db: Db, scope: Scope, i: Intent, delegated: bool): Option<Db> {
    var id := i.grant.id;
    if !Admissible(scope, i, delegated) || id in db.legacy then None
    else if id in db.issuances then if db.issuances[id].intent == i then Some(db) else None
    else if id in db.grants then None
    else Some(db.(issuances := db.issuances[id := Issuance(i, false)]))
  }

  predicate Live(db: Db, id: nat, now: Instant) { id in db.grants && now < db.grants[id].expiresAt }

  function IssueTx(db: Db, scope: Scope, i: Intent, delegated: bool, now: Instant): (Db, Option<Grant>) {
    var id := i.grant.id;
    var found := IntentTx(db, scope, i, delegated);
    if found.None? || found.value.issuances[id].cancelled then (db, None)
    else if !(now < i.grant.expiresAt <= now + DAY) then (db, None)
    else if id in db.grants then if Live(db, id, now) then (found.value, Some(i.grant)) else (db, None)
    else (found.value.(grants := db.grants[id := i.grant]), Some(i.grant))
  }

  /** `LEAST(expires_at, epoch)`. */
  function Expired(g: Grant): (r: Grant)
    ensures r.expiresAt <= 0 && r.expiresAt <= g.expiresAt && r.(expiresAt := g.expiresAt) == g
  {
    if g.expiresAt <= 0 then g else g.(expiresAt := 0)
  }

  function Expire(db: Db, id: nat, org: nat): Db {
    if id in db.grants && db.grants[id].org == org then db.(grants := db.grants[id := Expired(db.grants[id])]) else db
  }

  function CancelTx(db: Db, scope: Scope, i: Intent, delegated: bool): (Db, bool) {
    var found := IntentTx(db, scope, i, delegated);
    if found.None? then (db, false)
    else (Tombstone(found.value, i.grant.id, i.grant.org), true)
  }

  function Tombstone(db: Db, id: nat, org: nat): Db
    requires id in db.issuances
  {
    Expire(db.(issuances := db.issuances[id := db.issuances[id].(cancelled := true)]), id, org)
  }

  predicate LegacyCaller(scope: Scope, b: Binding) {
    && scope.org != 0 && scope.org == b.org && scope.kind == "service" && scope.service == "agent-runtime"
    && b.grant != 0 && b.run != 0 && b.agent != 0 && b.branch != ""
  }

  /** A grant of before the intents names its branch as a prefix, or exactly. */
  function ExpectedBranch(branch: string): string { if HasSuffix(branch, "/") then branch + "work" else branch }

  function CancelLegacyTx(db: Db, scope: Scope, b: Binding): (Db, bool) {
    if !LegacyCaller(scope, b) then (db, false)
    else if b.grant in db.legacy then (db, db.legacy[b.grant] == b)
    else if b.grant !in db.grants || db.grants[b.grant].org != b.org then (db, false)
    else
      var g := db.grants[b.grant];
      if g.subject != b.agent || g.subjectKind != "agent" || g.writeBranch == "" || ExpectedBranch(g.writeBranch) != b.branch then (db, false)
      else if b.grant in db.issuances then (db, false)
      else (Expire(db.(legacy := db.legacy[b.grant := b]), b.grant, b.org), true)
  }

  /** The generic issue takes an id that no table has seen. */
  function IssueFreshTx(db: Db, g: Grant): Db {
    if g.id in db.grants || g.id in db.issuances || g.id in db.legacy then db else db.(grants := db.grants[g.id := g])
  }

  /** The tables, and the transactions as statements. */
  class Owner {
    var grants: map<nat, Grant>
    var issuances: map<nat, Issuance>
    var legacy: map<nat, Binding>

    constructor ()
      ensures View() == EMPTY
    {
      grants, issuances, legacy := map[], map[], map[];
    }

    function View(): Db
      reads this
    {
      Db(grants, issuances, legacy)
    }

    method FindOrInsert(scope: Scope, i: Intent, delegated: bool) returns (ok: bool)
      modifies `issuances
      ensures ok == IntentTx(old(View()), scope, i, delegated).Some?
      ensures View() == if ok then IntentTx(old(View()), scope, i, delegated).value else old(View())
      ensures ok ==> i.grant.id in issuances
    {
      var id := i.grant.id;
      if !Admissible(scope, i, delegated) || id in legacy { return false; }
      if id in issuances { return issuances[id].intent == i; }
      if id in grants { return false; }
      issuances := issuances[id := Issuance(i, false)];
      return true;
    }

    method ExpireGrant(id: nat, org: nat)
      modifies `grants
      ensures View() == Expire(old(View()), id, org)
    {
      if id in grants && grants[id].org == org { grants := grants[id := Expired(grants[id])]; }
    }

    method IssueIntent(scope: Scope, i: Intent, delegated: bool, now: Instant) returns (issued: Option<Grant>)
      modifies this
      ensures (View(), issued) == IssueTx(old(View()), scope, i, delegated, now)
    {
      var before := issuances;
      var id := i.grant.id;
      var ok := FindOrInsert(scope, i, delegated);
      if !ok { return None; }
      if issuances[id].cancelled || !(now < i.grant.expiresAt <= now + DAY) || (id in grants && grants[id].expiresAt <= now) {
        issuances := before;
        return None;
      }
      if id !in grants { grants := grants[id := i.grant]; }
      return Some(i.grant);
    }

    method CancelIssuance(scope: Scope, i: Intent, delegated: bool) returns (ok: bool)
      modifies this
      ensures (View(), ok) == CancelTx(old(View()), scope, i, delegated)
    {
      ok := FindOrInsert(scope, i, delegated);
      if ok {
        issuances := issuances[i.grant.id := issuances[i.grant.id].(cancelled := true)];
        ExpireGrant(i.grant.id, i.grant.org);
      }
    }

    method CancelLegacy(scope: Scope, b: Binding) returns (ok: bool)
      modifies this
      ensures (View(), ok) == CancelLegacyTx(old(View()), scope, b)
    {
      if !LegacyCaller(scope, b) { return false; }
      if b.grant in legacy { return legacy[b.grant] == b; }
      if b.grant !in grants || grants[b.grant].org != b.org { return false; }
      var g := grants[b.grant];
      if g.subject != b.agent || g.subjectKind != "agent" || g.writeBranch == "" || ExpectedBranch(g.writeBranch) != b.branch {
        return false;
      }
      if b.grant in issuances { return false; }
      legacy := legacy[b.grant := b];
      ExpireGrant(b.grant, b.org);
      return true;
    }
  }

  // ----- runs -----

  datatype Step =
    | IssueIntent(scope: Scope, intent: Intent, delegated: bool, now: Instant)
    | CancelIssuance(scope: Scope, intent: Intent, delegated: bool)
    | CancelLegacy(scope: Scope, binding: Binding)
    | Revoke(scope: Scope, id: nat)
    | IssueFresh(grant: Grant)

  function Do(db: Db, e: Step): Db {
    match e
    case IssueIntent(scope, i, delegated, now) => IssueTx(db, scope, i, delegated, now).0
    case CancelIssuance(scope, i, delegated) => CancelTx(db, scope, i, delegated).0
    case CancelLegacy(scope, b) => CancelLegacyTx(db, scope, b).0
    case Revoke(scope, id) => if scope.org == 0 then db else Expire(db, id, scope.org)
    case IssueFresh(g) => IssueFreshTx(db, g)
  }

  ghost function Exec(steps: seq<Step>): Db { EndOf(Do, EMPTY, steps) }

  // ----- invariant -----

  /** The stored grant is the intent's, or expired. */
  predicate Derived(g: Grant, i: Intent) { g == i.grant || (g.expiresAt <= 0 && g.expiresAt <= i.grant.expiresAt && g.(expiresAt := i.grant.expiresAt) == i.grant) }

  predicate IdSound(db: Db, id: nat) {
    && (id in db.grants ==> db.grants[id].id == id)
    && (id in db.issuances ==>
          && db.issuances[id].intent.grant.id == id && id !in db.legacy
          && (id in db.grants ==> Derived(db.grants[id], db.issuances[id].intent))
          && (db.issuances[id].cancelled ==> !Live(db, id, 0)))
    && (id in db.legacy ==> id in db.grants && db.grants[id].expiresAt <= 0)
  }

  ghost predicate Inv(db: Db) { forall id :: IdSound(db, id) }

  /** What one step, and so every run, does to one id. */
  predicate Descends(db: Db, db': Db, id: nat) {
    && (id in db.grants ==> id in db'.grants && db'.grants[id].expiresAt <= db.grants[id].expiresAt
                            && db'.grants[id].(expiresAt := db.grants[id].expiresAt) == db.grants[id])
    && (id in db.issuances ==> id in db'.issuances && db'.issuances[id].intent == db.issuances[id].intent
                               && (db.issuances[id].cancelled ==> db'.issuances[id].cancelled))
    && (id in db.legacy ==> id in db'.legacy && db'.legacy[id] == db.legacy[id])
  }

  lemma StepSound(db: Db, e: Step, id: nat)
    requires IdSound(db, id)
    ensures IdSound(Do(db, e), id) && Descends(db, Do(db, e), id)
  {
    hide IdSound, Descends, IssueTx, CancelTx, CancelLegacyTx, Expire, IssueFreshTx;
    match e
    case IssueIntent(scope, i, delegated, now) => IssueSound(db, scope, i, delegated, now, id);
    case CancelIssuance(scope, i, delegated) => CancelSound(db, scope, i, delegated, id);
    case CancelLegacy(scope, b) => LegacySound(db, scope, b, id);
    case Revoke(scope, g) => ExpireSound(db, g, scope.org, id); DescendsReflexive(db, id);
    case IssueFresh(g) => FreshSound(db, g, id);
  }

  lemma IssueSound(db: Db, scope: Scope, i: Intent, delegated: bool, now: Instant, id: nat)
    requires IdSound(db, id)
    ensures var db' := IssueTx(db, scope, i, delegated, now).0; IdSound(db', id) && Descends(db, db', id)
  {
    hide Admissible;
  }

  lemma CancelSound(db: Db, scope: Scope, i: Intent, delegated: bool, id: nat)
    requires IdSound(db, id)
    ensures var db' := CancelTx(db, scope, i, delegated).0; IdSound(db', id) && Descends(db, db', id)
  {
    hide IdSound, Descends, Tombstone, IntentTx;
    DescendsReflexive(db, id);
    var found := IntentTx(db, scope, i, delegated);
    if found.Some? {
      IntentSound(db, scope, i, delegated, id);
      if i.grant.id == id {
        TombstoneSound(found.value, id, i.grant.org);
      } else {
        TombstoneElsewhere(found.value, i.grant.id, i.grant.org, id);
      }
      DescendsTransitive(db, found.value, Tombstone(found.value, i.grant.id, i.grant.org), id);
    }
  }

  lemma IntentSound(db: Db, scope: Scope, i: Intent, delegated: bool, id: nat)
    requires IdSound(db, id) && IntentTx(db, scope, i, delegated).Some?
    ensures var db' := IntentTx(db, scope, i, delegated).value;
            IdSound(db', id) && Descends(db, db', id) && i.grant.id in db'.issuances && db'.issuances[i.grant.id].intent == i
  {
    hide Admissible;
  }

  lemma TombstoneSound(db: Db, id: nat, org: nat)
    requires IdSound(db, id) && id in db.issuances && db.issuances[id].intent.grant.org == org
    ensures IdSound(Tombstone(db, id, org), id) && Descends(db, Tombstone(db, id, org), id)
  {
  }

  lemma TombstoneElsewhere(db: Db, target: nat, org: nat, id: nat)
    requires IdSound(db, id) && target in db.issuances && target != id
    ensures IdSound(Tombstone(db, target, org), id) && Descends(db, Tombstone(db, target, org), id)
  {
  }

  lemma LegacySound(db: Db, scope: Scope, b: Binding, id: nat)
    requires IdSound(db, id)
    ensures var db' := CancelLegacyTx(db, scope, b).0; IdSound(db', id) && Descends(db, db', id)
  {
    hide LegacyCaller, ExpectedBranch;
  }

  lemma ExpireSound(db: Db, g: nat, org: nat, id: nat)
    requires IdSound(db, id)
    ensures IdSound(Expire(db, g, org), id) && Descends(db, Expire(db, g, org), id)
  {
  }

  lemma FreshSound(db: Db, g: Grant, id: nat)
    requires IdSound(db, id)
    ensures IdSound(IssueFreshTx(db, g), id) && Descends(db, IssueFreshTx(db, g), id)
  {
  }

  lemma StepKeepsInv(db: Db, e: Step)
    requires Inv(db)
    ensures Inv(Do(db, e))
  {
    hide Do, IdSound;
    forall id ensures IdSound(Do(db, e), id) { StepSound(db, e, id); }
  }

  /** The invariant holds at first, and every step keeps it. */
  lemma AllKeepInv()
    ensures Inv(EMPTY) && forall db, e :: Inv(db) ==> Inv(Do(db, e))
  {
    hide Do, IdSound;
    forall id ensures IdSound(EMPTY, id) { EmptySound(id); }
    forall db, e | Inv(db) ensures Inv(Do(db, e)) { StepKeepsInv(db, e); }
  }

  lemma RunKeepsInv(steps: seq<Step>)
    ensures Inv(Exec(steps))
  {
    hide Do, Inv;
    AllKeepInv();
    Always(Do, EMPTY, db => Inv(db), steps);
  }

  lemma EmptySound(id: nat)
    ensures IdSound(EMPTY, id)
  {
  }

  lemma DescendsTransitive(a: Db, b: Db, c: Db, id: nat)
    requires Descends(a, b, id) && Descends(b, c, id)
    ensures Descends(a, c, id)
  {
  }

  // ----- the promises -----

  /** Grants keep their identity and only lose time; intents, cancellations and tombstones are permanent. */
  lemma AuthorityOnlyDescends(a: seq<Step>, b: seq<Step>, id: nat)
    ensures Descends(Exec(a), Exec(a + b), id)
  {
    hide Do, Inv, Descends, IdSound;
    AllKeepInv();
    forall db ensures Descends(db, db, id) { DescendsReflexive(db, id); }
    forall x, y, e | Descends(x, y, id) && Inv(y) ensures Descends(x, Do(y, e), id) {
      StepDescends(y, e, id);
      DescendsTransitive(x, y, Do(y, e), id);
    }
    Onward(Do, EMPTY, db => Inv(db), (x, y) => Descends(x, y, id), a, b);
  }

  lemma StepDescends(db: Db, e: Step, id: nat)
    requires Inv(db)
    ensures Descends(db, Do(db, e), id)
  {
    hide Do, Descends, IdSound;
    StepSound(db, e, id);
  }

  lemma DescendsReflexive(db: Db, id: nat)
    ensures Descends(db, db, id)
  {
  }

  /** The id was fenced by a cancelled intent or by a legacy tombstone. */
  predicate Fenced(db: Db, id: nat) {
    (id in db.issuances && db.issuances[id].cancelled) || id in db.legacy
  }

  /** A fenced id is never live again, and no call ever issues it again, not even a delayed one. */
  lemma NoResurrection(a: seq<Step>, b: seq<Step>, id: nat, now: Instant, scope: Scope, i: Intent, delegated: bool)
    requires Fenced(Exec(a), id) && now >= 0 && i.grant.id == id
    ensures !Live(Exec(a + b), id, now)
    ensures IssueTx(Exec(a + b), scope, i, delegated, now) == (Exec(a + b), None)
  {
    hide Do, Exec, Admissible;
    AuthorityOnlyDescends(a, b, id);
    RunKeepsInv(a + b);
    assert IdSound(Exec(a + b), id);
  }

  /** Both ways of cancelling fence the id when they report success, issued or not. */
  lemma CancellationFences(db: Db, scope: Scope, i: Intent, delegated: bool)
    requires CancelTx(db, scope, i, delegated).1
    ensures Fenced(CancelTx(db, scope, i, delegated).0, i.grant.id)
  {
    hide Admissible;
  }

  lemma LegacyCancellationFences(db: Db, scope: Scope, b: Binding)
    requires CancelLegacyTx(db, scope, b).1
    ensures Fenced(CancelLegacyTx(db, scope, b).0, b.grant)
  {
    hide LegacyCaller, ExpectedBranch;
  }

  /** An id is in at most one of the two tables that fence it. */
  lemma NeverBoth(steps: seq<Step>, id: nat)
    ensures !(id in Exec(steps).issuances && id in Exec(steps).legacy)
  {
    hide Exec;
    RunKeepsInv(steps);
    assert IdSound(Exec(steps), id);
  }

  /** A stored grant is its intent's grant, or has lost all its time. */
  lemma GrantWithinIntent(steps: seq<Step>, id: nat)
    requires id in Exec(steps).grants && id in Exec(steps).issuances
    ensures var g, i := Exec(steps).grants[id], Exec(steps).issuances[id].intent.grant;
            g == i || (g.expiresAt <= 0 && g.expiresAt <= i.expiresAt && g.(expiresAt := i.expiresAt) == i)
  {
    hide Exec;
    RunKeepsInv(steps);
    assert IdSound(Exec(steps), id);
  }

  /** What a successful call returns is what the owner holds: a replay never renews or widens a grant. */
  lemma IssuedIsStored(steps: seq<Step>, scope: Scope, i: Intent, delegated: bool, now: Instant)
    requires now >= 0 && IssueTx(Exec(steps), scope, i, delegated, now).1.Some?
    ensures var (db', g) := IssueTx(Exec(steps), scope, i, delegated, now);
            && g == Some(i.grant) && i.grant.id in db'.grants && db'.grants[i.grant.id] == i.grant
            && Live(db', i.grant.id, now) && i.grant.expiresAt <= now + DAY && db'.issuances[i.grant.id] == Issuance(i, false)
  {
    hide Exec, Admissible;
    RunKeepsInv(steps);
    assert IdSound(Exec(steps), i.grant.id);
  }

  /** The call reported success, and so stored or found its intent. */
  predicate Settles(db: Db, e: Step, i: Intent) {
    match e
    case IssueIntent(scope, intent, delegated, now) => intent == i && IssueTx(db, scope, i, delegated, now).1.Some?
    case CancelIssuance(scope, intent, delegated) => intent == i && CancelTx(db, scope, i, delegated).1
    case _ => false
  }

  /** An id serves one intent: after a call that succeeded, every later lookup finds that intent and stores nothing, or denies. */
  lemma OneIntentPerId(a: seq<Step>, e: Step, b: seq<Step>, i: Intent, j: Intent, scope: Scope, delegated: bool)
    requires Settles(Exec(a), e, i) && j.grant.id == i.grant.id
    ensures var db := Exec(a + [e] + b);
            IntentTx(db, scope, j, delegated) == if j == i && Admissible(scope, j, delegated) then Some(db) else None
  {
    hide Exec, Admissible, Do;
    StoresIntent(a, e, i);
    AuthorityOnlyDescends(a + [e], b, i.grant.id);
    NeverBoth(a + [e] + b, i.grant.id);
  }

  lemma StoresIntent(a: seq<Step>, e: Step, i: Intent)
    requires Settles(Exec(a), e, i)
    ensures var db := Exec(a + [e]); i.grant.id in db.issuances && db.issuances[i.grant.id].intent == i
  {
    hide Admissible;
    EndOfNext(Do, EMPTY, a, e);
  }

  /** A legacy tombstone answers for ever: the same binding again succeeds and changes nothing, any other is denied. */
  lemma LegacyCancelsOnce(a: seq<Step>, b: seq<Step>, scope: Scope, binding: Binding)
    requires binding.grant in Exec(a).legacy
    ensures CancelLegacyTx(Exec(a + b), scope, binding)
            == (Exec(a + b), LegacyCaller(scope, binding) && binding == Exec(a).legacy[binding.grant])
  {
    hide Exec, LegacyCaller;
    AuthorityOnlyDescends(a, b, binding.grant);
  }

  /** Once an intent is stored, a different one for the same id neither issues nor cancels, ever. */
  lemma IntentIsForever(a: seq<Step>, b: seq<Step>, scope: Scope, i: Intent, delegated: bool, now: Instant)
    requires i.grant.id in Exec(a).issuances && Exec(a).issuances[i.grant.id].intent != i
    ensures IssueTx(Exec(a + b), scope, i, delegated, now) == (Exec(a + b), None)
    ensures CancelTx(Exec(a + b), scope, i, delegated) == (Exec(a + b), false)
  {
    hide Do, Exec, Admissible;
    AuthorityOnlyDescends(a, b, i.grant.id);
  }
}
