/**
 Whom the grant owner lets in, and what it lets out, with the conditions written out field by field:
 `internal/capability/issuance.go`, `legacy.go` and `Revoke` of `grant.go`.
 */
module CapabilityAccess {
  import opened Wrappers
  import opened Expiry
  import opened Text
  import opened Capability
  import opened Traces

  /** The caller is of the grant's organization, and is the issuer or the runtime acting for a user. */
  predicate CallerOf(scope: Scope, i: Intent, delegated: bool) {
    && scope.org == i.grant.org && i.issuer != 0
    && if delegated then scope.kind == "service" && scope.service == "agent-runtime" && i.issuerKind == "user"
       else scope.actor == i.issuer && scope.kind == i.issuerKind
  }

  /** A run's grant: an agent that reads its repository and writes beneath its own prefix, and nothing else. */
  predicate RunGrant(g: Grant) {
    && g.id != 0 && g.org != 0 && g.subject != 0 && g.subjectKind == "agent"
    && g.repoRead && !g.secretsProd && !g.deployStaging && !g.deployProd
    && HasPrefix(g.writeBranch, "agents/") && HasSuffix(g.writeBranch, "/") && !Contains(g.writeBranch, "..")
  }

  /** No other intent, no older grant and no tombstone stands under the id. */
  predicate IdFor(db: Db, i: Intent) {
    var id := i.grant.id;
    id !in db.legacy && if id in db.issuances then db.issuances[id].intent == i else id !in db.grants
  }

  /** In every reachable state a grant is issued exactly on these conditions, and then as asked for. */
  lemma IssuesExactly(steps: seq<Step>, scope: Scope, i: Intent, delegated: bool, now: Instant)
    requires now >= 0
    ensures var db := Exec(steps); var id := i.grant.id;
            var allowed := CallerOf(scope, i, delegated) && i.run != 0 && RunGrant(i.grant) && IdFor(db, i)
                           && !(id in db.issuances && db.issuances[id].cancelled)
                           && now < i.grant.expiresAt <= now + 24 * 60 * MINUTE && (id in db.grants ==> now < db.grants[id].expiresAt);
            IssueTx(db, scope, i, delegated, now) ==
            if allowed then (db.(issuances := db.issuances[id := Issuance(i, false)], grants := db.grants[id := i.grant]), Some(i.grant)) else (db, None)
  {
    hide Exec, HasPrefix, HasSuffix, Contains;
    var db, id := Exec(steps), i.grant.id;
    RunKeepsInv(steps);
    assert IdSound(db, id);
    if id in db.issuances && db.issuances[id] == Issuance(i, false) { assert db.issuances[id := Issuance(i, false)] == db.issuances; }
    if id in db.grants && db.grants[id] == i.grant { assert db.grants[id := i.grant] == db.grants; }
  }

  /** A cancellation succeeds exactly for its caller and its id; the intent is then fenced, and its grant dead. */
  lemma CancelsExactly(steps: seq<Step>, scope: Scope, i: Intent, delegated: bool)
    ensures var db := Exec(steps); var id := i.grant.id;
            var (db', ok) := CancelTx(db, scope, i, delegated);
            && (ok <==> CallerOf(scope, i, delegated) && i.run != 0 && RunGrant(i.grant) && IdFor(db, i))
            && (!ok ==> db' == db)
            && (ok ==> db'.issuances == db.issuances[id := Issuance(i, true)] && db'.legacy == db.legacy && db'.grants.Keys == db.grants.Keys)
            && (ok && id in db.grants ==> db'.grants[id].expiresAt <= 0)
            && (forall other :: other in db.grants && other != id ==> db'.grants[other] == db.grants[other])
  {
    hide Exec, HasPrefix, HasSuffix, Contains;
    RunKeepsInv(steps);
    assert IdSound(Exec(steps), i.grant.id);
  }

  /** A legacy tombstone is set exactly by the runtime of the grant's organization for the grant's own agent and branch. */
  lemma CancelsLegacyExactly(steps: seq<Step>, scope: Scope, b: Binding)
    ensures var db := Exec(steps);
            var (db', ok) := CancelLegacyTx(db, scope, b);
            && (ok <==> scope.org == b.org && scope.kind == "service" && scope.service == "agent-runtime"
                        && b.org != 0 && b.grant != 0 && b.run != 0 && b.agent != 0 && b.branch != ""
                        && if b.grant in db.legacy then db.legacy[b.grant] == b
                           else b.grant in db.grants && b.grant !in db.issuances
                                && var g := db.grants[b.grant];
                                   g.org == b.org && g.subject == b.agent && g.subjectKind == "agent" && g.writeBranch != ""
                                   && b.branch == (if HasSuffix(g.writeBranch, "/") then g.writeBranch + "work" else g.writeBranch))
            && (!ok || b.grant in db.legacy ==> db' == db)
            && (ok ==> db'.legacy == db.legacy[b.grant := b] && db'.issuances == db.issuances && db'.grants.Keys == db.grants.Keys
                       && b.grant in db'.grants && db'.grants[b.grant].expiresAt <= 0)
            && (forall other :: other in db.grants && other != b.grant ==> db'.grants[other] == db.grants[other])
  {
    hide Exec, HasPrefix, HasSuffix, Contains;
    var db := Exec(steps);
    RunKeepsInv(steps);
    assert IdSound(db, b.grant);
    if b.grant in db.legacy && db.legacy[b.grant] == b { assert db.legacy[b.grant := b] == db.legacy; }
  }

  /** The generic issue stores its grant under an id that no table has seen, and touches nothing else. */
  lemma IssuesFreshExactly(steps: seq<Step>, g: Grant)
    ensures var db := Exec(steps);
            Do(db, IssueFresh(g)) ==
            if g.id !in db.grants && g.id !in db.issuances && g.id !in db.legacy then db.(grants := db.grants[g.id := g]) else db
  {
    hide Exec;
  }

  // ----- organizations -----

  function CallerOrg(e: Step): nat { if e.IssueFresh? then e.grant.org else e.scope.org }

  /** Rows of other organizations, in any table, are as before. */
  predicate OthersKept(db: Db, db': Db, org: nat, id: nat) {
    && (id in db.grants && db.grants[id].org != org ==> id in db'.grants && db'.grants[id] == db.grants[id])
    && (id in db.issuances && db.issuances[id].intent.grant.org != org ==> id in db'.issuances && db'.issuances[id] == db.issuances[id])
    && (id in db.legacy && db.legacy[id].org != org ==> id in db'.legacy && db'.legacy[id] == db.legacy[id])
  }

  /** New rows are of the caller's organization. */
  predicate NewAreOwn(db: Db, db': Db, org: nat, id: nat) {
    && (id in db'.grants && id !in db.grants ==> db'.grants[id].org == org)
    && (id in db'.issuances && id !in db.issuances ==> db'.issuances[id].intent.grant.org == org)
    && (id in db'.legacy && id !in db.legacy ==> db'.legacy[id].org == org)
  }

  /** No call touches a row of another organization than its caller's, whatever it presents. */
  lemma OrganizationsApart(steps: seq<Step>, e: Step, id: nat)
    requires e.IssueIntent? ==> e.now >= 0
    ensures OthersKept(Exec(steps), Do(Exec(steps), e), CallerOrg(e), id)
    ensures NewAreOwn(Exec(steps), Do(Exec(steps), e), CallerOrg(e), id)
  {
    hide Exec, IssueTx, CancelTx, CancelLegacyTx;
    var db := Exec(steps);
    match e
    case IssueIntent(scope, i, delegated, now) => IssuesExactly(steps, scope, i, delegated, now); SameOrg(steps, i.grant.id);
    case CancelIssuance(scope, i, delegated) => CancelsExactly(steps, scope, i, delegated); SameOrg(steps, i.grant.id); KeysStay(steps, e, id);
    case CancelLegacy(scope, b) => CancelsLegacyExactly(steps, scope, b); KeysStay(steps, e, id);
    case Revoke(scope, g) =>
    case IssueFresh(g) =>
  }

  lemma KeysStay(steps: seq<Step>, e: Step, id: nat)
    requires e.CancelIssuance? || e.CancelLegacy?
    ensures id in Do(Exec(steps), e).grants ==> id in Exec(steps).grants
  {
    hide Exec, Admissible, LegacyCaller, ExpectedBranch;
  }

  /** A grant is of the organization of its intent. */
  lemma SameOrg(steps: seq<Step>, id: nat)
    ensures var db := Exec(steps);
            id in db.issuances && id in db.grants ==> db.grants[id].org == db.issuances[id].intent.grant.org
  {
    hide Exec;
    RunKeepsInv(steps);
    assert IdSound(Exec(steps), id);
  }

  // ----- what grants hold -----

  predicate IntentsNarrow(db: Db) {
    forall id :: id in db.issuances ==> RunGrant(db.issuances[id].intent.grant) && db.issuances[id].intent.run != 0 && db.issuances[id].intent.issuer != 0
  }

  lemma StepKeepsNarrow(db: Db, e: Step)
    requires IntentsNarrow(db)
    ensures IntentsNarrow(Do(db, e))
  {
    hide HasPrefix, HasSuffix, Contains, ExpectedBranch, LegacyCaller;
  }

  lemma RunKeepsNarrow(steps: seq<Step>)
    ensures IntentsNarrow(Exec(steps))
  {
    hide Do, IntentsNarrow;
    forall db, e | IntentsNarrow(db) ensures IntentsNarrow(Do(db, e)) { StepKeepsNarrow(db, e); }
    NoneNarrow();
    Always(Do, EMPTY, db => IntentsNarrow(db), steps);
  }

  lemma NoneNarrow()
    ensures IntentsNarrow(EMPTY)
  {
  }

  /**
   In every run a grant that came from an intent is an agent's, reads its repository, writes only
   beneath a prefix of the agents' namespace without "..", and holds no secret or deployment right.
   */
  lemma GrantsAreNarrow(steps: seq<Step>, id: nat)
    requires id in Exec(steps).grants && id in Exec(steps).issuances
    ensures RunGrant(Exec(steps).grants[id])
  {
    hide Exec, HasPrefix, HasSuffix, Contains;
    RunKeepsNarrow(steps);
    GrantWithinIntent(steps, id);
    RunKeepsInv(steps);
    assert IdSound(Exec(steps), id);
  }

  // ----- revocation -----

  /** A grant that its organization revokes is dead in every longer run. */
  lemma RevokedIsDead(a: seq<Step>, scope: Scope, id: nat, b: seq<Step>, now: Instant)
    requires scope.org != 0 && id in Exec(a).grants && Exec(a).grants[id].org == scope.org && now >= 0
    ensures !Live(Exec(a + [Revoke(scope, id)] + b), id, now)
  {
    hide Exec;
    Revoked(a, scope, id);
    AuthorityOnlyDescends(a + [Revoke(scope, id)], b, id);
  }

  lemma Revoked(a: seq<Step>, scope: Scope, id: nat)
    requires scope.org != 0 && id in Exec(a).grants && Exec(a).grants[id].org == scope.org
    ensures id in Exec(a + [Revoke(scope, id)]).grants && Exec(a + [Revoke(scope, id)]).grants[id].expiresAt <= 0
  {
    EndOfNext(Do, EMPTY, a, Revoke(scope, id));
  }
}
