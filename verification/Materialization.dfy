/**
 The life of one deployment Secret: `internal/deployment/materialization.go`. Any number of
 processes prepare and revoke the credential of one attempt; they share one row, one Secret name
 and the issuer, and each may crash between any two calls. A call to Kubernetes may be applied
 late, be lost, or be applied with its reply lost.
 */
module Materialization {
  import opened Wrappers
  import opened Expiry
  import opened Traces

  // ----- the row -----

  datatype Phase = Intended | Creating | Materialized | Absent

  /** The immutable request of the credential's owner; `body` stands for everything but its deadline. */
  datatype Intent = Intent(body: nat, expiresAt: Instant)

  /** `uid` 0 is the empty text. The marker is fresh to the row, so a Secret carries it or is foreign. */
  datatype Row = Row(intent: Intent, phase: Phase, uid: nat, closed: bool, issued: Option<Instant>)

  datatype Secret = Secret(uid: nat, marked: bool)

  /** Inserts the row unless it is there, compares the intent, and closes it on demand. */
  function IntentTx(row: Option<Row>, intent: Intent, close: bool): (Option<Row>, Option<Row>) {
    var stored := if row.Some? then row.value else Row(intent, Intended, 0, close, None);
    if stored.intent != intent then (row, None)
    else var r := if close then stored.(closed := true) else stored; (Some(r), Some(r))
  }

  /** Takes the right to the one create, unless the row was closed or the right taken. */
  function ClaimTx(row: Row, issued: Instant): (Row, bool) {
    if !row.closed && row.phase == Intended then (row.(phase := Creating, issued := Some(Truncate(issued))), true) else (row, false)
  }

  function RecordTx(row: Row, secret: Secret): (Row, bool) {
    if secret.uid == 0 || !secret.marked then (row, false)
    else if row.phase == Creating || (row.phase == Materialized && row.uid == secret.uid) then
      (row.(phase := Materialized, uid := secret.uid), true)
    else (row, false)
  }

  /** The create was refused: it did not happen and never will. */
  function RefuseTx(row: Row): Row {
    if row.phase == Creating && row.uid == 0 then row.(phase := Absent) else row
  }

  function AbsentTx(row: Row, uid: nat): (Row, bool) {
    if row.closed && row.uid == uid then (row.(phase := Absent), true) else (row, false)
  }

  /** The row of one attempt, and its updates as statements. */
  class Table {
    var row: Option<Row>

    constructor ()
      ensures row == None
    {
      row := None;
    }

    method FindOrInsert(intent: Intent, close: bool) returns (seen: Option<Row>)
      modifies this
      ensures (row, seen) == IntentTx(old(row), intent, close)
    {
      var before := row;
      if row.None? { row := Some(Row(intent, Intended, 0, close, None)); }
      if row.value.intent != intent {
        row := before;
        return None;
      }
      if close { row := Some(row.value.(closed := true)); }
      return row;
    }

    method Claim(issued: Instant) returns (claimed: bool)
      requires row.Some?
      modifies this
      ensures row.Some? && (row.value, claimed) == ClaimTx(old(row.value), issued)
    {
      claimed := !row.value.closed && row.value.phase == Intended;
      if claimed { row := Some(row.value.(phase := Creating, issued := Some(Truncate(issued)))); }
    }

    method Record(secret: Secret) returns (recorded: bool)
      requires row.Some?
      modifies this
      ensures row.Some? && (row.value, recorded) == RecordTx(old(row.value), secret)
    {
      if secret.uid == 0 || !secret.marked { return false; }
      recorded := row.value.phase == Creating || (row.value.phase == Materialized && row.value.uid == secret.uid);
      if recorded { row := Some(row.value.(phase := Materialized, uid := secret.uid)); }
    }

    method Refuse()
      requires row.Some?
      modifies this
      ensures row == Some(RefuseTx(old(row.value)))
    {
      if row.value.phase == Creating && row.value.uid == 0 { row := Some(row.value.(phase := Absent)); }
    }

    method MarkAbsent(uid: nat) returns (marked: bool)
      requires row.Some?
      modifies this
      ensures row.Some? && (row.value, marked) == AbsentTx(old(row.value), uid)
    {
      marked := row.value.closed && row.value.uid == uid;
      if marked { row := Some(row.value.(phase := Absent)); }
    }
  }

  // ----- the world -----

  /** A create request: in flight, lost, refused because the name was taken, or applied. */
  datatype Create = Flying | Lost | Refused | Made(uid: nat)

  /**
   `sent` are all creates ever issued, `deletes` the UIDs that deletes were issued for and
   `deleted` those that such a delete removed; `fenced` says that the issuer will not issue again.
   */
  datatype World = World(row: Option<Row>, secret: Option<Secret>, sent: seq<Create>, deletes: set<nat>,
                         deleted: set<nat>, nextUid: nat, fenced: bool)

  const EMPTY: World := World(None, None, [], {}, {}, 1, false)

  // ----- processes -----

  datatype Then = Recover | Reread | Delete

  datatype Point =
    | Preparing
    | Issuing
    | Claiming(issued: Instant)
    | MayCreate
    | Awaiting(create: nat)
    | Refusing
    | Recovering
    | Recording(found: Secret, after: Then)
    | Rereading
    | Prepared(expiresAt: Instant)
    | Revoking
    | Fencing
    | Removing
    | Deleting(uid: nat)
    | Confirming(uid: nat)
    | MarkingAbsent(uid: nat)
    | Revoked
    | Failed

  /** `row` is the process's copy of the row, `cleared` whether the issuer confirmed its fence. */
  datatype Process = Process(intent: Intent, at: Point, row: Row, cleared: bool)

  datatype State = State(world: World, processes: map<nat, Process>)

  const INITIAL: State := State(EMPTY, map[])

  /** What one step of one process may meet: clocks, issued lifetimes, failures and lost replies. */
  datatype Luck = Luck(now: Instant, expiresAt: Instant, applied: bool, acked: bool)

  function At(p: Process, at: Point): Process { p.(at := at) }

  function StepPreparing(w: World, p: Process, luck: Luck): (World, Process) {
    var (row, seen) := IntentTx(w.row, p.intent, false);
    if !luck.applied then (w, At(p, Failed))
    else if !luck.acked || seen.None? || seen.value.closed || seen.value.phase == Absent || !CoversExecution(p.intent.expiresAt, luck.now) then
      (w.(row := row), At(p, Failed))
    else (w.(row := row), p.(row := seen.value, at := if seen.value.phase == Intended then Issuing else Recovering))
  }

  function StepIssuing(w: World, p: Process, luck: Luck): (World, Process) {
    if luck.acked && !w.fenced && luck.now < luck.expiresAt <= p.intent.expiresAt && CoversExecution(luck.expiresAt, luck.now)
    then (w, At(p, Claiming(luck.expiresAt)))
    else (w, At(p, Failed))
  }

  function StepClaiming(w: World, p: Process, luck: Luck): (World, Process)
    requires w.row.Some? && p.at.Claiming?
  {
    var (row, claimed) := ClaimTx(w.row.value, p.at.issued);
    if !luck.applied then (w, At(p, Failed)) else (w.(row := Some(row)), At(p, if claimed && luck.acked then MayCreate else Failed))
  }

  function StepAwaiting(w: World, p: Process, luck: Luck): (World, Process)
    requires p.at.Awaiting?
  {
    var i := p.at.create;
    if !luck.acked || i >= |w.sent| then (w, At(p, Failed))
    else match w.sent[i]
      case Made(uid) => (w, At(p, Recording(Secret(uid, true), Recover)))
      case Refused => (w, At(p, Refusing))
      case _ => (w, At(p, Failed))
  }

  function StepRefusing(w: World, p: Process, luck: Luck): (World, Process)
    requires w.row.Some?
  {
    (if luck.applied then w.(row := Some(RefuseTx(w.row.value))) else w, At(p, Failed))
  }

  function StepRecovering(w: World, p: Process, luck: Luck): (World, Process) {
    if !luck.acked || w.secret.None? || (p.row.uid != 0 && p.row.uid != w.secret.value.uid) then (w, At(p, Failed))
    else (w, At(p, Recording(w.secret.value, Reread)))
  }

  function StepRecording(w: World, p: Process, luck: Luck): (World, Process)
    requires w.row.Some? && p.at.Recording?
  {
    var (row, recorded) := RecordTx(w.row.value, p.at.found);
    var next := match p.at.after case Recover => Recovering case Reread => Rereading case Delete => Deleting(p.at.found.uid);
    if !luck.applied then (w, At(p, Failed)) else (w.(row := Some(row)), At(p, if recorded && luck.acked then next else Failed))
  }

  function StepRereading(w: World, p: Process, luck: Luck): (World, Process) {
    var (row, seen) := IntentTx(w.row, p.intent, false);
    if !luck.acked || seen.None? || seen.value.closed || seen.value.phase != Materialized || seen.value.issued.None?
       || !CoversExecution(seen.value.issued.value, luck.now) || seen.value.issued.value > p.intent.expiresAt
    then (w, At(p, Failed))
    else (w.(row := row), At(p, Prepared(seen.value.issued.value)))
  }

  function StepRevoking(w: World, p: Process, luck: Luck): (World, Process) {
    var (row, seen) := IntentTx(w.row, p.intent, true);
    if !luck.applied then (w, At(p, Failed))
    else if !luck.acked || seen.None? then (w.(row := row), At(p, Failed))
    else (w.(row := row), p.(row := seen.value, at := Fencing))
  }

  /** The issuer may fence and fail to say so; the Secret is removed either way. */
  function StepFencing(w: World, p: Process, luck: Luck): (World, Process) {
    (if luck.applied then w.(fenced := true) else w, p.(at := Removing, cleared := luck.applied && luck.acked))
  }

  /** The end of a revocation: both authorities must have confirmed. */
  function Finished(p: Process): Process { At(p, if p.cleared then Revoked else Failed) }

  function StepRemoving(w: World, p: Process, luck: Luck): (World, Process) {
    if p.row.phase == Intended || p.row.phase == Absent then (w, Finished(p))
    else if !luck.acked then (w, At(p, Failed))
    else if w.secret.None? then (w, At(p, if p.row.uid == 0 then Failed else MarkingAbsent(p.row.uid)))
    else if p.row.uid != 0 && p.row.uid != w.secret.value.uid then (w, At(p, MarkingAbsent(p.row.uid)))
    else (w, At(p, Recording(w.secret.value, Delete)))
  }

  function StepDeleting(w: World, p: Process, luck: Luck): (World, Process)
    requires p.at.Deleting?
  {
    (if luck.applied then w.(deletes := w.deletes + {p.at.uid}) else w, At(p, if luck.acked then Confirming(p.at.uid) else Failed))
  }

  function StepConfirming(w: World, p: Process, luck: Luck): (World, Process)
    requires p.at.Confirming?
  {
    if luck.acked && (w.secret.None? || w.secret.value.uid != p.at.uid) then (w, At(p, MarkingAbsent(p.at.uid)))
    else (w, At(p, Failed))
  }

  function StepMarkingAbsent(w: World, p: Process, luck: Luck): (World, Process)
    requires w.row.Some? && p.at.MarkingAbsent?
  {
    var (row, marked) := AbsentTx(w.row.value, p.at.uid);
    if !luck.applied then (w, At(p, Failed)) else (w.(row := Some(row)), if marked && luck.acked then Finished(p) else At(p, Failed))
  }

  /** One step of a process; past its first transaction the row is there. */
  function Act(w: World, p: Process, luck: Luck): (World, Process) {
    if p.at == Preparing then StepPreparing(w, p, luck)
    else if p.at == Revoking then StepRevoking(w, p, luck)
    else if w.row.None? then (w, p)
    else match p.at
      case Issuing => StepIssuing(w, p, luck)
      case Claiming(_) => StepClaiming(w, p, luck)
      case MayCreate => (w.(sent := w.sent + [Flying]), At(p, Awaiting(|w.sent|)))
      case Awaiting(_) => StepAwaiting(w, p, luck)
      case Refusing => StepRefusing(w, p, luck)
      case Recovering => StepRecovering(w, p, luck)
      case Recording(_, _) => StepRecording(w, p, luck)
      case Rereading => StepRereading(w, p, luck)
      case Fencing => StepFencing(w, p, luck)
      case Removing => StepRemoving(w, p, luck)
      case Deleting(_) => StepDeleting(w, p, luck)
      case Confirming(_) => StepConfirming(w, p, luck)
      case MarkingAbsent(_) => StepMarkingAbsent(w, p, luck)
      case _ => (w, p)
  }

  /** A create takes effect, is refused when the name is taken, or is lost. */
  function Land(w: World, i: nat): World {
    if i >= |w.sent| || w.sent[i] != Flying then w
    else if w.secret.Some? then w.(sent := w.sent[i := Refused])
    else w.(sent := w.sent[i := Made(w.nextUid)], secret := Some(Secret(w.nextUid, true)), nextUid := w.nextUid + 1)
  }

  /** A delete takes effect only on the object with its UID. */
  function LandDelete(w: World): World {
    if w.secret.Some? && w.secret.value.uid in w.deletes then
      w.(deleted := w.deleted + {w.secret.value.uid}, secret := None)
    else w
  }

  datatype Step =
    | Prepare(pid: nat, intent: Intent)
    | Revoke(pid: nat, intent: Intent)
    | Go(pid: nat, luck: Luck)
    | Crash(pid: nat)
    | Applies(create: nat)
    | Loses(create: nat)
    | Deletes
    | ForeignCreate
    | ForeignDelete

  /** The steps of the cluster, and of others that use the Secret's name. */
  function Cluster(w: World, e: Step): World {
    match e
    case Applies(i) => Land(w, i)
    case Loses(i) => if i < |w.sent| && w.sent[i] == Flying then w.(sent := w.sent[i := Lost]) else w
    case Deletes => LandDelete(w)
    case ForeignCreate => if w.secret.Some? then w else w.(secret := Some(Secret(w.nextUid, false)), nextUid := w.nextUid + 1)
    case ForeignDelete => w.(secret := None)
    case _ => w
  }

  function Do(s: State, e: Step): State {
    var w := s.world;
    match e
    case Prepare(pid, intent) =>
      if pid in s.processes then s
      else s.(processes := s.processes[pid := Process(intent, Preparing, Row(intent, Intended, 0, false, None), false)])
    case Revoke(pid, intent) =>
      if pid in s.processes then s
      else s.(processes := s.processes[pid := Process(intent, Revoking, Row(intent, Intended, 0, false, None), false)])
    case Go(pid, luck) =>
      if pid !in s.processes then s
      else var (w', p') := Act(w, s.processes[pid], luck); State(w', s.processes[pid := p'])
    case Crash(pid) => s.(processes := s.processes - {pid})
    case _ => s.(world := Cluster(w, e))
  }

  ghost function Exec(steps: seq<Step>): State { EndOf(Do, INITIAL, steps) }

  // ----- invariants -----

  /** The one create made the Secret with this UID. */
  predicate MadeBy(w: World, uid: nat) { w.sent == [Made(uid)] && 0 < uid < w.nextUid }

  predicate Gone(w: World, uid: nat) { w.secret.None? || w.secret.value.uid != uid }

  predicate Sealed(w: World) {
    w.row.Some? && w.row.value.closed && (w.row.value.phase == Intended || w.row.value.phase == Absent)
  }

  predicate RowSound(w: World) {
    w.row.Some? ==>
      var r := w.row.value;
      && (r.uid != 0 ==> MadeBy(w, r.uid))
      && (r.issued.Some? ==> r.issued.value <= r.intent.expiresAt)
      && match r.phase
         case Intended => w.sent == [] && r.uid == 0 && r.issued.None?
         case Creating => r.uid == 0
         case Materialized => r.uid != 0
         case Absent => if r.uid == 0 then w.sent == [Refused] else Gone(w, r.uid)
  }

  predicate WorldSound(w: World) {
    && RowSound(w)
    && |w.sent| <= 1 && (w.row.None? ==> w.sent == [])
    && w.nextUid > 0
    && (w.sent != [] && w.sent[0].Made? ==> 0 < w.sent[0].uid < w.nextUid)
    && (w.secret.Some? ==> w.secret.value.uid < w.nextUid && (w.secret.value.marked <==> MadeBy(w, w.secret.value.uid)))
    && (forall u :: u in w.deletes ==> MadeBy(w, u))
    && w.deleted <= w.deletes
  }

  /** What a process relies on; all of it outlives its lock-free course. */
  predicate ProcessSound(w: World, p: Process) {
    && (p.cleared ==> w.fenced)
    && (p.row.uid != 0 ==> MadeBy(w, p.row.uid))
    && (p.at != Preparing && p.at != Revoking && p.at != Failed ==> w.row.Some? && w.row.value.intent == p.intent)
    && match p.at
       case Claiming(issued) => issued <= p.intent.expiresAt
       case MayCreate => w.sent == [] && w.row.Some? && w.row.value.phase == Creating
       case Awaiting(i) => i == 0 && |w.sent| == 1
       case Refusing => w.sent == [Refused]
       case Recording(found, after) =>
         && (found.marked ==> MadeBy(w, found.uid))
         && (after == Delete ==> w.row.Some? && w.row.value.closed)
       case Prepared(expiresAt) => w.row.Some? && w.row.value.issued == Some(expiresAt) && w.row.value.uid != 0
       case Fencing => Removable(w, p.row)
       case Removing => Removable(w, p.row) && (p.cleared ==> w.fenced)
       case Deleting(uid) => MadeBy(w, uid)
       case Confirming(uid) => MadeBy(w, uid)
       case MarkingAbsent(uid) => MadeBy(w, uid) && Gone(w, uid)
       case Revoked => Sealed(w) && w.fenced
       case _ => true
  }

  /** A copy of the row that was closed in the same transaction. */
  predicate Removable(w: World, row: Row) {
    && w.row.Some? && w.row.value.closed
    && (row.phase == Intended ==> w.row.value.phase == Intended)
    && (row.phase == Absent ==> w.row.value.phase == Absent)
  }

  predicate ProcessesSound(s: State) {
    && (forall p :: p in s.processes ==> ProcessSound(s.world, s.processes[p]))
    && (forall p, q :: p in s.processes && q in s.processes && s.processes[p].at == MayCreate && s.processes[q].at == MayCreate ==> p == q)
  }

  predicate Inv(s: State) { WorldSound(s.world) && ProcessesSound(s) }

  // ----- how the world may change -----

  predicate RowForward(w: World, w': World) {
    w.row.Some? ==>
      var r := w.row.value;
      && w'.row.Some?
      && var r' := w'.row.value;
         && r'.intent == r.intent
         && (r.closed ==> r'.closed)
         && (r.closed && r.phase == Intended ==> r'.phase == Intended)
         && (r.phase == Absent ==> r'.phase == Absent)
         && (r.phase != Intended ==> r'.issued == r.issued && r'.phase != Intended)
         && (r.uid != 0 ==> r'.uid == r.uid)
         && (r.issued.Some? ==> r'.issued == r.issued)
  }

  predicate Forward(w: World, w': World) {
    && RowForward(w, w')
    && w.nextUid <= w'.nextUid
    && |w.sent| <= |w'.sent|
    && (w.sent != [] && w.sent[0] != Flying ==> w'.sent[0] == w.sent[0])
    && (|w.sent| == 1 ==> |w'.sent| == 1)
    && (forall u :: 0 <= u < w.nextUid && Gone(w, u) ==> Gone(w', u))
    && (w.fenced ==> w'.fenced)
  }

  /** Every change keeps what processes rely on, except the right to create. */
  lemma ForwardKeepsProcess(w: World, w': World, p: Process)
    requires ProcessSound(w, p) && Forward(w, w') && p.at != MayCreate
    ensures ProcessSound(w', p)
  {
  }

  lemma MayCreateKept(w: World, w': World, p: Process)
    requires ProcessSound(w, p) && Forward(w, w') && p.at == MayCreate && w'.sent == w.sent
    requires w'.row.Some? && w'.row.value.phase == Creating
    ensures ProcessSound(w', p)
  {
  }

  lemma RecordSound(w: World, secret: Secret)
    requires WorldSound(w) && w.row.Some? && (secret.marked ==> MadeBy(w, secret.uid))
    ensures var w' := w.(row := Some(RecordTx(w.row.value, secret).0)); WorldSound(w') && Forward(w, w')
  {
  }

  lemma IntentSound(w: World, intent: Intent, close: bool)
    requires WorldSound(w)
    ensures var (row, seen) := IntentTx(w.row, intent, close);
            var w' := w.(row := row);
            && WorldSound(w') && Forward(w, w')
            && (seen.Some? ==> row == seen && row.value.intent == intent && (close ==> row.value.closed))
  {
  }

  lemma AbsentSound(w: World, uid: nat)
    requires WorldSound(w) && w.row.Some? && MadeBy(w, uid) && Gone(w, uid)
    ensures var w' := w.(row := Some(AbsentTx(w.row.value, uid).0)); WorldSound(w') && Forward(w, w')
  {
  }

  lemma ClaimSound(w: World, issued: Instant)
    requires WorldSound(w) && w.row.Some? && issued <= w.row.value.intent.expiresAt
    ensures var w' := w.(row := Some(ClaimTx(w.row.value, issued).0)); WorldSound(w') && Forward(w, w')
  {
  }

  /** One step of one process: the world moves forward and the process keeps what it relies on. */
  lemma ActSound(w: World, p: Process, luck: Luck)
    requires WorldSound(w) && ProcessSound(w, p) && p.at != MayCreate
    ensures var (w', p') := Act(w, p, luck);
            WorldSound(w') && Forward(w, w') && ProcessSound(w', p')
  {
    hide Act, WorldSound, ProcessSound, Forward;
    match p.at
    case Preparing => PreparingSound(w, p, luck);
    case Revoking => RevokingSound(w, p, luck);
    case Claiming(issued) => ClaimingSound(w, p, luck);
    case Recording(found, after) => RecordingSound(w, p, luck);
    case Rereading => RereadingSound(w, p, luck);
    case MarkingAbsent(uid) => MarkingSound(w, p, luck);
    case Removing => RemovingSound(w, p, luck);
    case Awaiting(_) => AwaitingSound(w, p, luck);
    case Fencing => FencingSound(w, p, luck);
    case Refusing => RefusingSound(w, p, luck);
    case Deleting(_) => DeletingSound(w, p, luck);
    case _ => ReadingSound(w, p, luck);
  }

  lemma PreparingSound(w: World, p: Process, luck: Luck)
    requires WorldSound(w) && ProcessSound(w, p) && p.at == Preparing
    ensures var (w', p') := Act(w, p, luck); WorldSound(w') && Forward(w, w') && ProcessSound(w', p')
  {
    IntentSound(w, p.intent, false);
  }

  lemma RevokingSound(w: World, p: Process, luck: Luck)
    requires WorldSound(w) && ProcessSound(w, p) && p.at == Revoking
    ensures var (w', p') := Act(w, p, luck); WorldSound(w') && Forward(w, w') && ProcessSound(w', p')
  {
    IntentSound(w, p.intent, true);
  }

  lemma ClaimingSound(w: World, p: Process, luck: Luck)
    requires WorldSound(w) && ProcessSound(w, p) && p.at.Claiming?
    ensures var (w', p') := Act(w, p, luck); WorldSound(w') && Forward(w, w') && ProcessSound(w', p')
  {
    ClaimSound(w, p.at.issued);
  }

  lemma RecordingSound(w: World, p: Process, luck: Luck)
    requires WorldSound(w) && ProcessSound(w, p) && p.at.Recording?
    ensures var (w', p') := Act(w, p, luck); WorldSound(w') && Forward(w, w') && ProcessSound(w', p')
  {
    RecordSound(w, p.at.found);
  }

  lemma RereadingSound(w: World, p: Process, luck: Luck)
    requires WorldSound(w) && ProcessSound(w, p) && p.at == Rereading
    ensures var (w', p') := Act(w, p, luck); WorldSound(w') && Forward(w, w') && ProcessSound(w', p')
  {
    IntentSound(w, p.intent, false);
  }

  lemma MarkingSound(w: World, p: Process, luck: Luck)
    requires WorldSound(w) && ProcessSound(w, p) && p.at.MarkingAbsent?
    ensures var (w', p') := Act(w, p, luck); WorldSound(w') && Forward(w, w') && ProcessSound(w', p')
  {
    AbsentSound(w, p.at.uid);
  }

  lemma RemovingSound(w: World, p: Process, luck: Luck)
    requires WorldSound(w) && ProcessSound(w, p) && p.at == Removing
    ensures var (w', p') := Act(w, p, luck); WorldSound(w') && Forward(w, w') && ProcessSound(w', p')
  {
    hide Forward;
    Standing(w);
  }

  lemma AwaitingSound(w: World, p: Process, luck: Luck)
    requires WorldSound(w) && ProcessSound(w, p) && p.at.Awaiting?
    ensures var (w', p') := Act(w, p, luck); WorldSound(w') && Forward(w, w') && ProcessSound(w', p')
  {
    hide Forward;
    Standing(w);
  }

  lemma FencingSound(w: World, p: Process, luck: Luck)
    requires WorldSound(w) && ProcessSound(w, p) && p.at == Fencing
    ensures var (w', p') := Act(w, p, luck); WorldSound(w') && Forward(w, w') && ProcessSound(w', p')
  {
  }

  lemma RefusingSound(w: World, p: Process, luck: Luck)
    requires WorldSound(w) && ProcessSound(w, p) && p.at == Refusing
    ensures var (w', p') := Act(w, p, luck); WorldSound(w') && Forward(w, w') && ProcessSound(w', p')
  {
  }

  lemma DeletingSound(w: World, p: Process, luck: Luck)
    requires WorldSound(w) && ProcessSound(w, p) && p.at.Deleting?
    ensures var (w', p') := Act(w, p, luck); WorldSound(w') && Forward(w, w') && ProcessSound(w', p')
  {
  }

  lemma Standing(w: World)
    ensures Forward(w, w)
  {
  }

  lemma ReadingSound(w: World, p: Process, luck: Luck)
    requires WorldSound(w) && ProcessSound(w, p)
    requires p.at.Issuing? || p.at.Recovering? || p.at.Confirming? || p.at.Prepared? || p.at.Revoked? || p.at.Failed?
    ensures var (w', p') := Act(w, p, luck); WorldSound(w') && Forward(w, w') && ProcessSound(w', p')
  {
    hide Forward;
    Standing(w);
  }

  /** The right to create stays with the one process that claimed it. */
  lemma ActKeepsRight(w: World, p: Process, luck: Luck)
    requires WorldSound(w) && ProcessSound(w, p) && p.at != MayCreate
    requires w.row.Some? && w.row.value.phase == Creating && w.sent == []
    ensures var (w', p') := Act(w, p, luck);
            w'.row.Some? && w'.row.value.phase == Creating && w'.sent == [] && p'.at != MayCreate
  {
    hide Forward;
  }

  // ----- every step -----

  lemma CreateSound(w: World, p: Process)
    requires WorldSound(w) && ProcessSound(w, p) && p.at == MayCreate
    ensures var w' := w.(sent := w.sent + [Flying]);
            WorldSound(w') && Forward(w, w') && ProcessSound(w', At(p, Awaiting(|w.sent|)))
  {
  }

  lemma GoKeepsInv(s: State, pid: nat, luck: Luck)
    requires Inv(s) && pid in s.processes
    ensures Inv(Do(s, Go(pid, luck)))
  {
    hide Act, WorldSound, Forward, ProcessSound;
    var w, p := s.world, s.processes[pid];
    var s' := Do(s, Go(pid, luck));
    if p.at == MayCreate { MayCreateFacts(w, p); ActCreates(w, p, luck); CreateSound(w, p); } else { ActSound(w, p, luck); }
    forall q | q in s'.processes && q != pid ensures ProcessSound(s'.world, s'.processes[q]) {
      OtherKept(s, pid, luck, q);
    }
    forall q | q in s'.processes && q != pid && s'.processes[q].at == MayCreate ensures s'.processes[pid].at != MayCreate {
      OtherKept(s, pid, luck, q);
    }
  }

  lemma MayCreateFacts(w: World, p: Process)
    requires ProcessSound(w, p) && p.at == MayCreate
    ensures w.sent == [] && w.row.Some? && w.row.value.phase == Creating
  {
  }

  lemma ActCreates(w: World, p: Process, luck: Luck)
    requires p.at == MayCreate && w.row.Some?
    ensures Act(w, p, luck) == (w.(sent := w.sent + [Flying]), At(p, Awaiting(|w.sent|)))
  {
  }

  lemma OtherKept(s: State, pid: nat, luck: Luck, q: nat)
    requires Inv(s) && pid in s.processes && q in s.processes && q != pid
    ensures var (w', p') := Act(s.world, s.processes[pid], luck);
            ProcessSound(w', s.processes[q]) && (s.processes[q].at == MayCreate ==> p'.at != MayCreate)
  {
    hide Act, WorldSound, Forward, ProcessSound;
    var w, p, y := s.world, s.processes[pid], s.processes[q];
    if p.at == MayCreate {
      MayCreateFacts(w, p);
      ActCreates(w, p, luck);
      CreateSound(w, p);
      ForwardKeepsProcess(w, Act(w, p, luck).0, y);
    } else {
      ActSound(w, p, luck);
      if y.at == MayCreate {
        MayCreateFacts(w, y);
        ActKeepsRight(w, p, luck);
        MayCreateKept(w, Act(w, p, luck).0, y);
      } else {
        ForwardKeepsProcess(w, Act(w, p, luck).0, y);
      }
    }
  }

  lemma ClusterSound(w: World, e: Step)
    requires WorldSound(w)
    ensures var w' := Cluster(w, e);
            && WorldSound(w') && Forward(w, w') && w'.row == w.row && (w.sent == [] ==> w'.sent == [])
  {
  }

  lemma StepKeepsInv(s: State, e: Step)
    requires Inv(s)
    ensures Inv(Do(s, e))
  {
    hide Act, WorldSound, Forward;
    match e
    case Go(pid, luck) => if pid in s.processes { GoKeepsInv(s, pid, luck); }
    case Prepare(_, _) =>
    case Revoke(_, _) =>
    case Crash(_) =>
    case _ => ClusterKeepsInv(s, e);
  }

  lemma ClusterKeepsInv(s: State, e: Step)
    requires Inv(s)
    ensures Inv(s.(world := Cluster(s.world, e)))
  {
    hide Cluster, WorldSound, Forward, ProcessSound;
    ClusterSound(s.world, e);
    forall q | q in s.processes ensures ProcessSound(Cluster(s.world, e), s.processes[q]) {
      if s.processes[q].at == MayCreate {
        MayCreateFacts(s.world, s.processes[q]);
        MayCreateKept(s.world, Cluster(s.world, e), s.processes[q]);
      } else {
        ForwardKeepsProcess(s.world, Cluster(s.world, e), s.processes[q]);
      }
    }
  }

  /** The invariant holds at first, and every step keeps it. */
  lemma AllKeepInv()
    ensures Inv(INITIAL) && forall s, e :: Inv(s) ==> Inv(Do(s, e))
  {
    hide Do;
    forall s, e | Inv(s) ensures Inv(Do(s, e)) { hide Inv; StepKeepsInv(s, e); }
  }

  lemma RunKeepsInv(steps: seq<Step>)
    ensures Inv(Exec(steps))
  {
    hide Do, Inv;
    AllKeepInv();
    Always(Do, INITIAL, s => Inv(s), steps);
  }

  // ----- what every run keeps -----

  lemma StepForward(s: State, e: Step)
    requires Inv(s)
    ensures Forward(s.world, Do(s, e).world) && WorldSound(Do(s, e).world)
  {
    hide Act, WorldSound, Forward, ProcessSound;
    Standing(s.world);
    match e
    case Go(pid, luck) =>
      if pid in s.processes {
        var p := s.processes[pid];
        if p.at == MayCreate { MayCreateFacts(s.world, p); ActCreates(s.world, p, luck); CreateSound(s.world, p); } else { ActSound(s.world, p, luck); }
      }
    case Prepare(_, _) =>
    case Revoke(_, _) =>
    case Crash(_) =>
    case _ => ClusterSound(s.world, e);
  }

  lemma ForwardTransitive(u: World, v: World, w: World)
    requires Forward(u, v) && Forward(v, w)
    ensures Forward(u, w)
  {
  }

  lemma RunForward(a: seq<Step>, b: seq<Step>)
    ensures Forward(Exec(a).world, Exec(a + b).world)
  {
    hide Forward, Do, Inv;
    AllKeepInv();
    forall s: State ensures Forward(s.world, s.world) { Standing(s.world); }
    forall s: State, t: State, e: Step | Forward(s.world, t.world) && Inv(t) ensures Forward(s.world, Do(t, e).world) {
      StepForward(t, e);
      ForwardTransitive(s.world, t.world, Do(t, e).world);
    }
    Onward(Do, INITIAL, s => Inv(s), (s: State, t: State) => Forward(s.world, t.world), a, b);
  }

  // ----- the promises -----

  /** No Secret with the row's marker exists, and no request that could create one is out or will be. */
  predicate NoSecret(w: World) {
    && !(w.secret.Some? && w.secret.value.marked)
    && Flying !in w.sent
    && Sealed(w)
  }

  lemma SealedHasNoSecret(w: World)
    requires WorldSound(w) && Sealed(w)
    ensures NoSecret(w)
  {
  }

  lemma ForwardKeepsSealed(w: World, w': World)
    requires Forward(w, w') && Sealed(w)
    ensures Sealed(w') && (w.fenced ==> w'.fenced)
  {
  }

  /** A successful revocation is final: its Secret is gone and cannot come back, and the issuer is fenced. */
  lemma RevocationIsFinal(a: seq<Step>, b: seq<Step>, pid: nat)
    requires pid in Exec(a).processes && Exec(a).processes[pid].at == Revoked
    ensures NoSecret(Exec(a + b).world) && Exec(a + b).world.fenced
  {
    hide Exec, Forward, NoSecret, WorldSound;
    RunKeepsInv(a);
    RunKeepsInv(a + b);
    RunForward(a, b);
    assert ProcessSound(Exec(a).world, Exec(a).processes[pid]);
    ForwardKeepsSealed(Exec(a).world, Exec(a + b).world);
    SealedHasNoSecret(Exec(a + b).world);
  }

  /** At most one create is ever issued, and the only Secret ever deleted is the one it produced. */
  lemma OneCreateOneDelete(steps: seq<Step>, uid: nat)
    ensures |Exec(steps).world.sent| <= 1
    ensures uid in Exec(steps).world.deleted ==> Exec(steps).world.sent == [Made(uid)]
  {
    hide Exec, ProcessesSound;
    RunKeepsInv(steps);
  }

  /** A credential handed out expires within its request, as recorded, and its Secret was really made. */
  lemma CredentialIsReal(steps: seq<Step>, pid: nat)
    requires pid in Exec(steps).processes && Exec(steps).processes[pid].at.Prepared?
    ensures var s := Exec(steps); var p := s.processes[pid];
            && p.at.expiresAt <= p.intent.expiresAt
            && s.world.row.Some? && s.world.row.value.issued == Some(p.at.expiresAt) && s.world.row.value.intent == p.intent
            && s.world.sent == [Made(s.world.row.value.uid)]
  {
    hide Exec;
    RunKeepsInv(steps);
    assert ProcessSound(Exec(steps).world, Exec(steps).processes[pid]);
  }

  /** The right to create is taken once: a claim that succeeds, or is refused, lets no later one succeed. */
  lemma RightIsTakenOnce(a: seq<Step>, b: seq<Step>, issued: Instant, again: Instant)
    requires Exec(a).world.row.Some?
    ensures var (row, claimed) := ClaimTx(Exec(a).world.row.value, issued);
            && ClaimTx(row, again) == (row, false)
            && (claimed ==> Exec(a).world.sent == [])
            && Exec(a + b).world.row.Some?
            && (!claimed ==> ClaimTx(Exec(a + b).world.row.value, again) == (Exec(a + b).world.row.value, false))
  {
    hide Exec, ProcessesSound;
    RunKeepsInv(a);
    RunForward(a, b);
  }

  /** A recorded UID is the created Secret's, stays for ever, and lets no other be recorded. */
  lemma RecordedForever(a: seq<Step>, b: seq<Step>, secret: Secret)
    requires Exec(a).world.row.Some? && Exec(a).world.row.value.uid != 0
    ensures var w := Exec(a + b).world; var uid := Exec(a).world.row.value.uid;
            && w.row.Some? && w.row.value.uid == uid && w.sent == [Made(uid)]
            && (RecordTx(w.row.value, secret) == (w.row.value, true) <==> secret == Secret(uid, true) && w.row.value.phase == Materialized)
            && (RecordTx(w.row.value, secret) == (w.row.value, false) <==> !(secret == Secret(uid, true) && w.row.value.phase == Materialized))
  {
    hide Exec, ProcessesSound;
    RunKeepsInv(a + b);
    RunForward(a, b);
  }

  /**
   Absence is final, and it is true: either the one create was refused, or the Secret that it made is
   gone. No marked Secret exists, and nothing is claimed or recorded any more.
   */
  lemma AbsenceIsFinal(a: seq<Step>, b: seq<Step>, issued: Instant, secret: Secret)
    requires Exec(a).world.row.Some? && Exec(a).world.row.value.phase == Absent
    ensures var w := Exec(a + b).world; var uid := Exec(a).world.row.value.uid;
            && w.row.Some? && w.row.value.phase == Absent && w.row.value.uid == uid
            && w.sent == [if uid == 0 then Refused else Made(uid)]
            && !(w.secret.Some? && w.secret.value.marked)
            && ClaimTx(w.row.value, issued) == (w.row.value, false) && RecordTx(w.row.value, secret) == (w.row.value, false)
  {
    hide Exec, ProcessesSound;
    RunKeepsInv(a);
    RunKeepsInv(a + b);
    RunForward(a, b);
  }

  lemma ClosedPreparesNone(s: State, e: Step, pid: nat)
    requires s.world.row.Some? && s.world.row.value.closed
    requires pid in s.processes ==> !s.processes[pid].at.Prepared?
    ensures pid in Do(s, e).processes ==> !Do(s, e).processes[pid].at.Prepared?
  {
    if e.Go? && e.pid == pid && pid in s.processes { ClosedActs(s.world, s.processes[pid], e.luck); }
    hide Act;
  }

  lemma ClosedActs(w: World, p: Process, luck: Luck)
    requires w.row.Some? && w.row.value.closed && !p.at.Prepared?
    ensures !Act(w, p, luck).1.at.Prepared?
  {
  }

  lemma ForwardKeepsClosed(w: World, w': World)
    requires Forward(w, w') && w.row.Some? && w.row.value.closed
    ensures w'.row.Some? && w'.row.value.closed
  {
  }

  /** Once the row is closed, no preparation that has not returned its credential ever does. */
  lemma ClosedIsClosed(a: seq<Step>, b: seq<Step>, pid: nat)
    requires Exec(a).world.row.Some? && Exec(a).world.row.value.closed
    requires pid in Exec(a).processes ==> !Exec(a).processes[pid].at.Prepared?
    ensures pid in Exec(a + b).processes ==> !Exec(a + b).processes[pid].at.Prepared?
  {
    hide Do, Inv, Shut;
    AllKeepInv();
    forall s, t, e | (Shut(s, pid) ==> Shut(t, pid)) && Inv(t) ensures Shut(s, pid) ==> Shut(Do(t, e), pid) {
      if Shut(s, pid) { StepKeepsShut(t, e, pid); }
    }
    Onward(Do, INITIAL, s => Inv(s), (s, t) => Shut(s, pid) ==> Shut(t, pid), a, b);
    ShutIs(Exec(a), pid);
    ShutIs(Exec(a + b), pid);
  }

  /** The row is closed, and the process has no credential. */
  predicate Shut(s: State, pid: nat) {
    s.world.row.Some? && s.world.row.value.closed && (pid in s.processes ==> !s.processes[pid].at.Prepared?)
  }

  lemma ShutIs(s: State, pid: nat)
    ensures Shut(s, pid) <==>
            s.world.row.Some? && s.world.row.value.closed && (pid in s.processes ==> !s.processes[pid].at.Prepared?)
  {
  }

  lemma StepKeepsShut(s: State, e: Step, pid: nat)
    requires Inv(s) && Shut(s, pid)
    ensures Shut(Do(s, e), pid)
  {
    hide Do, Inv, Forward;
    StepForward(s, e);
    ForwardKeepsClosed(s.world, Do(s, e).world);
    ClosedPreparesNone(s, e, pid);
  }
}
