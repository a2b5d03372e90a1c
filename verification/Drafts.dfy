/**
 * Confirming and cancelling a financial draft.
 *
 * A confirm or cancel holds the draft's advisory lock from its first statement to its commit. Its
 * reads, its clock reading and its commit are separate steps, and anything that does not need the
 * lock can happen in between: the failure recorder of another confirm, which reads and then writes
 * the draft by id, the clock, and other users of the idempotency table.
 */
module Drafts {
  import opened Common
  import opened Runs

  const DRAFT_TTL_MS := 900_000

  datatype Status = PendingConfirmation | Committed | Cancelled | Expired | Failed

  datatype Draft = Draft(userId: Id, status: Status, expiresAt: int, transactionId: Option<Id>, committedAt: Option<int>)

  datatype UserKey = UserKey(userId: Id, key: Id)

  /** A draft confirmation owns its key through `draftId`; a request-level key has none. */
  datatype KeyRow = KeyRow(draftId: Option<Id>, transactionId: Option<Id>)

  /** A ledger transaction produced by a draft, with the clock reading that allowed it. */
  datatype Creation = Creation(transactionId: Id, draftId: Id, key: UserKey, checkedAt: int, doneAt: int)

  datatype Db = Db(drafts: map<Id, Draft>, keys: map<UserKey, KeyRow>, created: seq<Creation>, cancelled: set<Id>)

  datatype Phase =
    | ConfirmLocked
    | ConfirmKeyRead(existing: bool)
    | ConfirmPending(existing: bool, expiresAt: int)
    | ConfirmChecked(existing: bool, now: int)
    | ConfirmExpire
    | RecorderStart
    | RecorderSeen
    | CancelLocked
    | CancelPending(expiresAt: int)
    | CancelChecked
    | CancelExpire

  datatype Process = Process(userId: Id, draftId: Id, key: Id, phase: Phase)

  datatype System = System(db: Db, now: int, procs: map<Id, Process>)

  /** How the ledger answers inside the confirm transaction. */
  datatype LedgerAnswer = Created(transactionId: Id) | Refused | Broken

  datatype Move =
    | Tick(ms: nat)
    | Prepare(draftId: Id, userId: Id)
    | ClaimRequestKey(userKey: UserKey)
    | ReleaseRequestKey(userKey: UserKey)
    | StartConfirm(p: Id, userId: Id, draftId: Id, key: Id)
    | StartCancel(p: Id, userId: Id, draftId: Id)
    | ReadKey(p: Id)
    | ReadDraft(p: Id)
    | ReadClock(p: Id)
    | WriteExpired(p: Id)
    | WriteCancelled(p: Id)
    | CommitConfirm(p: Id, answer: LedgerAnswer)
    | RecordFailure(p: Id)
    | Crash(p: Id)

  // ---------------------------------------------------------------- steps

  predicate Recording(phase: Phase) {
    phase.RecorderStart? || phase.RecorderSeen?
  }

  predicate Locked(y: System, d: Id) {
    exists p :: p in y.procs && y.procs[p].draftId == d && !Recording(y.procs[p].phase)
  }

  predicate At(y: System, p: Id, phase: Phase) {
    p in y.procs && y.procs[p].phase == phase
  }

  predicate Enabled(y: System, m: Move) {
    match m
    case Tick(_) => true
    case Prepare(d, _) => d !in y.db.drafts
    case ClaimRequestKey(k) => k !in y.db.keys
    case ReleaseRequestKey(k) => k in y.db.keys && y.db.keys[k].draftId == None
    case StartConfirm(p, _, d, _) => p !in y.procs && !Locked(y, d)
    case StartCancel(p, _, d) => p !in y.procs && !Locked(y, d)
    case ReadKey(p) => At(y, p, ConfirmLocked)
    case ReadDraft(p) => p in y.procs && (var f := y.procs[p].phase; f.ConfirmKeyRead? || f.CancelLocked? || f.RecorderStart?)
    case ReadClock(p) => p in y.procs && (var f := y.procs[p].phase; f.ConfirmPending? || f.CancelPending?)
    case WriteExpired(p) => At(y, p, ConfirmExpire) || At(y, p, CancelExpire)
    case WriteCancelled(p) => At(y, p, CancelChecked)
    case CommitConfirm(p, a) =>
      p in y.procs && y.procs[p].phase.ConfirmChecked?
      && (a.Created? ==> forall i :: 0 <= i < |y.db.created| ==> y.db.created[i].transactionId != a.transactionId)
    case RecordFailure(p) => At(y, p, RecorderSeen)
    case Crash(p) => p in y.procs
  }

  /** A process goes on in another phase, or is over when there is none. */
  function Moved(y: System, p: Id, phase: Option<Phase>): System
    requires p in y.procs
  {
    match phase
    case None => y.(procs := y.procs - {p})
    case Some(f) => y.(procs := y.procs[p := y.procs[p].(phase := f)])
  }

  function AfterReadKey(db: Db, q: Process): Option<Phase> {
    var k := UserKey(q.userId, q.key);
    if k !in db.keys then Some(ConfirmKeyRead(false))
    else if db.keys[k].draftId != Some(q.draftId) then None
    else Some(ConfirmKeyRead(true))
  }

  predicate Owned(db: Db, q: Process) {
    q.draftId in db.drafts && db.drafts[q.draftId].userId == q.userId
  }

  /** What the reader of a draft does next: only a pending draft lets it go on. */
  function AfterReadDraft(db: Db, q: Process): Option<Phase> {
    if !Owned(db, q) || db.drafts[q.draftId].status != PendingConfirmation then None
    else
      match q.phase
      case ConfirmKeyRead(existing) => Some(ConfirmPending(existing, db.drafts[q.draftId].expiresAt))
      case CancelLocked => Some(CancelPending(db.drafts[q.draftId].expiresAt))
      case _ => Some(RecorderSeen)
  }

  function AfterReadClock(q: Process, now: int): Phase
    requires q.phase.ConfirmPending? || q.phase.CancelPending?
  {
    match q.phase
    case ConfirmPending(existing, expiresAt) => if expiresAt <= now then ConfirmExpire else ConfirmChecked(existing, now)
    case CancelPending(expiresAt) => if expiresAt <= now then CancelExpire else CancelChecked
  }

  /** An update by id, without a condition on the row's state. */
  function SetStatus(db: Db, d: Id, status: Status): Db {
    if d in db.drafts then db.(drafts := db.drafts[d := db.drafts[d].(status := status)]) else db
  }

  datatype ConfirmResult = Confirmed(db: Db) | KeyTaken | KeyGone | LedgerRefused | LedgerBroken | NoLongerPending

  /** The writes of the confirm transaction, all or nothing. */
  function ConfirmWrites(db: Db, q: Process, existing: bool, checkedAt: int, answer: LedgerAnswer, now: int): ConfirmResult {
    var k := UserKey(q.userId, q.key);
    if !existing && k in db.keys then KeyTaken
    else if answer.Refused? then LedgerRefused
    else if answer.Broken? then LedgerBroken
    else if !(Owned(db, q) && db.drafts[q.draftId].status == PendingConfirmation && db.drafts[q.draftId].transactionId == None)
    then NoLongerPending
    else if existing && k !in db.keys then KeyGone
    else
      var t := answer.transactionId;
      var draft := db.drafts[q.draftId].(status := Committed, committedAt := Some(checkedAt), transactionId := Some(t));
      var row := if existing then db.keys[k].(transactionId := Some(t)) else KeyRow(Some(q.draftId), Some(t));
      Confirmed(db.(drafts := db.drafts[q.draftId := draft], keys := db.keys[k := row],
                    created := db.created + [Creation(t, q.draftId, k, checkedAt, now)]))
  }

  function Next(y: System, m: Move): System
    requires Enabled(y, m)
  {
    match m
    case Tick(ms) => y.(now := y.now + ms)
    case Prepare(d, u) => y.(db := y.db.(drafts := y.db.drafts[d := Draft(u, PendingConfirmation, y.now + DRAFT_TTL_MS, None, None)]))
    case ClaimRequestKey(k) => y.(db := y.db.(keys := y.db.keys[k := KeyRow(None, None)]))
    case ReleaseRequestKey(k) => y.(db := y.db.(keys := y.db.keys - {k}))
    case StartConfirm(p, u, d, k) => y.(procs := y.procs[p := Process(u, d, k, ConfirmLocked)])
    case StartCancel(p, u, d) => y.(procs := y.procs[p := Process(u, d, 0, CancelLocked)])
    case ReadKey(p) => Moved(y, p, AfterReadKey(y.db, y.procs[p]))
    case ReadDraft(p) => Moved(y, p, AfterReadDraft(y.db, y.procs[p]))
    case ReadClock(p) => Moved(y, p, Some(AfterReadClock(y.procs[p], y.now)))
    case WriteExpired(p) => Moved(y, p, None).(db := SetStatus(y.db, y.procs[p].draftId, Expired))
    case WriteCancelled(p) =>
      var d := y.procs[p].draftId;
      Moved(y, p, None).(db := SetStatus(y.db, d, Cancelled).(cancelled := y.db.cancelled + {d}))
    case CommitConfirm(p, a) =>
      var q := y.procs[p];
      (match ConfirmWrites(y.db, q, q.phase.existing, q.phase.now, a, y.now)
       case Confirmed(db) => Moved(y, p, None).(db := db)
       case LedgerRefused => Moved(y, p, Some(RecorderStart))
       case _ => Moved(y, p, None))
    case RecordFailure(p) => Moved(y, p, None).(db := SetStatus(y.db, y.procs[p].draftId, Failed))
    case Crash(p) => Moved(y, p, None)
  }

  // ---------------------------------------------------------------- the invariant

  /** A lock holder that has seen its draft pending: only a recorder can have touched it since. */
  predicate Seen(phase: Phase) {
    !phase.ConfirmLocked? && !phase.ConfirmKeyRead? && !phase.CancelLocked? && !Recording(phase)
  }

  ghost predicate ProcOk(y: System, q: Process) {
    && (q.phase.RecorderSeen? ==> q.draftId in y.db.drafts)
    && (Seen(q.phase) ==>
          && Owned(y.db, q)
          && q.draftId !in y.db.cancelled
          && var row := y.db.drafts[q.draftId];
          && row.transactionId == None
          && (row.status == PendingConfirmation || row.status == Failed)
          && ((q.phase.ConfirmPending? || q.phase.CancelPending?) ==> q.phase.expiresAt == row.expiresAt)
          && (q.phase.ConfirmChecked? ==> q.phase.now < row.expiresAt))
    && (KeySeen(q.phase) ==> var k := UserKey(q.userId, q.key); k in y.db.keys && y.db.keys[k].draftId == Some(q.draftId))
  }

  /** The process found its key already bound to its draft. */
  predicate KeySeen(phase: Phase) {
    match phase
    case ConfirmKeyRead(existing) => existing
    case ConfirmPending(existing, _) => existing
    case ConfirmChecked(existing, _) => existing
    case _ => false
  }

  ghost predicate LocksOk(y: System) {
    forall p, q :: p in y.procs && q in y.procs && p != q && y.procs[p].draftId == y.procs[q].draftId ==>
      Recording(y.procs[p].phase) || Recording(y.procs[q].phase)
  }

  predicate DraftOk(row: Draft) {
    && (row.status == Committed ==> row.transactionId.Some?)
    && (row.transactionId.Some? ==> row.status == Committed || row.status == Failed)
  }

  /** Every transaction belongs to one draft that still names it, was checked before that draft's
      expiry, under a key bound to that draft, and that draft was never cancelled. */
  predicate CreationOk(db: Db, c: Creation) {
    && c.draftId in db.drafts
    && db.drafts[c.draftId].transactionId == Some(c.transactionId)
    && c.checkedAt < db.drafts[c.draftId].expiresAt
    && c.key in db.keys && db.keys[c.key].draftId == Some(c.draftId)
    && c.draftId !in db.cancelled
  }

  ghost predicate CreatedOk(db: Db) {
    && (forall i :: 0 <= i < |db.created| ==> CreationOk(db, db.created[i]))
    && (forall i, j :: 0 <= i < j < |db.created| ==> db.created[i].draftId != db.created[j].draftId)
  }

  ghost predicate DraftsOk(db: Db) {
    && (forall d :: d in db.drafts ==> DraftOk(db.drafts[d]))
    && (forall d :: d in db.cancelled ==> d in db.drafts && db.drafts[d].status != PendingConfirmation && db.drafts[d].transactionId == None)
  }

  ghost predicate Inv(y: System) {
    && LocksOk(y) && CreatedOk(y.db) && DraftsOk(y.db)
    && (forall p :: p in y.procs ==> ProcOk(y, y.procs[p]))
  }

  // ---------------------------------------------------------------- every step keeps it

  lemma ReadingKeepsInv(y: System, p: Id, phase: Option<Phase>)
    requires Inv(y) && p in y.procs
    requires phase.Some? ==> ProcOk(y, y.procs[p].(phase := phase.value))
    requires phase.Some? && Recording(y.procs[p].phase) ==> Recording(phase.value)
    ensures Inv(Moved(y, p, phase))
  {
  }

  lemma StartKeepsInv(y: System, p: Id, q: Process)
    requires Inv(y) && p !in y.procs && !Locked(y, q.draftId) && (q.phase.ConfirmLocked? || q.phase.CancelLocked?)
    ensures Inv(y.(procs := y.procs[p := q]))
  {
  }

  /** The unconditional writes keep the invariant: they are made by a lock holder or a recorder. */
  lemma WriteKeepsInv(y: System, p: Id, status: Status)
    requires Inv(y) && p in y.procs
    requires if status == Failed then y.procs[p].phase.RecorderSeen? else status == Expired && Seen(y.procs[p].phase)
    ensures Inv(Moved(y, p, None).(db := SetStatus(y.db, y.procs[p].draftId, status)))
  {
    var q := y.procs[p];
    var y' := Moved(y, p, None).(db := SetStatus(y.db, q.draftId, status));
    forall i | 0 <= i < |y'.db.created| ensures CreationOk(y'.db, y'.db.created[i]) {
      assert CreationOk(y.db, y.db.created[i]);
    }
  }

  lemma CancelKeepsInv(y: System, p: Id)
    requires Inv(y) && At(y, p, CancelChecked)
    ensures Inv(Next(y, WriteCancelled(p)))
  {
    var y' := Next(y, WriteCancelled(p));
    forall i | 0 <= i < |y'.db.created| ensures CreationOk(y'.db, y'.db.created[i]) {
      assert CreationOk(y.db, y.db.created[i]);
    }
  }

  /** The confirm transaction on the tables alone. */
  lemma ConfirmKeepsDb(db: Db, q: Process, existing: bool, checkedAt: int, a: LedgerAnswer, now: int)
    requires CreatedOk(db) && DraftsOk(db) && q.draftId !in db.cancelled
    requires q.draftId in db.drafts ==> checkedAt < db.drafts[q.draftId].expiresAt
    requires existing ==> var k := UserKey(q.userId, q.key); k in db.keys && db.keys[k].draftId == Some(q.draftId)
    requires ConfirmWrites(db, q, existing, checkedAt, a, now).Confirmed?
    ensures var db' := ConfirmWrites(db, q, existing, checkedAt, a, now).db; CreatedOk(db') && DraftsOk(db')
  {
    var db' := ConfirmWrites(db, q, existing, checkedAt, a, now).db;
    forall i | 0 <= i < |db'.created| ensures CreationOk(db', db'.created[i]) {
      if i < |db.created| {
        assert CreationOk(db, db.created[i]);
      }
    }
  }

  /** A confirm changes its own draft and key only. */
  lemma ConfirmKeepsOthers(y: System, y': System, q: Process, other: Process)
    requires other.draftId == q.draftId ==> Recording(other.phase)
    requires y'.db.cancelled == y.db.cancelled
    requires q.draftId in y'.db.drafts && y'.db.drafts - {q.draftId} == y.db.drafts - {q.draftId}
    requires forall k :: k in y.db.keys ==> k in y'.db.keys && y'.db.keys[k].draftId == y.db.keys[k].draftId
    requires ProcOk(y, other)
    ensures ProcOk(y', other)
  {
    if other.draftId != q.draftId && other.draftId in y.db.drafts {
      assert other.draftId in y.db.drafts - {q.draftId};
      assert (y'.db.drafts - {q.draftId})[other.draftId] == (y.db.drafts - {q.draftId})[other.draftId];
    }
  }

  lemma ConfirmKeepsInv(y: System, p: Id, a: LedgerAnswer)
    requires Inv(y) && Enabled(y, CommitConfirm(p, a))
    ensures Inv(Next(y, CommitConfirm(p, a)))
  {
    var q := y.procs[p];
    assert ProcOk(y, q);
    var r := ConfirmWrites(y.db, q, q.phase.existing, q.phase.now, a, y.now);
    match r
    case Confirmed(db) =>
      ConfirmKeepsDb(y.db, q, q.phase.existing, q.phase.now, a, y.now);
      var y' := Moved(y, p, None).(db := db);
      forall n | n in y'.procs ensures ProcOk(y', y'.procs[n]) {
        ConfirmKeepsOthers(y, y', q, y.procs[n]);
      }
    case LedgerRefused => ReadingKeepsInv(y, p, Some(RecorderStart));
    case _ => ReadingKeepsInv(y, p, None);
  }

  lemma KeysKeepInv(y: System, k: UserKey, keys: map<UserKey, KeyRow>)
    requires Inv(y) && (k !in y.db.keys || y.db.keys[k].draftId == None) && keys - {k} == y.db.keys - {k}
    ensures Inv(y.(db := y.db.(keys := keys)))
  {
    var y' := y.(db := y.db.(keys := keys));
    assert forall j :: j != k && j in y.db.keys ==> j in y.db.keys - {k} && (y.db.keys - {k})[j] == y.db.keys[j];
    forall i | 0 <= i < |y'.db.created| ensures CreationOk(y'.db, y'.db.created[i]) {
      assert CreationOk(y.db, y.db.created[i]);
    }
  }

  lemma PrepareKeepsInv(y: System, d: Id, u: Id)
    requires Inv(y) && d !in y.db.drafts
    ensures Inv(Next(y, Prepare(d, u)))
  {
    var y' := Next(y, Prepare(d, u));
    forall i | 0 <= i < |y'.db.created| ensures CreationOk(y'.db, y'.db.created[i]) {
      assert CreationOk(y.db, y.db.created[i]);
    }
  }

  lemma NextKeepsInv(y: System, m: Move)
    requires Inv(y) && Enabled(y, m)
    ensures Inv(Next(y, m))
  {
    match m
    case Tick(_) =>
    case Prepare(d, u) => PrepareKeepsInv(y, d, u);
    case ClaimRequestKey(k) => KeysKeepInv(y, k, y.db.keys[k := KeyRow(None, None)]);
    case ReleaseRequestKey(k) => KeysKeepInv(y, k, y.db.keys - {k});
    case StartConfirm(p, u, d, k) => StartKeepsInv(y, p, Process(u, d, k, ConfirmLocked));
    case StartCancel(p, u, d) => StartKeepsInv(y, p, Process(u, d, 0, CancelLocked));
    case ReadKey(p) => ReadingKeepsInv(y, p, AfterReadKey(y.db, y.procs[p]));
    case ReadDraft(p) =>
      if AfterReadDraft(y.db, y.procs[p]).Some? {
        PendingIsOpen(y, y.procs[p]);
      }
      ReadingKeepsInv(y, p, AfterReadDraft(y.db, y.procs[p]));
    case ReadClock(p) => ReadingKeepsInv(y, p, Some(AfterReadClock(y.procs[p], y.now)));
    case WriteExpired(p) => WriteKeepsInv(y, p, Expired);
    case WriteCancelled(p) => CancelKeepsInv(y, p);
    case CommitConfirm(p, a) => ConfirmKeepsInv(y, p, a);
    case RecordFailure(p) => WriteKeepsInv(y, p, Failed);
    case Crash(p) => ReadingKeepsInv(y, p, None);
  }

  /** A draft read as pending has no transaction and was never cancelled. */
  lemma PendingIsOpen(y: System, q: Process)
    requires Inv(y) && ProcOk(y, q) && AfterReadDraft(y.db, q).Some?
    requires q.phase.ConfirmKeyRead? || q.phase.CancelLocked? || q.phase.RecorderStart?
    ensures ProcOk(y, q.(phase := AfterReadDraft(y.db, q).value))
  {
    assert DraftOk(y.db.drafts[q.draftId]);
  }

  // ---------------------------------------------------------------- whole runs

  ghost predicate Takes(y: System, m: Move, y': System) {
    Enabled(y, m) && y' == Next(y, m)
  }

  predicate Starts(y: System) {
    y.db == Db(map[], map[], [], {}) && y.procs == map[]
  }

  lemma StepsPreserve()
    ensures Preserved(Takes, Inv)
  {
    forall y, m, y' | Inv(y) && Takes(y, m, y') ensures Inv(y') {
      NextKeepsInv(y, m);
    }
  }

  /**
   * In every interleaving: each draft has produced at most one ledger transaction, the one it
   * names; its expiry check had passed; its key is bound to it; and it was never cancelled.
   */
  lemma DraftsProduceOneTransaction(states: seq<System>, moves: seq<Move>, n: nat)
    requires IsRun(Takes, states, moves) && Starts(states[0]) && n <= |moves|
    ensures var db := states[n].db;
      && (forall i :: 0 <= i < |db.created| ==> CreationOk(db, db.created[i]))
      && (forall i, j :: 0 <= i < j < |db.created| ==> db.created[i].draftId != db.created[j].draftId)
  {
    StepsPreserve();
    RunKeepsInv(Takes, Inv, states, moves, n);
  }

  /** What has been decided once is never taken back by a later step. */
  predicate Keeps(db: Db, db': Db) {
    && db.created <= db'.created
    && db.cancelled <= db'.cancelled
    && (forall d :: d in db.drafts ==> d in db'.drafts && KeepsDraft(db.drafts[d], db'.drafts[d]))
    && (forall k :: k in db.keys && db.keys[k].draftId.Some? ==> k in db'.keys && db'.keys[k].draftId == db.keys[k].draftId)
  }

  predicate KeepsDraft(row: Draft, row': Draft) {
    && (row.transactionId.Some? ==> row'.transactionId == row.transactionId && row'.committedAt == row.committedAt)
    && (row.status != PendingConfirmation ==> row'.status != PendingConfirmation)
    && row'.expiresAt == row.expiresAt && row'.userId == row.userId
  }

  lemma ConfirmKeeps(db: Db, q: Process, existing: bool, checkedAt: int, a: LedgerAnswer, now: int)
    requires existing ==> var k := UserKey(q.userId, q.key); k in db.keys && db.keys[k].draftId == Some(q.draftId)
    requires ConfirmWrites(db, q, existing, checkedAt, a, now).Confirmed?
    ensures Keeps(db, ConfirmWrites(db, q, existing, checkedAt, a, now).db)
  {
  }

  lemma NextKeeps(y: System, m: Move)
    requires Inv(y) && Enabled(y, m)
    ensures Keeps(y.db, Next(y, m).db)
  {
    if m.CommitConfirm? {
      var q := y.procs[m.p];
      assert ProcOk(y, q);
      if ConfirmWrites(y.db, q, q.phase.existing, q.phase.now, m.answer, y.now).Confirmed? {
        ConfirmKeeps(y.db, q, q.phase.existing, q.phase.now, m.answer, y.now);
      }
    }
  }

  /** Transaction ids, commit times, key bindings and cancellations are final over whole runs. */
  lemma RunKeepsDecisions(states: seq<System>, moves: seq<Move>, a: nat, b: nat)
    requires IsRun(Takes, states, moves) && Starts(states[0]) && a <= b <= |moves|
    ensures Keeps(states[a].db, states[b].db)
  {
    StepsPreserve();
    forall y, m, y' | Inv(y) && Takes(y, m, y') ensures KeepsDb(y, y') {
      NextKeeps(y, m);
    }
    RunRelates(Takes, Inv, KeepsDb, states, moves, a, b);
  }

  predicate KeepsDb(y: System, y': System) {
    Keeps(y.db, y'.db)
  }

  // ---------------------------------------------------------------- when a transaction is late

  /** Process `p` holds the lock of its draft from the clock check on, up to and including step `j`. */
  ghost predicate CheckedFrom(states: seq<System>, moves: seq<Move>, p: Id, k: nat, j: nat) {
    && k < j < |states| && k < |moves| && moves[k] == ReadClock(p)
    && p in states[j].procs && states[j].procs[p].phase.ConfirmChecked? && states[k].now == states[j].procs[p].phase.now
    && (forall x :: k < x <= j ==> p in states[x].procs && states[x].procs[p] == states[j].procs[p])
  }

  /** Only its own clock check lets a confirm in before the ledger. */
  lemma CheckedByClock(y: System, m: Move, p: Id)
    requires Enabled(y, m) && p in Next(y, m).procs && Next(y, m).procs[p].phase.ConfirmChecked?
    ensures (p in y.procs && y.procs[p] == Next(y, m).procs[p]) || (m == ReadClock(p) && y.now == Next(y, m).procs[p].phase.now)
  {
  }

  lemma {:induction false} ClockCheckBefore(states: seq<System>, moves: seq<Move>, j: nat, p: Id) returns (k: nat)
    requires IsRun(Takes, states, moves) && Starts(states[0]) && j <= |moves|
    requires p in states[j].procs && states[j].procs[p].phase.ConfirmChecked?
    ensures CheckedFrom(states, moves, p, k, j)
  {
    if j == 0 {
      assert false;
    } else {
      assert Takes(states[j - 1], moves[j - 1], states[j]);
      CheckedByClock(states[j - 1], moves[j - 1], p);
      if p in states[j - 1].procs && states[j - 1].procs[p] == states[j].procs[p] {
        k := ClockCheckBefore(states, moves, j - 1, p);
      } else {
        k := j - 1;
      }
    }
  }

  /** The ledger's answer to a confirm commits: the transaction enters the ledger at this step. */
  predicate Commits(y: System, m: Move) {
    && m.CommitConfirm? && m.p in y.procs && y.procs[m.p].phase.ConfirmChecked?
    && ConfirmWrites(y.db, y.procs[m.p], y.procs[m.p].phase.existing, y.procs[m.p].phase.now, m.answer, y.now).Confirmed?
  }

  function CreationOf(y: System, m: Move): Creation
    requires Commits(y, m) && m.answer.Created?
  {
    var q := y.procs[m.p];
    Creation(m.answer.transactionId, q.draftId, UserKey(q.userId, q.key), q.phase.now, y.now)
  }

  lemma CreatedByCommit(y: System, m: Move)
    requires Enabled(y, m)
    ensures Commits(y, m) ==> m.answer.Created?
    ensures Next(y, m).db.created == if Commits(y, m) then y.db.created + [CreationOf(y, m)] else y.db.created
  {
  }

  /** Step `j` of a run put `c` into the ledger, after a clock check at step `k` under the draft's lock. */
  ghost predicate Entered(states: seq<System>, moves: seq<Move>, c: Creation, k: nat, j: nat) {
    && j < |moves| && j < |states| && Commits(states[j], moves[j]) && moves[j].answer.Created?
    && CreationOf(states[j], moves[j]) == c
    && CheckedFrom(states, moves, moves[j].p, k, j)
  }

  lemma {:induction false} EntryOf(states: seq<System>, moves: seq<Move>, n: nat, i: nat) returns (k: nat, j: nat)
    requires IsRun(Takes, states, moves) && Starts(states[0]) && n <= |moves| && i < |states[n].db.created|
    ensures j < n && Entered(states, moves, states[n].db.created[i], k, j)
  {
    if n == 0 {
      assert false;
    } else {
      assert Takes(states[n - 1], moves[n - 1], states[n]);
      CreatedByCommit(states[n - 1], moves[n - 1]);
      if i < |states[n - 1].db.created| {
        k, j := EntryOf(states, moves, n - 1, i);
      } else {
        j := n - 1;
        k := ClockCheckBefore(states, moves, j, moves[j].p);
      }
    }
  }

  /** A confirm that the ledger answers when its draft has expired already. */
  predicate AnsweredLate(y: System, m: Move) {
    && Commits(y, m) && y.procs[m.p].draftId in y.db.drafts
    && y.now >= y.db.drafts[y.procs[m.p].draftId].expiresAt
  }

  predicate IsLate(db: Db, c: Creation) {
    c.draftId in db.drafts && c.doneAt >= db.drafts[c.draftId].expiresAt
  }

  /**
   * Where every transaction of a run comes from: one step at which the ledger answered its confirm,
   * and an earlier one at which the same process, holding the draft's lock ever since, found the
   * clock before the expiry. It is late exactly when that answer was.
   */
  lemma LateExactlyWhenAnsweredLate(states: seq<System>, moves: seq<Move>, n: nat, i: nat) returns (k: nat, j: nat)
    requires IsRun(Takes, states, moves) && Starts(states[0]) && n <= |moves| && i < |states[n].db.created|
    ensures var c := states[n].db.created[i];
      && k < j < n && Entered(states, moves, c, k, j)
      && states[k].now == c.checkedAt && states[j].now == c.doneAt
      && c.draftId in states[n].db.drafts && c.checkedAt < states[n].db.drafts[c.draftId].expiresAt
      && (IsLate(states[n].db, c) <==> AnsweredLate(states[j], moves[j]))
  {
    k, j := EntryOf(states, moves, n, i);
    DraftsProduceOneTransaction(states, moves, n);
    assert CreationOk(states[n].db, states[n].db.created[i]);
    StepsPreserve();
    RunKeepsInv(Takes, Inv, states, moves, j);
    assert ProcOk(states[j], states[j].procs[moves[j].p]);
    RunKeepsDecisions(states, moves, j, n);
  }

  lemma {:induction false} EveryCommitIsKept(states: seq<System>, moves: seq<Move>, n: nat, j: nat)
    requires IsRun(Takes, states, moves) && j < n <= |moves| && Commits(states[j], moves[j])
    ensures moves[j].answer.Created? && CreationOf(states[j], moves[j]) in states[n].db.created
    decreases n
  {
    assert Takes(states[n - 1], moves[n - 1], states[n]);
    CreatedByCommit(states[n - 1], moves[n - 1]);
    if j < n - 1 {
      EveryCommitIsKept(states, moves, n - 1, j);
    }
  }

  ghost predicate SomeIsLate(db: Db) {
    exists i :: 0 <= i < |db.created| && IsLate(db, db.created[i])
  }

  ghost predicate SomeAnsweredLate(states: seq<System>, moves: seq<Move>, n: nat)
    requires n <= |moves| < |states|
  {
    exists j :: 0 <= j < n && AnsweredLate(states[j], moves[j])
  }

  /**
   * A run has put a transaction into the ledger at or after its draft's expiry exactly when, in
   * that run, the ledger answered some confirm at or after the expiry of its draft.
   */
  lemma LateRunsExactly(states: seq<System>, moves: seq<Move>, n: nat)
    requires IsRun(Takes, states, moves) && Starts(states[0]) && n <= |moves|
    ensures SomeIsLate(states[n].db) <==> SomeAnsweredLate(states, moves, n)
  {
    if SomeIsLate(states[n].db) {
      var i :| 0 <= i < |states[n].db.created| && IsLate(states[n].db, states[n].db.created[i]);
      var k, j := LateExactlyWhenAnsweredLate(states, moves, n, i);
      assert AnsweredLate(states[j], moves[j]);
    }
    if SomeAnsweredLate(states, moves, n) {
      var j :| 0 <= j < n && AnsweredLate(states[j], moves[j]);
      EveryCommitIsKept(states, moves, n, j);
      RunKeepsDecisions(states, moves, j, n);
      var i :| 0 <= i < |states[n].db.created| && states[n].db.created[i] == CreationOf(states[j], moves[j]);
      assert IsLate(states[n].db, states[n].db.created[i]);
    }
  }

  /** Every answer that commits comes within `w` milliseconds of the clock check it relies on. */
  ghost predicate AnswersWithin(states: seq<System>, moves: seq<Move>, n: nat, w: int)
    requires n <= |moves| < |states|
  {
    forall j :: 0 <= j < n && Commits(states[j], moves[j]) ==> states[j].now <= states[j].procs[moves[j].p].phase.now + w
  }

  /** So a bound on the ledger's answers bounds the lateness of every transaction. */
  lemma BoundedLateness(states: seq<System>, moves: seq<Move>, n: nat, i: nat, w: int)
    requires IsRun(Takes, states, moves) && Starts(states[0]) && n <= |moves| && i < |states[n].db.created|
    requires AnswersWithin(states, moves, n, w)
    ensures var (db, c) := (states[n].db, states[n].db.created[i]);
      && c.draftId in db.drafts && c.doneAt < db.drafts[c.draftId].expiresAt + w
      && (c.checkedAt + w < db.drafts[c.draftId].expiresAt ==> !IsLate(db, c))
  {
    var k, j := LateExactlyWhenAnsweredLate(states, moves, n, i);
  }

  // ---------------------------------------------------------------- statuses are not final

  /** The step writes the status of draft `d` without looking at it. */
  predicate Overwrites(y: System, m: Move, d: Id)
    requires Enabled(y, m) && d in y.db.drafts
  {
    match m
    case RecordFailure(p) => y.procs[p].draftId == d && y.db.drafts[d].status != Failed
    case WriteExpired(p) => y.procs[p].draftId == d && y.db.drafts[d].status == Failed
    case WriteCancelled(p) => y.procs[p].draftId == d && y.db.drafts[d].status == Failed
    case _ => false
  }

  /**
   * A decided status changes in exactly three ways: a failure recorder that had read the draft
   * while it was pending writes over it, or an expiry or cancellation decided while it was pending
   * writes over a recorded failure.
   */
  lemma DecidedStatusChanges(y: System, m: Move, d: Id)
    requires Inv(y) && Enabled(y, m) && d in y.db.drafts && y.db.drafts[d].status != PendingConfirmation
    ensures d in Next(y, m).db.drafts
    ensures Next(y, m).db.drafts[d].status != y.db.drafts[d].status <==> Overwrites(y, m, d)
  {
  }

  /** A process in this phase can still come to write over a draft of this status. */
  predicate StillWrites(phase: Phase, status: Status) {
    if status == Failed
    then phase.ConfirmPending? || phase.ConfirmExpire? || phase.CancelPending? || phase.CancelChecked? || phase.CancelExpire?
    else phase.RecorderSeen?
  }

  predicate HasWriter(y: System, d: Id)
    requires d in y.db.drafts
  {
    exists p :: p in y.procs && y.procs[p].draftId == d && StillWrites(y.procs[p].phase, y.db.drafts[d].status)
  }

  predicate HasStatus(y: System, d: Id, status: Status) {
    d in y.db.drafts && y.db.drafts[d].status == status
  }

  ghost predicate AtRest(y: System, d: Id, status: Status) {
    Inv(y) && HasStatus(y, d, status) && status != PendingConfirmation && !HasWriter(y, d)
  }

  ghost function Resting(d: Id, status: Status): System -> bool {
    (y: System) => AtRest(y, d, status)
  }

  lemma NobodyOverwrites(y: System, m: Move, d: Id, status: Status)
    requires AtRest(y, d, status) && Enabled(y, m)
    ensures !Overwrites(y, m, d)
  {
  }

  /** A draft that is not pending lets nobody into a phase from which its status is written. */
  lemma NoNewWriter(y: System, m: Move, d: Id, status: Status, p: Id)
    requires AtRest(y, d, status) && Enabled(y, m) && p in Next(y, m).procs && Next(y, m).procs[p].draftId == d
    ensures !StillWrites(Next(y, m).procs[p].phase, status)
  {
    if p in y.procs && y.procs[p].draftId == d {
      assert !StillWrites(y.procs[p].phase, status);
      assert ProcOk(y, y.procs[p]);
    }
  }

  lemma RestStays(y: System, m: Move, d: Id, status: Status)
    requires AtRest(y, d, status) && Enabled(y, m)
    ensures AtRest(Next(y, m), d, status)
  {
    NextKeepsInv(y, m);
    NobodyOverwrites(y, m, d, status);
    DecidedStatusChanges(y, m, d);
    forall p | p in Next(y, m).procs && Next(y, m).procs[p].draftId == d
      ensures !StillWrites(Next(y, m).procs[p].phase, status)
    {
      NoNewWriter(y, m, d, status, p);
    }
  }

  lemma RestIsReached(y: System, y': System, d: Id, status: Status)
    requires AtRest(y, d, status) && Reaches(Takes, y, y')
    ensures HasStatus(y', d, status)
  {
    var states, moves :| IsRun(Takes, states, moves) && states[0] == y && states[|moves|] == y';
    forall a, m, b | Resting(d, status)(a) && Takes(a, m, b) ensures Resting(d, status)(b) {
      RestStays(a, m, d, status);
    }
    RunKeepsInv(Takes, Resting(d, status), states, moves, |moves|);
  }

  ghost predicate ComesToDiffer(y: System, d: Id, status: Status) {
    exists y' :: Reaches(Takes, y, y') && !HasStatus(y', d, status)
  }

  lemma Step(y: System, m: Move)
    requires Enabled(y, m)
    ensures Reaches(Takes, y, Next(y, m))
  {
    ReachesByStep(Takes, y, m, Next(y, m));
  }

  lemma DifferByStep(y: System, m: Move, d: Id, status: Status)
    requires Enabled(y, m) && !HasStatus(Next(y, m), d, status)
    ensures ComesToDiffer(y, d, status)
  {
    Step(y, m);
  }

  lemma DifferLater(y: System, m: Move, d: Id, status: Status)
    requires Enabled(y, m) && ComesToDiffer(Next(y, m), d, status)
    ensures ComesToDiffer(y, d, status)
  {
    Step(y, m);
    var y' :| Reaches(Takes, Next(y, m), y') && !HasStatus(y', d, status);
    ReachesOn(Takes, y, Next(y, m), y');
  }

  /** An expiry decided late writes over a recorded failure. */
  lemma ExpiryOverwrites(y: System, p: Id)
    requires p in y.procs && HasStatus(y, y.procs[p].draftId, Failed)
    requires y.procs[p].phase.ConfirmExpire? || y.procs[p].phase.CancelExpire?
    ensures ComesToDiffer(y, y.procs[p].draftId, Failed)
  {
    DifferByStep(y, WriteExpired(p), y.procs[p].draftId, Failed);
  }

  lemma WaitingOverwrites(y: System, p: Id)
    requires p in y.procs && HasStatus(y, y.procs[p].draftId, Failed)
    requires y.procs[p].phase.ConfirmPending? || y.procs[p].phase.CancelPending?
    ensures ComesToDiffer(y, y.procs[p].draftId, Failed)
  {
    var d, expiresAt := y.procs[p].draftId, y.procs[p].phase.expiresAt;
    var wait: nat := if expiresAt <= y.now then 0 else expiresAt - y.now;
    var y1 := Next(y, Tick(wait));
    ExpiryOverwrites(Next(y1, ReadClock(p)), p);
    DifferLater(y1, ReadClock(p), d, Failed);
    DifferLater(y, Tick(wait), d, Failed);
  }

  lemma WriterOverwrites(y: System, p: Id)
    requires p in y.procs && y.procs[p].draftId in y.db.drafts
    requires StillWrites(y.procs[p].phase, y.db.drafts[y.procs[p].draftId].status)
    ensures ComesToDiffer(y, y.procs[p].draftId, y.db.drafts[y.procs[p].draftId].status)
  {
    var d := y.procs[p].draftId;
    var status := y.db.drafts[d].status;
    if y.procs[p].phase.RecorderSeen? {
      DifferByStep(y, RecordFailure(p), d, status);
    } else if y.procs[p].phase.CancelChecked? {
      DifferByStep(y, WriteCancelled(p), d, status);
    } else if y.procs[p].phase.ConfirmExpire? || y.procs[p].phase.CancelExpire? {
      ExpiryOverwrites(y, p);
    } else {
      WaitingOverwrites(y, p);
    }
  }

  ghost predicate StatusIsFinal(y: System, d: Id)
    requires d in y.db.drafts
  {
    forall y' :: Reaches(Takes, y, y') ==> HasStatus(y', d, y.db.drafts[d].status)
  }

  /**
   * The status of a decided draft is final over every later run exactly when no process can still
   * write over it. For a committed, cancelled or expired draft that is a failure recorder that had
   * read it while it was pending; for a failed one, an expiry or cancellation that had.
   */
  lemma StatusIsFinalExactly(y: System, d: Id)
    requires Inv(y) && d in y.db.drafts && y.db.drafts[d].status != PendingConfirmation
    ensures StatusIsFinal(y, d) <==> !HasWriter(y, d)
  {
    var status := y.db.drafts[d].status;
    if HasWriter(y, d) {
      var p :| p in y.procs && y.procs[p].draftId == d && StillWrites(y.procs[p].phase, status);
      WriterOverwrites(y, p);
      var y' :| Reaches(Takes, y, y') && !HasStatus(y', d, status);
    } else {
      forall y' | Reaches(Takes, y, y') ensures HasStatus(y', d, status) {
        RestIsReached(y, y', d, status);
      }
    }
  }

  /** In particular along every run from the empty tables. */
  lemma RunStatusIsFinal(states: seq<System>, moves: seq<Move>, n: nat, d: Id)
    requires IsRun(Takes, states, moves) && Starts(states[0]) && n <= |moves|
    requires d in states[n].db.drafts && states[n].db.drafts[d].status != PendingConfirmation
    ensures StatusIsFinal(states[n], d) <==> !HasWriter(states[n], d)
  {
    StepsPreserve();
    RunKeepsInv(Takes, Inv, states, moves, n);
    StatusIsFinalExactly(states[n], d);
  }

  // ---------------------------------------------------------------- runs that show it

  predicate Open(y: System, q: Process) {
    && q.draftId in y.db.drafts
    && (var row := y.db.drafts[q.draftId];
        row.userId == q.userId && row.status == PendingConfirmation && row.transactionId == None && y.now < row.expiresAt)
    && UserKey(q.userId, q.key) !in y.db.keys
  }

  lemma PhaseStep(y: System, p: Id, m: Move, phase: Phase)
    requires p in y.procs && Enabled(y, m) && Next(y, m) == Moved(y, p, Some(phase))
    ensures Reaches(Takes, y, y.(procs := y.procs[p := y.procs[p].(phase := phase)]))
  {
    ReachesByStep(Takes, y, m, Next(y, m));
  }

  /** A confirm of an open draft that nobody disturbs gets as far as asking the ledger. */
  lemma ConfirmAsksLedger(y: System, p: Id, q: Process)
    requires p !in y.procs && !Locked(y, q.draftId) && Open(y, q) && q.phase == ConfirmChecked(false, y.now)
    ensures Reaches(Takes, y, y.(procs := y.procs[p := q]))
  {
    var start := q.(phase := ConfirmLocked);
    var y1 := y.(procs := y.procs[p := start]);
    ReachesByStep(Takes, y, StartConfirm(p, q.userId, q.draftId, q.key), Next(y, StartConfirm(p, q.userId, q.draftId, q.key)));
    LockedReachesChecked(y1, p, q);
    assert y1.procs[p := q] == y.procs[p := q];
    ReachesOn(Takes, y, y1, y.(procs := y.procs[p := q]));
  }

  lemma LockedReachesChecked(y: System, p: Id, q: Process)
    requires p in y.procs && y.procs[p] == q.(phase := ConfirmLocked) && Open(y, q) && q.phase == ConfirmChecked(false, y.now)
    ensures Reaches(Takes, y, y.(procs := y.procs[p := q]))
  {
    var y2 := y.(procs := y.procs[p := q.(phase := ConfirmKeyRead(false))]);
    var y3 := y.(procs := y.procs[p := q.(phase := ConfirmPending(false, y.db.drafts[q.draftId].expiresAt))]);
    var y4 := y.(procs := y.procs[p := q]);
    PhaseStep(y, p, ReadKey(p), ConfirmKeyRead(false));
    assert y2.procs[p := y3.procs[p]] == y3.procs;
    PhaseStep(y2, p, ReadDraft(p), y3.procs[p].phase);
    assert y3.procs[p := q] == y4.procs;
    PhaseStep(y3, p, ReadClock(p), q.phase);
    ReachesOn(Takes, y, y2, y3);
    ReachesOn(Takes, y, y3, y4);
  }

  /** The ledger refuses one confirm; its recorder reads the draft, still pending, and stops there. */
  lemma RefusedConfirmLeavesRecorder(y: System, p: Id, q: Process)
    requires p !in y.procs && !Locked(y, q.draftId) && Open(y, q) && q.phase == RecorderSeen
    ensures Reaches(Takes, y, y.(procs := y.procs[p := q]))
  {
    var asked := q.(phase := ConfirmChecked(false, y.now));
    var y1 := y.(procs := y.procs[p := asked]);
    var y2 := y.(procs := y.procs[p := q.(phase := RecorderStart)]);
    var y3 := y.(procs := y.procs[p := q]);
    ConfirmAsksLedger(y, p, asked);
    assert y1.procs[p := y2.procs[p]] == y2.procs;
    PhaseStep(y1, p, CommitConfirm(p, Refused), RecorderStart);
    assert y2.procs[p := q] == y3.procs;
    PhaseStep(y2, p, ReadDraft(p), RecorderSeen);
    ReachesOn(Takes, y, y1, y2);
    ReachesOn(Takes, y, y2, y3);
  }

  predicate CommittedAs(y: System, y': System, q: Process, t: Id, ms: nat) {
    && q.draftId in y.db.drafts
    && y'.procs == y.procs && y'.now == y.now + ms
    && y'.db.created == [Creation(t, q.draftId, UserKey(q.userId, q.key), y.now, y.now + ms)]
    && y'.db.drafts == y.db.drafts[q.draftId := y.db.drafts[q.draftId].(status := Committed, committedAt := Some(y.now), transactionId := Some(t))]
  }

  /** The ledger accepts a confirm, at whatever time it answers. */
  lemma AcceptedConfirmCommits(y: System, p: Id, q: Process, t: Id, ms: nat)
    requires p !in y.procs && !Locked(y, q.draftId) && Open(y, q) && q.phase == ConfirmChecked(false, y.now)
    requires y.db.created == []
    ensures exists y' :: Reaches(Takes, y, y') && CommittedAs(y, y', q, t, ms)
  {
    var y1 := y.(procs := y.procs[p := q]);
    ConfirmAsksLedger(y, p, q);
    var y2 := Next(y1, Tick(ms));
    ReachesByStep(Takes, y1, Tick(ms), Next(y1, Tick(ms)));
    ReachesOn(Takes, y, y1, y2);
    var y3 := Next(y2, CommitConfirm(p, Created(t)));
    ReachesByStep(Takes, y2, CommitConfirm(p, Created(t)), Next(y2, CommitConfirm(p, Created(t))));
    ReachesOn(Takes, y, y2, y3);
    assert y2.procs - {p} == y.procs;
    assert CommittedAs(y, y3, q, t, ms);
  }

  predicate Holding(y: System, d: Id, status: Status, t: Id) {
    d in y.db.drafts && y.db.drafts[d].status == status && y.db.drafts[d].transactionId == Some(t)
  }

  lemma RecorderOverwrites(y: System, r: Id, d: Id, t: Id)
    requires At(y, r, RecorderSeen) && y.procs[r].draftId == d && Holding(y, d, Committed, t)
    ensures exists y' :: Reaches(Takes, y, y') && Holding(y', d, Failed, t)
  {
    Step(y, RecordFailure(r));
    assert Holding(Next(y, RecordFailure(r)), d, Failed, t);
  }

  /** Nothing but one pending draft, `left` milliseconds before its expiry. */
  predicate OnlyDraft(y: System, d: Id, u: Id, left: int) {
    && y.procs == map[] && y.db.keys == map[] && y.db.created == [] && d in y.db.drafts
    && y.db.drafts[d] == Draft(u, PendingConfirmation, y.now + left, None, None)
  }

  /** From the empty tables on: a draft is prepared and waits. */
  lemma DraftIsPrepared(y: System, d: Id, u: Id, left: int)
    requires Starts(y) && 0 < left <= DRAFT_TTL_MS
    ensures exists y' :: Reaches(Takes, y, y') && OnlyDraft(y', d, u, left)
  {
    var wait: nat := DRAFT_TTL_MS - left;
    var y1 := Next(y, Prepare(d, u));
    var y2 := Next(y1, Tick(wait));
    Step(y, Prepare(d, u));
    Step(y1, Tick(wait));
    ReachesOn(Takes, y, y1, y2);
    assert OnlyDraft(y2, d, u, left);
  }

  /** A committed draft ends up marked failed, with its transaction still in the ledger. */
  lemma CommittedThenFailed(y: System, p: Id, r: Id, q: Process, t: Id)
    requires p !in y.procs && r !in y.procs && p != r && !Locked(y, q.draftId) && Open(y, q) && y.db.created == []
    requires UserKey(q.userId, q.key + 1) !in y.db.keys
    ensures exists y1, y2 :: Reaches(Takes, y, y1) && Reaches(Takes, y1, y2) && Holding(y1, q.draftId, Committed, t) && Holding(y2, q.draftId, Failed, t)
  {
    var recorder := q.(phase := RecorderSeen, key := q.key + 1);
    var a := y.(procs := y.procs[r := recorder]);
    RefusedConfirmLeavesRecorder(y, r, recorder);
    var confirm := q.(phase := ConfirmChecked(false, a.now));
    AcceptedConfirmCommits(a, p, confirm, t, 0);
    var b :| Reaches(Takes, a, b) && CommittedAs(a, b, confirm, t, 0);
    ReachesOn(Takes, y, a, b);
    RecorderOverwrites(b, r, q.draftId, t);
  }

  /**
   * From the empty tables, a committed draft can end up marked failed: a refused confirm reads the
   * draft, another confirm commits it, and the first one's recorder writes.
   */
  lemma CommittedCanBecomeFailed(y: System, p: Id, r: Id, q: Process, t: Id)
    requires Starts(y) && p != r
    ensures exists y1, y2 :: Reaches(Takes, y, y1) && Reaches(Takes, y1, y2) && Holding(y1, q.draftId, Committed, t) && Holding(y2, q.draftId, Failed, t)
  {
    DraftIsPrepared(y, q.draftId, q.userId, DRAFT_TTL_MS);
    var a :| Reaches(Takes, y, a) && OnlyDraft(a, q.draftId, q.userId, DRAFT_TTL_MS);
    CommittedThenFailed(a, p, r, q, t);
    var b, c :| Reaches(Takes, a, b) && Reaches(Takes, b, c) && Holding(b, q.draftId, Committed, t) && Holding(c, q.draftId, Failed, t);
    ReachesOn(Takes, y, a, b);
  }

  /** One transaction, checked `left` milliseconds before its draft's expiry and done `ms` later. */
  ghost predicate CreatedAfter(y: System, d: Id, left: int, ms: nat) {
    && |y.db.created| == 1 && d in y.db.drafts && y.db.created[0].draftId == d
    && y.db.created[0].checkedAt == y.db.drafts[d].expiresAt - left
    && y.db.created[0].doneAt == y.db.created[0].checkedAt + ms
  }

  /**
   * From the empty tables, a transaction can enter the ledger any time after its draft's expiry: the
   * clock is checked while `left` milliseconds are left and the ledger answers after `ms`. It is late
   * exactly when the answer took at least what was left, so the bound on lateness is the best one.
   */
  lemma LateAnswerCommitsAfterExpiry(y: System, p: Id, q: Process, t: Id, left: int, ms: nat)
    requires Starts(y) && 0 < left <= DRAFT_TTL_MS
    ensures exists y' :: Reaches(Takes, y, y') && CreatedAfter(y', q.draftId, left, ms)
                         && (IsLate(y'.db, y'.db.created[0]) <==> ms >= left)
  {
    DraftIsPrepared(y, q.draftId, q.userId, left);
    var a :| Reaches(Takes, y, a) && OnlyDraft(a, q.draftId, q.userId, left);
    var confirm := q.(phase := ConfirmChecked(false, a.now));
    AcceptedConfirmCommits(a, p, confirm, t, ms);
    var b :| Reaches(Takes, a, b) && CommittedAs(a, b, confirm, t, ms);
    ReachesOn(Takes, y, a, b);
    assert CreatedAfter(b, q.draftId, left, ms);
  }
}
