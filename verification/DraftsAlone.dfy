/**
 * A confirm or a cancel that nothing interrupts: its steps, taken one after the other, leave
 * exactly the tables that one call leaves.
 */
module DraftsAlone {
  import opened Common
  import opened Runs
  import opened Drafts

  // ---------------------------------------------------------------- the outcome

  predicate KeyIsFree(db: Db, k: UserKey, draftId: Id) {
    k in db.keys ==> db.keys[k].draftId == Some(draftId)
  }

  predicate IsPending(db: Db, userId: Id, draftId: Id) {
    draftId in db.drafts && db.drafts[draftId].userId == userId && db.drafts[draftId].status == PendingConfirmation
  }

  /** A pending draft under a free key is expired, committed, failed, or left alone by an unknown error. */
  function ConfirmOutcome(db: Db, k: UserKey, draftId: Id, now: int, answer: LedgerAnswer): Db {
    if !KeyIsFree(db, k, draftId) || !IsPending(db, k.userId, draftId) then db
    else if db.drafts[draftId].expiresAt <= now then SetStatus(db, draftId, Expired)
    else
      match answer
      case Created(t) =>
        db.(drafts := db.drafts[draftId := db.drafts[draftId].(status := Committed, committedAt := Some(now), transactionId := Some(t))],
            keys := db.keys[k := KeyRow(Some(draftId), Some(t))],
            created := db.created + [Creation(t, draftId, k, now, now)])
      case Refused => SetStatus(db, draftId, Failed)
      case Broken => db
  }

  function CancelOutcome(db: Db, userId: Id, draftId: Id, now: int): Db {
    if !IsPending(db, userId, draftId) then db
    else if db.drafts[draftId].expiresAt <= now then SetStatus(db, draftId, Expired)
    else SetStatus(db, draftId, Drafts.Cancelled).(cancelled := db.cancelled + {draftId})
  }

  // ---------------------------------------------------------------- one process, step after step

  predicate IsFresh(y: System, answer: LedgerAnswer) {
    answer.Created? ==> forall i :: 0 <= i < |y.db.created| ==> y.db.created[i].transactionId != answer.transactionId
  }

  function OwnMove(q: Process, p: Id, answer: LedgerAnswer): Move {
    match q.phase
    case ConfirmLocked => ReadKey(p)
    case ConfirmKeyRead(_) => ReadDraft(p)
    case ConfirmPending(_, _) => ReadClock(p)
    case ConfirmChecked(_, _) => CommitConfirm(p, answer)
    case ConfirmExpire => WriteExpired(p)
    case RecorderStart => ReadDraft(p)
    case RecorderSeen => RecordFailure(p)
    case CancelLocked => ReadDraft(p)
    case CancelPending(_) => ReadClock(p)
    case CancelChecked => WriteCancelled(p)
    case CancelExpire => WriteExpired(p)
  }

  function Rank(y: System, p: Id): nat {
    if p !in y.procs then 0
    else
      match y.procs[p].phase
      case ConfirmLocked => 7
      case ConfirmKeyRead(_) => 6
      case ConfirmPending(_, _) => 5
      case ConfirmChecked(_, _) => 4
      case CancelLocked => 4
      case CancelPending(_) => 3
      case RecorderStart => 2
      case _ => 1
  }

  lemma OwnMoveGoesOn(y: System, p: Id, answer: LedgerAnswer)
    requires p in y.procs && IsFresh(y, answer)
    ensures Enabled(y, OwnMove(y.procs[p], p, answer))
    ensures Rank(Next(y, OwnMove(y.procs[p], p, answer)), p) < Rank(y, p)
    ensures y.procs[p].phase.ConfirmChecked? || IsFresh(Next(y, OwnMove(y.procs[p], p, answer)), answer)
    ensures p in Next(y, OwnMove(y.procs[p], p, answer)).procs ==> IsFresh(Next(y, OwnMove(y.procs[p], p, answer)), answer)
  {
  }

  /** The process runs on until it is over. */
  function Finish(y: System, p: Id, answer: LedgerAnswer): System
    requires p in y.procs ==> IsFresh(y, answer)
    decreases Rank(y, p)
  {
    if p !in y.procs then y
    else
      OwnMoveGoesOn(y, p, answer);
      Finish(Next(y, OwnMove(y.procs[p], p, answer)), p, answer)
  }

  /** It is a run of the step system. */
  lemma {:induction false} FinishIsRun(y: System, p: Id, answer: LedgerAnswer)
    requires p in y.procs && IsFresh(y, answer)
    ensures Reaches(Takes, y, Finish(y, p, answer)) && p !in Finish(y, p, answer).procs
    decreases Rank(y, p)
  {
    OwnMoveGoesOn(y, p, answer);
    var m := OwnMove(y.procs[p], p, answer);
    ReachesByStep(Takes, y, m, Next(y, m));
    assert Finish(y, p, answer) == Finish(Next(y, m), p, answer);
    if p in Next(y, m).procs {
      FinishIsRun(Next(y, m), p, answer);
      ReachesOn(Takes, y, Next(y, m), Finish(Next(y, m), p, answer));
    } else {
      assert Finish(Next(y, m), p, answer) == Next(y, m);
    }
  }

  ghost function Over(y: System, p: Id, db: Db): System {
    y.(db := db, procs := y.procs - {p})
  }

  lemma RecorderAlone(y: System, p: Id, answer: LedgerAnswer)
    requires At(y, p, RecorderStart) && IsPending(y.db, y.procs[p].userId, y.procs[p].draftId) && IsFresh(y, answer)
    ensures Finish(y, p, answer) == Over(y, p, SetStatus(y.db, y.procs[p].draftId, Failed))
  {
    var y1 := Next(y, ReadDraft(p));
    assert Finish(y1, p, answer) == Next(y1, RecordFailure(p));
  }

  lemma CheckedAlone(y: System, p: Id, existing: bool, answer: LedgerAnswer)
    requires At(y, p, ConfirmChecked(existing, y.now)) && IsFresh(y, answer)
    requires var (q, k) := (y.procs[p], UserKey(y.procs[p].userId, y.procs[p].key));
      && (existing <==> k in y.db.keys) && KeyIsFree(y.db, k, q.draftId)
      && IsPending(y.db, q.userId, q.draftId) && y.db.drafts[q.draftId].transactionId == None
      && y.now < y.db.drafts[q.draftId].expiresAt
    ensures var q := y.procs[p];
      Finish(y, p, answer) == Over(y, p, ConfirmOutcome(y.db, UserKey(q.userId, q.key), q.draftId, y.now, answer))
  {
    var y1 := Next(y, CommitConfirm(p, answer));
    if answer.Refused? {
      RecorderAlone(y1, p, answer);
    } else {
      assert Finish(y1, p, answer) == y1;
    }
  }

  lemma ExpireAlone(y: System, p: Id, answer: LedgerAnswer)
    requires (At(y, p, ConfirmExpire) || At(y, p, CancelExpire)) && IsFresh(y, answer)
    ensures Finish(y, p, answer) == Over(y, p, SetStatus(y.db, y.procs[p].draftId, Expired))
  {
    assert Finish(Next(y, WriteExpired(p)), p, answer) == Next(y, WriteExpired(p));
  }

  lemma KeyReadAlone(y: System, p: Id, existing: bool, answer: LedgerAnswer)
    requires At(y, p, ConfirmKeyRead(existing)) && IsFresh(y, answer) && DraftsOk(y.db)
    requires var (q, k) := (y.procs[p], UserKey(y.procs[p].userId, y.procs[p].key));
      (existing <==> k in y.db.keys) && KeyIsFree(y.db, k, q.draftId)
    ensures var q := y.procs[p];
      Finish(y, p, answer) == Over(y, p, ConfirmOutcome(y.db, UserKey(q.userId, q.key), q.draftId, y.now, answer))
  {
    var q := y.procs[p];
    var y1 := Next(y, ReadDraft(p));
    if IsPending(y.db, q.userId, q.draftId) {
      assert DraftOk(y.db.drafts[q.draftId]);
      var y2 := Next(y1, ReadClock(p));
      assert Finish(y, p, answer) == Finish(y1, p, answer) == Finish(y2, p, answer);
      if y.db.drafts[q.draftId].expiresAt <= y.now {
        ExpireAlone(y2, p, answer);
      } else {
        CheckedAlone(y2, p, existing, answer);
      }
    } else {
      assert Finish(y1, p, answer) == y1;
    }
  }

  /** A confirm that starts while nobody holds the draft and runs through leaves the confirm's outcome. */
  lemma ConfirmAlone(y: System, p: Id, k: UserKey, draftId: Id, answer: LedgerAnswer)
    requires Enabled(y, StartConfirm(p, k.userId, draftId, k.key)) && IsFresh(y, answer) && DraftsOk(y.db)
    ensures var y1 := Next(y, StartConfirm(p, k.userId, draftId, k.key));
      Finish(y1, p, answer) == y.(db := ConfirmOutcome(y.db, k, draftId, y.now, answer))
  {
    var y1 := Next(y, StartConfirm(p, k.userId, draftId, k.key));
    var y2 := Next(y1, ReadKey(p));
    assert Finish(y1, p, answer) == Finish(y2, p, answer);
    assert y.procs == y1.procs - {p};
    if KeyIsFree(y.db, k, draftId) {
      KeyReadAlone(y2, p, k in y.db.keys, answer);
      assert y.procs == y2.procs - {p};
    } else {
      assert Finish(y2, p, answer) == y2;
    }
  }

  lemma PendingCancelAlone(y: System, p: Id, answer: LedgerAnswer)
    requires p in y.procs && IsPending(y.db, y.procs[p].userId, y.procs[p].draftId) && IsFresh(y, answer)
    requires y.procs[p].phase == CancelPending(y.db.drafts[y.procs[p].draftId].expiresAt)
    ensures Finish(y, p, answer) == Over(y, p, CancelOutcome(y.db, y.procs[p].userId, y.procs[p].draftId, y.now))
  {
    var y1 := Next(y, ReadClock(p));
    assert Finish(y, p, answer) == Finish(y1, p, answer);
    if y.db.drafts[y.procs[p].draftId].expiresAt <= y.now {
      ExpireAlone(y1, p, answer);
    } else {
      assert Finish(Next(y1, WriteCancelled(p)), p, answer) == Next(y1, WriteCancelled(p));
    }
  }

  /** Likewise a cancel. */
  lemma CancelAlone(y: System, p: Id, userId: Id, draftId: Id, answer: LedgerAnswer)
    requires Enabled(y, StartCancel(p, userId, draftId)) && IsFresh(y, answer)
    ensures var y1 := Next(y, StartCancel(p, userId, draftId));
      Finish(y1, p, answer) == y.(db := CancelOutcome(y.db, userId, draftId, y.now))
  {
    var y1 := Next(y, StartCancel(p, userId, draftId));
    var y2 := Next(y1, ReadDraft(p));
    assert y.procs == y1.procs - {p};
    assert Finish(y1, p, answer) == Finish(y2, p, answer);
    if IsPending(y.db, userId, draftId) {
      PendingCancelAlone(y2, p, answer);
      assert y.procs == y2.procs - {p};
    } else {
      assert Finish(y2, p, answer) == y2;
    }
  }
}
