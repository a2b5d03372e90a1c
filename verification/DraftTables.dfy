/** Confirm and cancel as one caller runs them, statement by statement on the tables. */
module DraftTables {
  import opened Common
  import opened Drafts
  import DraftsAlone

  datatype Reply =
    | New(transactionId: Id)
    | Replay(transactionId: Id)
    | CancelDone
    | ExpiredNow
    | NotFound
    | KeyConflict
    | Conflict(status: Status)
    | LedgerError(answer: LedgerAnswer)

  class Tables {
    var drafts: map<Id, Draft>
    var keys: map<UserKey, KeyRow>
    var created: seq<Creation>
    var cancelled: set<Id>

    constructor ()
      ensures Contents() == Db(map[], map[], [], {})
    {
      drafts, keys, created, cancelled := map[], map[], [], {};
    }

    ghost function Contents(): Db
      reads this
    {
      Db(drafts, keys, created, cancelled)
    }

    ghost predicate Valid()
      reads this
    {
      CreatedOk(Contents()) && DraftsOk(Contents())
    }

    predicate IsOwned(userId: Id, draftId: Id)
      reads this
    {
      draftId in drafts && drafts[draftId].userId == userId
    }

    predicate IsIn(userId: Id, draftId: Id, status: Status)
      reads this
    {
      IsOwned(userId, draftId) && drafts[draftId].status == status
    }

    predicate IsOpen(userId: Id, draftId: Id, now: int)
      reads this
    {
      IsIn(userId, draftId, PendingConfirmation) && now < drafts[draftId].expiresAt
    }

    predicate IsLate(userId: Id, draftId: Id, now: int)
      reads this
    {
      IsIn(userId, draftId, PendingConfirmation) && drafts[draftId].expiresAt <= now
    }

    /** No other draft and no request owns the key. */
    predicate KeyIsFree(userId: Id, key: Id, draftId: Id)
      reads this
    {
      UserKey(userId, key) in keys ==> keys[UserKey(userId, key)].draftId == Some(draftId)
    }

    /**
     * The confirm transaction and, after a refusal by the ledger, the failure recorder. The ledger's
     * answer is an input: a fresh transaction id, a refusal, or some other error.
     */
    method Confirm(userId: Id, draftId: Id, key: Id, now: int, answer: LedgerAnswer) returns (reply: Reply)
      requires Valid()
      requires answer.Created? ==> forall c :: c in created ==> c.transactionId != answer.transactionId
      modifies this
      ensures Valid() && Keeps(old(Contents()), Contents()) && cancelled == old(cancelled)
      ensures Contents() == DraftsAlone.ConfirmOutcome(old(Contents()), UserKey(userId, key), draftId, now, answer)
      ensures reply.KeyConflict? <==> !old(KeyIsFree(userId, key, draftId))
      ensures reply.NotFound? <==> old(KeyIsFree(userId, key, draftId)) && !old(IsOwned(userId, draftId))
      ensures reply.Replay? <==> old(KeyIsFree(userId, key, draftId) && IsIn(userId, draftId, Committed))
      ensures reply.ExpiredNow? <==> old(KeyIsFree(userId, key, draftId) && IsLate(userId, draftId, now))
      ensures reply.New? <==> old(KeyIsFree(userId, key, draftId) && IsOpen(userId, draftId, now)) && answer.Created?
      ensures reply.LedgerError? <==> old(KeyIsFree(userId, key, draftId) && IsOpen(userId, draftId, now)) && !answer.Created?
      ensures forall status :: reply == Conflict(status) <==>
        old(KeyIsFree(userId, key, draftId) && IsIn(userId, draftId, status)) && status != PendingConfirmation && status != Committed
      ensures reply.LedgerError? ==> reply.answer == answer
      ensures reply.Replay? ==> old(draftId in drafts && drafts[draftId].transactionId == Some(reply.transactionId))
      ensures reply.New? ==>
        && answer == Created(reply.transactionId)
        && created == old(created) + [Creation(reply.transactionId, draftId, UserKey(userId, key), now, now)]
        && drafts == old(drafts)[draftId := old(drafts)[draftId].(status := Committed, committedAt := Some(now), transactionId := Some(reply.transactionId))]
        && keys == old(keys)[UserKey(userId, key) := KeyRow(Some(draftId), Some(reply.transactionId))]
      ensures reply.ExpiredNow? ==> Contents() == SetStatus(old(Contents()), draftId, Expired)
      ensures reply.LedgerError? && answer.Refused? ==> Contents() == SetStatus(old(Contents()), draftId, Failed)
      ensures !reply.New? && !reply.ExpiredNow? && !(reply.LedgerError? && answer.Refused?) ==> Contents() == old(Contents())
    {
      var k := UserKey(userId, key);
      var existing := k in keys;
      if existing && keys[k].draftId != Some(draftId) {
        return KeyConflict;
      }
      if draftId !in drafts || drafts[draftId].userId != userId {
        return NotFound;
      }
      var draft := drafts[draftId];
      assert DraftOk(draft);
      if draft.status == Committed && draft.transactionId.Some? {
        return Replay(draft.transactionId.value);
      }
      if draft.status == PendingConfirmation && draft.expiresAt <= now {
        MarkStatus(draftId, Expired);
        return ExpiredNow;
      }
      if draft.status != PendingConfirmation {
        return Conflict(draft.status);
      }
      reply := CommitTransaction(userId, draftId, k, existing, now, answer);
      if reply.LedgerError? && reply.answer.Refused? {
        MarkStatus(draftId, Failed);
      }
    }

    /** From the key row to the draft's claim; an error undoes the statements before it. */
    method CommitTransaction(userId: Id, draftId: Id, k: UserKey, existing: bool, now: int, answer: LedgerAnswer) returns (reply: Reply)
      requires Valid() && k.userId == userId
      requires draftId in drafts && drafts[draftId].userId == userId && drafts[draftId].status == PendingConfirmation
      requires now < drafts[draftId].expiresAt
      requires existing <==> k in keys
      requires existing ==> keys[k].draftId == Some(draftId)
      modifies this
      ensures Valid() && Keeps(old(Contents()), Contents())
      ensures reply == match answer case Created(t) => New(t) case _ => LedgerError(answer)
      ensures reply.LedgerError? ==> Contents() == old(Contents())
      ensures reply.New? ==>
        Confirmed(Contents()) == ConfirmWrites(old(Contents()), Process(userId, draftId, k.key, ConfirmChecked(existing, now)), existing, now, answer, now)
    {
      ghost var was := Contents();
      ghost var q := Process(userId, draftId, k.key, ConfirmChecked(existing, now));
      assert DraftOk(drafts[draftId]);
      if answer.Created? {
        ConfirmKeepsDb(was, q, existing, now, answer, now);
        ConfirmKeeps(was, q, existing, now, answer, now);
      }
      var keysBefore := keys;
      if !existing {
        keys := keys[k := KeyRow(Some(draftId), None)];
      }
      if !answer.Created? {
        keys := keysBefore;
        return LedgerError(answer);
      }
      created := created + [Creation(answer.transactionId, draftId, k, now, now)];
      drafts := drafts[draftId := drafts[draftId].(status := Committed, committedAt := Some(now), transactionId := Some(answer.transactionId))];
      keys := keys[k := keys[k].(transactionId := Some(answer.transactionId))];
      assert keys == ConfirmWrites(was, q, existing, now, answer, now).db.keys;
      return New(answer.transactionId);
    }

    method MarkStatus(draftId: Id, status: Status)
      requires Valid() && draftId in drafts && drafts[draftId].status == PendingConfirmation
      requires status == Expired || status == Failed
      modifies this`drafts
      ensures Valid() && Contents() == SetStatus(old(Contents()), draftId, status)
      ensures Keeps(old(Contents()), Contents())
    {
      ghost var was := Contents();
      assert DraftOk(drafts[draftId]);
      drafts := drafts[draftId := drafts[draftId].(status := status)];
      forall i | 0 <= i < |created| ensures CreationOk(Contents(), created[i]) {
        assert CreationOk(was, was.created[i]);
      }
    }

    /** Cancelling twice is a replay; cancelling late marks the draft expired instead. */
    method Cancel(userId: Id, draftId: Id, now: int) returns (reply: Reply)
      requires Valid()
      modifies this
      ensures Valid() && Keeps(old(Contents()), Contents()) && created == old(created) && keys == old(keys)
      ensures Contents() == DraftsAlone.CancelOutcome(old(Contents()), userId, draftId, now)
      ensures reply.NotFound? <==> !old(IsOwned(userId, draftId))
      ensures reply.CancelDone? <==> old(IsOpen(userId, draftId, now) || IsIn(userId, draftId, Cancelled))
      ensures reply.ExpiredNow? <==> old(IsLate(userId, draftId, now))
      ensures forall status :: reply == Conflict(status) <==>
        old(IsIn(userId, draftId, status)) && status != PendingConfirmation && status != Cancelled
      ensures old(IsOpen(userId, draftId, now)) ==>
        drafts == SetStatus(old(Contents()), draftId, Cancelled).drafts && cancelled == old(cancelled) + {draftId}
      ensures reply.ExpiredNow? ==> Contents() == SetStatus(old(Contents()), draftId, Expired)
      ensures !old(IsOpen(userId, draftId, now) || IsLate(userId, draftId, now)) ==> Contents() == old(Contents())
    {
      if draftId !in drafts || drafts[draftId].userId != userId {
        return NotFound;
      }
      var draft := drafts[draftId];
      assert DraftOk(draft);
      if draft.status == Cancelled {
        return CancelDone;
      }
      if draft.status == PendingConfirmation && draft.expiresAt <= now {
        MarkStatus(draftId, Expired);
        return ExpiredNow;
      }
      if draft.status != PendingConfirmation {
        return Conflict(draft.status);
      }
      ghost var was := Contents();
      drafts := drafts[draftId := draft.(status := Cancelled)];
      cancelled := cancelled + {draftId};
      forall i | 0 <= i < |created| ensures CreationOk(Contents(), created[i]) {
        assert CreationOk(was, was.created[i]);
      }
      return CancelDone;
    }
  }
}
