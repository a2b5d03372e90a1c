/** Answering and cancelling a clarification as one caller runs them, statement by statement. */
module ClarificationTables {
  import opened Common
  import opened ClarificationRace
  import ClarificationAlone

  datatype Reply =
    | Continued(next: Continuation)
    | CancelDone
    | NotFound
    | AlreadyDecided(status: Status)
    | Terminalized
    | InvalidOption
    | ContinuationFailed

  class Tables {
    var rows: map<Id, Row>
    var drafts: map<Id, Id>
    var continued: map<Id, Continuation>

    constructor ()
      ensures Contents() == Db(map[], map[], map[]) && DbOk(Contents())
    {
      rows, drafts, continued := map[], map[], map[];
    }

    ghost function Contents(): Db
      reads this
    {
      Db(rows, drafts, continued)
    }

    /** The conditional update on the row's status. */
    method ClaimPending(c: Id, status: Status, consumedAt: Option<int>) returns (claimed: bool)
      modifies this`rows
      ensures claimed <==> IsPending(old(Contents()), c)
      ensures rows == if claimed then old(rows)[c := old(rows)[c].(status := status, consumedAt := consumedAt)] else old(rows)
    {
      claimed := c in rows && rows[c].status == Pending;
      if claimed {
        rows := rows[c := rows[c].(status := status, consumedAt := consumedAt)];
      }
    }

    /**
     * Marks a clarification as needing a restart; this commits although the caller gets an error. If
     * another caller has decided the row since it was read, that decision stands and is reported.
     */
    method Terminalize(c: Id) returns (reply: Reply)
      requires DbOk(Contents())
      modifies this`rows
      ensures DbOk(Contents())
      ensures reply.Terminalized? <==> IsPending(old(Contents()), c)
      ensures reply == NotFound <==> c !in old(rows)
      ensures !reply.Terminalized? && reply != NotFound ==> reply == AlreadyDecided(old(rows)[c].status)
      ensures rows == if reply.Terminalized? then old(rows)[c := old(rows)[c].(status := Stale)] else old(rows)
    {
      assert c in rows ==> RowOk(Contents(), c);
      var claimed := ClaimPending(c, Stale, None);
      if claimed {
        return Terminalized;
      }
      return if c in rows then AlreadyDecided(rows[c].status) else NotFound;
    }

    /**
     * One selection. `next` is what resolving the answer leads to; None stands for an error after
     * the claim, which undoes the claim.
     */
    method Select(c: Id, now: int, wellFormed: bool, optionMatches: bool, next: Option<Continuation>) returns (reply: Reply)
      requires DbOk(Contents()) && (next.Some? ==> Fresh(Contents(), next.value))
      modifies this
      ensures DbOk(Contents())
      ensures Contents() == ClarificationAlone.SelectOutcome(old(Contents()), c, now, ClarificationAlone.Answer(wellFormed, optionMatches, next))
      ensures reply == NotFound <==> c !in old(rows)
      ensures forall status :: reply == AlreadyDecided(status) <==> c in old(rows) && old(rows)[c].status == status && status != Pending
      ensures reply.Terminalized? <==> IsPending(old(Contents()), c) && (old(rows)[c].expiresAt <= now || !wellFormed)
      ensures reply == InvalidOption <==>
        IsPending(old(Contents()), c) && now < old(rows)[c].expiresAt && wellFormed && !optionMatches
      ensures reply == ContinuationFailed <==>
        IsPending(old(Contents()), c) && now < old(rows)[c].expiresAt && wellFormed && optionMatches && next.None?
      ensures forall k :: reply == Continued(k) <==>
        IsPending(old(Contents()), c) && now < old(rows)[c].expiresAt && wellFormed && optionMatches && next == Some(k)
    {
      if c !in rows {
        return NotFound;
      }
      var request := rows[c];
      if request.status != Pending {
        return AlreadyDecided(request.status);
      }
      if request.expiresAt <= now || !wellFormed {
        reply := Terminalize(c);
        return;
      }
      if !optionMatches {
        return InvalidOption;
      }
      ghost var was := Contents();
      assert RowOk(was, c);
      var before := rows;
      var claimed := ClaimPending(c, Consumed, Some(now));
      if next.None? {
        rows := before;
        return ContinuationFailed;
      }
      ContinueKeepsDb(was, c, now, now, next.value);
      match next.value {
        case Child(k) => rows := rows[k := Row(Pending, now + CLARIFICATION_TTL_MS, None, Some(c))];
        case Draft(d) => drafts := drafts[d := c];
        case NoCategoryTurn =>
      }
      continued := continued[c := next.value];
      return Continued(next.value);
    }

    /** Cancelling again is a success without effect. */
    method CancelRequest(c: Id, now: int) returns (reply: Reply)
      requires DbOk(Contents())
      modifies this`rows
      ensures DbOk(Contents())
      ensures Contents() == ClarificationAlone.CancelOutcome(old(Contents()), c, now)
      ensures reply == NotFound <==> c !in old(rows)
      ensures reply == CancelDone <==>
        c in old(rows) && (old(rows)[c].status == Cancelled || (old(rows)[c].status == Pending && now < old(rows)[c].expiresAt))
      ensures forall status :: reply == AlreadyDecided(status) <==>
        c in old(rows) && old(rows)[c].status == status && status != Pending && status != Cancelled
      ensures reply.Terminalized? <==> IsPending(old(Contents()), c) && old(rows)[c].expiresAt <= now
    {
      if c !in rows {
        return NotFound;
      }
      var request := rows[c];
      if request.status == Cancelled {
        return CancelDone;
      }
      if request.status != Pending {
        return AlreadyDecided(request.status);
      }
      if request.expiresAt <= now {
        reply := Terminalize(c);
        return;
      }
      assert RowOk(Contents(), c);
      var claimed := ClaimPending(c, Cancelled, None);
      return CancelDone;
    }
  }
}
