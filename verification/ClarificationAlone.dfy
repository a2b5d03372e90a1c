/**
 * A selection or a cancellation that nothing interrupts: its steps, taken one after the other,
 * leave exactly the tables that one call leaves.
 */
module ClarificationAlone {
  import opened Common
  import opened Runs
  import opened ClarificationRace

  // ---------------------------------------------------------------- the outcome

  /** What a caller brings: what the stored request and its options turn out to be, and what comes next. */
  datatype Answer = Answer(wellFormed: bool, optionMatches: bool, next: Option<Continuation>)

  predicate IsExpired(db: Db, c: Id, now: int) {
    c in db.rows && db.rows[c].expiresAt <= now
  }

  function WithStatus(db: Db, c: Id, status: Status): Db
    requires c in db.rows
  {
    db.(rows := db.rows[c := db.rows[c].(status := status)])
  }

  /** The row is consumed now, and a child question is asked that expires a quarter of an hour later. */
  function Consume(db: Db, c: Id, now: int, next: Continuation): Db
    requires c in db.rows
  {
    var consumed := db.rows[c := db.rows[c].(status := Consumed, consumedAt := Some(now))];
    Db(if next.Child? then consumed[next.row := Row(Pending, now + 15 * 60 * 1000, None, Some(c))] else consumed,
       if next.Draft? then db.drafts[next.draft := c] else db.drafts,
       db.continued[c := next])
  }

  /** A pending row goes stale when it has expired or is damaged; an answer it offers consumes it. */
  function SelectOutcome(db: Db, c: Id, now: int, a: Answer): Db {
    if !IsPending(db, c) then db
    else if IsExpired(db, c, now) || !a.wellFormed then WithStatus(db, c, Stale)
    else if a.optionMatches && a.next.Some? then Consume(db, c, now, a.next.value)
    else db
  }

  function CancelOutcome(db: Db, c: Id, now: int): Db {
    if !IsPending(db, c) then db
    else WithStatus(db, c, if IsExpired(db, c, now) then Stale else Cancelled)
  }

  function Outcome(db: Db, q: Process, now: int, a: Answer): Db {
    if q.intent.Select? then SelectOutcome(db, q.row, now, a) else CancelOutcome(db, q.row, now)
  }

  // ---------------------------------------------------------------- one process, step after step

  predicate CanCommit(y: System, a: Answer) {
    a.next.Some? ==> Fresh(y.db, a.next.value)
  }

  function OwnMove(q: Process, p: Id, a: Answer): Move {
    match q.phase
    case Started => ReadRow(p, a.wellFormed, a.optionMatches)
    case Read(_) => ReadClock(p)
    case Terminalizing => Terminalize(p)
    case Claiming(_) => if q.intent.Select? then ClaimSelect(p) else ClaimCancel(p)
    case Holding(_) => if a.next.Some? then CommitContinuation(p, a.next.value) else Abort(p)
  }

  function Rank(y: System, p: Id): nat {
    if p !in y.procs then 0
    else
      match y.procs[p].phase
      case Started => 4
      case Read(_) => 3
      case Claiming(_) => 2
      case _ => 1
  }

  /** Nobody but `p` holds the row of `p`. */
  predicate Undisturbed(y: System, p: Id) {
    p in y.procs ==> forall q :: q in y.procs && q != p && y.procs[q].row == y.procs[p].row ==> !y.procs[q].phase.Holding?
  }

  lemma OwnMoveGoesOn(y: System, p: Id, a: Answer)
    requires p in y.procs && Undisturbed(y, p) && CanCommit(y, a)
    ensures Enabled(y, OwnMove(y.procs[p], p, a))
    ensures var y' := Next(y, OwnMove(y.procs[p], p, a));
      Rank(y', p) < Rank(y, p) && Undisturbed(y', p) && (p in y'.procs ==> CanCommit(y', a))
  {
  }

  /** The process runs on until it is over. */
  function Finish(y: System, p: Id, a: Answer): System
    requires Undisturbed(y, p) && (p in y.procs ==> CanCommit(y, a))
    decreases Rank(y, p)
  {
    if p !in y.procs then y
    else
      OwnMoveGoesOn(y, p, a);
      Finish(Next(y, OwnMove(y.procs[p], p, a)), p, a)
  }

  /** It is a run of the step system. */
  lemma {:induction false} FinishIsRun(y: System, p: Id, a: Answer)
    requires p in y.procs && Undisturbed(y, p) && CanCommit(y, a)
    ensures Reaches(Takes, y, Finish(y, p, a)) && p !in Finish(y, p, a).procs
    decreases Rank(y, p)
  {
    OwnMoveGoesOn(y, p, a);
    var m := OwnMove(y.procs[p], p, a);
    ReachesByStep(Takes, y, m, Next(y, m));
    assert Finish(y, p, a) == Finish(Next(y, m), p, a);
    if p in Next(y, m).procs {
      FinishIsRun(Next(y, m), p, a);
      ReachesOn(Takes, y, Next(y, m), Finish(Next(y, m), p, a));
    } else {
      assert Finish(Next(y, m), p, a) == Next(y, m);
    }
  }

  ghost function Left(y: System, p: Id): map<Id, Process> {
    y.procs - {p}
  }

  lemma HoldingAlone(y: System, p: Id, a: Answer)
    requires p in y.procs && y.procs[p].phase == Holding(y.now) && Undisturbed(y, p) && CanCommit(y, a)
    requires IsPending(y.db, y.procs[p].row)
    ensures Finish(y, p, a).procs == Left(y, p)
    ensures Finish(y, p, a).db == if a.next.Some? then Consume(y.db, y.procs[p].row, y.now, a.next.value) else y.db
  {
    var y1 := Next(y, OwnMove(y.procs[p], p, a));
    assert Finish(y, p, a) == Finish(y1, p, a) == y1;
  }

  lemma ClaimingAlone(y: System, p: Id, a: Answer)
    requires p in y.procs && y.procs[p].phase == Claiming(y.now) && Undisturbed(y, p) && CanCommit(y, a)
    requires var q := y.procs[p];
      IsPending(y.db, q.row) && !IsExpired(y.db, q.row, y.now) && (q.intent.Select? ==> a.wellFormed && a.optionMatches)
    ensures Finish(y, p, a).procs == Left(y, p) && Finish(y, p, a).db == Outcome(y.db, y.procs[p], y.now, a)
  {
    OwnMoveGoesOn(y, p, a);
    var y1 := Next(y, OwnMove(y.procs[p], p, a));
    assert Finish(y, p, a) == Finish(y1, p, a);
    if y.procs[p].intent.Select? {
      HoldingAlone(y1, p, a);
      assert Left(y1, p) == Left(y, p);
    } else {
      assert Finish(y1, p, a) == y1;
    }
  }

  lemma TerminalizingAlone(y: System, p: Id, a: Answer)
    requires p in y.procs && y.procs[p].phase == Terminalizing && Undisturbed(y, p) && CanCommit(y, a)
    requires IsPending(y.db, y.procs[p].row)
    ensures Finish(y, p, a).procs == Left(y, p) && Finish(y, p, a).db == WithStatus(y.db, y.procs[p].row, Stale)
  {
    OwnMoveGoesOn(y, p, a);
    assert Finish(Next(y, Terminalize(p)), p, a) == Next(y, Terminalize(p));
  }

  lemma ReadAlone(y: System, p: Id, a: Answer)
    requires p in y.procs && Undisturbed(y, p) && CanCommit(y, a) && IsPending(y.db, y.procs[p].row)
    requires y.procs[p].phase == Read(Seen(y.db.rows[y.procs[p].row].expiresAt, a.wellFormed, a.optionMatches))
    ensures Finish(y, p, a).procs == Left(y, p) && Finish(y, p, a).db == Outcome(y.db, y.procs[p], y.now, a)
  {
    OwnMoveGoesOn(y, p, a);
    var y1 := Next(y, ReadClock(p));
    assert Finish(y, p, a) == Finish(y1, p, a);
    assert Left(y1, p) == Left(y, p);
    if p !in y1.procs {
      assert Finish(y1, p, a) == y1;
    } else if y1.procs[p].phase.Terminalizing? {
      TerminalizingAlone(y1, p, a);
    } else {
      ClaimingAlone(y1, p, a);
    }
  }

  /** A call that starts while nobody holds the row and runs through leaves the call's outcome. */
  lemma CallAlone(y: System, p: Id, c: Id, intent: Intent, a: Answer)
    requires p !in y.procs && !RowLocked(y, c) && CanCommit(y, a)
    ensures var y1 := Next(y, Start(p, c, intent));
      && Undisturbed(y1, p)
      && Finish(y1, p, a).procs == y.procs
      && Finish(y1, p, a).db == if intent.Select? then SelectOutcome(y.db, c, y.now, a) else CancelOutcome(y.db, c, y.now)
  {
    var y1 := Next(y, Start(p, c, intent));
    assert Left(y1, p) == y.procs;
    OwnMoveGoesOn(y1, p, a);
    var y2 := Next(y1, ReadRow(p, a.wellFormed, a.optionMatches));
    assert Finish(y1, p, a) == Finish(y2, p, a);
    assert Left(y2, p) == y.procs;
    if IsPending(y.db, c) {
      ReadAlone(y2, p, a);
    } else {
      assert Finish(y2, p, a) == y2;
    }
  }
}
