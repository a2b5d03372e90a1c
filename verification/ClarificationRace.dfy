/**
 * Concurrent answers to one clarification.
 *
 * A caller reads the row without a lock, reads the database clock, and then claims the row with
 * one conditional update. A selection claims inside a transaction that also stores what comes
 * next, so it keeps the row locked until that commits or fails; a cancellation and a
 * terminalization are single statements. Every conditional update waits for the row lock.
 */
module ClarificationRace {
  import opened Common
  import opened Runs

  const CLARIFICATION_TTL_MS := 900_000

  datatype Status = Pending | Consumed | Cancelled | Stale

  /** `origin` is the clarification whose answer asked this one, if any. */
  datatype Row = Row(status: Status, expiresAt: int, consumedAt: Option<int>, origin: Option<Id>)

  /** What a selection stores next: a further question, a draft, or the turn that ends the chain. */
  datatype Continuation = Child(row: Id) | Draft(draft: Id) | NoCategoryTurn

  /** `drafts` maps a draft to the clarification whose answer made it. */
  datatype Db = Db(rows: map<Id, Row>, drafts: map<Id, Id>, continued: map<Id, Continuation>)

  datatype Intent = Select | Cancel

  /** What the plain read told the caller apart from the status: all of it is immutable. */
  datatype Seen = Seen(expiresAt: int, wellFormed: bool, optionMatches: bool)

  datatype Phase =
    | Started
    | Read(seen: Seen)
    | Terminalizing
    | Claiming(now: int)
    | Holding(now: int)

  datatype Process = Process(row: Id, intent: Intent, phase: Phase)

  /** `winners` lists every decision made about a row, in order. */
  datatype System = System(db: Db, now: int, procs: map<Id, Process>, winners: seq<Id>)

  datatype Move =
    | Tick(ms: nat)
    | Ask(c: Id)
    | Start(p: Id, c: Id, intent: Intent)
    | ReadRow(p: Id, wellFormed: bool, optionMatches: bool)
    | ReadClock(p: Id)
    | Terminalize(p: Id)
    | ClaimCancel(p: Id)
    | ClaimSelect(p: Id)
    | CommitContinuation(p: Id, next: Continuation)
    | Abort(p: Id)

  // ---------------------------------------------------------------- steps

  predicate RowLocked(y: System, c: Id) {
    exists p :: p in y.procs && y.procs[p].row == c && y.procs[p].phase.Holding?
  }

  predicate IsPending(db: Db, c: Id) {
    c in db.rows && db.rows[c].status == Pending
  }

  predicate Fresh(db: Db, next: Continuation) {
    match next
    case Child(c) => c !in db.rows
    case Draft(d) => d !in db.drafts
    case NoCategoryTurn => true
  }

  predicate Enabled(y: System, m: Move) {
    match m
    case Tick(_) => true
    case Ask(c) => c !in y.db.rows
    case Start(p, _, _) => p !in y.procs
    case ReadRow(p, _, _) => p in y.procs && y.procs[p].phase.Started?
    case ReadClock(p) => p in y.procs && y.procs[p].phase.Read?
    case Terminalize(p) => p in y.procs && y.procs[p].phase.Terminalizing? && !RowLocked(y, y.procs[p].row)
    case ClaimCancel(p) => p in y.procs && y.procs[p].phase.Claiming? && y.procs[p].intent.Cancel? && !RowLocked(y, y.procs[p].row)
    case ClaimSelect(p) => p in y.procs && y.procs[p].phase.Claiming? && y.procs[p].intent.Select? && !RowLocked(y, y.procs[p].row)
    case CommitContinuation(p, next) => p in y.procs && y.procs[p].phase.Holding? && Fresh(y.db, next)
    case Abort(p) => p in y.procs
  }

  function Moved(y: System, p: Id, phase: Option<Phase>): System
    requires p in y.procs
  {
    match phase
    case None => y.(procs := y.procs - {p})
    case Some(f) => y.(procs := y.procs[p := y.procs[p].(phase := f)])
  }

  /** The conditional update: it decides a pending row and does nothing to any other. */
  function Decide(y: System, c: Id, status: Status): System {
    if !IsPending(y.db, c) then y
    else y.(db := y.db.(rows := y.db.rows[c := y.db.rows[c].(status := status)]), winners := y.winners + [c])
  }

  function AfterReadClock(q: Process, now: int): Option<Phase>
    requires q.phase.Read?
  {
    var seen := q.phase.seen;
    if seen.expiresAt <= now then Some(Terminalizing)
    else if q.intent.Select? && !seen.wellFormed then Some(Terminalizing)
    else if q.intent.Select? && !seen.optionMatches then None
    else Some(Claiming(now))
  }

  /** The claim and everything it unlocks, in one commit. */
  function Continue(db: Db, c: Id, consumedAt: int, now: int, next: Continuation): Db
    requires c in db.rows
  {
    var rows := db.rows[c := db.rows[c].(status := Consumed, consumedAt := Some(consumedAt))];
    var db' := db.(rows := rows, continued := db.continued[c := next]);
    match next
    case Child(k) => db'.(rows := rows[k := Row(Pending, now + CLARIFICATION_TTL_MS, None, Some(c))])
    case Draft(d) => db'.(drafts := db.drafts[d := c])
    case NoCategoryTurn => db'
  }

  function Next(y: System, m: Move): System
    requires Enabled(y, m)
  {
    match m
    case Tick(ms) => y.(now := y.now + ms)
    case Ask(c) => y.(db := y.db.(rows := y.db.rows[c := Row(Pending, y.now + CLARIFICATION_TTL_MS, None, None)]))
    case Start(p, c, intent) => y.(procs := y.procs[p := Process(c, intent, Started)])
    case ReadRow(p, wellFormed, optionMatches) =>
      var c := y.procs[p].row;
      Moved(y, p, if IsPending(y.db, c) then Some(Read(Seen(y.db.rows[c].expiresAt, wellFormed, optionMatches))) else None)
    case ReadClock(p) => Moved(y, p, AfterReadClock(y.procs[p], y.now))
    case Terminalize(p) => Decide(Moved(y, p, None), y.procs[p].row, Stale)
    case ClaimCancel(p) => Decide(Moved(y, p, None), y.procs[p].row, Cancelled)
    case ClaimSelect(p) =>
      Moved(y, p, if IsPending(y.db, y.procs[p].row) then Some(Holding(y.procs[p].phase.now)) else None)
    case CommitContinuation(p, next) =>
      var q := y.procs[p];
      if q.row !in y.db.rows then Moved(y, p, None)
      else Moved(y, p, None).(db := Continue(y.db, q.row, q.phase.now, y.now, next), winners := y.winners + [q.row])
    case Abort(p) => Moved(y, p, None)
  }

  ghost predicate Takes(y: System, m: Move, y': System) {
    Enabled(y, m) && y' == Next(y, m)
  }

  predicate Starts(y: System) {
    y.db == Db(map[], map[], map[]) && y.procs == map[] && y.winners == []
  }

  // ---------------------------------------------------------------- the invariant

  ghost predicate ProcOk(db: Db, q: Process) {
    match q.phase
    case Started => true
    case Read(seen) => q.row in db.rows && seen.expiresAt == db.rows[q.row].expiresAt
    case Terminalizing => true
    case Claiming(now) => q.row in db.rows && now < db.rows[q.row].expiresAt
    case Holding(now) => IsPending(db, q.row) && now < db.rows[q.row].expiresAt
  }

  ghost predicate ProcsOk(y: System) {
    && (forall p :: p in y.procs ==> ProcOk(y.db, y.procs[p]))
    && (forall p, q :: p in y.procs && q in y.procs && p != q && y.procs[p].phase.Holding? && y.procs[q].phase.Holding? ==>
          y.procs[p].row != y.procs[q].row)
  }

  predicate RowOk(db: Db, c: Id)
    requires c in db.rows
  {
    var row := db.rows[c];
    && (row.status == Consumed <==> c in db.continued)
    && (row.consumedAt.Some? <==> row.status == Consumed)
    && (row.consumedAt.Some? ==> row.consumedAt.value < row.expiresAt)
  }

  /** A continuation is stored where it says, and nothing else claims to continue its clarification. */
  predicate ContinuationOk(db: Db, c: Id)
    requires c in db.continued
  {
    match db.continued[c]
    case Child(k) => k in db.rows && db.rows[k].origin == Some(c)
    case Draft(d) => d in db.drafts && db.drafts[d] == c
    case NoCategoryTurn => true
  }

  ghost predicate DbOk(db: Db) {
    && (forall c :: c in db.rows ==> RowOk(db, c))
    && (forall c :: c in db.continued ==> c in db.rows && ContinuationOk(db, c))
    && (forall d :: d in db.drafts ==> db.drafts[d] in db.continued && db.continued[db.drafts[d]] == Draft(d))
    && (forall k :: k in db.rows && db.rows[k].origin.Some? ==>
          db.rows[k].origin.value in db.continued && db.continued[db.rows[k].origin.value] == Child(k))
  }

  ghost predicate WinnersOk(y: System) {
    && (forall c :: c in y.winners <==> c in y.db.rows && y.db.rows[c].status != Pending)
    && (forall i, j :: 0 <= i < j < |y.winners| ==> y.winners[i] != y.winners[j])
  }

  ghost predicate Inv(y: System) {
    ProcsOk(y) && DbOk(y.db) && WinnersOk(y)
  }

  lemma MovedKeepsInv(y: System, p: Id, phase: Option<Phase>)
    requires Inv(y) && p in y.procs
    requires phase.Some? ==> ProcOk(y.db, y.procs[p].(phase := phase.value))
    requires phase.Some? && phase.value.Holding? ==> !RowLocked(y, y.procs[p].row)
    ensures Inv(Moved(y, p, phase))
  {
  }

  lemma AskKeepsInv(y: System, c: Id)
    requires Inv(y) && c !in y.db.rows
    ensures Inv(Next(y, Ask(c)))
  {
  }

  lemma DecideKeepsInv(y: System, c: Id, status: Status)
    requires Inv(y) && !RowLocked(y, c) && (status == Stale || status == Cancelled)
    ensures Inv(Decide(y, c, status))
  {
  }

  lemma ContinueKeepsDb(db: Db, c: Id, consumedAt: int, now: int, next: Continuation)
    requires DbOk(db) && IsPending(db, c) && Fresh(db, next) && consumedAt < db.rows[c].expiresAt
    ensures DbOk(Continue(db, c, consumedAt, now, next))
  {
  }

  lemma CommitKeepsInv(y: System, p: Id, next: Continuation)
    requires Inv(y) && Enabled(y, CommitContinuation(p, next))
    ensures Inv(Next(y, CommitContinuation(p, next)))
  {
    var q := y.procs[p];
    ContinueKeepsDb(y.db, q.row, q.phase.now, y.now, next);
  }

  lemma NextKeepsInv(y: System, m: Move)
    requires Inv(y) && Enabled(y, m)
    ensures Inv(Next(y, m))
  {
    match m
    case Tick(_) =>
    case Ask(c) => AskKeepsInv(y, c);
    case Start(_, _, _) =>
    case ReadRow(p, wellFormed, optionMatches) =>
      var c := y.procs[p].row;
      MovedKeepsInv(y, p, if IsPending(y.db, c) then Some(Read(Seen(y.db.rows[c].expiresAt, wellFormed, optionMatches))) else None);
    case ReadClock(p) => MovedKeepsInv(y, p, AfterReadClock(y.procs[p], y.now));
    case Terminalize(p) =>
      MovedKeepsInv(y, p, None);
      DecideKeepsInv(Moved(y, p, None), y.procs[p].row, Stale);
    case ClaimCancel(p) =>
      MovedKeepsInv(y, p, None);
      DecideKeepsInv(Moved(y, p, None), y.procs[p].row, Cancelled);
    case ClaimSelect(p) => MovedKeepsInv(y, p, if IsPending(y.db, y.procs[p].row) then Some(Holding(y.procs[p].phase.now)) else None);
    case CommitContinuation(p, next) => CommitKeepsInv(y, p, next);
    case Abort(p) => MovedKeepsInv(y, p, None);
  }

  // ---------------------------------------------------------------- whole runs

  lemma StepsPreserve()
    ensures Preserved(Takes, Inv)
  {
    forall y, m, y' | Inv(y) && Takes(y, m, y') ensures Inv(y') {
      NextKeepsInv(y, m);
    }
  }

  /**
   * For any number of concurrent selections, cancellations and expiries: a clarification is
   * decided at most once; it is consumed exactly when its continuation is stored, before it
   * expired; and every draft and every further question continues exactly one consumed row.
   */
  lemma OneDecisionWithItsContinuation(states: seq<System>, moves: seq<Move>, n: nat)
    requires IsRun(Takes, states, moves) && Starts(states[0]) && n <= |moves|
    ensures var y := states[n];
      && DbOk(y.db)
      && (forall i, j :: 0 <= i < j < |y.winners| ==> y.winners[i] != y.winners[j])
  {
    StepsPreserve();
    RunKeepsInv(Takes, Inv, states, moves, n);
  }

  /** A decided row never changes again, and neither does its continuation. */
  predicate Keeps(y: System, y': System) {
    && (forall c :: c in y.db.rows ==> c in y'.db.rows && (y.db.rows[c].status != Pending ==> y'.db.rows[c] == y.db.rows[c]))
    && (forall c :: c in y.db.continued ==> c in y'.db.continued && y'.db.continued[c] == y.db.continued[c])
  }

  lemma NextKeeps(y: System, m: Move)
    requires Inv(y) && Enabled(y, m)
    ensures Keeps(y, Next(y, m))
  {
    if m.CommitContinuation? {
      var q := y.procs[m.p];
      assert ProcOk(y.db, q) && RowOk(y.db, q.row);
    }
  }

  lemma DecisionsAreFinal(states: seq<System>, moves: seq<Move>, a: nat, b: nat)
    requires IsRun(Takes, states, moves) && Starts(states[0]) && a <= b <= |moves|
    ensures Keeps(states[a], states[b])
  {
    StepsPreserve();
    forall y, m, y' | Inv(y) && Takes(y, m, y') ensures Keeps(y, y') {
      NextKeeps(y, m);
    }
    RunRelates(Takes, Inv, Keeps, states, moves, a, b);
  }

  // ---------------------------------------------------------------- a selection that fails

  /** Nothing has been decided about a clarification. */
  predicate Undecided(y: System, c: Id) {
    IsPending(y.db, c) && c !in y.db.continued && c !in y.winners
  }

  lemma HolderIsUndecided(y: System, p: Id)
    requires Inv(y) && p in y.procs && y.procs[p].phase.Holding?
    ensures Undecided(y, y.procs[p].row)
  {
    assert ProcOk(y.db, y.procs[p]) && RowOk(y.db, y.procs[p].row);
  }

  /** Only its own claim lets a selection hold a row. */
  lemma HeldByClaim(y: System, m: Move, p: Id)
    requires Enabled(y, m) && p in Next(y, m).procs && Next(y, m).procs[p].phase.Holding?
    ensures (p in y.procs && y.procs[p] == Next(y, m).procs[p])
            || (m == ClaimSelect(p) && p in y.procs && y.procs[p].row == Next(y, m).procs[p].row && IsPending(y.db, y.procs[p].row))
  {
  }

  /** The row is undecided at every state from `k` to `n`. */
  ghost predicate UndecidedFrom(states: seq<System>, c: Id, k: nat, n: nat) {
    k <= n < |states| && forall x :: k <= x <= n ==> Undecided(states[x], c)
  }

  lemma {:induction false} UndecidedSinceClaim(states: seq<System>, moves: seq<Move>, n: nat, p: Id) returns (k: nat)
    requires IsRun(Takes, states, moves) && Starts(states[0]) && n <= |moves|
    requires p in states[n].procs && states[n].procs[p].phase.Holding?
    ensures k < n && moves[k] == ClaimSelect(p) && UndecidedFrom(states, states[n].procs[p].row, k, n)
  {
    var c := states[n].procs[p].row;
    StepsPreserve();
    RunKeepsInv(Takes, Inv, states, moves, n);
    HolderIsUndecided(states[n], p);
    if n == 0 {
      assert false;
    } else {
      assert Takes(states[n - 1], moves[n - 1], states[n]);
      HeldByClaim(states[n - 1], moves[n - 1], p);
      if p in states[n - 1].procs && states[n - 1].procs[p] == states[n].procs[p] {
        k := UndecidedSinceClaim(states, moves, n - 1, p);
      } else {
        k := n - 1;
        RunKeepsInv(Takes, Inv, states, moves, n - 1);
        assert RowOk(states[n - 1].db, c);
      }
    }
  }

  lemma AbortFrees(y: System, p: Id)
    requires Inv(y) && p in y.procs && y.procs[p].phase.Holding?
    ensures !RowLocked(Next(y, Abort(p)), y.procs[p].row)
  {
  }

  /**
   * In every run: when a selection that has claimed a row fails, nothing was decided about the row
   * from before its claim until after the failure, the tables are as they were, and the row is free.
   */
  lemma FailedContinuationLeavesNoTrace(states: seq<System>, moves: seq<Move>, n: nat, p: Id) returns (k: nat)
    requires IsRun(Takes, states, moves) && Starts(states[0]) && n < |moves|
    requires p in states[n].procs && states[n].procs[p].phase.Holding? && moves[n] == Abort(p)
    ensures var c := states[n].procs[p].row;
      && k < n && moves[k] == ClaimSelect(p) && UndecidedFrom(states, c, k, n + 1)
      && states[n + 1].db == states[n].db && !RowLocked(states[n + 1], c)
  {
    k := UndecidedSinceClaim(states, moves, n, p);
    StepsPreserve();
    RunKeepsInv(Takes, Inv, states, moves, n);
    assert Takes(states[n], moves[n], states[n + 1]);
    AbortFrees(states[n], p);
  }

  lemma Step(y: System, m: Move)
    requires Enabled(y, m)
    ensures Reaches(Takes, y, Next(y, m))
  {
    ReachesByStep(Takes, y, m, Next(y, m));
  }

  predicate ConsumedBy(db: Db, c: Id, next: Continuation) {
    c in db.rows && db.rows[c].status == Consumed && c in db.continued && db.continued[c] == next
  }

  lemma HolderConsumes(y: System, p: Id, next: Continuation)
    requires p in y.procs && y.procs[p].phase.Holding? && y.procs[p].row in y.db.rows && Fresh(y.db, next)
    ensures exists y' :: Reaches(Takes, y, y') && ConsumedBy(y'.db, y.procs[p].row, next)
  {
    Step(y, CommitContinuation(p, next));
    assert ConsumedBy(Next(y, CommitContinuation(p, next)).db, y.procs[p].row, next);
  }

  /** So a selection tried again before the expiry can still succeed, with any fresh continuation. */
  lemma RetryCanSucceed(y: System, p: Id, c: Id, next: Continuation)
    requires p !in y.procs && IsPending(y.db, c) && y.now < y.db.rows[c].expiresAt && !RowLocked(y, c) && Fresh(y.db, next)
    ensures exists y' :: Reaches(Takes, y, y') && ConsumedBy(y'.db, c, next)
  {
    var y1 := Next(y, Start(p, c, Select));
    Step(y, Start(p, c, Select));
    var y2 := Next(y1, ReadRow(p, true, true));
    Step(y1, ReadRow(p, true, true));
    ReachesOn(Takes, y, y1, y2);
    var y3 := Next(y2, ReadClock(p));
    Step(y2, ReadClock(p));
    ReachesOn(Takes, y, y2, y3);
    var y4 := Next(y3, ClaimSelect(p));
    Step(y3, ClaimSelect(p));
    ReachesOn(Takes, y, y3, y4);
    HolderConsumes(y4, p, next);
    var y5 :| Reaches(Takes, y4, y5) && ConsumedBy(y5.db, c, next);
    ReachesOn(Takes, y, y4, y5);
  }
}
