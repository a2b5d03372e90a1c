/**
 * One worker on one job, with nothing in between: from its claim to its last statement it leaves
 * exactly what the request, the operation record and the token it finds call for.
 */
module InboundAlone {
  import opened Common
  import opened Runs
  import opened InboundJobs

  /** What comes back from an outside call that may throw. */
  datatype Answer = Answer(outcome: string, text: string) | Thrown

  /** Everything a worker is told from outside; an action that throws is answered by the rejection. */
  datatype Script = Script(
    direct: Option<string>, assistant: Answer, retry: bool, owned: bool, able: bool, action: Answer,
    rejectedAs: string, rejection: string)

  // ---------------------------------------------------------------- the outcome

  predicate HasAnswer(op: Operation) {
    op.outcome.Some? && op.outcome.value != "" && op.renderedText.Some? && op.renderedText.value != ""
  }

  /** A job has its effect still to do unless it has a direct reply or an operation record. */
  predicate MustAct(db: Db, j: Id, s: Script) {
    s.direct.None? && j !in db.operations
  }

  /** It succeeds with a direct reply, with a new answer, or with the answer on record. */
  function MessageStatus(db: Db, j: Id, s: Script): JobStatus {
    if s.direct.Some? then Succeeded
    else if j in db.operations then (if HasAnswer(db.operations[j]) then Succeeded else FailedTerminal)
    else if s.assistant.Answer? then Succeeded
    else if s.retry then FailedRetryable
    else FailedTerminal
  }

  function EndedAs(db: Db, j: Id, status: JobStatus): Db {
    db.(jobs := if j in db.jobs then db.jobs[j := db.jobs[j].(status := status)] else db.jobs,
        deliveries := if status == Succeeded then db.deliveries + {j} else db.deliveries)
  }

  function MessageOutcome(db: Db, j: Id, s: Script): Db {
    var record := if s.assistant.Answer? then Operation(Some(s.assistant.outcome), Some(s.assistant.text)) else Operation(None, None);
    EndedAs(db.(operations := if MustAct(db, j, s) then db.operations[j := record] else db.operations), j, MessageStatus(db, j, s))
  }

  predicate IsOpen(db: Db, t: Id) {
    t in db.tokens && db.tokens[t].status == TokenPending
  }

  /** A callback acts exactly on an open, unexpired token of its own that still carries what it needs. */
  predicate MayAct(db: Db, t: Id, now: int, s: Script) {
    IsOpen(db, t) && now < db.tokens[t].expiresAt && s.owned && s.able
  }

  /** An open token expires when it is late and is consumed by its owner, able to act or not. */
  function TokensAfter(tokens: map<Id, Token>, t: Id, now: int, s: Script): map<Id, Token> {
    if !(t in tokens && tokens[t].status == TokenPending) then tokens
    else if tokens[t].expiresAt <= now then tokens[t := tokens[t].(status := TokenExpired)]
    else if s.owned then tokens[t := tokens[t].(status := Consumed)]
    else tokens
  }

  function CallbackAnswer(db: Db, t: Id, now: int, s: Script): Operation {
    if MayAct(db, t, now, s) && s.action.Answer? then Operation(Some(s.action.outcome), Some(s.action.text))
    else Operation(Some(s.rejectedAs), Some(s.rejection))
  }

  function CallbackOutcome(db: Db, j: Id, t: Id, now: int, s: Script): Db {
    if s.direct.Some? then EndedAs(db, j, Succeeded)
    else if j in db.operations then EndedAs(db, j, if HasAnswer(db.operations[j]) then Succeeded else FailedTerminal)
    else EndedAs(db.(operations := db.operations[j := CallbackAnswer(db, t, now, s)], tokens := TokensAfter(db.tokens, t, now, s)), j, Succeeded)
  }

  function ForMessage(direct: Option<string>, assistant: Answer, retry: bool): Script {
    Script(direct, assistant, retry, false, false, Thrown, "", "")
  }

  function ForCallback(owned: bool, able: bool, action: Answer, rejectedAs: string, rejection: string): Script {
    Script(None, Thrown, false, owned, able, action, rejectedAs, rejection)
  }

  // ---------------------------------------------------------------- one process, step after step

  function OwnMove(q: Process, p: Id, s: Script): Move {
    match q.phase
    case Started => if s.direct.Some? then ReplyDirectly(p, s.direct.value) else BeginOperation(p)
    case Conflicted => ReadOperation(p)
    case Inserted => if q.kind == Message then AskAssistant(p) else RunCallback(p)
    case Asked => if s.assistant.Answer? then AssistantAnswers(p, s.assistant.outcome, s.assistant.text) else Throw(p, s.retry)
    case TokenReading => ReadToken(p)
    case TokenSeen(_) => CheckToken(p, s.owned)
    case TokenExpiring => ExpireToken(p)
    case TokenClaiming => ClaimToken(p)
    case TokenClaimed => if s.able then Act(p) else Decline(p)
    case Acting => if s.action.Answer? then CallbackReturns(p, s.action.outcome, s.action.text) else CallbackReturns(p, s.rejectedAs, s.rejection)
    case Rejected => CallbackReturns(p, s.rejectedAs, s.rejection)
    case Completing(_, _) => CompleteOperation(p)
    case Delivering(_) => EnsureDelivery(p)
    case Finishing => MarkSucceeded(p)
    case Ambiguous => MarkAmbiguous(p)
    case Failing(_) => MarkFailed(p)
  }

  function PhaseRank(f: Phase): nat {
    match f
    case Started => 11
    case Conflicted => 10
    case Inserted => 10
    case Asked => 9
    case TokenReading => 9
    case TokenSeen(_) => 8
    case TokenExpiring => 7
    case TokenClaiming => 7
    case TokenClaimed => 6
    case Acting => 5
    case Rejected => 5
    case Completing(_, _) => 4
    case Delivering(_) => 3
    case Finishing => 2
    case Ambiguous => 2
    case Failing(_) => 1
  }

  function Rank(y: System, p: Id): nat {
    if p in y.procs then PhaseRank(y.procs[p].phase) else 0
  }

  /** The record is there once it has been inserted or found. */
  predicate Ready(y: System, p: Id, s: Script) {
    p in y.procs ==>
      var q := y.procs[p];
      && (4 <= PhaseRank(q.phase) <= 10 ==> q.job in y.db.operations)
      && (s.retry ==> q.attempt < y.maxAttempts)
  }

  /** Phases spent on the callback's token. */
  predicate OnToken(f: Phase) {
    f.TokenReading? || f.TokenSeen? || f.TokenExpiring? || f.TokenClaiming? || f.TokenClaimed? || f.Acting? || f.Rejected?
  }

  lemma OwnMoveOnToken(y: System, p: Id, s: Script)
    requires p in y.procs && Ready(y, p, s) && OnToken(y.procs[p].phase)
    ensures Enabled(y, OwnMove(y.procs[p], p, s))
    ensures var y' := Next(y, OwnMove(y.procs[p], p, s)); Rank(y', p) < Rank(y, p) && Ready(y', p, s)
  {
  }

  /** Phases after the answer, or in its place. */
  predicate Closing(f: Phase) {
    PhaseRank(f) <= 4
  }

  lemma OwnMoveClosing(y: System, p: Id, s: Script)
    requires p in y.procs && Ready(y, p, s) && Closing(y.procs[p].phase)
    ensures Enabled(y, OwnMove(y.procs[p], p, s))
    ensures var y' := Next(y, OwnMove(y.procs[p], p, s)); Rank(y', p) < Rank(y, p) && Ready(y', p, s)
  {
  }

  lemma OwnMoveOpening(y: System, p: Id, s: Script)
    requires p in y.procs && Ready(y, p, s) && !OnToken(y.procs[p].phase) && !Closing(y.procs[p].phase)
    ensures Enabled(y, OwnMove(y.procs[p], p, s))
    ensures var y' := Next(y, OwnMove(y.procs[p], p, s)); Rank(y', p) < Rank(y, p) && Ready(y', p, s)
  {
  }

  lemma OwnMoveGoesOn(y: System, p: Id, s: Script)
    requires p in y.procs && Ready(y, p, s)
    ensures Enabled(y, OwnMove(y.procs[p], p, s))
    ensures var y' := Next(y, OwnMove(y.procs[p], p, s)); Rank(y', p) < Rank(y, p) && Ready(y', p, s)
  {
    if OnToken(y.procs[p].phase) {
      OwnMoveOnToken(y, p, s);
    } else if Closing(y.procs[p].phase) {
      OwnMoveClosing(y, p, s);
    } else {
      OwnMoveOpening(y, p, s);
    }
  }

  function OneOn(y: System, p: Id, s: Script): System
    requires p in y.procs && Ready(y, p, s)
  {
    OwnMoveGoesOn(y, p, s);
    Next(y, OwnMove(y.procs[p], p, s))
  }

  /** The worker goes on until it is done. */
  function Finish(y: System, p: Id, s: Script): System
    requires Ready(y, p, s)
    decreases Rank(y, p)
  {
    if p !in y.procs then y
    else
      OwnMoveGoesOn(y, p, s);
      Finish(OneOn(y, p, s), p, s)
  }

  /** A worker's statement is nobody else's. */
  lemma OthersStay(y: System, m: Move)
    requires Enabled(y, m) && HasActor(m) && !m.ClaimJob?
    ensures Next(y, m).procs - {m.p} == y.procs - {m.p}
  {
  }

  lemma OneStep(y: System, p: Id, s: Script) returns (y': System)
    requires p in y.procs && Ready(y, p, s)
    ensures y' == OneOn(y, p, s) && Ready(y', p, s) && Finish(y, p, s) == Finish(y', p, s) && Rank(y', p) < Rank(y, p)
    ensures y'.procs - {p} == y.procs - {p}
  {
    y' := OneOn(y, p, s);
    OwnMoveGoesOn(y, p, s);
    OthersStay(y, OwnMove(y.procs[p], p, s));
  }

  /** It is a run of the step system. */
  lemma {:induction false} FinishIsRun(y: System, p: Id, s: Script)
    requires p in y.procs && Ready(y, p, s)
    ensures Reaches(Takes, y, Finish(y, p, s)) && p !in Finish(y, p, s).procs
    decreases Rank(y, p)
  {
    var y' := OneStep(y, p, s);
    OwnMoveGoesOn(y, p, s);
    ReachesByStep(Takes, y, OwnMove(y.procs[p], p, s), y');
    if p in y'.procs {
      FinishIsRun(y', p, s);
      ReachesOn(Takes, y, y', Finish(y', p, s));
    } else {
      assert Finish(y', p, s) == y';
    }
  }

  lemma EndingAlone(y: System, p: Id, s: Script)
    requires p in y.procs && Ready(y, p, s) && PhaseRank(y.procs[p].phase) <= 2
    ensures var (z, q) := (Finish(y, p, s), y.procs[p]);
      && z.procs == y.procs - {p} && z.asked == y.asked && z.acted == y.acted
      && (q.phase.Ambiguous? ==> z.db == EndedAs(y.db, q.job, FailedTerminal))
      && (q.phase.Failing? ==> z.db == EndedAs(y.db, q.job, if q.phase.retry then FailedRetryable else FailedTerminal))
      && (q.phase.Finishing? && q.job in y.db.deliveries ==> z.db == EndedAs(y.db, q.job, Succeeded))
  {
    var y1 := OneStep(y, p, s);
    assert Finish(y1, p, s) == y1;
    assert y.procs[p].job in y.db.deliveries ==> y.db.deliveries + {y.procs[p].job} == y.db.deliveries;
  }

  lemma DeliveringAlone(y: System, p: Id, s: Script)
    requires p in y.procs && Ready(y, p, s) && y.procs[p].phase.Delivering?
    ensures var z := Finish(y, p, s);
      z.procs == y.procs - {p} && z.asked == y.asked && z.acted == y.acted && z.db == EndedAs(y.db, y.procs[p].job, Succeeded)
  {
    var y1 := OneStep(y, p, s);
    EndingAlone(y1, p, s);
    assert y1.db.deliveries + {y.procs[p].job} == y1.db.deliveries;
  }

  lemma CompletingAlone(y: System, p: Id, s: Script)
    requires p in y.procs && Ready(y, p, s) && y.procs[p].phase.Completing?
    ensures var (z, q) := (Finish(y, p, s), y.procs[p]);
      && z.procs == y.procs - {p} && z.asked == y.asked && z.acted == y.acted
      && z.db == EndedAs(y.db.(operations := y.db.operations[q.job := Operation(Some(q.phase.outcome), Some(q.phase.text))]), q.job, Succeeded)
  {
    var y1 := OneStep(y, p, s);
    DeliveringAlone(y1, p, s);
  }

  lemma ConflictedAlone(y: System, p: Id, s: Script)
    requires p in y.procs && Ready(y, p, s) && y.procs[p].phase.Conflicted?
    ensures var (z, j) := (Finish(y, p, s), y.procs[p].job);
      && z.procs == y.procs - {p} && z.asked == y.asked && z.acted == y.acted
      && z.db == EndedAs(y.db, j, if HasAnswer(y.db.operations[j]) then Succeeded else FailedTerminal)
  {
    var y1 := OneStep(y, p, s);
    if y1.procs[p].phase.Delivering? {
      DeliveringAlone(y1, p, s);
    } else {
      EndingAlone(y1, p, s);
    }
  }

  lemma AskingAlone(y: System, p: Id, s: Script)
    requires p in y.procs && Ready(y, p, s) && y.procs[p].phase.Inserted? && y.procs[p].kind == Message
    requires y.db.operations[y.procs[p].job] == Operation(None, None)
    ensures var (z, j) := (Finish(y, p, s), y.procs[p].job);
      && z.procs == y.procs - {p} && z.asked == y.asked + [j] && z.acted == y.acted
      && z.db == (if s.assistant.Answer?
                  then EndedAs(y.db.(operations := y.db.operations[j := Operation(Some(s.assistant.outcome), Some(s.assistant.text))]), j, Succeeded)
                  else EndedAs(y.db, j, if s.retry then FailedRetryable else FailedTerminal))
  {
    var y1 := OneStep(y, p, s);
    var y2 := OneStep(y1, p, s);
    if s.assistant.Answer? {
      CompletingAlone(y2, p, s);
    } else {
      EndingAlone(y2, p, s);
    }
  }

  /** A message job, from the claim on. */
  lemma MessageAlone(y: System, p: Id, s: Script)
    requires p in y.procs && Ready(y, p, s) && y.procs[p].phase.Started? && y.procs[p].kind == Message
    ensures var (z, j) := (Finish(y, p, s), y.procs[p].job);
      && z.procs == y.procs - {p} && z.acted == y.acted
      && z.asked == (if MustAct(y.db, j, s) then y.asked + [j] else y.asked)
      && z.db == MessageOutcome(y.db, j, s)
  {
    var j := y.procs[p].job;
    var y1 := OneStep(y, p, s);
    if s.direct.Some? {
      DeliveringAlone(y1, p, s);
    } else if j in y.db.operations {
      ConflictedAlone(y1, p, s);
    } else {
      AskingAlone(y1, p, s);
      assert y1.db.operations[j := Operation(None, None)] == y1.db.operations;
    }
  }

  lemma AnsweredAlone(y: System, p: Id, s: Script)
    requires p in y.procs && Ready(y, p, s) && (y.procs[p].phase.Rejected? || y.procs[p].phase.Acting?)
    ensures var (z, q) := (Finish(y, p, s), y.procs[p]);
      && z.procs == y.procs - {p} && z.asked == y.asked && z.acted == y.acted
      && z.db == EndedAs(y.db.(operations := y.db.operations[q.job :=
           if q.phase.Acting? && s.action.Answer? then Operation(Some(s.action.outcome), Some(s.action.text))
           else Operation(Some(s.rejectedAs), Some(s.rejection))]), q.job, Succeeded)
  {
    var y1 := OneStep(y, p, s);
    CompletingAlone(y1, p, s);
  }

  /** What is left to do once the token has been settled or refused. */
  ghost predicate Concluded(y: System, z: System, p: Id, s: Script, acts: bool, tokens: map<Id, Token>)
    requires p in y.procs
  {
    var q := y.procs[p];
    && z.procs == y.procs - {p} && z.asked == y.asked && z.acted == y.acted + (if acts then [q.token] else [])
    && z.db == EndedAs(y.db.(operations := y.db.operations[q.job :=
         if acts && s.action.Answer? then Operation(Some(s.action.outcome), Some(s.action.text))
         else Operation(Some(s.rejectedAs), Some(s.rejection))], tokens := tokens), q.job, Succeeded)
  }

  lemma ClaimingAlone(y: System, p: Id, s: Script)
    requires p in y.procs && Ready(y, p, s) && y.procs[p].phase.TokenClaiming? && IsOpen(y.db, y.procs[p].token)
    ensures var t := y.procs[p].token;
      Concluded(y, Finish(y, p, s), p, s, s.able, y.db.tokens[t := y.db.tokens[t].(status := Consumed)])
  {
    var t := y.procs[p].token;
    assert y.db.tokens[t := y.db.tokens[t].(status := Consumed)][t] != y.db.tokens[t];
    var y1 := OneStep(y, p, s);
    var y2 := OneStep(y1, p, s);
    AnsweredAlone(y2, p, s);
  }

  lemma ExpiringAlone(y: System, p: Id, s: Script)
    requires p in y.procs && Ready(y, p, s) && y.procs[p].phase.TokenExpiring? && IsOpen(y.db, y.procs[p].token)
    ensures var t := y.procs[p].token;
      Concluded(y, Finish(y, p, s), p, s, false, y.db.tokens[t := y.db.tokens[t].(status := TokenExpired)])
  {
    var y1 := OneStep(y, p, s);
    AnsweredAlone(y1, p, s);
  }

  lemma TokenSeenAlone(y: System, p: Id, s: Script)
    requires p in y.procs && Ready(y, p, s) && IsOpen(y.db, y.procs[p].token)
    requires y.procs[p].phase == TokenSeen(y.db.tokens[y.procs[p].token].expiresAt)
    ensures var t := y.procs[p].token;
      Concluded(y, Finish(y, p, s), p, s, MayAct(y.db, t, y.now, s), TokensAfter(y.db.tokens, t, y.now, s))
  {
    var y1 := OneStep(y, p, s);
    if y1.procs[p].phase.TokenExpiring? {
      ExpiringAlone(y1, p, s);
    } else if y1.procs[p].phase.TokenClaiming? {
      ClaimingAlone(y1, p, s);
    } else {
      AnsweredAlone(y1, p, s);
    }
  }

  lemma RunningAlone(y: System, p: Id, s: Script)
    requires p in y.procs && Ready(y, p, s) && y.procs[p].phase.Inserted? && y.procs[p].kind == Callback
    ensures var t := y.procs[p].token;
      Concluded(y, Finish(y, p, s), p, s, MayAct(y.db, t, y.now, s), TokensAfter(y.db.tokens, t, y.now, s))
  {
    var y1 := OneStep(y, p, s);
    var y2 := OneStep(y1, p, s);
    if y2.procs[p].phase.TokenSeen? {
      TokenSeenAlone(y2, p, s);
    } else {
      AnsweredAlone(y2, p, s);
    }
  }

  /** A callback job, from the claim on. */
  lemma CallbackAlone(y: System, p: Id, s: Script)
    requires p in y.procs && Ready(y, p, s) && y.procs[p].phase.Started? && y.procs[p].kind == Callback
    ensures var (z, q) := (Finish(y, p, s), y.procs[p]);
      && z.procs == y.procs - {p} && z.asked == y.asked
      && z.acted == y.acted + (if MustAct(y.db, q.job, s) && MayAct(y.db, q.token, y.now, s) then [q.token] else [])
      && z.db == CallbackOutcome(y.db, q.job, q.token, y.now, s)
  {
    var q := y.procs[p];
    var y1 := OneStep(y, p, s);
    if s.direct.Some? {
      DeliveringAlone(y1, p, s);
    } else if q.job in y.db.operations {
      ConflictedAlone(y1, p, s);
    } else {
      RunningAlone(y1, p, s);
      CallbackRecord(y, y1, q, s);
    }
  }

  lemma CallbackRecord(y: System, y1: System, q: Process, s: Script)
    requires q.job !in y.db.operations && y1.now == y.now
    requires y1.db == y.db.(operations := y.db.operations[q.job := Operation(None, None)])
    ensures MayAct(y1.db, q.token, y1.now, s) == MayAct(y.db, q.token, y.now, s)
    ensures y1.db.operations[q.job := CallbackAnswer(y1.db, q.token, y1.now, s)]
            == y.db.operations[q.job := CallbackAnswer(y.db, q.token, y.now, s)]
  {
  }
}
