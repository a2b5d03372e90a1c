/**
 * Inbound channel jobs worked on by any number of workers.
 *
 * A claim gives a worker a job under a lease; everything after it is a sequence of separate
 * statements, any of which may be the worker's last. A worker whose lease has run out goes on
 * unaware, next to the worker that claimed the job again. The operation record of a job is
 * inserted before its one effect, so that whoever comes second can tell.
 */
module InboundJobs {
  import opened Common
  import opened Runs

  datatype JobStatus = Pending | Processing | Succeeded | FailedRetryable | FailedTerminal
  datatype Kind = Message | Callback

  datatype Job = Job(kind: Kind, token: Id, status: JobStatus, availableAt: int, leaseExpiresAt: int, attempt: nat)

  /** `outcome` is the turn id of a message, the terminal status of a callback. */
  datatype Operation = Operation(outcome: Option<string>, renderedText: Option<string>)

  datatype TokenStatus = TokenPending | Consumed | TokenExpired | Stale
  datatype Token = Token(status: TokenStatus, expiresAt: int)

  datatype Claim = Claim(job: Id, at: int, leaseExpiresAt: int)

  datatype Db = Db(jobs: map<Id, Job>, operations: map<Id, Operation>, deliveries: set<Id>, tokens: map<Id, Token>)

  datatype Phase =
    | Started
    | Conflicted
    | Inserted
    | Asked
    | TokenReading
    | TokenSeen(expiresAt: int)
    | TokenExpiring
    | TokenClaiming
    | TokenClaimed
    | Acting
    | Rejected
    | Completing(outcome: string, text: string)
    | Delivering(text: string)
    | Finishing
    | Ambiguous
    | Failing(retry: bool)

  /** `attempt` is the job's as this worker claimed it: it decides whether an error may be retried. */
  datatype Process = Process(job: Id, kind: Kind, token: Id, attempt: nat, phase: Phase)

  /** `asked`, `ran` and `acted` record effects on the outside: Assistant calls by job, callback
      runs by job, authoritative actions by token. */
  datatype System = System(
    db: Db, now: int, maxAttempts: nat, procs: map<Id, Process>, claims: seq<Claim>, asked: seq<Id>, ran: seq<Id>, acted: seq<Id>)

  datatype Move =
    | Tick(ms: nat)
    | Enqueue(job: Id, kind: Kind, token: Id, availableAt: int)
    | IssueToken(token: Id, expiresAt: int)
    | SpoilToken(token: Id, status: TokenStatus)
    | ClaimJob(p: Id, job: Id, leaseMs: nat)
    | ReplyDirectly(p: Id, text: string)
    | BeginOperation(p: Id)
    | ReadOperation(p: Id)
    | AskAssistant(p: Id)
    | AssistantAnswers(p: Id, turnId: string, text: string)
    | RunCallback(p: Id)
    | ReadToken(p: Id)
    | CheckToken(p: Id, owned: bool)
    | ExpireToken(p: Id)
    | ClaimToken(p: Id)
    | Act(p: Id)
    | Decline(p: Id)
    | CallbackReturns(p: Id, outcome: string, text: string)
    | CompleteOperation(p: Id)
    | EnsureDelivery(p: Id)
    | MarkSucceeded(p: Id)
    | MarkAmbiguous(p: Id)
    | Throw(p: Id, retry: bool)
    | MarkFailed(p: Id)
    | Crash(p: Id)

  // ---------------------------------------------------------------- steps

  predicate At(y: System, p: Id, phase: Phase) {
    p in y.procs && y.procs[p].phase == phase
  }

  predicate AtAs(y: System, p: Id, phase: Phase, kind: Kind) {
    At(y, p, phase) && y.procs[p].kind == kind
  }

  /** What the claim query selects; a lease counts only while the job is in processing. */
  predicate Claimable(job: Job, now: int) {
    || (job.status == Pending && job.availableAt <= now)
    || (job.status == Processing && job.leaseExpiresAt < now)
  }

  predicate Present(text: Option<string>) {
    text.Some? && text.value != ""
  }

  /**
   * Any statement may throw: the error is caught, its category and the attempt decide whether the job
   * is to be retried, and that is what will be marked. A read or an update of a missing operation
   * record has no other outcome.
   */
  predicate Enabled(y: System, m: Move) {
    match m
    case Tick(_) => true
    case Enqueue(j, _, _, _) => j !in y.db.jobs
    case IssueToken(t, _) => t !in y.db.tokens
    case SpoilToken(t, status) => t in y.db.tokens && (status == TokenExpired || status == Stale)
    case ClaimJob(p, j, _) => p !in y.procs && j in y.db.jobs && Claimable(y.db.jobs[j], y.now)
    case ReplyDirectly(p, _) => At(y, p, Started)
    case BeginOperation(p) => At(y, p, Started)
    case ReadOperation(p) => At(y, p, Conflicted) && y.procs[p].job in y.db.operations
    case AskAssistant(p) => AtAs(y, p, Inserted, Message)
    case AssistantAnswers(p, _, _) => At(y, p, Asked)
    case RunCallback(p) => AtAs(y, p, Inserted, Callback)
    case ReadToken(p) => At(y, p, TokenReading)
    case CheckToken(p, _) => p in y.procs && y.procs[p].phase.TokenSeen?
    case ExpireToken(p) => At(y, p, TokenExpiring)
    case ClaimToken(p) => At(y, p, TokenClaiming)
    case Act(p) => At(y, p, TokenClaimed)
    case Decline(p) => At(y, p, TokenClaimed)
    case CallbackReturns(p, _, _) => At(y, p, Rejected) || At(y, p, Acting)
    case CompleteOperation(p) => p in y.procs && y.procs[p].phase.Completing? && y.procs[p].job in y.db.operations
    case EnsureDelivery(p) => p in y.procs && y.procs[p].phase.Delivering?
    case MarkSucceeded(p) => At(y, p, Finishing)
    case MarkAmbiguous(p) => At(y, p, Ambiguous)
    case Throw(p, retry) => p in y.procs && !y.procs[p].phase.Failing? && (retry ==> y.procs[p].attempt < y.maxAttempts)
    case MarkFailed(p) => p in y.procs && y.procs[p].phase.Failing?
    case Crash(p) => p in y.procs
  }

  function Moved(y: System, p: Id, phase: Option<Phase>): System
    requires p in y.procs
  {
    match phase
    case None => y.(procs := y.procs - {p})
    case Some(f) => y.(procs := y.procs[p := y.procs[p].(phase := f)])
  }

  /** An update by id: it does not look at the row's state or lease. */
  function SetJobStatus(y: System, j: Id, status: JobStatus): System {
    if j in y.db.jobs then y.(db := y.db.(jobs := y.db.jobs[j := y.db.jobs[j].(status := status)])) else y
  }

  /** The conditional update every token change goes through: only a pending token changes. */
  function SettleToken(db: Db, t: Id, status: TokenStatus): Db {
    if t in db.tokens && db.tokens[t].status == TokenPending
    then db.(tokens := db.tokens[t := db.tokens[t].(status := status)]) else db
  }

  function FailedAs(retry: bool): JobStatus {
    if retry then FailedRetryable else FailedTerminal
  }

  function Next(y: System, m: Move): System
    requires Enabled(y, m)
  {
    match m
    case Tick(ms) => y.(now := y.now + ms)
    case Enqueue(j, kind, t, availableAt) =>
      y.(db := y.db.(jobs := y.db.jobs[j := Job(kind, t, Pending, availableAt, 0, 0)]))
    case IssueToken(t, expiresAt) => y.(db := y.db.(tokens := y.db.tokens[t := Token(TokenPending, expiresAt)]))
    case SpoilToken(t, status) => y.(db := SettleToken(y.db, t, status))
    case ClaimJob(p, j, leaseMs) =>
      var job := y.db.jobs[j];
      var claimed := job.(status := Processing, leaseExpiresAt := y.now + leaseMs, attempt := job.attempt + 1);
      y.(db := y.db.(jobs := y.db.jobs[j := claimed]),
         procs := y.procs[p := Process(j, job.kind, job.token, job.attempt + 1, Started)],
         claims := y.claims + [Claim(j, y.now, y.now + leaseMs)])
    case ReplyDirectly(p, text) => Moved(y, p, Some(Delivering(text)))
    case BeginOperation(p) =>
      var j := y.procs[p].job;
      if j in y.db.operations then Moved(y, p, Some(Conflicted))
      else Moved(y, p, Some(Inserted)).(db := y.db.(operations := y.db.operations[j := Operation(None, None)]))
    case ReadOperation(p) =>
      var existing := y.db.operations[y.procs[p].job];
      Moved(y, p, Some(if Present(existing.outcome) && Present(existing.renderedText)
                       then Delivering(existing.renderedText.value) else Ambiguous))
    case AskAssistant(p) => Moved(y, p, Some(Asked)).(asked := y.asked + [y.procs[p].job])
    case AssistantAnswers(p, turnId, text) => Moved(y, p, Some(Completing(turnId, text)))
    case RunCallback(p) => Moved(y, p, Some(TokenReading)).(ran := y.ran + [y.procs[p].job])
    case ReadToken(p) =>
      var t := y.procs[p].token;
      Moved(y, p, Some(if t in y.db.tokens && y.db.tokens[t].status == TokenPending
                       then TokenSeen(y.db.tokens[t].expiresAt) else Rejected))
    case CheckToken(p, owned) =>
      Moved(y, p, Some(if y.procs[p].phase.expiresAt <= y.now then TokenExpiring
                       else if owned then TokenClaiming else Rejected))
    case ExpireToken(p) => Moved(y, p, Some(Rejected)).(db := SettleToken(y.db, y.procs[p].token, TokenExpired))
    case ClaimToken(p) =>
      var t := y.procs[p].token;
      var db := SettleToken(y.db, t, Consumed);
      Moved(y, p, Some(if db != y.db then TokenClaimed else Rejected)).(db := db)
    case Act(p) => Moved(y, p, Some(Acting)).(acted := y.acted + [y.procs[p].token])
    case Decline(p) => Moved(y, p, Some(Rejected))
    case CallbackReturns(p, outcome, text) => Moved(y, p, Some(Completing(outcome, text)))
    case CompleteOperation(p) =>
      var (j, f) := (y.procs[p].job, y.procs[p].phase);
      Moved(y, p, Some(Delivering(f.text))).(
        db := y.db.(operations := y.db.operations[j := Operation(Some(f.outcome), Some(f.text))]))
    case EnsureDelivery(p) => Moved(y, p, Some(Finishing)).(db := y.db.(deliveries := y.db.deliveries + {y.procs[p].job}))
    case MarkSucceeded(p) => SetJobStatus(Moved(y, p, None), y.procs[p].job, Succeeded)
    case MarkAmbiguous(p) => SetJobStatus(Moved(y, p, None), y.procs[p].job, FailedTerminal)
    case Throw(p, retry) => Moved(y, p, Some(Failing(retry)))
    case MarkFailed(p) => SetJobStatus(Moved(y, p, None), y.procs[p].job, FailedAs(y.procs[p].phase.retry))
    case Crash(p) => Moved(y, p, None)
  }

  ghost predicate Takes(y: System, m: Move, y': System) {
    Enabled(y, m) && y' == Next(y, m)
  }

  predicate Starts(y: System) {
    y.db == Db(map[], map[], {}, map[]) && y.procs == map[] && y.claims == [] && y.asked == [] && y.ran == [] && y.acted == []
  }

  // ---------------------------------------------------------------- leases

  predicate NoDuplicates(s: seq<Id>) {
    forall i, j :: 0 <= i < j < |s| ==> s[i] != s[j]
  }

  /** A job is claimed again only after the lease of every earlier claim has run out. */
  predicate LeasesRespected(claims: seq<Claim>) {
    forall i, j :: 0 <= i < j < |claims| && claims[i].job == claims[j].job ==> claims[i].leaseExpiresAt < claims[j].at
  }

  predicate ClaimOk(db: Db, c: Claim) {
    && c.job in db.jobs
    && db.jobs[c.job].status != Pending
    && (db.jobs[c.job].status == Processing ==> c.leaseExpiresAt <= db.jobs[c.job].leaseExpiresAt)
  }

  ghost predicate ClaimsOk(y: System) {
    LeasesRespected(y.claims) && forall i :: 0 <= i < |y.claims| ==> ClaimOk(y.db, y.claims[i])
  }

  // ---------------------------------------------------------------- one effect per job, one action per token

  ghost predicate JobsOk(y: System) {
    && (forall p :: p in y.procs ==> y.procs[p].job in y.db.jobs)
    && (forall p :: At(y, p, Finishing) ==> y.procs[p].job in y.db.deliveries)
    && (forall j :: j in y.db.jobs && y.db.jobs[j].status == Succeeded ==> j in y.db.deliveries)
  }

  ghost predicate OperationsOk(y: System) {
    && (forall j :: j in y.asked || j in y.ran ==> j in y.db.operations)
    && (forall p :: At(y, p, Inserted) ==>
          var j := y.procs[p].job; j in y.db.operations && j !in y.asked && j !in y.ran)
    && (forall p, q :: At(y, p, Inserted) && At(y, q, Inserted) && p != q ==> y.procs[p].job != y.procs[q].job)
    && NoDuplicates(y.asked) && NoDuplicates(y.ran)
  }

  predicate IsConsumed(db: Db, t: Id) {
    t in db.tokens && db.tokens[t].status == Consumed
  }

  ghost predicate TokensOk(y: System) {
    && (forall t :: t in y.acted ==> IsConsumed(y.db, t))
    && (forall p :: At(y, p, TokenClaimed) ==> IsConsumed(y.db, y.procs[p].token) && y.procs[p].token !in y.acted)
    && (forall p, q :: At(y, p, TokenClaimed) && At(y, q, TokenClaimed) && p != q ==> y.procs[p].token != y.procs[q].token)
    && NoDuplicates(y.acted)
  }

  ghost predicate Inv(y: System) {
    ClaimsOk(y) && JobsOk(y) && OperationsOk(y) && TokensOk(y)
  }

  lemma NextKeepsClaims(y: System, m: Move)
    requires ClaimsOk(y) && Enabled(y, m)
    ensures ClaimsOk(Next(y, m))
  {
    var y' := Next(y, m);
    forall i | 0 <= i < |y'.claims| ensures ClaimOk(y'.db, y'.claims[i]) {
      if i < |y.claims| {
        assert ClaimOk(y.db, y.claims[i]);
      }
    }
  }

  /** Nobody enters a phase except by moving there. */
  ghost predicate NoNewcomers(y: System, y': System, phase: Phase) {
    forall p :: At(y', p, phase) ==> At(y, p, phase) && y'.procs[p] == y.procs[p]
  }

  predicate Enters(y: System, m: Move, phase: Phase)
    requires Enabled(y, m)
  {
    match m
    case BeginOperation(p) => phase == Inserted && y.procs[p].job !in y.db.operations
    case ClaimToken(p) => phase == TokenClaimed && SettleToken(y.db, y.procs[p].token, Consumed) != y.db
    case EnsureDelivery(p) => phase == Finishing
    case _ => false
  }

  lemma OnlyEntrantsEnter(y: System, m: Move, phase: Phase)
    requires Enabled(y, m) && (phase == Inserted || phase == TokenClaimed || phase == Finishing) && !Enters(y, m, phase)
    ensures NoNewcomers(y, Next(y, m), phase)
  {
    OnlyActorMoves(y, m);
    forall p | At(Next(y, m), p, phase) ensures At(y, p, phase) && Next(y, m).procs[p] == y.procs[p] {
      if HasActor(m) && p == m.p {
        ActorDoesNotEnter(y, m, phase);
      }
    }
  }

  /** The moves made by one process. */
  predicate HasActor(m: Move) {
    !m.Tick? && !m.Enqueue? && !m.IssueToken? && !m.SpoilToken?
  }

  lemma OnlyActorMoves(y: System, m: Move)
    requires Enabled(y, m)
    ensures forall q :: q in Next(y, m).procs && !(HasActor(m) && q == m.p) ==> q in y.procs && Next(y, m).procs[q] == y.procs[q]
  {
  }

  lemma ActorDoesNotEnter(y: System, m: Move, phase: Phase)
    requires Enabled(y, m) && HasActor(m)
    requires (phase == Inserted || phase == TokenClaimed || phase == Finishing) && !Enters(y, m, phase)
    ensures !At(Next(y, m), m.p, phase)
  {
  }

  lemma OperationsFrame(y: System, y': System)
    requires OperationsOk(y) && NoNewcomers(y, y', Inserted)
    requires y'.asked == y.asked && y'.ran == y.ran && y.db.operations.Keys <= y'.db.operations.Keys
    ensures OperationsOk(y')
  {
  }

  lemma InsertKeepsOperations(y: System, p: Id)
    requires OperationsOk(y) && At(y, p, Started) && y.procs[p].job !in y.db.operations
    ensures OperationsOk(Next(y, BeginOperation(p)))
  {
  }

  /** The one effect of a job is performed by the process that inserted its operation record. */
  lemma EffectKeepsOperations(y: System, p: Id, phase: Phase)
    requires OperationsOk(y) && At(y, p, Inserted) && phase != Inserted
    ensures OperationsOk(Moved(y, p, Some(phase)).(asked := y.asked + [y.procs[p].job]))
    ensures OperationsOk(Moved(y, p, Some(phase)).(ran := y.ran + [y.procs[p].job]))
  {
    var j := y.procs[p].job;
    assert forall k :: k in y.asked + [j] <==> k in y.asked || k == j;
    assert forall k :: k in y.ran + [j] <==> k in y.ran || k == j;
    assert NoNewcomers(y, Moved(y, p, Some(phase)), Inserted);
  }

  lemma NextKeepsOperations(y: System, m: Move)
    requires OperationsOk(y) && Enabled(y, m)
    ensures OperationsOk(Next(y, m))
  {
    if m.AskAssistant? {
      EffectKeepsOperations(y, m.p, Asked);
    } else if m.RunCallback? {
      EffectKeepsOperations(y, m.p, TokenReading);
    } else if Enters(y, m, Inserted) {
      InsertKeepsOperations(y, m.p);
    } else {
      OnlyEntrantsEnter(y, m, Inserted);
      OperationsFrame(y, Next(y, m));
    }
  }

  lemma JobsFrame(y: System, y': System)
    requires JobsOk(y) && NoNewcomers(y, y', Finishing) && y.db.deliveries <= y'.db.deliveries
    requires y.db.jobs.Keys <= y'.db.jobs.Keys
    requires forall p :: p in y'.procs ==> y'.procs[p].job in y'.db.jobs
    requires forall j :: j in y'.db.jobs && y'.db.jobs[j].status == Succeeded ==>
      j in y.db.jobs && y.db.jobs[j].status == Succeeded
    ensures JobsOk(y')
  {
  }

  lemma StatusKeepsJobs(y: System, p: Id, status: JobStatus)
    requires JobsOk(y) && p in y.procs && (status == Succeeded ==> At(y, p, Finishing))
    ensures JobsOk(SetJobStatus(Moved(y, p, None), y.procs[p].job, status))
  {
  }

  lemma NextKeepsJobs(y: System, m: Move)
    requires JobsOk(y) && Enabled(y, m)
    ensures JobsOk(Next(y, m))
  {
    if m.EnsureDelivery? {
      DeliveryKeepsJobs(y, m.p);
    } else if m.MarkSucceeded? {
      StatusKeepsJobs(y, m.p, Succeeded);
    } else if m.MarkAmbiguous? {
      StatusKeepsJobs(y, m.p, FailedTerminal);
    } else if m.MarkFailed? {
      StatusKeepsJobs(y, m.p, FailedAs(y.procs[m.p].phase.retry));
    } else {
      OnlyEntrantsEnter(y, m, Finishing);
      OthersLeaveJobs(y, m);
      JobsFrame(y, Next(y, m));
    }
  }

  /** Apart from the four statements above, no step records a reply or finishes a job. */
  lemma OthersLeaveJobs(y: System, m: Move)
    requires Enabled(y, m) && !m.EnsureDelivery? && !m.MarkSucceeded? && !m.MarkAmbiguous? && !m.MarkFailed?
    ensures var y' := Next(y, m);
      && y'.db.deliveries == y.db.deliveries && y.db.jobs.Keys <= y'.db.jobs.Keys
      && (forall p :: p in y'.procs ==> (p in y.procs && y'.procs[p].job == y.procs[p].job) || y'.procs[p].job in y.db.jobs)
      && (forall j :: j in y'.db.jobs && y'.db.jobs[j].status == Succeeded ==> j in y.db.jobs && y.db.jobs[j].status == Succeeded)
  {
    ProcsKeepJobs(y, m);
  }

  lemma ProcsKeepJobs(y: System, m: Move)
    requires Enabled(y, m)
    ensures var y' := Next(y, m);
      forall p :: p in y'.procs ==> (p in y.procs && y'.procs[p].job == y.procs[p].job) || y'.procs[p].job in y.db.jobs
  {
  }

  lemma DeliveryKeepsJobs(y: System, p: Id)
    requires JobsOk(y) && Enabled(y, EnsureDelivery(p))
    ensures JobsOk(Next(y, EnsureDelivery(p)))
  {
  }

  lemma TokensFrame(y: System, y': System)
    requires TokensOk(y) && NoNewcomers(y, y', TokenClaimed) && y'.acted == y.acted
    requires forall t :: IsConsumed(y.db, t) ==> IsConsumed(y'.db, t)
    ensures TokensOk(y')
  {
  }

  lemma ClaimKeepsTokens(y: System, p: Id)
    requires TokensOk(y) && At(y, p, TokenClaiming) && SettleToken(y.db, y.procs[p].token, Consumed) != y.db
    ensures TokensOk(Next(y, ClaimToken(p)))
  {
    assert !IsConsumed(y.db, y.procs[p].token);
  }

  lemma ActKeepsTokens(y: System, p: Id)
    requires TokensOk(y) && At(y, p, TokenClaimed)
    ensures TokensOk(Next(y, Act(p)))
  {
    var t := y.procs[p].token;
    assert forall u :: u in y.acted + [t] <==> u in y.acted || u == t;
    assert NoNewcomers(y, Next(y, Act(p)), TokenClaimed);
  }

  lemma NextKeepsTokens(y: System, m: Move)
    requires TokensOk(y) && Enabled(y, m)
    ensures TokensOk(Next(y, m))
  {
    if m.Act? {
      ActKeepsTokens(y, m.p);
    } else if Enters(y, m, TokenClaimed) {
      ClaimKeepsTokens(y, m.p);
    } else {
      OnlyEntrantsEnter(y, m, TokenClaimed);
      TokensFrame(y, Next(y, m));
    }
  }

  lemma StepsPreserve()
    ensures Preserved(Takes, Inv)
  {
    forall y, m, y' | Inv(y) && Takes(y, m, y') ensures Inv(y') {
      NextKeepsClaims(y, m);
      NextKeepsJobs(y, m);
      NextKeepsOperations(y, m);
      NextKeepsTokens(y, m);
    }
  }

  /**
   * With any number of workers, crashes between any two statements and leases running out while
   * their holders work on: the Assistant is called at most once for a job, the callback of a job
   * is run at most once, a token lets through at most one action, a job is claimed again only
   * after the earlier leases ran out, and a succeeded job has its reply recorded.
   */
  lemma EffectsHappenAtMostOnce(states: seq<System>, moves: seq<Move>, n: nat)
    requires IsRun(Takes, states, moves) && Starts(states[0]) && n <= |moves|
    ensures var y := states[n];
      && NoDuplicates(y.asked) && NoDuplicates(y.ran) && NoDuplicates(y.acted)
      && LeasesRespected(y.claims)
      && (forall j :: j in y.db.jobs && y.db.jobs[j].status == Succeeded ==> j in y.db.deliveries)
  {
    StepsPreserve();
    RunKeepsInv(Takes, Inv, states, moves, n);
  }

  // ---------------------------------------------------------------- when a job is claimed, and how often

  /** How many of the claims are of this job. */
  function ClaimsOf(claims: seq<Claim>, j: Id): nat {
    if claims == [] then 0
    else ClaimsOf(claims[..|claims| - 1], j) + if claims[|claims| - 1].job == j then 1 else 0
  }

  lemma OneClaimMore(claims: seq<Claim>, c: Claim, j: Id)
    ensures ClaimsOf(claims + [c], j) == ClaimsOf(claims, j) + if c.job == j then 1 else 0
  {
    assert (claims + [c])[..|claims|] == claims;
  }

  predicate IsDue(y: System, j: Id) {
    j in y.db.jobs && y.db.jobs[j].availableAt <= y.now
  }

  ghost predicate DueOk(y: System) {
    && (forall i :: 0 <= i < |y.claims| ==> y.claims[i].job in y.db.jobs && y.db.jobs[y.claims[i].job].availableAt <= y.claims[i].at)
    && (forall p :: p in y.procs ==> IsDue(y, y.procs[p].job))
    && (forall j :: j in y.db.jobs && y.db.jobs[j].status != Pending ==> IsDue(y, j))
    && (forall j :: j in y.db.jobs ==> y.db.jobs[j].attempt == ClaimsOf(y.claims, j))
    && (forall j :: j !in y.db.jobs ==> ClaimsOf(y.claims, j) == 0)
  }

  /** What every step but a claim and an arrival leaves of the jobs. */
  ghost predicate JobsStay(y: System, y': System) {
    && y'.db.jobs.Keys == y.db.jobs.Keys && y'.claims == y.claims && y.now <= y'.now
    && (forall j :: j in y.db.jobs ==> y'.db.jobs[j] == y.db.jobs[j].(status := y'.db.jobs[j].status))
    && (forall j :: j in y.db.jobs && y.db.jobs[j].status == Pending && y'.db.jobs[j].status != Pending ==> exists p :: WorksOn(y, p, j))
    && (forall p :: p in y'.procs ==> exists q :: WorksOn(y, q, y'.procs[p].job))
  }

  predicate WorksOn(y: System, p: Id, j: Id) {
    p in y.procs && y.procs[p].job == j
  }

  lemma WorkersStay(y: System, m: Move)
    requires Enabled(y, m) && !m.ClaimJob?
    ensures forall p :: p in Next(y, m).procs ==> p in y.procs && Next(y, m).procs[p].job == y.procs[p].job
  {
  }

  lemma StepLeavesJobs(y: System, m: Move)
    requires Enabled(y, m) && !m.ClaimJob? && !m.Enqueue?
    ensures JobsStay(y, Next(y, m))
  {
    var y' := Next(y, m);
    WorkersStay(y, m);
    forall p | p in y'.procs ensures exists q :: WorksOn(y, q, y'.procs[p].job) {
      assert WorksOn(y, p, y'.procs[p].job);
    }
    if m.MarkSucceeded? || m.MarkAmbiguous? || m.MarkFailed? {
      assert WorksOn(y, m.p, y.procs[m.p].job);
    } else {
      OthersLeaveTables(y, m);
    }
  }

  lemma OthersLeaveTables(y: System, m: Move)
    requires Enabled(y, m) && !m.ClaimJob? && !m.Enqueue? && !m.MarkSucceeded? && !m.MarkAmbiguous? && !m.MarkFailed?
    ensures Next(y, m).db.jobs == y.db.jobs && Next(y, m).claims == y.claims && y.now <= Next(y, m).now
  {
  }

  lemma StayingIsDue(y: System, y': System)
    requires DueOk(y) && JobsStay(y, y')
    ensures DueOk(y')
  {
  }

  lemma ClaimKeepsDue(y: System, p: Id, j: Id, leaseMs: nat)
    requires DueOk(y) && Enabled(y, ClaimJob(p, j, leaseMs))
    ensures DueOk(Next(y, ClaimJob(p, j, leaseMs)))
  {
    forall k ensures ClaimsOf(Next(y, ClaimJob(p, j, leaseMs)).claims, k) == ClaimsOf(y.claims, k) + if k == j then 1 else 0 {
      OneClaimMore(y.claims, Claim(j, y.now, y.now + leaseMs), k);
    }
  }

  lemma NextKeepsDue(y: System, m: Move)
    requires DueOk(y) && Enabled(y, m)
    ensures DueOk(Next(y, m))
  {
    if m.ClaimJob? {
      ClaimKeepsDue(y, m.p, m.job, m.leaseMs);
    } else if !m.Enqueue? {
      StepLeavesJobs(y, m);
      StayingIsDue(y, Next(y, m));
    }
  }

  /** In every run no job is claimed before it is available, and a job's attempt counts its claims. */
  lemma ClaimsAreDue(states: seq<System>, moves: seq<Move>, n: nat)
    requires IsRun(Takes, states, moves) && Starts(states[0]) && n <= |moves|
    ensures var y := states[n];
      && (forall i :: 0 <= i < |y.claims| ==> y.claims[i].job in y.db.jobs && y.db.jobs[y.claims[i].job].availableAt <= y.claims[i].at)
      && (forall j :: j in y.db.jobs ==> y.db.jobs[j].attempt == ClaimsOf(y.claims, j))
  {
    forall y, m, y' | DueOk(y) && Takes(y, m, y') ensures DueOk(y') {
      NextKeepsDue(y, m);
    }
    RunKeepsInv(Takes, DueOk, states, moves, n);
  }

  // ---------------------------------------------------------------- end states are not final

  predicate Ended(status: JobStatus) {
    status.Succeeded? || status.FailedRetryable? || status.FailedTerminal?
  }

  /** The step ends a job by id, whatever end it may already have had. */
  predicate Reends(y: System, m: Move, j: Id)
    requires Enabled(y, m) && j in y.db.jobs
  {
    match m
    case MarkSucceeded(p) => y.procs[p].job == j && !y.db.jobs[j].status.Succeeded?
    case MarkAmbiguous(p) => y.procs[p].job == j && !y.db.jobs[j].status.FailedTerminal?
    case MarkFailed(p) => y.procs[p].job == j && y.db.jobs[j].status != FailedAs(y.procs[p].phase.retry)
    case _ => false
  }

  /** Apart from the three marks and the claim, no step changes a job that is there. */
  lemma OthersLeaveJob(y: System, m: Move, j: Id)
    requires Enabled(y, m) && j in y.db.jobs && !m.MarkSucceeded? && !m.MarkAmbiguous? && !m.MarkFailed?
    requires m.ClaimJob? ==> m.job != j
    ensures j in Next(y, m).db.jobs && Next(y, m).db.jobs[j] == y.db.jobs[j]
  {
  }

  /** An ended job is never claimed again, but a worker still at it can mark a different end. */
  lemma EndChangesExactly(y: System, m: Move, j: Id)
    requires Enabled(y, m) && j in y.db.jobs && Ended(y.db.jobs[j].status)
    ensures var y' := Next(y, m);
      && j in y'.db.jobs && Ended(y'.db.jobs[j].status)
      && (y'.db.jobs[j].status != y.db.jobs[j].status <==> Reends(y, m, j))
      && (m.ClaimJob? ==> m.job != j)
  {
    if !m.MarkSucceeded? && !m.MarkAmbiguous? && !m.MarkFailed? {
      OthersLeaveJob(y, m, j);
    }
  }

  predicate HasEnded(y: System, j: Id) {
    j in y.db.jobs && Ended(y.db.jobs[j].status)
  }

  ghost function Over(j: Id): System -> bool {
    (y: System) => HasEnded(y, j)
  }

  /** Over every later run an ended job stays ended. */
  lemma EndedStaysEnded(y: System, y': System, j: Id)
    requires HasEnded(y, j) && Reaches(Takes, y, y')
    ensures HasEnded(y', j)
  {
    var states, moves :| IsRun(Takes, states, moves) && states[0] == y && states[|moves|] == y';
    forall a, m, b | Over(j)(a) && Takes(a, m, b) ensures Over(j)(b) {
      EndChangesExactly(a, m, j);
    }
    RunKeepsInv(Takes, Over(j), states, moves, |moves|);
  }

  lemma Step(y: System, m: Move)
    requires Enabled(y, m)
    ensures Reaches(Takes, y, Next(y, m))
  {
    ReachesByStep(Takes, y, m, Next(y, m));
  }

  /** The operation of a job has been completed with this reply. */
  predicate Recorded(y: System, j: Id, text: string) {
    && j in y.db.operations && y.db.operations[j].renderedText == Some(text)
    && Present(y.db.operations[j].outcome) && Present(y.db.operations[j].renderedText)
  }

  /** A second worker takes over a job whose reply is recorded, and finishes it. */
  lemma TakeoverReplays(y: System, q: Id, j: Id, text: string)
    requires q !in y.procs && Recorded(y, j, text)
    requires j in y.db.jobs && y.db.jobs[j].status == Processing && y.db.jobs[j].leaseExpiresAt < y.now
    ensures exists y' :: Reaches(Takes, y, y') && HasEnd(y', j, Succeeded) && y'.procs == y.procs && y'.maxAttempts == y.maxAttempts
  {
    var y1 := Next(y, ClaimJob(q, j, 0));
    Step(y, ClaimJob(q, j, 0));
    ReplayFinishes(y1, q, text);
    var y' :| Reaches(Takes, y1, y') && HasEnd(y', j, Succeeded) && y'.procs == y1.procs - {q} && y'.maxAttempts == y1.maxAttempts;
    ReachesOn(Takes, y, y1, y');
    assert y1.procs - {q} == y.procs;
  }

  predicate HasEnd(y: System, j: Id, status: JobStatus) {
    j in y.db.jobs && y.db.jobs[j].status == status
  }

  ghost predicate TurnsTo(y: System, y': System, j: Id, status: JobStatus) {
    Reaches(Takes, y, y') && HasEnd(y', j, status)
  }

  lemma DeliveryFinishes(y: System, q: Id, text: string)
    requires At(y, q, Delivering(text)) && y.procs[q].job in y.db.jobs
    ensures exists y' :: Reaches(Takes, y, y') && HasEnd(y', y.procs[q].job, Succeeded) && y'.procs == y.procs - {q} && y'.maxAttempts == y.maxAttempts
  {
    var y1 := Next(y, EnsureDelivery(q));
    var y2 := Next(y1, MarkSucceeded(q));
    Step(y, EnsureDelivery(q));
    Step(y1, MarkSucceeded(q));
    ReachesOn(Takes, y, y1, y2);
    assert y2.procs == y.procs - {q};
  }

  lemma ReplayFinishes(y: System, q: Id, text: string)
    requires At(y, q, Started) && y.procs[q].job in y.db.jobs && Recorded(y, y.procs[q].job, text)
    ensures exists y' :: Reaches(Takes, y, y') && HasEnd(y', y.procs[q].job, Succeeded) && y'.procs == y.procs - {q} && y'.maxAttempts == y.maxAttempts
  {
    var y1 := Next(y, BeginOperation(q));
    var y2 := Next(y1, ReadOperation(q));
    Step(y, BeginOperation(q));
    Step(y1, ReadOperation(q));
    DeliveryFinishes(y2, q, text);
    var y' :| Reaches(Takes, y2, y') && HasEnd(y', y.procs[q].job, Succeeded) && y'.procs == y2.procs - {q} && y'.maxAttempts == y2.maxAttempts;
    ReachesOn(Takes, y, y1, y2);
    ReachesOn(Takes, y, y2, y');
    assert y'.procs == y.procs - {q};
  }

  // ---------------------------------------------------------------- which ends are still to come

  predicate Completed(db: Db, j: Id) {
    j in db.operations && Present(db.operations[j].outcome) && Present(db.operations[j].renderedText)
  }

  /** A worker that may still come to mark its job succeeded. */
  predicate CanSucceed(db: Db, q: Process) {
    match q.phase
    case Started => true
    case Delivering(_) => true
    case Finishing => true
    case Conflicted => Completed(db, q.job)
    case Ambiguous => false
    case Failing(_) => false
    case _ => q.job in db.operations
  }

  /** The ends a worker may still write: a caught error has fixed one, and the last attempt is not retried. */
  predicate CanWrite(y: System, q: Process, status: JobStatus) {
    match status
    case Succeeded => CanSucceed(y.db, q)
    case FailedTerminal => !q.phase.Failing? || !q.phase.retry
    case FailedRetryable => if q.phase.Failing? then q.phase.retry else q.attempt < y.maxAttempts
    case _ => false
  }

  predicate CanChange(y: System, q: Process, status: JobStatus) {
    exists other :: other != status && CanWrite(y, q, other)
  }

  lemma CannotChange(y: System, q: Process, status: JobStatus)
    requires !CanChange(y, q, status)
    ensures forall other :: CanWrite(y, q, other) ==> other == status
    ensures status != Succeeded ==> !CanSucceed(y.db, q)
    ensures status == FailedRetryable ==> q.phase == Failing(true)
    ensures status == FailedTerminal ==> q.phase == Failing(false) || (!q.phase.Failing? && q.attempt >= y.maxAttempts)
    ensures status != Succeeded && (status == FailedRetryable || status == FailedTerminal)
  {
    assert !CanWrite(y, q, Succeeded) || status == Succeeded;
    assert !CanWrite(y, q, FailedTerminal) || status == FailedTerminal;
    assert !CanWrite(y, q, FailedRetryable) || status == FailedRetryable;
  }

  /** Every worker still at the job can only write this end. */
  ghost predicate AllBound(y: System, j: Id, status: JobStatus) {
    forall p :: p in y.procs && y.procs[p].job == j ==> !CanChange(y, y.procs[p], status)
  }

  ghost predicate AtRest(y: System, j: Id, status: JobStatus) {
    HasEnd(y, j, status) && Ended(status) && AllBound(y, j, status)
  }

  ghost function Resting(j: Id, status: JobStatus): System -> bool {
    (y: System) => AtRest(y, j, status)
  }

  predicate SameRecord(db: Db, db': Db, j: Id) {
    (j in db.operations <==> j in db'.operations) && (j in db.operations ==> db'.operations[j] == db.operations[j])
  }

  lemma SameMeansBound(y: System, y': System, q: Process, status: JobStatus)
    requires SameRecord(y.db, y'.db, q.job) && y'.maxAttempts == y.maxAttempts && !CanChange(y, q, status)
    ensures !CanChange(y', q, status)
  {
    forall other | CanWrite(y', q, other) ensures other == status {
      assert CanWrite(y, q, other);
    }
  }

  lemma RecordsAreOwn(y: System, m: Move, j: Id)
    requires Enabled(y, m) && (m.BeginOperation? || m.CompleteOperation? ==> y.procs[m.p].job != j)
    ensures SameRecord(y.db, Next(y, m).db, j)
  {
  }

  lemma LimitStays(y: System, m: Move)
    requires Enabled(y, m)
    ensures Next(y, m).maxAttempts == y.maxAttempts
  {
  }

  lemma BoundWritesNoRecord(y: System, m: Move, j: Id, status: JobStatus)
    requires AtRest(y, j, status) && Enabled(y, m)
    ensures m.BeginOperation? || m.CompleteOperation? ==> y.procs[m.p].job != j
  {
    if (m.BeginOperation? || m.CompleteOperation?) && y.procs[m.p].job == j {
      CannotChange(y, y.procs[m.p], status);
    }
  }

  /** A bound worker neither inserts nor completes its job's record. */
  lemma BoundLeavesRecord(y: System, m: Move, j: Id, status: JobStatus)
    requires AtRest(y, j, status) && Enabled(y, m)
    ensures SameRecord(y.db, Next(y, m).db, j)
  {
    BoundWritesNoRecord(y, m, j, status);
    RecordsAreOwn(y, m, j);
  }

  /** What a bound worker turns into is bound again. */
  lemma BoundStaysBound(y: System, m: Move, j: Id, status: JobStatus)
    requires AtRest(y, j, status) && Enabled(y, m) && HasActor(m) && m.p in Next(y, m).procs && Next(y, m).procs[m.p].job == j
    ensures m.p in y.procs && y.procs[m.p].job == j && !CanChange(Next(y, m), Next(y, m).procs[m.p], status)
  {
    if m.ClaimJob? {
      EndChangesExactly(y, m, j);
    }
    var (q, q') := (y.procs[m.p], Next(y, m).procs[m.p]);
    CannotChange(y, q, status);
    BoundLeavesRecord(y, m, j, status);
    LimitStays(y, m);
    BoundGoesOn(y, m, status);
    forall other | CanWrite(Next(y, m), q', other) ensures other == status {
    }
  }

  /** A bound worker has an end fixed, or is on its last attempt without a way to success. */
  predicate IsBound(db: Db, limit: nat, q: Process, status: JobStatus) {
    if status == FailedRetryable then q.phase == Failing(true)
    else q.phase == Failing(false) || (!q.phase.Failing? && q.attempt >= limit && !CanSucceed(db, q))
  }

  lemma BoundGoesOn(y: System, m: Move, status: JobStatus)
    requires Enabled(y, m) && HasActor(m) && m.p in y.procs && m.p in Next(y, m).procs
    requires (status == FailedRetryable || status == FailedTerminal) && IsBound(y.db, y.maxAttempts, y.procs[m.p], status)
    requires SameRecord(y.db, Next(y, m).db, y.procs[m.p].job)
    ensures IsBound(Next(y, m).db, y.maxAttempts, Next(y, m).procs[m.p], status)
  {
  }

  lemma RestStays(y: System, m: Move, j: Id, status: JobStatus)
    requires AtRest(y, j, status) && Enabled(y, m)
    ensures AtRest(Next(y, m), j, status)
  {
    var y' := Next(y, m);
    EndChangesExactly(y, m, j);
    BoundKeepsEnd(y, m, j, status);
    OnlyActorMoves(y, m);
    LimitStays(y, m);
    BoundLeavesRecord(y, m, j, status);
    forall p | p in y'.procs && y'.procs[p].job == j ensures !CanChange(y', y'.procs[p], status) {
      if HasActor(m) && p == m.p {
        BoundStaysBound(y, m, j, status);
      } else {
        SameMeansBound(y, y', y.procs[p], status);
      }
    }
  }

  lemma BoundKeepsEnd(y: System, m: Move, j: Id, status: JobStatus)
    requires AtRest(y, j, status) && Enabled(y, m)
    ensures !Reends(y, m, j)
  {
    if (m.MarkSucceeded? || m.MarkAmbiguous? || m.MarkFailed?) && y.procs[m.p].job == j {
      CannotChange(y, y.procs[m.p], status);
    }
  }

  lemma RestIsReached(y: System, y': System, j: Id, status: JobStatus)
    requires AtRest(y, j, status) && Reaches(Takes, y, y')
    ensures AtRest(y', j, status)
  {
    var states, moves :| IsRun(Takes, states, moves) && states[0] == y && states[|moves|] == y';
    forall a, m, b | Resting(j, status)(a) && Takes(a, m, b) ensures Resting(j, status)(b) {
      RestStays(a, m, j, status);
    }
    RunKeepsInv(Takes, Resting(j, status), states, moves, |moves|);
  }

  // ---------------------------------------------------------------- and do come, in some run

  /** How many steps a worker is from success, and the next one. */
  function Distance(phase: Phase): nat {
    match phase
    case Finishing => 0
    case Delivering(_) => 1
    case Started => 2
    case Conflicted => 2
    case Completing(_, _) => 2
    case Asked => 3
    case Acting => 3
    case Rejected => 3
    case TokenClaimed => 4
    case TokenClaiming => 5
    case TokenExpiring => 5
    case TokenSeen(_) => 6
    case TokenReading => 7
    case Inserted => 8
    case Ambiguous => 9
    case Failing(_) => 9
  }

  function Onward(p: Id, q: Process): Move {
    match q.phase
    case Finishing => MarkSucceeded(p)
    case Delivering(_) => EnsureDelivery(p)
    case Started => ReplyDirectly(p, "")
    case Conflicted => ReadOperation(p)
    case Completing(_, _) => CompleteOperation(p)
    case Asked => AssistantAnswers(p, "", "")
    case Acting => CallbackReturns(p, "", "")
    case Rejected => CallbackReturns(p, "", "")
    case TokenClaimed => Decline(p)
    case TokenClaiming => ClaimToken(p)
    case TokenExpiring => ExpireToken(p)
    case TokenSeen(_) => CheckToken(p, false)
    case TokenReading => ReadToken(p)
    case Inserted => if q.kind == Message then AskAssistant(p) else RunCallback(p)
    case _ => Crash(p)
  }

  lemma OneStepOn(y: System, p: Id)
    requires p in y.procs && CanSucceed(y.db, y.procs[p]) && !y.procs[p].phase.Finishing? && y.procs[p].job in y.db.jobs
    ensures Enabled(y, Onward(p, y.procs[p]))
    ensures var y' := Next(y, Onward(p, y.procs[p]));
      && p in y'.procs && y'.procs[p].job == y.procs[p].job && y'.procs[p].job in y'.db.jobs
      && CanSucceed(y'.db, y'.procs[p]) && Distance(y'.procs[p].phase) < Distance(y.procs[p].phase)
  {
  }

  lemma {:induction false} SuccessComes(y: System, p: Id, j: Id)
    requires p in y.procs && y.procs[p].job == j && j in y.db.jobs && CanSucceed(y.db, y.procs[p])
    ensures exists y' :: TurnsTo(y, y', j, Succeeded)
    decreases Distance(y.procs[p].phase)
  {
    var m := Onward(p, y.procs[p]);
    if y.procs[p].phase.Finishing? {
      Step(y, m);
      assert TurnsTo(y, Next(y, m), j, Succeeded);
    } else {
      OneStepOn(y, p);
      Step(y, m);
      SuccessComes(Next(y, m), p, j);
      var y' :| TurnsTo(Next(y, m), y', j, Succeeded);
      ReachesOn(Takes, y, Next(y, m), y');
      assert TurnsTo(y, y', j, Succeeded);
    }
  }

  lemma FailureComes(y: System, p: Id, j: Id, retry: bool)
    requires p in y.procs && y.procs[p].job == j && j in y.db.jobs && CanWrite(y, y.procs[p], FailedAs(retry))
    ensures exists y' :: TurnsTo(y, y', j, FailedAs(retry))
  {
    if y.procs[p].phase.Failing? {
      Step(y, MarkFailed(p));
      assert TurnsTo(y, Next(y, MarkFailed(p)), j, FailedAs(retry));
    } else {
      var y1 := Next(y, Throw(p, retry));
      var y2 := Next(y1, MarkFailed(p));
      Step(y, Throw(p, retry));
      Step(y1, MarkFailed(p));
      ReachesOn(Takes, y, y1, y2);
      assert TurnsTo(y, y2, j, FailedAs(retry));
    }
  }

  /** Every end a worker may still write is written in some run. */
  lemma WritableComes(y: System, p: Id, j: Id, status: JobStatus)
    requires p in y.procs && y.procs[p].job == j && j in y.db.jobs && CanWrite(y, y.procs[p], status)
    ensures exists y' :: TurnsTo(y, y', j, status)
  {
    if status == Succeeded {
      SuccessComes(y, p, j);
    } else {
      FailureComes(y, p, j, status == FailedRetryable);
    }
  }

  ghost predicate EndIsFinal(y: System, j: Id)
    requires j in y.db.jobs
  {
    forall y' :: Reaches(Takes, y, y') ==> HasEnd(y', j, y.db.jobs[j].status)
  }

  /**
   * Which end a job has is final over every later run exactly when every worker still at it can only
   * write that very end: it has caught an error that was decided so, or is on its last attempt with
   * no way to success. Otherwise some run changes the end: no marking statement asks for the lease.
   */
  lemma EndIsFinalExactly(y: System, j: Id)
    requires j in y.db.jobs && Ended(y.db.jobs[j].status)
    ensures EndIsFinal(y, j) <==> AllBound(y, j, y.db.jobs[j].status)
  {
    var status := y.db.jobs[j].status;
    if AllBound(y, j, status) {
      forall y' | Reaches(Takes, y, y') ensures HasEnd(y', j, status) {
        RestIsReached(y, y', j, status);
      }
    } else {
      var p :| p in y.procs && y.procs[p].job == j && CanChange(y, y.procs[p], status);
      var other :| other != status && CanWrite(y, y.procs[p], other);
      WritableComes(y, p, j, other);
    }
  }

  /** A success is final exactly when nobody is at the job any more: whoever is can still fail. */
  lemma SuccessIsFinalExactly(y: System, j: Id)
    requires HasEnd(y, j, Succeeded)
    ensures EndIsFinal(y, j) <==> forall p :: p in y.procs ==> y.procs[p].job != j
  {
    EndIsFinalExactly(y, j);
    forall p | p in y.procs && y.procs[p].job == j ensures CanChange(y, y.procs[p], Succeeded) {
      var q := y.procs[p];
      assert CanWrite(y, q, FailedTerminal) || CanWrite(y, q, FailedRetryable);
    }
  }

  // ---------------------------------------------------------------- a success that turns into a failure

  /** One worker has asked the Assistant for a job under a lease and recorded the reply. */
  ghost predicate ReplyRecorded(y: System, p: Id, q: Id, j: Id, text: string) {
    && p in y.procs && q !in y.procs && y.procs[p].job == j && y.procs[p].phase == Delivering(text) && y.procs[p].attempt == 1
    && j in y.db.jobs && y.db.jobs[j].status == Processing && Recorded(y, j, text)
  }

  /** The first worker outlives its lease; a second one replays the recorded reply and marks success. */
  lemma SecondWorkerSucceeds(y: System, p: Id, q: Id, j: Id, text: string)
    requires ReplyRecorded(y, p, q, j, text)
    ensures exists y' :: Reaches(Takes, y, y') && HasEnd(y', j, Succeeded) && y'.procs == y.procs && y'.maxAttempts == y.maxAttempts
  {
    var wait: nat := if y.db.jobs[j].leaseExpiresAt < y.now then 0 else y.db.jobs[j].leaseExpiresAt - y.now + 1;
    var y0 := Next(y, Tick(wait));
    Step(y, Tick(wait));
    TakeoverReplays(y0, q, j, text);
    var y1 :| Reaches(Takes, y0, y1) && HasEnd(y1, j, Succeeded) && y1.procs == y0.procs && y1.maxAttempts == y0.maxAttempts;
    ReachesOn(Takes, y, y0, y1);
  }

  /** From the empty tables on: a message arrives, and a worker claims it. */
  lemma MessageIsClaimed(y: System, p: Id, j: Id)
    requires Starts(y)
    ensures exists y' :: Reaches(Takes, y, y') && Claimed(y', p, j) && y'.maxAttempts == y.maxAttempts
  {
    var y1 := Next(y, Enqueue(j, Message, 0, y.now));
    var y2 := Next(y1, ClaimJob(p, j, 0));
    Step(y, Enqueue(j, Message, 0, y.now));
    Step(y1, ClaimJob(p, j, 0));
    ReachesOn(Takes, y, y1, y2);
    assert Claimed(y2, p, j);
  }

  /** One worker is at the start of a message job nobody has worked on. */
  predicate Claimed(y: System, p: Id, j: Id) {
    && y.procs == map[p := Process(j, Message, 0, 1, Started)] && y.db.operations == map[]
    && j in y.db.jobs && y.db.jobs[j].status == Processing
  }

  /** Its operation record is inserted and the Assistant has been asked. */
  predicate Answering(y: System, p: Id, j: Id) {
    && y.procs == map[p := Process(j, Message, 0, 1, Asked)] && j in y.db.operations
    && j in y.db.jobs && y.db.jobs[j].status == Processing
  }

  lemma ClaimedAsks(y: System, p: Id, j: Id)
    requires Claimed(y, p, j)
    ensures exists y' :: Reaches(Takes, y, y') && Answering(y', p, j) && y'.maxAttempts == y.maxAttempts
  {
    var y1 := Next(y, BeginOperation(p));
    var y2 := Next(y1, AskAssistant(p));
    Step(y, BeginOperation(p));
    Step(y1, AskAssistant(p));
    ReachesOn(Takes, y, y1, y2);
    assert Answering(y2, p, j);
  }

  lemma AnswerIsRecorded(y: System, p: Id, q: Id, j: Id, turnId: string, text: string)
    requires Answering(y, p, j) && p != q && turnId != "" && text != ""
    ensures exists y' :: Reaches(Takes, y, y') && ReplyRecorded(y', p, q, j, text) && y'.maxAttempts == y.maxAttempts
  {
    var y1 := Next(y, AssistantAnswers(p, turnId, text));
    var y2 := Next(y1, CompleteOperation(p));
    Step(y, AssistantAnswers(p, turnId, text));
    Step(y1, CompleteOperation(p));
    ReachesOn(Takes, y, y1, y2);
    assert ReplyRecorded(y2, p, q, j, text);
  }

  /** It inserts its operation record, asks the Assistant and records the reply. */
  lemma ClaimedRecords(y: System, p: Id, q: Id, j: Id, turnId: string, text: string)
    requires Claimed(y, p, j) && p != q && turnId != "" && text != ""
    ensures exists y' :: Reaches(Takes, y, y') && ReplyRecorded(y', p, q, j, text) && y'.maxAttempts == y.maxAttempts
  {
    ClaimedAsks(y, p, j);
    var a :| Reaches(Takes, y, a) && Answering(a, p, j) && a.maxAttempts == y.maxAttempts;
    AnswerIsRecorded(a, p, q, j, turnId, text);
    var b :| Reaches(Takes, a, b) && ReplyRecorded(b, p, q, j, text) && b.maxAttempts == a.maxAttempts;
    ReachesOn(Takes, y, a, b);
  }

  /**
   * So, starting from the empty tables, a succeeded job can turn into a failed one: its first worker
   * outlives its lease, a second one replays the recorded reply and marks success, then the first
   * one runs into an error. The failure is a retryable one when a first attempt may be retried.
   */
  lemma SuccessCanTurnIntoFailure(y: System, p: Id, q: Id, j: Id, retry: bool)
    requires Starts(y) && p != q && (retry ==> y.maxAttempts > 1)
    ensures exists y1, y2 :: Reaches(Takes, y, y1) && HasEnd(y1, j, Succeeded) && TurnsTo(y1, y2, j, FailedAs(retry))
  {
    var turnId, text := "turn", "reply";
    MessageIsClaimed(y, p, j);
    var a :| Reaches(Takes, y, a) && Claimed(a, p, j) && a.maxAttempts == y.maxAttempts;
    ClaimedRecords(a, p, q, j, turnId, text);
    var b :| Reaches(Takes, a, b) && ReplyRecorded(b, p, q, j, text) && b.maxAttempts == y.maxAttempts;
    SecondWorkerSucceeds(b, p, q, j, text);
    var c :| Reaches(Takes, b, c) && HasEnd(c, j, Succeeded) && c.procs == b.procs && c.maxAttempts == y.maxAttempts;
    ReachesOn(Takes, y, a, b);
    ReachesOn(Takes, y, b, c);
    FailureComes(c, p, j, retry);
  }
}
