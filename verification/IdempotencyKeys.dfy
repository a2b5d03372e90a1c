/**
 * Request-level idempotency keys: the first request with a key inserts a running record and
 * executes; later ones read the record. Resolving and releasing are best effort, and a request can
 * stop between any two statements.
 */
module IdempotencyKeys {
  import opened Common
  import opened Runs

  datatype UserKey = UserKey(userId: Id, key: Id)

  datatype Response = Response(httpStatus: int, body: string)

  /** A draft confirmation stores its keys in the same table, under an operation of its own. */
  datatype Operation = Message | Execute | DraftConfirm

  datatype Status = Running | Completed(response: Option<Response>)

  /** `owner` names the request that inserted the record. */
  datatype Record = Record(operation: Operation, status: Status, owner: Id)

  datatype Phase =
    | Claiming
    | Conflicted
    | Executing
    | Resolving(response: Response)
    | Releasing

  datatype Process = Process(key: UserKey, operation: Operation, phase: Phase)

  datatype Answered = Answered(key: UserKey, response: Response)

  /** `requests` are all request numbers used so far; `returned` the executions that answered their
      caller, `replayed` the answers given from a record. */
  datatype System = System(
    records: map<UserKey, Record>, procs: map<Id, Process>, requests: set<Id>,
    returned: seq<Answered>, replayed: seq<Answered>)

  datatype Move =
    | ConfirmDraft(p: Id, key: UserKey)
    | Start(p: Id, key: UserKey, operation: Operation)
    | Insert(p: Id)
    | ReadExisting(p: Id)
    | Return(p: Id, response: Response)
    | Throw(p: Id)
    | Resolve(p: Id, stored: bool)
    | Release(p: Id, stored: bool)
    | Crash(p: Id)

  predicate At(y: System, p: Id, phase: Phase) {
    p in y.procs && y.procs[p].phase == phase
  }

  predicate Enabled(y: System, m: Move) {
    match m
    case ConfirmDraft(p, k) => p !in y.requests && k !in y.records
    case Start(p, _, operation) => p !in y.requests && !operation.DraftConfirm?
    case Insert(p) => At(y, p, Claiming)
    case ReadExisting(p) => At(y, p, Conflicted)
    case Return(p, _) => At(y, p, Executing)
    case Throw(p) => At(y, p, Executing)
    case Resolve(p, _) => p in y.procs && y.procs[p].phase.Resolving?
    case Release(p, _) => At(y, p, Releasing)
    case Crash(p) => p in y.procs
  }

  function Moved(y: System, p: Id, phase: Option<Phase>): System
    requires p in y.procs
  {
    match phase
    case None => y.(procs := y.procs - {p})
    case Some(f) => y.(procs := y.procs[p := y.procs[p].(phase := f)])
  }

  function Next(y: System, m: Move): System
    requires Enabled(y, m)
  {
    match m
    case ConfirmDraft(p, k) => y.(records := y.records[k := Record(DraftConfirm, Completed(None), p)], requests := y.requests + {p})
    case Start(p, k, operation) => y.(procs := y.procs[p := Process(k, operation, Claiming)], requests := y.requests + {p})
    case Insert(p) =>
      var q := y.procs[p];
      if q.key in y.records then Moved(y, p, Some(Conflicted))
      else Moved(y, p, Some(Executing)).(records := y.records[q.key := Record(q.operation, Running, p)])
    case ReadExisting(p) =>
      var q := y.procs[p];
      if q.key in y.records && y.records[q.key].operation == q.operation && y.records[q.key].status.Completed?
         && y.records[q.key].status.response.Some?
      then Moved(y, p, None).(replayed := y.replayed + [Answered(q.key, y.records[q.key].status.response.value)])
      else Moved(y, p, None)
    case Return(p, response) => Moved(y, p, Some(Resolving(response)))
    case Throw(p) => Moved(y, p, Some(Releasing))
    case Resolve(p, stored) =>
      var q := y.procs[p];
      var answered := y.returned + [Answered(q.key, q.phase.response)];
      if stored && q.key in y.records
      then Moved(y, p, None).(returned := answered,
                              records := y.records[q.key := y.records[q.key].(status := Completed(Some(q.phase.response)))])
      else Moved(y, p, None).(returned := answered)
    case Release(p, stored) =>
      var k := y.procs[p].key;
      if stored && k in y.records && y.records[k].status.Running? then Moved(y, p, None).(records := y.records - {k})
      else Moved(y, p, None)
    case Crash(p) => Moved(y, p, None)
  }

  ghost predicate Takes(y: System, m: Move, y': System) {
    Enabled(y, m) && y' == Next(y, m)
  }

  predicate Starts(y: System) {
    y == System(map[], map[], {}, [], [])
  }

  // ---------------------------------------------------------------- the invariant

  /** Between its insert and its last statement a request owns the running record of its key. */
  predicate InFlight(phase: Phase) {
    phase.Executing? || phase.Resolving? || phase.Releasing?
  }

  predicate OwnsRecord(y: System, p: Id)
    requires p in y.procs
  {
    var k := y.procs[p].key;
    k in y.records && y.records[k] == Record(y.procs[p].operation, Running, p)
  }

  ghost predicate OwnersOk(y: System) {
    && (forall p :: p in y.procs && InFlight(y.procs[p].phase) ==> OwnsRecord(y, p))
    && (forall p :: p in y.procs ==> p in y.requests)
    && (forall k :: k in y.records ==> y.records[k].owner in y.requests)
  }

  /** Once an execution has returned, its record stays and its owner is gone. */
  ghost predicate ReturnedOk(y: System) {
    && (forall i :: 0 <= i < |y.returned| ==> y.returned[i].key in y.records && y.records[y.returned[i].key].owner !in y.procs)
    && (forall i, j :: 0 <= i < j < |y.returned| ==> y.returned[i].key != y.returned[j].key)
  }

  predicate RecordOk(y: System, k: UserKey)
    requires k in y.records
  {
    y.records[k].status.Completed? && y.records[k].status.response.Some? ==>
      Answered(k, y.records[k].status.response.value) in y.returned
  }

  ghost predicate Inv(y: System) {
    && OwnersOk(y) && ReturnedOk(y)
    && (forall k :: k in y.records ==> RecordOk(y, k))
    && (forall a :: a in y.replayed ==> a in y.returned)
  }

  lemma DropKeepsInv(y: System, p: Id)
    requires Inv(y) && p in y.procs
    ensures Inv(Moved(y, p, None))
  {
  }

  lemma InsertKeepsInv(y: System, p: Id)
    requires Inv(y) && At(y, p, Claiming)
    ensures Inv(Next(y, Insert(p)))
  {
    var y' := Next(y, Insert(p));
    forall k | k in y'.records ensures RecordOk(y', k) {
      if k in y.records {
        assert RecordOk(y, k);
      }
    }
  }

  lemma ReadKeepsInv(y: System, p: Id)
    requires Inv(y) && At(y, p, Conflicted)
    ensures Inv(Next(y, ReadExisting(p)))
  {
    DropKeepsInv(y, p);
    var k := y.procs[p].key;
    if k in y.records {
      assert RecordOk(y, k);
    }
  }

  lemma ResolveKeepsInv(y: System, p: Id, stored: bool)
    requires Inv(y) && Enabled(y, Resolve(p, stored))
    ensures Inv(Next(y, Resolve(p, stored)))
  {
    var q, y' := y.procs[p], Next(y, Resolve(p, stored));
    assert OwnsRecord(y, p);
    assert y'.returned[|y.returned|] == Answered(q.key, q.phase.response);
    assert forall a :: a in y.returned ==> a in y'.returned;
    forall k | k in y'.records ensures RecordOk(y', k) {
      assert RecordOk(y, k);
    }
    forall r | r in y'.procs && InFlight(y'.procs[r].phase) ensures OwnsRecord(y', r) {
      assert OwnsRecord(y, r);
    }
  }

  lemma ReleaseKeepsInv(y: System, p: Id, stored: bool)
    requires Inv(y) && Enabled(y, Release(p, stored))
    ensures Inv(Next(y, Release(p, stored)))
  {
    var y' := Next(y, Release(p, stored));
    assert OwnsRecord(y, p);
    forall r | r in y'.procs && InFlight(y'.procs[r].phase) ensures OwnsRecord(y', r) {
      assert OwnsRecord(y, r);
    }
    forall k | k in y'.records ensures RecordOk(y', k) {
      assert RecordOk(y, k);
    }
  }

  lemma AdvanceKeepsInv(y: System, p: Id, phase: Phase)
    requires Inv(y) && At(y, p, Executing) && (phase.Resolving? || phase.Releasing?)
    ensures Inv(Moved(y, p, Some(phase)))
  {
    assert OwnsRecord(y, p);
  }

  lemma NextKeepsInv(y: System, m: Move)
    requires Inv(y) && Enabled(y, m)
    ensures Inv(Next(y, m))
  {
    match m
    case ConfirmDraft(p, k) => ConfirmKeepsInv(y, p, k);
    case Start(_, _, _) =>
    case Insert(p) => InsertKeepsInv(y, p);
    case ReadExisting(p) => ReadKeepsInv(y, p);
    case Return(p, response) => AdvanceKeepsInv(y, p, Resolving(response));
    case Throw(p) => AdvanceKeepsInv(y, p, Releasing);
    case Resolve(p, stored) => ResolveKeepsInv(y, p, stored);
    case Release(p, stored) => ReleaseKeepsInv(y, p, stored);
    case Crash(p) => DropKeepsInv(y, p);
  }

  lemma ConfirmKeepsInv(y: System, p: Id, k: UserKey)
    requires Inv(y) && Enabled(y, ConfirmDraft(p, k))
    ensures Inv(Next(y, ConfirmDraft(p, k)))
  {
    var y' := Next(y, ConfirmDraft(p, k));
    forall j | j in y'.records ensures RecordOk(y', j) {
      if j in y.records {
        assert RecordOk(y, j);
      }
    }
  }

  // ---------------------------------------------------------------- whole runs

  lemma StepsPreserve()
    ensures Preserved(Takes, Inv)
  {
    forall y, m, y' | Inv(y) && Takes(y, m, y') ensures Inv(y') {
      NextKeepsInv(y, m);
    }
  }

  predicate Holds(y: System, p: Id, k: UserKey) {
    p in y.procs && InFlight(y.procs[p].phase) && y.procs[p].key == k
  }

  /**
   * In every interleaving, with failed resolves, failed releases and crashes: at most one request
   * per key is in flight, at most one execution per key returns, and every replay gives exactly
   * the response that execution returned.
   */
  lemma OneExecutionPerKey(states: seq<System>, moves: seq<Move>, n: nat)
    requires IsRun(Takes, states, moves) && Starts(states[0]) && n <= |moves|
    ensures var y := states[n];
      && (forall p, q, k :: Holds(y, p, k) && Holds(y, q, k) ==> p == q)
      && (forall i, j :: 0 <= i < j < |y.returned| ==> y.returned[i].key != y.returned[j].key)
      && (forall a :: a in y.replayed ==> a in y.returned)
  {
    StepsPreserve();
    RunKeepsInv(Takes, Inv, states, moves, n);
    var y := states[n];
    forall p, q, k | Holds(y, p, k) && Holds(y, q, k) ensures p == q {
      assert OwnsRecord(y, p) && OwnsRecord(y, q);
    }
  }

  /** The request whose statement a step is. */
  function Actor(m: Move): Id {
    m.p
  }

  /** A record is changed or removed only by the request that inserted it, and only while running. */
  lemma RecordsAreNotClobbered(y: System, m: Move, k: UserKey)
    requires Inv(y) && Enabled(y, m) && k in y.records
    requires k !in Next(y, m).records || Next(y, m).records[k] != y.records[k]
    ensures y.records[k].owner == Actor(m) && y.records[k].status.Running?
  {
    if m.Resolve? || m.Release? {
      assert OwnsRecord(y, m.p);
    }
  }

  /** A request that stopped for good leaves its key in progress: no later request executes under it. */
  lemma StuckKeyStaysStuck(y: System, m: Move, k: UserKey)
    requires Inv(y) && Enabled(y, m)
    requires k in y.records && y.records[k].status.Running? && y.records[k].owner !in y.procs
    ensures k in Next(y, m).records && Next(y, m).records[k] == y.records[k] && y.records[k].owner !in Next(y, m).procs
  {
    if m.Resolve? || m.Release? {
      assert OwnsRecord(y, m.p);
    }
  }

  ghost predicate Finished(y: System, k: UserKey, operation: Operation, response: Response) {
    k in y.records && y.records[k].operation == operation && y.records[k].status == Completed(Some(response))
  }

  predicate Asks(y: System, p: Id, k: UserKey) {
    p in y.procs && y.procs[p].key == k
  }

  /** An answer once stored stays stored. */
  lemma FinishedStays(states: seq<System>, moves: seq<Move>, a: nat, b: nat, k: UserKey, operation: Operation, response: Response)
    requires IsRun(Takes, states, moves) && Starts(states[0]) && a <= b <= |moves|
    requires Finished(states[a], k, operation, response)
    ensures Finished(states[b], k, operation, response)
    decreases b - a
  {
    if a < b {
      FinishedStays(states, moves, a, b - 1, k, operation, response);
      StepsPreserve();
      RunKeepsInv(Takes, Inv, states, moves, b - 1);
      assert Takes(states[b - 1], moves[b - 1], states[b]);
      if k !in states[b].records || states[b].records[k] != states[b - 1].records[k] {
        RecordsAreNotClobbered(states[b - 1], moves[b - 1], k);
      }
    }
  }

  /**
   * Whatever happens after an answer has been stored: a request that comes with the same key never
   * executes, and when it reads the record it is given that answer, and nobody else is given one.
   * Under another operation it is given none.
   */
  lemma RetryIsAnswered(states: seq<System>, moves: seq<Move>, a: nat, b: nat, k: UserKey, operation: Operation, response: Response)
    requires IsRun(Takes, states, moves) && Starts(states[0]) && a <= b < |moves|
    requires Finished(states[a], k, operation, response)
    ensures forall p :: moves[b] == Insert(p) && Asks(states[b], p, k) ==>
      At(states[b + 1], p, Conflicted) && states[b + 1].records == states[b].records
    ensures forall p :: moves[b] == ReadExisting(p) && Asks(states[b], p, k) ==>
      states[b + 1].replayed == states[b].replayed + (if states[b].procs[p].operation == operation then [Answered(k, response)] else [])
    ensures !moves[b].ReadExisting? ==> states[b + 1].replayed == states[b].replayed
    ensures Finished(states[b + 1], k, operation, response)
  {
    FinishedStays(states, moves, a, b, k, operation, response);
    FinishedStays(states, moves, a, b + 1, k, operation, response);
    assert Takes(states[b], moves[b], states[b + 1]);
  }

  /** A stored answer is the one its own execution returned, under the operation that claimed the key. */
  lemma StoredAnswer(y: System, p: Id)
    requires Inv(y) && Enabled(y, Resolve(p, true))
    ensures var q := y.procs[p];
      && Finished(Next(y, Resolve(p, true)), q.key, q.operation, q.phase.response)
      && Next(y, Resolve(p, true)).returned == y.returned + [Answered(q.key, q.phase.response)]
  {
    assert OwnsRecord(y, p);
  }

  // ---------------------------------------------------------------- one request alone

  datatype Outcome = New(response: Response) | Replay(response: Response) | InProgress | OtherOperation | Failed

  /** What the record of `k` is once a first request alone has answered, or has thrown. */
  function RecordsAfter(records: map<UserKey, Record>, p: Id, k: UserKey, operation: Operation, result: Option<Response>, stored: bool): map<UserKey, Record> {
    if stored && result.None? then records
    else records[k := Record(operation, if stored then Completed(result) else Running, p)]
  }

  /** A request with a new key, run through with nothing in between, executes and leaves that record. */
  lemma FirstRequestAlone(y: System, p: Id, k: UserKey, operation: Operation, result: Option<Response>, stored: bool)
    requires Enabled(y, Start(p, k, operation)) && k !in y.records && p !in y.procs
    ensures var y1 := Next(Next(y, Start(p, k, operation)), Insert(p));
      && At(y1, p, Executing)
      && (var y2 := Next(y1, if result.Some? then Return(p, result.value) else Throw(p));
          && (result.Some? ==> At(y2, p, Resolving(result.value))) && (result.None? ==> At(y2, p, Releasing))
          && Next(y2, if result.Some? then Resolve(p, stored) else Release(p, stored)) ==
             y.(requests := y.requests + {p}, records := RecordsAfter(y.records, p, k, operation, result, stored),
                returned := y.returned + (if result.Some? then [Answered(k, result.value)] else [])))
  {
    var y1 := Next(Next(y, Start(p, k, operation)), Insert(p));
    var y2 := Next(y1, if result.Some? then Return(p, result.value) else Throw(p));
    assert y2.procs - {p} == y.procs;
    assert y2.records - {k} == y.records;
  }

  class KeyTable {
    var records: map<UserKey, Record>

    constructor ()
      ensures records == map[]
    {
      records := map[];
    }

    /** Claim, execute, then resolve or release; `result` is None when the execution throws. */
    method ExecuteOnce(p: Id, k: UserKey, operation: Operation, result: Option<Response>, stored: bool) returns (outcome: Outcome)
      modifies this
      ensures k !in old(records) ==> outcome == if result.Some? then New(result.value) else Failed
      ensures k in old(records) ==> records == old(records)
      ensures k in old(records) && old(records)[k].operation != operation ==> outcome == OtherOperation
      ensures k in old(records) && old(records)[k].operation == operation && old(records)[k].status.Running? ==> outcome == InProgress
      ensures forall x :: k in old(records) && old(records)[k].operation == operation && old(records)[k].status == Completed(Some(x)) ==>
        outcome == Replay(x)
      ensures k in old(records) && old(records)[k].operation == operation && old(records)[k].status == Completed(None) ==>
        outcome == Replay(Response(200, ""))
      ensures k !in old(records) ==> records == RecordsAfter(old(records), p, k, operation, result, stored)
    {
      if k in records {
        var existing := records[k];
        if existing.operation != operation {
          return OtherOperation;
        }
        match existing.status {
          case Running => return InProgress;
          case Completed(None) => return Replay(Response(200, ""));
          case Completed(Some(response)) => return Replay(response);
        }
      }
      ghost var before := records;
      records := records[k := Record(operation, Running, p)];
      if result.None? {
        if stored {
          records := records - {k};
          assert records == before;
        }
        return Failed;
      }
      if stored {
        records := records[k := records[k].(status := Completed(result))];
      }
      return New(result.value);
    }
  }
}
