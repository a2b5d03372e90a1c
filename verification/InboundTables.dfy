/** The statements of one undisturbed worker: claiming a batch, then processing a job to its end. */
module InboundTables {
  import opened Common
  import opened SeqSums
  import opened InboundJobs
  import opened InboundAlone

  function Leased(job: Job, now: int, leaseMs: nat): Job {
    job.(status := Processing, leaseExpiresAt := now + leaseMs, attempt := job.attempt + 1)
  }

  class Tables {
    var jobs: map<Id, Job>
    var operations: map<Id, Operation>
    var deliveries: map<Id, string>
    var tokens: map<Id, Token>

    constructor ()
    {
      jobs, operations, deliveries, tokens := map[], map[], map[], map[];
    }

    ghost function Contents(): Db
      reads this
    {
      Db(jobs, operations, deliveries.Keys, tokens)
    }

    ghost function IsClaimable(now: int): Id -> bool
      reads this
    {
      var js := jobs;
      (j: Id) => j in js && Claimable(js[j], now)
    }

    /** The oldest claimable jobs, at most a batch of them, are leased; no other job is touched. */
    method ClaimInboundJobs(byAge: seq<Id>, now: int, leaseMs: nat, batchSize: nat) returns (claimed: seq<Id>)
      requires NoDuplicates(byAge) && forall j :: j in byAge ==> j in jobs
      modifies this`jobs
      ensures claimed <= Filtered(byAge, old(IsClaimable(now)))
      ensures |claimed| == batchSize || (|claimed| < batchSize && claimed == Filtered(byAge, old(IsClaimable(now))))
      ensures jobs.Keys == old(jobs.Keys)
      ensures forall j :: j in jobs ==> jobs[j] == if j in claimed then Leased(old(jobs[j]), now, leaseMs) else old(jobs[j])
    {
      ghost var eligible := IsClaimable(now);
      claimed := [];
      var i := 0;
      while i < |byAge| && |claimed| < batchSize
        invariant i <= |byAge| && |claimed| <= batchSize
        invariant claimed == Filtered(byAge[..i], eligible)
        invariant jobs.Keys == old(jobs.Keys)
        invariant forall j :: j in claimed ==> j in byAge[..i]
        invariant forall j :: j in jobs ==> jobs[j] == if j in claimed then Leased(old(jobs[j]), now, leaseMs) else old(jobs[j])
      {
        var j := byAge[i];
        assert byAge[..i + 1][..i] == byAge[..i];
        assert j !in byAge[..i];
        if Claimable(jobs[j], now) {
          jobs := jobs[j := Leased(jobs[j], now, leaseMs)];
          claimed := claimed + [j];
        }
        i := i + 1;
      }
      FilteredPrefix(byAge, i, eligible);
      assert byAge[..|byAge|] == byAge;
    }

    method EndJob(j: Id, status: JobStatus)
      requires j in jobs
      modifies this`jobs
      ensures jobs == old(jobs)[j := old(jobs[j]).(status := status)]
    {
      jobs := jobs[j := jobs[j].(status := status)];
    }

    /** The reply row is created once; a second attempt leaves it as it is. */
    method EnsureOutboundDelivery(j: Id, text: string)
      modifies this`deliveries
      ensures deliveries == if j in old(deliveries) then old(deliveries) else old(deliveries)[j := text]
    {
      if j !in deliveries {
        deliveries := deliveries[j := text];
      }
    }

    /**
     * A message job. The Assistant is asked exactly when the job needs it and has no operation
     * record; a completed record is replayed word for word, an open one ends the job unanswered.
     */
    method ProcessMessageJob(j: Id, direct: Option<string>, assistant: Answer, retry: bool) returns (asked: bool)
      requires j in jobs
      modifies this
      ensures asked <==> direct.None? && j !in old(operations)
      ensures Contents() == MessageOutcome(old(Contents()), j, ForMessage(direct, assistant, retry))
      ensures asked ==> operations[j] == if assistant.Answer? then Operation(Some(assistant.outcome), Some(assistant.text)) else Operation(None, None)
      ensures jobs[j].status ==
              if direct.Some? then Succeeded
              else if asked then (if assistant.Answer? then Succeeded else if retry then FailedRetryable else FailedTerminal)
              else if HasAnswer(old(operations)[j]) then Succeeded else FailedTerminal
      ensures deliveries ==
              if j in old(deliveries) || jobs[j].status != Succeeded then old(deliveries)
              else old(deliveries)[j := if direct.Some? then direct.value else if asked then assistant.text else old(operations)[j].renderedText.value]
    {
      asked := false;
      var replyText;
      if direct.Some? {
        replyText := direct.value;
      } else if j in operations {
        var existing := operations[j];
        if !Present(existing.outcome) || !Present(existing.renderedText) {
          EndJob(j, FailedTerminal);
          return;
        }
        replyText := existing.renderedText.value;
      } else {
        operations := operations[j := Operation(None, None)];
        asked := true;
        if assistant.Thrown? {
          EndJob(j, if retry then FailedRetryable else FailedTerminal);
          return;
        }
        replyText := assistant.text;
        operations := operations[j := Operation(Some(assistant.outcome), Some(assistant.text))];
      }
      EnsureOutboundDelivery(j, replyText);
      EndJob(j, Succeeded);
    }

    /** One-time claim: exactly a pending token can be claimed, and only once. */
    method ClaimCallbackToken(t: Id) returns (claimed: bool)
      modifies this`tokens
      ensures claimed <==> t in old(tokens) && old(tokens)[t].status == TokenPending
      ensures tokens == if claimed then old(tokens)[t := old(tokens)[t].(status := Consumed)] else old(tokens)
    {
      claimed := t in tokens && tokens[t].status == TokenPending;
      if claimed {
        tokens := tokens[t := tokens[t].(status := Consumed)];
      }
    }

    /**
     * The callback of a job: the action runs exactly when the token is pending, unexpired and
     * owned, and then the token is spent. `able` says that the token still carries what it needs.
     */
    method ProcessCallback(t: Id, now: int, owned: bool, able: bool, action: Answer, rejection: Answer) returns (acted: bool, result: Answer)
      requires rejection.Answer?
      modifies this`tokens
      ensures acted <==>
              && t in old(tokens) && old(tokens)[t].status == TokenPending && now < old(tokens)[t].expiresAt && owned && able
      ensures tokens == TokensAfter(old(tokens), t, now, ForCallback(owned, able, action, "", ""))
      ensures result == if acted && action.Answer? then action else rejection
    {
      acted, result := false, rejection;
      if t !in tokens || tokens[t].status != TokenPending {
        return;
      }
      if tokens[t].expiresAt <= now {
        tokens := tokens[t := tokens[t].(status := TokenExpired)];
        return;
      }
      if !owned {
        return;
      }
      var claimed := ClaimCallbackToken(t);
      if !claimed || !able {
        return;
      }
      acted := true;
      if action.Answer? {
        result := action;
      }
    }
  }

  lemma {:induction false} FilteredPrefix<T>(s: seq<T>, n: nat, keep: T -> bool)
    requires n <= |s|
    ensures Filtered(s[..n], keep) <= Filtered(s, keep)
    decreases |s|
  {
    if n < |s| {
      FilteredPrefix(s[..|s| - 1], n, keep);
      assert s[..|s| - 1][..n] == s[..n];
    } else {
      assert s[..n] == s;
    }
  }
}
