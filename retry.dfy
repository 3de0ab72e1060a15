/** The bounded submission loop: the built call is sent with `rpc()` up to
    MAX_RETRIES times, stopping at the first success. The network is an
    oracle: the n-th `rpc()` call (counting from 0) answers `outcomes[n]`,
    `Some(txid)` for a confirmed submission and `None` for a thrown error. */
module Retry {
  import opened Outcomes
  import opened Transaction

  const MAX_RETRIES: nat := 5

  /** The index of the first successful outcome, if there is one. */
  function FirstSuccess(outcomes: seq<Option<TxId>>): (k: Option<nat>)
    ensures k.None? <==> forall j :: 0 <= j < |outcomes| ==> outcomes[j].None?
    ensures k.Some? ==> k.value < |outcomes| && outcomes[k.value].Some?
    ensures k.Some? ==> forall j :: 0 <= j < k.value ==> outcomes[j].None?
  {
    if outcomes == [] then None
    else if outcomes[0].Some? then Some(0)
    else
      match FirstSuccess(outcomes[1..])
      case None => None
      case Some(i) => Some(i + 1)
  }

  /** What the loop ends with: the returned or thrown result, the final
      value of the `attempt` counter, and how many `rpc()` calls it made. */
  datatype Submission = Submission(result: Result<TxId>, failedAttempts: nat, rpcCalls: nat)

  /** The submission the loop should produce for a sequence of outcomes. */
  function Retried(outcomes: seq<Option<TxId>>): (s: Submission)
    requires |outcomes| >= MAX_RETRIES
    ensures 1 <= s.rpcCalls <= MAX_RETRIES
    ensures s.result.Failure? <==> forall j :: 0 <= j < MAX_RETRIES ==> outcomes[j].None?
    ensures s.result.Failure? ==>
      s.result.error == AllAttemptsFailed && s.failedAttempts == MAX_RETRIES && s.rpcCalls == MAX_RETRIES
    ensures s.result.Success? ==>
      && s.failedAttempts < MAX_RETRIES
      && s.rpcCalls == s.failedAttempts + 1
      && outcomes[s.failedAttempts] == Some(s.result.value)
      && forall j :: 0 <= j < s.failedAttempts ==> outcomes[j].None?
  {
    match FirstSuccess(outcomes[..MAX_RETRIES])
    case Some(k) => Submission(Success(outcomes[k].value), k, k + 1)
    case None => Submission(Failure(AllAttemptsFailed), MAX_RETRIES, MAX_RETRIES)
  }

  /** Conversely: when attempt k is the first to succeed, the loop returns
      that attempt's transaction id after exactly k failures and k + 1 calls. */
  lemma FirstSuccessAt(outcomes: seq<Option<TxId>>, k: nat)
    requires |outcomes| >= MAX_RETRIES && k < MAX_RETRIES
    requires outcomes[k].Some? && forall j :: 0 <= j < k ==> outcomes[j].None?
    ensures Retried(outcomes) == Submission(Success(outcomes[k].value), k, k + 1)
  {
  }

  /** The retry loop of `createProgramUpgrade`. `attempt` counts failed
      calls and is the index of the next outcome; `sent` records every call
      handed to `rpc()`. */
  method SubmitWithRetry(call: Call, outcomes: seq<Option<TxId>>)
    returns (r: Result<TxId>, attempt: nat, sent: seq<Call>)
    requires |outcomes| >= MAX_RETRIES
    ensures Submission(r, attempt, |sent|) == Retried(outcomes)
    ensures forall i :: 0 <= i < |sent| ==> sent[i] == call
  {
    attempt := 0;
    sent := [];
    var txid: Option<TxId> := None;
    while attempt < MAX_RETRIES
      invariant attempt <= MAX_RETRIES
      invariant |sent| == attempt
      invariant forall i :: 0 <= i < |sent| ==> sent[i] == call
      invariant forall j :: 0 <= j < attempt ==> outcomes[j].None?
      invariant txid.None?
    {
      sent := sent + [call];
      var outcome := outcomes[|sent| - 1];
      if outcome.Some? {
        txid := outcome;
        break;
      }
      attempt := attempt + 1;
    }
    if attempt == MAX_RETRIES {
      r := Failure(AllAttemptsFailed);
    } else {
      r := Success(txid.value);
    }
  }
}
