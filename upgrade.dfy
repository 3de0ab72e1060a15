/** `createProgramUpgrade`: derive the program-manager and managed-program
    addresses, check the fetched managed-program record against the
    expected program, derive the upgrade address at the next index, build
    the call and submit it with bounded retry.

    The network is an oracle: the managed-program record the fetch returns
    is a parameter, and so are the answers of the successive `rpc()` calls. */
module Upgrade {
  import opened Outcomes
  import opened Keys
  import opened Transaction
  import opened Retry

  /** The caller's arguments that the pipeline uses; of the wallet only its
      public key matters here. */
  datatype Request = Request(
    multisig: PublicKey,
    programId: PublicKey,
    programIndex: nat,
    buffer: PublicKey,
    spill: PublicKey,
    authority: PublicKey,
    name: string,
    creator: PublicKey)

  /** The derivations and the program manager's program id, which is their
      namespace. */
  datatype Env = Env(pdas: Pdas, programManagerProgramId: PublicKey)

  /** The managed-program record as fetched from the ledger. */
  datatype ManagedProgram = ManagedProgram(programAddress: PublicKey, upgradeIndex: nat)

  /** What the pipeline does on the network, in order. */
  datatype Effect =
    | FetchManagedProgram(address: PublicKey)
    | SubmitRpc(call: Call)

  function ProgramManagerPda(env: Env, req: Request): PublicKey {
    env.pdas.programManager(req.multisig, env.programManagerProgramId)
  }

  function ManagedProgramPda(env: Env, req: Request): PublicKey {
    env.pdas.managedProgram(ProgramManagerPda(env, req), req.programIndex, env.programManagerProgramId)
  }

  /** The mismatch check and the index the upgrade address is derived at:
      the record must name the expected program, and then the upgrade goes
      to the slot after the record's current one. */
  function NextUpgradeIndex(record: ManagedProgram, programId: PublicKey): (r: Result<nat>)
    ensures r.Failure? <==> record.programAddress != programId
    ensures r.Failure? ==> r.error == MismatchedProgramIndex
    ensures r.Success? ==> r.value > record.upgradeIndex && r.value - record.upgradeIndex == 1
  {
    if record.programAddress != programId then Failure(MismatchedProgramIndex)
    else Success(record.upgradeIndex + 1)
  }

  /** Everything before the first submission: validation, next-index
      derivation and assembly of the call. */
  function Prepare(env: Env, req: Request, record: ManagedProgram): (r: Result<Call>)
    ensures r.Failure? <==> record.programAddress != req.programId
    ensures r.Failure? ==> r.error == MismatchedProgramIndex
    ensures r.Success? ==>
      && StrictAccounts(r.value.accounts)
      && r.value.accounts["creator"] == req.creator
      && r.value.accounts["multisig"] == req.multisig
      && r.value.accounts["programManager"] == ProgramManagerPda(env, req)
      && r.value.accounts["managedProgram"] == ManagedProgramPda(env, req)
      && r.value.accounts["programUpgrade"]
           == env.pdas.programUpgrade(ManagedProgramPda(env, req), record.upgradeIndex + 1, env.programManagerProgramId)
      && r.value.accounts["systemProgram"] == SYSTEM_PROGRAM_ID
      && Instructions(r.value)
           == [SetComputeUnitPrice(COMPUTE_UNIT_PRICE), Instruction.CreateProgramUpgrade(req.buffer, req.spill, req.authority, req.name)]
  {
    match NextUpgradeIndex(record, req.programId)
    case Failure(e) => Failure(e)
    case Success(next) =>
      var managed := ManagedProgramPda(env, req);
      var upgrade := env.pdas.programUpgrade(managed, next, env.programManagerProgramId);
      Success(BuildCall(
        req.buffer, req.spill, req.authority, req.name,
        req.creator, req.multisig, ProgramManagerPda(env, req), managed, upgrade))
  }

  /** The upgrade address is never the one of the record's current index,
      provided the derivation separates indices. */
  lemma UpgradeNotAtCurrentIndex(env: Env, req: Request, record: ManagedProgram)
    requires UpgradeIndexInjective(env.pdas, ManagedProgramPda(env, req), env.programManagerProgramId)
    requires Prepare(env, req, record).Success?
    ensures Prepare(env, req, record).value.accounts["programUpgrade"]
              != env.pdas.programUpgrade(ManagedProgramPda(env, req), record.upgradeIndex, env.programManagerProgramId)
  {
  }

  /** The whole pipeline. `effects` lists, in order, the fetch and every
      `rpc()` call it makes. */
  method CreateProgramUpgrade(env: Env, req: Request, record: ManagedProgram, outcomes: seq<Option<TxId>>)
    returns (r: Result<TxId>, effects: seq<Effect>)
    requires |outcomes| >= MAX_RETRIES
    ensures |effects| >= 1 && effects[0] == FetchManagedProgram(ManagedProgramPda(env, req))
    ensures record.programAddress != req.programId ==>
      r == Failure(MismatchedProgramIndex) && |effects| == 1
    ensures record.programAddress == req.programId ==>
      && 2 <= |effects| <= 1 + MAX_RETRIES
      && (forall i :: 1 <= i < |effects| ==> effects[i] == SubmitRpc(Prepare(env, req, record).value))
      && r == Retried(outcomes).result
      && |effects| - 1 == Retried(outcomes).rpcCalls
  {
    effects := [FetchManagedProgram(ManagedProgramPda(env, req))];
    var prepared := Prepare(env, req, record);
    if prepared.Failure? {
      r := Failure(prepared.error);
      return;
    }
    var attempt, sent;
    r, attempt, sent := SubmitWithRetry(prepared.value, outcomes);
    effects := effects + seq(|sent|, i requires 0 <= i < |sent| => SubmitRpc(sent[i]));
  }
}
