/** The `createProgramUpgrade` call as the pipeline builds it: the domain
    instruction, its strict account map and its pre-instructions. */
module Transaction {
  import opened Keys

  /** Compute-unit price of the priority directive, in micro-lamports. */
  const COMPUTE_UNIT_PRICE: nat := 100000

  datatype Instruction =
    | SetComputeUnitPrice(microLamports: nat)
    | CreateProgramUpgrade(buffer: PublicKey, spill: PublicKey, authority: PublicKey, name: string)

  /** A method call ready to be sent: the domain instruction, the accounts
      given to `accountsStrict` and the instructions given to `preInstructions`. */
  datatype Call = Call(instruction: Instruction, accounts: map<string, PublicKey>, preInstructions: seq<Instruction>)

  /** The instructions of the transaction a call sends, in order: the
      pre-instructions first, then the domain instruction. */
  function Instructions(c: Call): seq<Instruction> {
    c.preInstructions + [c.instruction]
  }

  /** The accounts the `createProgramUpgrade` instruction declares. */
  const UPGRADE_ACCOUNTS: set<string> :=
    {"creator", "multisig", "programManager", "managedProgram", "programUpgrade", "systemProgram"}

  /** `accountsStrict` resolves nothing itself: the map must name exactly
      the declared accounts, no fewer and no more. */
  predicate StrictAccounts(accounts: map<string, PublicKey>) {
    accounts.Keys == UPGRADE_ACCOUNTS
  }

  /** Builds the call: the domain instruction with its arguments, the six
      named accounts, and one compute-unit price directive before it. */
  function BuildCall(
    buffer: PublicKey, spill: PublicKey, authority: PublicKey, name: string,
    creator: PublicKey, multisig: PublicKey,
    programManager: PublicKey, managedProgram: PublicKey, programUpgrade: PublicKey): (c: Call)
    ensures StrictAccounts(c.accounts)
    ensures c.accounts["creator"] == creator && c.accounts["multisig"] == multisig
    ensures c.accounts["programManager"] == programManager
    ensures c.accounts["managedProgram"] == managedProgram
    ensures c.accounts["programUpgrade"] == programUpgrade
    ensures c.accounts["systemProgram"] == SYSTEM_PROGRAM_ID
    ensures Instructions(c) == [SetComputeUnitPrice(COMPUTE_UNIT_PRICE), CreateProgramUpgrade(buffer, spill, authority, name)]
  {
    Call(
      CreateProgramUpgrade(buffer, spill, authority, name),
      map[
        "creator" := creator,
        "multisig" := multisig,
        "programManager" := programManager,
        "managedProgram" := managedProgram,
        "programUpgrade" := programUpgrade,
        "systemProgram" := SYSTEM_PROGRAM_ID],
      [SetComputeUnitPrice(COMPUTE_UNIT_PRICE)])
  }
}
