/** Ledger addresses and the deterministic program-derived-address (PDA)
    derivations the pipeline asks for. */
module Keys {

  /** A ledger public key, as its raw bytes. */
  datatype PublicKey = PublicKey(bytes: seq<bv8>)

  /** The system program's well-known address: 32 zero bytes. */
  const SYSTEM_PROGRAM_ID: PublicKey :=
    PublicKey([0, 0, 0, 0, 0, 0, 0, 0, 0, 0, 0, 0, 0, 0, 0, 0, 0, 0, 0, 0, 0, 0, 0, 0, 0, 0, 0, 0, 0, 0, 0, 0])

  /** The three PDA derivations of the program-manager program. How they
      hash their seeds is not part of this model: each is an arbitrary total
      function of its inputs, so all the model assumes of them is that the
      same inputs give the same address.
      - programManager(multisig, namespace)
      - managedProgram(programManagerPda, programIndex, namespace)
      - programUpgrade(managedProgramPda, upgradeIndex, namespace) */
  datatype Pdas = Pdas(
    programManager: (PublicKey, PublicKey) -> PublicKey,
    managedProgram: (PublicKey, nat, PublicKey) -> PublicKey,
    programUpgrade: (PublicKey, nat, PublicKey) -> PublicKey)

  /** The upgrade derivation does not map two indices of one managed
      program to the same address (the collision resistance the derivation
      scheme is relied on for). */
  ghost predicate UpgradeIndexInjective(pdas: Pdas, managedProgram: PublicKey, namespace: PublicKey) {
    forall i: nat, j: nat ::
      pdas.programUpgrade(managedProgram, i, namespace) == pdas.programUpgrade(managedProgram, j, namespace) ==> i == j
  }
}
