# Program-upgrade proposal pipeline, modelled in Dafny

This project models `createProgramUpgrade` from `src/createProgramUpgrade.ts`.
The function is a client of a program-manager program on Solana. It proposes a
program upgrade on behalf of a multisig, in this order:

1. It derives the program-manager PDA from the multisig.
2. It derives the managed-program PDA from that and the program index.
3. It fetches the managed-program record.
4. It throws `Mismatched program index` when the record's `programAddress` is
   not the expected `programId`.
5. It derives the program-upgrade PDA at `upgradeIndex + 1`.
6. It builds the `createProgramUpgrade` call with a strict account map and one
   compute-unit price pre-instruction (100000 micro-lamports).
7. It calls `rpc()` up to five times and stops at the first success. When all
   five attempts fail, it throws `All attempts to call methods.rpc() have failed.`

The network is an oracle. The fetched record is a parameter. The answers of the
successive `rpc()` calls are a sequence of `Option<TxId>`: the n-th call answers
the n-th element, and `None` stands for a thrown error. The three PDA
derivations are arbitrary total functions, passed in as `Keys.Pdas`. The model
assumes only that they are deterministic.

Files:
- `outcomes.dfy`: `Option`, the two thrown errors and their messages, `Result`.
- `keys.dfy`: public keys, the system program id, the PDA derivations.
- `transaction.dfy`: instructions, the call, the strict account set, `BuildCall`.
- `retry.dfy`: the retry loop (`SubmitWithRetry`) and its specification (`Retried`).
- `upgrade.dfy`: validation, next index, call preparation and the whole pipeline.

The mixed nature of the source is kept:
- The validation, the index arithmetic and the call assembly are plain
  expressions in the source, so they are functions here.
- The retry section mutates `attempt` and `txid` in a `while` loop with `break`,
  so it is a method with that loop.
- `CreateProgramUpgrade` is a method that returns the result and the ordered
  list of network effects: the fetch, then every `rpc()` call.

## Model

| member | source | states |
|---|---|---|
| `Transaction.BuildCall` | src/createProgramUpgrade.ts:78-92 | the account map holds exactly the six declared accounts, with creator = wallet key, the multisig, the three PDAs and the system program; the transaction sends exactly one compute-unit price directive of 100000, followed by the domain instruction with buffer, spill, authority and name |
| `Upgrade.NextUpgradeIndex` | src/createProgramUpgrade.ts:64-69 | fails with the mismatch error if and only if the record's program address differs from the expected program; otherwise gives an index exactly one above the record's current one |
| `Upgrade.Prepare` | src/createProgramUpgrade.ts:49-92 | the mismatch error if and only if the addresses differ; otherwise a strict call whose programUpgrade account is derived from the managed-program PDA at `upgradeIndex + 1`, whose PDAs come from the multisig and program index, and whose instructions are the price directive then the domain instruction |
| `Upgrade.UpgradeNotAtCurrentIndex` | src/createProgramUpgrade.ts:67-71 | when the derivation separates indices, the upgrade account is never the address of the record's current index |
| `Retry.FirstSuccess` | src/createProgramUpgrade.ts:97-107 | no index if and only if every outcome failed; otherwise the index of a success with all earlier outcomes failed |
| `Retry.Retried` | src/createProgramUpgrade.ts:93-111 | between 1 and 5 `rpc()` calls; the exhaustion error if and only if all of the first five outcomes fail, and then `attempt` is 5 after 5 calls; on success, `attempt` is the number of failures before it, below 5, one call more was made, and the returned id is that call's answer |
| `Retry.FirstSuccessAt` | src/createProgramUpgrade.ts:97-115 | if attempt k is the first to succeed, the loop makes exactly k + 1 calls, leaves `attempt` at k and returns that attempt's id |
| `Retry.SubmitWithRetry` | src/createProgramUpgrade.ts:93-111 | the loop's result, final `attempt` and number of `rpc()` calls are those of `Retried`; every call submits the same built call |
| `Upgrade.CreateProgramUpgrade` | src/createProgramUpgrade.ts:49-115 | the fetch of the managed-program PDA comes first; on a mismatch the result is the mismatch error and no `rpc()` call is made; otherwise 1 to 5 `rpc()` calls follow, each submitting the prepared call, and the result is the retry loop's |

## Left out

- Construction of the connection, `AnchorProvider`, `Program` and `Wallet` (src/createProgramUpgrade.ts:39-48) has no local logic. Of the wallet only its public key is kept. The network URL is not modelled.
- How `getProgramManagerPDA`, `getManagedProgramPDA` and `getProgramUpgradePDA` derive addresses: `./pda` is not part of this model. The derivations are parameters of type `Keys.Pdas`, and their bump seeds are dropped. Collision resistance is assumed only where a lemma states it (`Keys.UpgradeIndexInjective`).
- `programManagerProgramId` comes from `./constants`, which is not part of this model. It is the `Env` parameter `programManagerProgramId`.
- The account fetch and `rpc()` are network I/O. They are replaced by the record parameter and the outcome sequence. A fetch that throws, for example because the account is missing, propagates unchanged in the source and is not modelled.
- The 30-second wait inside `rpc()` is network timing and is not modelled.
- Logging (`console.log`, `console.error`) and the explorer URL are output only and are not modelled.
- IDL typing and `BN` wrapping are not modelled: the program index and the upgrade index are naturals. The width of the on-chain index field is not visible, so its overflow is not modelled.
- The address comparison is done in the source on the base-58 strings. The model compares the keys themselves, which is the same test because base-58 encoding is injective.
- `Transaction.StrictAccounts` states the exact-account contract that `accountsStrict` enforces. Anchor's own checking of it is not modelled.
- Signing and transaction serialisation are not modelled. A call's instruction order is its pre-instructions, then the domain instruction (`Transaction.Instructions`).
