# Hashed timelock contract (HTLC) — a Dafny model

This project models the HTLC script `Hashed_timelock_contract_script.py`. Bob funds
a contract locked by `secret_hash`, the HASH160 (RIPEMD-160 of SHA-256) of a secret.
Alice may take the funds by revealing a secret that hashes to the lock and presenting
her key, no later than the timeout. Bob may take them back by presenting his key at
or after the timeout.

The model has two modules:

- `HtlcState` (`htlc_state.dfy`) holds the pure state machine. `Contract` is a
  snapshot of every field of the HTLC object. `ClaimStatus` and `RefundStatus` are the
  guard chains of the two branches, in the script's order. `Step` is one call and
  `Run` is a whole sequence of calls. Lemmas over every sequence of calls state what
  the contract guarantees.
- `HtlcScript` (`htlc_script.dfy`) follows the script's own shape. The class `Htlc`
  has the hash lock, the keys and the timeout as constants. `funded` and `claimedBy`
  are mutable fields, and `Fund` updates `funded` in place. The free methods `Claim`
  and `Refund` are chains of early returns ending in one write to `claimedBy`. Each is
  proved equal to the matching transition of `HtlcState`. `Simulate` is the script's
  demonstration run.

Some behaviour is modelled exactly as the code has it, even where a conventional HTLC
design would do otherwise:

- Neither branch reads `claimed_by`. A successful refund after a successful claim
  overwrites "Alice" with "Bob", and a claim may succeed again and again
  (`ResolutionIsNotFinal`).
- `fund` does not reject a second call; it is idempotent instead (`FundIdempotent`).
- There is no "already funded", "already resolved" or "invalid parameter" error.
  The constructor accepts any timeout, even a negative one.
- Alice's branch checks funded, then the preimage, then the signature, and only then
  the timeout. A late claim with a wrong secret therefore reports `PreimageMismatch`,
  not `TimeoutElapsed`.
- At the instant `now == timeout`, both branches are open (`BothBranchesOpenAtTimeout`).

The script's `True`/`False` results become a `Status`. `Success` stands for `True`.
Each other value stands for one `False` return and is named after the message that
return prints.

## Model

| member | source | states |
|---|---|---|
| HtlcScript.Htlc.constructor | Hashed_timelock_contract_script.py:8-14 | The new object stores the hash lock and both keys unchanged, has timeout `now + timeoutSeconds`, is not funded and has no `claimedBy`. |
| HtlcScript.Htlc.Fund | Hashed_timelock_contract_script.py:16-17 | Sets `funded` to true and changes no other field; on a funded contract it changes nothing. |
| HtlcScript.Claim | Hashed_timelock_contract_script.py:23-46 | Returns `Success` iff the contract is funded, HASH160 of the secret is the lock, the signature is Alice's key and `now <= timeout`. The outcome and new state are Alice's transition of the state machine: `claimedBy` becomes Alice on success, and nothing changes on failure. |
| HtlcScript.Refund | Hashed_timelock_contract_script.py:51-68 | Returns `Success` iff the contract is funded, `now >= timeout` and the signature is Bob's key. The outcome and new state are Bob's transition: `claimedBy` becomes Bob on success, and nothing changes on failure. |
| HtlcScript.Simulate | Hashed_timelock_contract_script.py:73-107 | In the demonstration run (lock HASH160("mysecret123"), timeout 1260 s, funded), Alice ends up with the funds exactly when she offers a secret that hashes to the lock. Otherwise Bob's refund after the timeout gives them to Bob. |
| HtlcState.ClaimStatus | Hashed_timelock_contract_script.py:23-42 | Success iff all four of Alice's conditions hold. Each failure is reported by the first failing check in the order funded, preimage, signature, timeout. An unfunded contract always gives `NotFunded`. |
| HtlcState.RefundStatus | Hashed_timelock_contract_script.py:51-64 | Success iff the contract is funded, `now >= timeout` and Bob's key is presented. Each failure is reported by the first failing check in the order funded, timeout, signature. |
| HtlcState.Step | Hashed_timelock_contract_script.py:16-66 | No call changes the lock, the keys or the timeout. A failed call changes nothing. `fund` always succeeds and only sets `funded`. A successful claim or refund sets `claimedBy` to its own party, and `claimedBy` changes only that way. |
| HtlcState.FundIdempotent | Hashed_timelock_contract_script.py:16-17 | After `fund` the contract is funded, and a second `fund` leaves the state identical. |
| HtlcState.BothBranchesOpenAtTimeout | Hashed_timelock_contract_script.py:40-57 | At `now == timeout`, on a funded contract, a claim with the right secret and key and a refund with Bob's key both succeed. |
| HtlcState.TimeoutSeparatesBranches | Hashed_timelock_contract_script.py:40-58 | On a funded contract, a refund before the timeout fails with `TimeoutNotReached` whatever key is given. A claim after the timeout fails, and with the right secret and key it fails with `TimeoutElapsed`. |
| HtlcState.ResolutionIsNotFinal | Hashed_timelock_contract_script.py:44-66 | A successful claim can be repeated, and a later refund at or after the timeout still succeeds and overwrites `claimedBy` from Alice to Bob. |
| HtlcState.RunKeepsTerms | Hashed_timelock_contract_script.py:8-68 | After any sequence of calls, the hash lock, both keys and the timeout are what construction set. |
| HtlcState.RunFunded | Hashed_timelock_contract_script.py:13-17 | After any sequence of calls, the contract is funded iff it was funded before or the sequence calls `fund`. It is never unfunded. |
| HtlcState.UnfundedIsInert | Hashed_timelock_contract_script.py:24-54 | On an unfunded contract, a sequence of calls without `fund` leaves every field unchanged. |
| HtlcState.AliceNeedsPreimage | Hashed_timelock_contract_script.py:23-46 | If `claimedBy` ends as Alice without starting so, then some claim in the sequence presented a secret hashing to the lock and Alice's key, no later than the timeout. |
| HtlcState.BobNeedsTimeout | Hashed_timelock_contract_script.py:51-68 | If `claimedBy` ends as Bob without starting so, then some refund in the sequence presented Bob's key at or after the timeout. |
| HtlcState.NoRefundBeforeTimeout | Hashed_timelock_contract_script.py:56-59 | If every refund in a sequence is attempted before the timeout, Bob never takes the funds. |
| HtlcState.NoClaimAfterTimeout | Hashed_timelock_contract_script.py:39-42 | If every claim in a sequence is attempted after the timeout, Alice never takes the funds, whatever secret and key she gives. |

## Left out

- The `print` calls (lines 18, 25, 31, 36, 41, 45, 53, 58, 63, 67) are console output. They are reflected only as the returned `Status`.
- HASH160 via `hashlib` (line 29) is a foreign library call. It is the parameter `hash160: string -> string`, so it is deterministic but nothing about the cryptography (such as collision resistance) is modelled. UTF-8 encoding of the secret is part of that parameter.
- `time.time()` (lines 12, 40, 57) is the wall clock. It is the parameter `now`, in whole seconds. Floating-point seconds are not modelled.
- The demonstration's `htlc.timeout = time.time() - 1` (lines 100, 106) writes the timeout directly. The model keeps the timeout constant, so `Simulate` calls the refund at `t0 + 1261` instead. The final report (lines 111-115) is output only.
- Concurrency is not modelled: the script is sequential Python, and calls are applied one after another.
