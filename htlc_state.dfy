/** The state machine of a hashed timelock contract (HTLC), as values.
    A `Contract` is a snapshot of every field of the script's HTLC object;
    `ClaimStatus` and `RefundStatus` are the guard chains of Alice's and Bob's
    branches, `Step` is one call of `fund`, `claim` or `refund`, and `Run`
    replays a whole sequence of calls. The lemmas at the end are about every
    such sequence. */
module HtlcState {

  datatype Option<+T> = None | Some(value: T)

  /** Who took the funds: the script writes "Alice" or "Bob" into `claimed_by`. */
  datatype Party = Alice | Bob

  /** The outcome of a call. `Success` is the script's `True`; every other
      value is one of its `False` returns, named after the message it prints. */
  datatype Status =
    | Success
    | NotFunded          // "Contract not funded yet"
    | PreimageMismatch   // "Secret preimage does not match expected hash"
    | InvalidSignature   // "Invalid Alice signature" / "Invalid Bob signature"
    | TimeoutElapsed     // "Timeout elapsed: Alice cannot claim, Bob can refund"
    | TimeoutNotReached  // "Timeout not reached yet: Bob cannot refund"

  /** HASH160 (RIPEMD-160 of SHA-256) of a secret, as a hex digest. The model
      does not compute it: it is supplied by the caller, and being a Dafny
      function it is deterministic. */
  type Hash160Fn = string -> string

  /** Every field of the HTLC object. Time is a whole number of seconds. */
  datatype Contract = Contract(
    secretHash: string,
    aliceKey: string,
    bobKey: string,
    timeout: int,
    funded: bool,
    claimedBy: Option<Party>)

  /** One call on the contract, with the time at which it is made. */
  datatype Op =
    | FundOp
    | ClaimOp(secret: string, aliceSignature: string, now: int)
    | RefundOp(bobSignature: string, now: int)

  /** The terms fixed at construction: the hash lock, both keys and the timeout. */
  predicate SameTerms(c: Contract, d: Contract)
  {
    c.secretHash == d.secretHash && c.aliceKey == d.aliceKey &&
    c.bobKey == d.bobKey && c.timeout == d.timeout
  }

  /** Alice's branch: funded, then preimage, then signature, then timeout. */
  function ClaimStatus(c: Contract, hash160: Hash160Fn, secret: string, aliceSignature: string, now: int): (r: Status)
    ensures r == Success <==>
      c.funded && hash160(secret) == c.secretHash && aliceSignature == c.aliceKey && now <= c.timeout
    ensures r == NotFunded <==> !c.funded
    ensures r == PreimageMismatch <==> c.funded && hash160(secret) != c.secretHash
    ensures r == InvalidSignature <==>
      c.funded && hash160(secret) == c.secretHash && aliceSignature != c.aliceKey
    ensures r == TimeoutElapsed <==>
      c.funded && hash160(secret) == c.secretHash && aliceSignature == c.aliceKey && now > c.timeout
    ensures r != TimeoutNotReached
  {
    if !c.funded then NotFunded
    else if hash160(secret) != c.secretHash then PreimageMismatch
    else if aliceSignature != c.aliceKey then InvalidSignature
    else if now > c.timeout then TimeoutElapsed
    else Success
  }

  /** Bob's branch: funded, then timeout, then signature. */
  function RefundStatus(c: Contract, bobSignature: string, now: int): (r: Status)
    ensures r == Success <==> c.funded && now >= c.timeout && bobSignature == c.bobKey
    ensures r == NotFunded <==> !c.funded
    ensures r == TimeoutNotReached <==> c.funded && now < c.timeout
    ensures r == InvalidSignature <==> c.funded && now >= c.timeout && bobSignature != c.bobKey
    ensures r != PreimageMismatch && r != TimeoutElapsed
  {
    if !c.funded then NotFunded
    else if now < c.timeout then TimeoutNotReached
    else if bobSignature != c.bobKey then InvalidSignature
    else Success
  }

  /** The party whose branch a successful call resolves to (none for `fund`). */
  function Resolver(op: Op): Option<Party>
  {
    match op
    case FundOp => None
    case ClaimOp(_, _, _) => Some(Alice)
    case RefundOp(_, _) => Some(Bob)
  }

  /** A call of Alice's branch: its outcome and the contract afterwards. */
  function ClaimStep(c: Contract, hash160: Hash160Fn, secret: string, aliceSignature: string, now: int): (Status, Contract)
  {
    var r := ClaimStatus(c, hash160, secret, aliceSignature, now);
    (r, if r == Success then c.(claimedBy := Some(Alice)) else c)
  }

  /** A call of Bob's branch: its outcome and the contract afterwards. */
  function RefundStep(c: Contract, bobSignature: string, now: int): (Status, Contract)
  {
    var r := RefundStatus(c, bobSignature, now);
    (r, if r == Success then c.(claimedBy := Some(Bob)) else c)
  }

  /** One call: its outcome and the contract afterwards. Only a successful call
      writes: `fund` sets `funded`, a successful claim or refund overwrites
      `claimedBy` (neither reads it first). */
  function Step(c: Contract, hash160: Hash160Fn, op: Op): (res: (Status, Contract))
    ensures SameTerms(res.1, c)
    ensures res.0 != Success ==> res.1 == c
    ensures op.FundOp? ==> res.0 == Success && res.1 == c.(funded := true)
    ensures res.1.funded == (c.funded || op.FundOp?)
    ensures res.0 == Success && !op.FundOp? ==> res.1.claimedBy == Resolver(op)
    ensures res.1.claimedBy != c.claimedBy ==> res.0 == Success && res.1.claimedBy == Resolver(op)
  {
    match op
    case FundOp => (Success, c.(funded := true))
    case ClaimOp(secret, aliceSignature, now) => ClaimStep(c, hash160, secret, aliceSignature, now)
    case RefundOp(bobSignature, now) => RefundStep(c, bobSignature, now)
  }

  /** The contract after a sequence of calls made one after another. */
  function Run(c: Contract, hash160: Hash160Fn, ops: seq<Op>): Contract
    decreases |ops|
  {
    if ops == [] then c else Run(Step(c, hash160, ops[0]).1, hash160, ops[1..])
  }

  /** A claim call that would pass every check of Alice's branch except "funded". */
  predicate ClaimAuthorised(c: Contract, hash160: Hash160Fn, op: Op)
  {
    op.ClaimOp? && hash160(op.secret) == c.secretHash &&
    op.aliceSignature == c.aliceKey && op.now <= c.timeout
  }

  /** A refund call that would pass every check of Bob's branch except "funded". */
  predicate RefundAuthorised(c: Contract, op: Op)
  {
    op.RefundOp? && op.bobSignature == c.bobKey && op.now >= c.timeout
  }

  // ----- Single calls -----

  /** `fund` again leaves the state exactly as the first `fund` left it. */
  lemma FundIdempotent(c: Contract, hash160: Hash160Fn)
    ensures var once := Step(c, hash160, FundOp).1;
      once.funded && Step(once, hash160, FundOp).1 == once
  {
  }

  /** At the instant `now == timeout` both branches are open: with the right
      inputs a claim and a refund each succeed. */
  lemma BothBranchesOpenAtTimeout(c: Contract, hash160: Hash160Fn, secret: string)
    requires c.funded && hash160(secret) == c.secretHash
    ensures ClaimStatus(c, hash160, secret, c.aliceKey, c.timeout) == Success
    ensures RefundStatus(c, c.bobKey, c.timeout) == Success
  {
  }

  /** A refund before the timeout fails whatever key is presented, and a claim
      after it fails even with the right secret and key. */
  lemma TimeoutSeparatesBranches(c: Contract, hash160: Hash160Fn, op: Op)
    requires c.funded
    requires op.RefundOp? ==> op.now < c.timeout
    requires op.ClaimOp? ==> op.now > c.timeout
    ensures !op.FundOp? ==> Step(c, hash160, op).0 != Success
    ensures op.RefundOp? ==> Step(c, hash160, op).0 == TimeoutNotReached
    ensures op.ClaimOp? && hash160(op.secret) == c.secretHash && op.aliceSignature == c.aliceKey ==>
      Step(c, hash160, op).0 == TimeoutElapsed
  {
  }

  /** Nothing stops a second resolution: a claim succeeds, then a refund at or
      after the timeout succeeds too and overwrites "Alice" with "Bob"; and a
      second claim after a first one succeeds again. */
  lemma ResolutionIsNotFinal(c: Contract, hash160: Hash160Fn, secret: string, claimAt: int, refundAt: int)
    requires c.funded && hash160(secret) == c.secretHash
    requires claimAt <= c.timeout <= refundAt
    ensures var (r1, c1) := Step(c, hash160, ClaimOp(secret, c.aliceKey, claimAt));
      var (r2, c2) := Step(c1, hash160, ClaimOp(secret, c.aliceKey, claimAt));
      var (r3, c3) := Step(c2, hash160, RefundOp(c.bobKey, refundAt));
      r1 == Success && c1.claimedBy == Some(Alice) &&
      r2 == Success && c2 == c1 &&
      r3 == Success && c3.claimedBy == Some(Bob)
  {
  }

  // ----- Sequences of calls -----

  /** No call ever changes the hash lock, the keys or the timeout. */
  lemma {:induction false} RunKeepsTerms(c: Contract, hash160: Hash160Fn, ops: seq<Op>)
    ensures SameTerms(Run(c, hash160, ops), c)
    decreases |ops|
  {
    if ops != [] {
      RunKeepsTerms(Step(c, hash160, ops[0]).1, hash160, ops[1..]);
    }
  }

  /** The contract is funded after a sequence of calls exactly when it was
      funded before or the sequence calls `fund`; it is never unfunded. */
  lemma {:induction false} RunFunded(c: Contract, hash160: Hash160Fn, ops: seq<Op>)
    ensures Run(c, hash160, ops).funded <==> c.funded || FundOp in ops
    decreases |ops|
  {
    if ops != [] {
      RunFunded(Step(c, hash160, ops[0]).1, hash160, ops[1..]);
      assert ops == [ops[0]] + ops[1..];
    }
  }

  /** On a contract that is not funded, and as long as nobody calls `fund`,
      every claim and refund fails and the state never changes. */
  lemma {:induction false} UnfundedIsInert(c: Contract, hash160: Hash160Fn, ops: seq<Op>)
    requires !c.funded && FundOp !in ops
    ensures Run(c, hash160, ops) == c
    decreases |ops|
  {
    if ops != [] {
      assert ops[0] != FundOp;
      UnfundedIsInert(c, hash160, ops[1..]);
    }
  }

  /** `claimedBy` only ever becomes `Alice` through a claim call that presents a
      secret hashing to the lock and Alice's key, no later than the timeout. */
  lemma {:induction false} AliceNeedsPreimage(c: Contract, hash160: Hash160Fn, ops: seq<Op>)
    ensures Run(c, hash160, ops).claimedBy == Some(Alice) ==>
      c.claimedBy == Some(Alice) ||
      exists i :: 0 <= i < |ops| && ClaimAuthorised(c, hash160, ops[i])
    decreases |ops|
  {
    if ops != [] {
      var c1 := Step(c, hash160, ops[0]).1;
      AliceNeedsPreimage(c1, hash160, ops[1..]);
      if Run(c, hash160, ops).claimedBy == Some(Alice) && c.claimedBy != Some(Alice) {
        if c1.claimedBy == Some(Alice) {
          assert ClaimAuthorised(c, hash160, ops[0]);
        } else {
          var j :| 0 <= j < |ops[1..]| && ClaimAuthorised(c1, hash160, ops[1..][j]);
          assert ClaimAuthorised(c, hash160, ops[j + 1]);
        }
      }
    }
  }

  /** `claimedBy` only ever becomes `Bob` through a refund call that presents
      Bob's key at or after the timeout. */
  lemma {:induction false} BobNeedsTimeout(c: Contract, hash160: Hash160Fn, ops: seq<Op>)
    ensures Run(c, hash160, ops).claimedBy == Some(Bob) ==>
      c.claimedBy == Some(Bob) ||
      exists i :: 0 <= i < |ops| && RefundAuthorised(c, ops[i])
    decreases |ops|
  {
    if ops != [] {
      var c1 := Step(c, hash160, ops[0]).1;
      BobNeedsTimeout(c1, hash160, ops[1..]);
      if Run(c, hash160, ops).claimedBy == Some(Bob) && c.claimedBy != Some(Bob) {
        if c1.claimedBy == Some(Bob) {
          assert RefundAuthorised(c, ops[0]);
        } else {
          var j :| 0 <= j < |ops[1..]| && RefundAuthorised(c1, ops[1..][j]);
          assert RefundAuthorised(c, ops[j + 1]);
        }
      }
    }
  }

  /** If every refund is attempted before the timeout, Bob never takes the funds. */
  lemma NoRefundBeforeTimeout(c: Contract, hash160: Hash160Fn, ops: seq<Op>)
    requires c.claimedBy != Some(Bob)
    requires forall i :: 0 <= i < |ops| && ops[i].RefundOp? ==> ops[i].now < c.timeout
    ensures Run(c, hash160, ops).claimedBy != Some(Bob)
  {
    BobNeedsTimeout(c, hash160, ops);
  }

  /** If every claim is attempted after the timeout, Alice never takes the funds,
      whatever secret and key she presents. */
  lemma NoClaimAfterTimeout(c: Contract, hash160: Hash160Fn, ops: seq<Op>)
    requires c.claimedBy != Some(Alice)
    requires forall i :: 0 <= i < |ops| && ops[i].ClaimOp? ==> ops[i].now > c.timeout
    ensures Run(c, hash160, ops).claimedBy != Some(Alice)
  {
    AliceNeedsPreimage(c, hash160, ops);
  }
}
