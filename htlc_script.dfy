/** The HTLC object and its two spending branches, in the script's own shape:
    a class whose `fund` method sets `funded`, and the free procedures `Claim`
    (Alice's branch) and `Refund` (Bob's branch), each a chain of early-return
    guards ending in one write to `claimedBy`. The clock is the argument `now`;
    HASH160 is the argument `hash160`. Each procedure is specified by the
    matching transition of `HtlcState`. */
module HtlcScript {
  import opened HtlcState

  class Htlc {
    const secretHash: string
    const aliceKey: string
    const bobKey: string
    const timeout: int
    var funded: bool
    var claimedBy: Option<Party>

    /** Every field of the object, as a value. */
    function State(): Contract
      reads this
    {
      Contract(secretHash, aliceKey, bobKey, timeout, funded, claimedBy)
    }

    /** A new, unfunded and unclaimed contract whose timeout is `timeoutSeconds`
        after the moment `now` of its creation. */
    constructor (secretHash: string, aliceKey: string, bobKey: string, timeoutSeconds: int, now: int)
      ensures State() == Contract(secretHash, aliceKey, bobKey, now + timeoutSeconds, false, None)
    {
      this.secretHash := secretHash;
      this.aliceKey := aliceKey;
      this.bobKey := bobKey;
      this.timeout := now + timeoutSeconds;
      this.funded := false;
      this.claimedBy := None;
    }

    /** Marks the contract funded; a second call finds it funded already and
        changes nothing. */
    method Fund()
      modifies this`funded
      ensures State() == old(State()).(funded := true)
    {
      funded := true;
    }
  }

  /** Alice's branch: succeeds only on a funded contract, with a secret whose
      HASH160 is the lock, with Alice's key, and no later than the timeout. */
  method Claim(htlc: Htlc, secret: string, aliceSignature: string, now: int, hash160: Hash160Fn)
    returns (r: Status)
    modifies htlc`claimedBy
    ensures (r, htlc.State()) == ClaimStep(old(htlc.State()), hash160, secret, aliceSignature, now)
    ensures r == Success <==>
      old(htlc.funded) && hash160(secret) == htlc.secretHash &&
      aliceSignature == htlc.aliceKey && now <= htlc.timeout
  {
    if !htlc.funded {
      return NotFunded;
    }
    var h160 := hash160(secret);
    if h160 != htlc.secretHash {
      return PreimageMismatch;
    }
    if aliceSignature != htlc.aliceKey {
      return InvalidSignature;
    }
    if now > htlc.timeout {
      return TimeoutElapsed;
    }
    htlc.claimedBy := Some(Alice);
    return Success;
  }

  /** Bob's branch: succeeds only on a funded contract, at or after the
      timeout, with Bob's key. */
  method Refund(htlc: Htlc, bobSignature: string, now: int) returns (r: Status)
    modifies htlc`claimedBy
    ensures (r, htlc.State()) == RefundStep(old(htlc.State()), bobSignature, now)
    ensures r == Success <==> old(htlc.funded) && now >= htlc.timeout && bobSignature == htlc.bobKey
  {
    if !htlc.funded {
      return NotFunded;
    }
    if now < htlc.timeout {
      return TimeoutNotReached;
    }
    if bobSignature != htlc.bobKey {
      return InvalidSignature;
    }
    htlc.claimedBy := Some(Bob);
    return Success;
  }

  /** The script's demonstration run: a contract locked to HASH160("mysecret123")
      with a 1260-second timeout is created at `t0` and funded; if Alice offers
      a secret she claims at once, and if she does not, or her claim fails, Bob
      refunds once the timeout has passed. Alice ends up with the funds exactly
      when the secret she offers hashes to the lock. */
  method Simulate(hash160: Hash160Fn, t0: int, aliceProvidesSecret: bool, aliceSecretInput: string)
    returns (claimedBy: Option<Party>)
    ensures claimedBy ==
      if aliceProvidesSecret && hash160(aliceSecretInput) == hash160("mysecret123")
      then Some(Alice) else Some(Bob)
  {
    var aliceKey := "AliceSecretKey";
    var bobKey := "BobSecretKey";
    var htlc := new Htlc(hash160("mysecret123"), aliceKey, bobKey, 1260, t0);
    htlc.Fund();
    var claimed := false;
    if aliceProvidesSecret {
      var r := Claim(htlc, aliceSecretInput, aliceKey, t0, hash160);
      claimed := r == Success;
    }
    if !claimed {
      var _ := Refund(htlc, bobKey, t0 + 1261);
    }
    claimedBy := htlc.claimedBy;
  }
}
