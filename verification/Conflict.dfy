/** The committed-nonce index that catches a sender reusing a nonce. */
module Conflicts {
  import opened Core
  import opened Ledgers

  datatype ConflictResult =
    | NoConflict
    | NonceConflict(existing: TxHash)
    | OverSpend(attempted: u64, available: u64)

  function Check(committed: map<(Address, u64), TxHash>, tx: Transaction, available: u64, pending: u64):
    ConflictResult
  {
    var needed := SaturatingAdd(SaturatingAdd(pending, tx.amount), tx.fee);
    if (tx.sender, tx.nonce) in committed then NonceConflict(committed[(tx.sender, tx.nonce)])
    else if needed > available then OverSpend(needed, available)
    else NoConflict
  }

  class ConflictDetector {
    const env: Env
    var committed: map<(Address, u64), TxHash>

    constructor (env: Env)
      ensures this.env == env && committed == map[]
    {
      this.env := env;
      committed := map[];
    }

    method CheckTransaction(tx: Transaction, available: u64, pending: u64) returns (r: ConflictResult)
      ensures r == Check(committed, tx, available, pending)
      ensures var needed := Min(pending + tx.amount + tx.fee, TWO64 - 1);
              if (tx.sender, tx.nonce) in committed then r == NonceConflict(committed[(tx.sender, tx.nonce)])
              else if needed > available then r == OverSpend(needed, available)
              else r == NoConflict
    {
      var key := (tx.sender, tx.nonce);
      if key in committed {
        return NonceConflict(committed[key]);
      }
      var needed := SaturatingAdd(SaturatingAdd(pending, tx.amount), tx.fee);
      if needed > available {
        return OverSpend(needed, available);
      }
      r := NoConflict;
    }

    method CommitTransaction(tx: Transaction)
      modifies this
      ensures committed == old(committed)[(tx.sender, tx.nonce) := env.hash(tx)]
    {
      committed := committed[(tx.sender, tx.nonce) := env.hash(tx)];
    }
  }
}
