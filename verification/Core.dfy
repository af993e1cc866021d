/** Machine words, transactions and errors shared by every module. */
module Core {

  const TWO32 := 0x1_0000_0000
  const TWO64 := 0x1_0000_0000_0000_0000
  const TWO128 := 0x1_0000_0000_0000_0000_0000_0000_0000_0000

  type u64 = x: int | 0 <= x < TWO64

  /** One RLY in base units, the supply cap, and the minimum fee (0.01 RLY). */
  const RLY_UNIT: u64 := 100_000_000
  const TOTAL_SUPPLY: u64 := 25_000_000_000 * RLY_UNIT
  const BASE_FEE: u64 := RLY_UNIT / 100

  /** What `n` overflows of a u64 have dropped. */
  function Dropped(n: nat): nat {
    n * 0x1_0000_0000_0000_0000
  }

  /** `fetch_add` and a release-build `+`: the sum modulo 2^64. */
  function WrappingAdd(a: u64, b: u64): (r: u64)
    ensures r == a + b || r == a + b - TWO64
  {
    if a + b < TWO64 then a + b else a + b - TWO64
  }

  /** `fetch_sub`: the difference modulo 2^64. */
  function WrappingSub(a: u64, b: u64): (r: u64)
    ensures r == a - b || r == a - b + TWO64
  {
    if b <= a then a - b else a - b + TWO64
  }

  function SaturatingAdd(a: u64, b: u64): (r: u64)
    ensures r == if a + b < TWO64 then a + b else TWO64 - 1
  {
    if a + b < TWO64 then a + b else TWO64 - 1
  }

  function Max(a: int, b: int): int {
    if a < b then b else a
  }

  function Min(a: int, b: int): int {
    if a < b then a else b
  }

  type Byte = x: int | 0 <= x < 256

  /** The byte array `[0u8; n]`. */
  function Zeros(n: nat): (z: seq<Byte>)
    ensures |z| == n && forall i :: 0 <= i < n ==> z[i] == 0
  {
    if n == 0 then [] else [0] + Zeros(n - 1)
  }

  lemma QuotientIs(a: nat, b: nat, q: nat)
    requires b > 0 && q * b <= a < (q + 1) * b
    ensures q == a / b
  {
    var k := a / b;
    assert k * b <= a < k * b + b;
    MultipleAtLeast(q - k, b);
    MultipleAtLeast(k - q, b);
    assert (q - k) * b == q * b - k * b == -((k - q) * b);
  }

  lemma MultipleAtLeast(x: int, b: nat)
    ensures x >= 1 ==> x * b >= b
  {}

  lemma SplitLast<T>(s: seq<T>)
    requires s != []
    ensures s == s[..|s| - 1] + [s[|s| - 1]]
  {}

  lemma Reassociate<T>(a: seq<T>, b: seq<T>, c: seq<T>)
    ensures a + (b + c) == (a + b) + c
  {}

  lemma CountInBoth<T>(a: seq<T>, b: seq<T>, x: T)
    ensures multiset(a + b)[x] == multiset(a)[x] + multiset(b)[x]
  {}

  datatype Option<+T> = None | Some(value: T)

  datatype Result<+T> = Ok(value: T) | Err(error: Error)

  datatype Error =
    | InvalidTransaction
    | InvalidSignature
    | Crypto
    | InsufficientBalance(have: u64, need: u64)
    | InvalidParent(parent: TxHash)
    | SupplyCapExceeded
    | DuplicateNonce(nonce: u64)
    | DoubleSpend(tx: TxHash)

  datatype Address = Address(text: string)

  datatype TxHash = TxHash(bytes: seq<Byte>)

  /** The sentinel a genesis transaction carries in both parent slots. */
  const ZERO_HASH: TxHash := TxHash(Zeros(32))

  datatype TxType = Transfer | Stake | Unstake | Slash | Reward | Genesis | ContractCall

  datatype Status = Pending | Voting | Confirmed | Rejected

  /** An account-model transaction. The public key and the signature matter only to `Env`, so they
      are one field, `credentials`. */
  datatype Transaction = Transaction(
    txType: TxType,
    sender: Address,
    receiver: Address,
    amount: u64,
    fee: u64,
    timestamp: u64,
    nonce: u64,
    parent1: TxHash,
    parent2: TxHash,
    data: seq<Byte>,
    credentials: seq<Byte>)
  {
    predicate IsGenesis() {
      txType == Genesis && parent1 == ZERO_HASH && parent2 == ZERO_HASH
    }
  }

  /** What checking a signature can say: the embedded key may not be a valid one to begin with. */
  datatype Verdict = Verified | BadKey | BadSignature

  /** The cryptography the model leaves uninterpreted: the transaction hash, the address a public key
      derives to, and the check of the signature. */
  datatype Env = Env(hash: Transaction -> TxHash, derived: Transaction -> Address, verify: Transaction -> Verdict)
  {
    /** The guard every insert starts with: the first rule a transaction breaks, if any. */
    function Validation(tx: Transaction): Option<Error> {
      if derived(tx) != tx.sender then Some(InvalidTransaction)
      else if verify(tx) == BadKey then Some(Crypto)
      else if verify(tx) == BadSignature then Some(InvalidSignature)
      else if tx.amount == 0 && tx.txType == Transfer then Some(InvalidTransaction)
      else if tx.sender == tx.receiver && tx.txType == Transfer then Some(InvalidTransaction)
      else if tx.fee < BASE_FEE && !tx.IsGenesis() then Some(InvalidTransaction)
      else None
    }

    predicate Validates(tx: Transaction) { Validation(tx).None? }
  }
}
