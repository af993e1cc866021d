/** The canonical bytes a UTXO transaction is signed and hashed over, and the parser that undoes them. */
module Signable {
  import opened Core

  type Bytes = seq<Byte>
  type Bytes32 = b: Bytes | |b| == 32 witness Zeros(32)
  type u32 = x: int | 0 <= x < TWO32

  datatype TransactionKind = Standard | Coinbase | GenesisTx

  datatype TxInput = TxInput(prevHash: Bytes32, outputIndex: u32, signature: Bytes, pubkey: Bytes32)
  datatype TxOutput = TxOutput(amount: u64, pubkeyHash: Bytes32)

  datatype UtxoTransaction = UtxoTransaction(
    version: Byte, kind: TransactionKind, inputs: seq<TxInput>, outputs: seq<TxOutput>, dagParents: seq<Digest32>,
    timestamp: u64, fee: u64, memo: Bytes)

  datatype Digest32 = Digest32(bytes: Bytes32)

  /** `to_le_bytes` of an integer of `n` bytes. */
  function ToLe(x: nat, n: nat): (b: Bytes)
    ensures |b| == n
  {
    if n == 0 then [] else [x % 256] + ToLe(x / 256, n - 1)
  }

  function FromLe(b: Bytes): nat {
    if b == [] then 0 else b[0] + 256 * FromLe(b[1..])
  }

  function Pow256(n: nat): nat { if n == 0 then 1 else 256 * Pow256(n - 1) }

  lemma {:induction false} LeRoundTrip(x: nat, n: nat)
    requires x < Pow256(n)
    ensures FromLe(ToLe(x, n)) == x
  {
    if n > 0 {
      LeRoundTrip(x / 256, n - 1);
      assert ToLe(x, n)[1..] == ToLe(x / 256, n - 1);
    }
  }

  lemma {:induction false} LeCanonical(b: Bytes)
    ensures FromLe(b) < Pow256(|b|) && ToLe(FromLe(b), |b|) == b
  {
    if b != [] {
      LeCanonical(b[1..]);
      assert FromLe(b) % 256 == b[0] && FromLe(b) / 256 == FromLe(b[1..]);
      assert b == [b[0]] + b[1..];
    }
  }

  lemma Widths()
    ensures Pow256(4) == TWO32 && Pow256(8) == TWO64
  {
    assert Pow256(2) == 65536;
    assert Pow256(4) == 256 * (256 * Pow256(2));
    assert Pow256(6) == 256 * (256 * Pow256(4));
  }

  function KindByte(k: TransactionKind): Byte {
    match k case Standard => 0 case Coinbase => 1 case GenesisTx => 2
  }

  // ---- The printer ---------------------------------------------------------------------------

  /** A length as the code writes it: truncated to 32 bits. */
  function LengthBytes(n: nat): Bytes { ToLe(n % TWO32, 4) }

  function InputBytes(i: TxInput): Bytes { i.prevHash + ToLe(i.outputIndex, 4) + i.pubkey }
  function OutputBytes(o: TxOutput): Bytes { ToLe(o.amount, 8) + o.pubkeyHash }

  function InputsBytes(s: seq<TxInput>): Bytes { if s == [] then [] else InputBytes(s[0]) + InputsBytes(s[1..]) }
  function OutputsBytes(s: seq<TxOutput>): Bytes { if s == [] then [] else OutputBytes(s[0]) + OutputsBytes(s[1..]) }
  function ParentsBytes(s: seq<Digest32>): Bytes { if s == [] then [] else s[0].bytes + ParentsBytes(s[1..]) }

  function TailBytes(tx: UtxoTransaction): Bytes {
    ToLe(tx.timestamp, 8) + (ToLe(tx.fee, 8) + (LengthBytes(|tx.memo|) + tx.memo))
  }

  function SignableBytes(tx: UtxoTransaction): Bytes {
    [tx.version, KindByte(tx.kind)]
      + LengthBytes(|tx.inputs|) + InputsBytes(tx.inputs)
      + LengthBytes(|tx.outputs|) + OutputsBytes(tx.outputs)
      + LengthBytes(|tx.dagParents|) + ParentsBytes(tx.dagParents)
      + TailBytes(tx)
  }

  method BuildSignableBytes(tx: UtxoTransaction) returns (buf: Bytes)
    ensures buf == SignableBytes(tx)
  {
    buf := [tx.version] + [KindByte(tx.kind)];
    buf := buf + LengthBytes(|tx.inputs|);
    buf := AppendInputs(buf, tx.inputs);
    buf := buf + LengthBytes(|tx.outputs|);
    buf := AppendOutputs(buf, tx.outputs);
    buf := buf + LengthBytes(|tx.dagParents|);
    buf := AppendParents(buf, tx.dagParents);
    ghost var start := buf;
    buf := buf + ToLe(tx.timestamp, 8);
    buf := buf + ToLe(tx.fee, 8);
    buf := buf + LengthBytes(|tx.memo|);
    buf := buf + tx.memo;
    assert buf == start + TailBytes(tx);
  }

  method AppendInputs(buf: Bytes, inputs: seq<TxInput>) returns (out: Bytes)
    ensures out == buf + InputsBytes(inputs)
  {
    out := buf;
    for i := 0 to |inputs|
      invariant out + InputsBytes(inputs[i..]) == buf + InputsBytes(inputs)
    {
      assert inputs[i..][1..] == inputs[i + 1..];
      Reassociate(out, InputBytes(inputs[i]), InputsBytes(inputs[i + 1..]));
      var inp := inputs[i];
      Reassociate(out, inp.prevHash + ToLe(inp.outputIndex, 4), inp.pubkey);
      Reassociate(out, inp.prevHash, ToLe(inp.outputIndex, 4));
      out := out + inp.prevHash;
      out := out + ToLe(inp.outputIndex, 4);
      out := out + inp.pubkey;
    }
  }

  method AppendOutputs(buf: Bytes, outputs: seq<TxOutput>) returns (out: Bytes)
    ensures out == buf + OutputsBytes(outputs)
  {
    out := buf;
    for i := 0 to |outputs|
      invariant out + OutputsBytes(outputs[i..]) == buf + OutputsBytes(outputs)
    {
      assert outputs[i..][1..] == outputs[i + 1..];
      Reassociate(out, OutputBytes(outputs[i]), OutputsBytes(outputs[i + 1..]));
      Reassociate(out, ToLe(outputs[i].amount, 8), outputs[i].pubkeyHash);
      out := out + ToLe(outputs[i].amount, 8);
      out := out + outputs[i].pubkeyHash;
    }
  }

  method AppendParents(buf: Bytes, parents: seq<Digest32>) returns (out: Bytes)
    ensures out == buf + ParentsBytes(parents)
  {
    out := buf;
    for i := 0 to |parents|
      invariant out + ParentsBytes(parents[i..]) == buf + ParentsBytes(parents)
    {
      assert parents[i..][1..] == parents[i + 1..];
      Reassociate(out, parents[i].bytes, ParentsBytes(parents[i + 1..]));
      out := out + parents[i].bytes;
    }
  }

  // ---- The parser ----------------------------------------------------------------------------

  /** A parsed value and the bytes after it. */
  datatype Parsed<+T> = Malformed | Parsed(value: T, rest: Bytes)
  {
    predicate IsFailure() { Malformed? }
    function PropagateFailure<U>(): Parsed<U> requires Malformed? { Malformed }
    function Extract(): (T, Bytes) requires Parsed? { (value, rest) }
  }

  function ParseBytes(b: Bytes, n: nat): Parsed<Bytes> {
    if |b| < n then Malformed else Parsed(b[..n], b[n..])
  }

  function ParseU32(b: Bytes): (p: Parsed<u32>) {
    if |b| < 4 then Malformed else
      Widths(); LeCanonical(b[..4]);
      Parsed(FromLe(b[..4]), b[4..])
  }

  function ParseU64(b: Bytes): (p: Parsed<u64>) {
    if |b| < 8 then Malformed else
      Widths(); LeCanonical(b[..8]);
      Parsed(FromLe(b[..8]), b[8..])
  }

  function ParseHash(b: Bytes): Parsed<Bytes32> {
    if |b| < 32 then Malformed else Parsed(b[..32], b[32..])
  }

  function ParseKind(b: Bytes): Parsed<TransactionKind> {
    if b == [] || b[0] > 2 then Malformed
    else Parsed(if b[0] == 0 then Standard else if b[0] == 1 then Coinbase else GenesisTx, b[1..])
  }

  function ParseInput(b: Bytes): Parsed<TxInput> {
    var (hash, b1) :- ParseHash(b);
    var (index, b2) :- ParseU32(b1);
    var (pubkey, b3) :- ParseHash(b2);
    Parsed(TxInput(hash, index, [], pubkey), b3)
  }

  function ParseOutput(b: Bytes): Parsed<TxOutput> {
    var (amount, b1) :- ParseU64(b);
    var (hash, b2) :- ParseHash(b1);
    Parsed(TxOutput(amount, hash), b2)
  }

  function ParseInputs(b: Bytes, n: nat): Parsed<seq<TxInput>> {
    if n == 0 then Parsed([], b) else
      var (first, b1) :- ParseInput(b);
      var (others, b2) :- ParseInputs(b1, n - 1);
      Parsed([first] + others, b2)
  }

  function ParseOutputs(b: Bytes, n: nat): Parsed<seq<TxOutput>> {
    if n == 0 then Parsed([], b) else
      var (first, b1) :- ParseOutput(b);
      var (others, b2) :- ParseOutputs(b1, n - 1);
      Parsed([first] + others, b2)
  }

  function ParseParents(b: Bytes, n: nat): Parsed<seq<Digest32>> {
    if n == 0 then Parsed([], b) else
      var (first, b1) :- ParseHash(b);
      var (others, b2) :- ParseParents(b1, n - 1);
      Parsed([Digest32(first)] + others, b2)
  }

  function ParseInputList(b: Bytes): Parsed<seq<TxInput>> {
    var (n, b1) :- ParseU32(b);
    ParseInputs(b1, n)
  }

  function ParseOutputList(b: Bytes): Parsed<seq<TxOutput>> {
    var (n, b1) :- ParseU32(b);
    ParseOutputs(b1, n)
  }

  function ParseParentList(b: Bytes): Parsed<seq<Digest32>> {
    var (n, b1) :- ParseU32(b);
    ParseParents(b1, n)
  }

  function ParseLists(b: Bytes): Parsed<(seq<TxInput>, seq<TxOutput>, seq<Digest32>)> {
    var (inputs, b1) :- ParseInputList(b);
    var (outputs, b2) :- ParseOutputList(b1);
    var (parents, b3) :- ParseParentList(b2);
    Parsed((inputs, outputs, parents), b3)
  }

  function ParseTail(b: Bytes): Parsed<(u64, u64, Bytes)> {
    var (timestamp, b1) :- ParseU64(b);
    var (fee, b2) :- ParseU64(b1);
    var (nMemo, b3) :- ParseU32(b2);
    var (memo, b4) :- ParseBytes(b3, nMemo);
    Parsed((timestamp, fee, memo), b4)
  }

  function Parse(b: Bytes): Parsed<UtxoTransaction> {
    if b == [] then Malformed else
      var (kind, b1) :- ParseKind(b[1..]);
      var (lists, b2) :- ParseLists(b1);
      var (tail, b3) :- ParseTail(b2);
      Parsed(UtxoTransaction(b[0], kind, lists.0, lists.1, lists.2, tail.0, tail.1, tail.2), b3)
  }

  // ---- The parser undoes the printer -----------------------------------------------------------

  /** What the bytes commit to: everything but the input signatures. */
  function Unsigned(i: TxInput): TxInput { i.(signature := []) }

  function UnsignedAll(s: seq<TxInput>): (r: seq<TxInput>)
    ensures |r| == |s|
  {
    if s == [] then [] else [Unsigned(s[0])] + UnsignedAll(s[1..])
  }

  function Committed(tx: UtxoTransaction): UtxoTransaction { tx.(inputs := UnsignedAll(tx.inputs)) }

  ghost predicate LengthsFit(tx: UtxoTransaction) {
    |tx.inputs| < TWO32 && |tx.outputs| < TWO32 && |tx.dagParents| < TWO32 && |tx.memo| < TWO32
  }

  lemma Cut(a: Bytes, b: Bytes)
    ensures (a + b)[..|a|] == a && (a + b)[|a|..] == b
  {}

  lemma U32Back(x: u32, rest: Bytes)
    ensures ParseU32(ToLe(x, 4) + rest) == Parsed(x, rest)
  {
    Widths();
    LeRoundTrip(x, 4);
    Cut(ToLe(x, 4), rest);
  }

  lemma LengthBack(n: nat, rest: Bytes)
    requires n < TWO32
    ensures ParseU32(LengthBytes(n) + rest) == Parsed(n, rest)
  {
    assert n % TWO32 == n;
    assert LengthBytes(n) == ToLe(n, 4);
    U32Back(n, rest);
  }

  lemma U64Back(x: u64, rest: Bytes)
    ensures ParseU64(ToLe(x, 8) + rest) == Parsed(x, rest)
  {
    Widths();
    LeRoundTrip(x, 8);
    Cut(ToLe(x, 8), rest);
  }

  lemma InputBack(i: TxInput, rest: Bytes)
    ensures ParseInput(InputBytes(i) + rest) == Parsed(Unsigned(i), rest)
  {
    var index := ToLe(i.outputIndex, 4);
    assert InputBytes(i) + rest == i.prevHash + (index + (i.pubkey + rest));
    Cut(i.prevHash, index + (i.pubkey + rest));
    U32Back(i.outputIndex, i.pubkey + rest);
    Cut(i.pubkey, rest);
  }

  lemma OutputBack(o: TxOutput, rest: Bytes)
    ensures ParseOutput(OutputBytes(o) + rest) == Parsed(o, rest)
  {
    assert OutputBytes(o) + rest == ToLe(o.amount, 8) + (o.pubkeyHash + rest);
    U64Back(o.amount, o.pubkeyHash + rest);
    Cut(o.pubkeyHash, rest);
  }

  lemma {:induction false} InputsBack(s: seq<TxInput>, rest: Bytes)
    ensures ParseInputs(InputsBytes(s) + rest, |s|) == Parsed(UnsignedAll(s), rest)
  {
    if s == [] {
      assert InputsBytes(s) + rest == rest;
    } else {
      Reassociate(InputBytes(s[0]), InputsBytes(s[1..]), rest);
      InputBack(s[0], InputsBytes(s[1..]) + rest);
      InputsBack(s[1..], rest);
    }
  }

  lemma {:induction false} OutputsBack(s: seq<TxOutput>, rest: Bytes)
    ensures ParseOutputs(OutputsBytes(s) + rest, |s|) == Parsed(s, rest)
  {
    if s == [] {
      assert OutputsBytes(s) + rest == rest;
    } else {
      Reassociate(OutputBytes(s[0]), OutputsBytes(s[1..]), rest);
      OutputBack(s[0], OutputsBytes(s[1..]) + rest);
      OutputsBack(s[1..], rest);
      assert s == [s[0]] + s[1..];
    }
  }

  lemma {:induction false} ParentsBack(s: seq<Digest32>, rest: Bytes)
    ensures ParseParents(ParentsBytes(s) + rest, |s|) == Parsed(s, rest)
  {
    if s == [] {
      assert ParentsBytes(s) + rest == rest;
    } else {
      Reassociate(s[0].bytes, ParentsBytes(s[1..]), rest);
      Cut(s[0].bytes, ParentsBytes(s[1..]) + rest);
      ParentsBack(s[1..], rest);
      assert s == [s[0]] + s[1..];
    }
  }

  /** The three lists and what follows them, grouped the way the parser consumes them. */
  function ListsThen(tx: UtxoTransaction, rest: Bytes): Bytes {
    LengthBytes(|tx.inputs|) + (InputsBytes(tx.inputs)
      + (LengthBytes(|tx.outputs|) + (OutputsBytes(tx.outputs)
      + (LengthBytes(|tx.dagParents|) + (ParentsBytes(tx.dagParents) + rest)))))
  }

  lemma Regroup(h: Bytes, a: Bytes, b: Bytes, c: Bytes, d: Bytes, e: Bytes, f: Bytes, t: Bytes)
    ensures h + a + b + c + d + e + f + t == h + (a + (b + (c + (d + (e + (f + t))))))
  {
    Reassociate(h + a + b + c + d + e, f, t);
    Reassociate(h + a + b + c + d, e, f + t);
    Reassociate(h + a + b + c, d, e + (f + t));
    Reassociate(h + a + b, c, d + (e + (f + t)));
    Reassociate(h + a, b, c + (d + (e + (f + t))));
    Reassociate(h, a, b + (c + (d + (e + (f + t)))));
  }

  lemma InputListBack(s: seq<TxInput>, rest: Bytes)
    requires |s| < TWO32
    ensures ParseInputList(LengthBytes(|s|) + (InputsBytes(s) + rest)) == Parsed(UnsignedAll(s), rest)
  {
    LengthBack(|s|, InputsBytes(s) + rest);
    InputsBack(s, rest);
  }

  lemma OutputListBack(s: seq<TxOutput>, rest: Bytes)
    requires |s| < TWO32
    ensures ParseOutputList(LengthBytes(|s|) + (OutputsBytes(s) + rest)) == Parsed(s, rest)
  {
    LengthBack(|s|, OutputsBytes(s) + rest);
    OutputsBack(s, rest);
  }

  lemma ParentListBack(s: seq<Digest32>, rest: Bytes)
    requires |s| < TWO32
    ensures ParseParentList(LengthBytes(|s|) + (ParentsBytes(s) + rest)) == Parsed(s, rest)
  {
    LengthBack(|s|, ParentsBytes(s) + rest);
    ParentsBack(s, rest);
  }

  lemma ListsBack(tx: UtxoTransaction, rest: Bytes)
    requires LengthsFit(tx)
    ensures ParseLists(ListsThen(tx, rest)) == Parsed((UnsignedAll(tx.inputs), tx.outputs, tx.dagParents), rest)
  {
    var parents := LengthBytes(|tx.dagParents|) + (ParentsBytes(tx.dagParents) + rest);
    var outputs := LengthBytes(|tx.outputs|) + (OutputsBytes(tx.outputs) + parents);
    InputListBack(tx.inputs, outputs);
    OutputListBack(tx.outputs, parents);
    ParentListBack(tx.dagParents, rest);
  }

  lemma TailBack(tx: UtxoTransaction)
    requires LengthsFit(tx)
    ensures ParseTail(TailBytes(tx)) == Parsed((tx.timestamp, tx.fee, tx.memo), [])
  {
    var m := LengthBytes(|tx.memo|) + tx.memo;
    U64Back(tx.timestamp, ToLe(tx.fee, 8) + m);
    U64Back(tx.fee, m);
    LengthBack(|tx.memo|, tx.memo);
    assert tx.memo[..|tx.memo|] == tx.memo && tx.memo[|tx.memo|..] == [];
  }

  lemma SignableParts(tx: UtxoTransaction)
    ensures SignableBytes(tx) == [tx.version] + ([KindByte(tx.kind)] + ListsThen(tx, TailBytes(tx)))
  {
    Regroup([tx.version, KindByte(tx.kind)], LengthBytes(|tx.inputs|), InputsBytes(tx.inputs),
            LengthBytes(|tx.outputs|), OutputsBytes(tx.outputs),
            LengthBytes(|tx.dagParents|), ParentsBytes(tx.dagParents), TailBytes(tx));
    Reassociate([tx.version], [KindByte(tx.kind)], ListsThen(tx, TailBytes(tx)));
  }

  lemma ParseFrom(version: Byte, kind: TransactionKind, body: Bytes)
    ensures Parse([version] + ([KindByte(kind)] + body)) ==
              match ParseLists(body)
              case Malformed => Malformed
              case Parsed(lists, b2) =>
                match ParseTail(b2)
                case Malformed => Malformed
                case Parsed(tail, b3) =>
                  Parsed(UtxoTransaction(version, kind, lists.0, lists.1, lists.2, tail.0, tail.1, tail.2), b3)
  {
    Cut([version], [KindByte(kind)] + body);
    Cut([KindByte(kind)], body);
  }

  /** Parsing the canonical bytes gives back every field except the input signatures. */
  lemma ParseUndoesSign(tx: UtxoTransaction)
    requires LengthsFit(tx)
    ensures Parse(SignableBytes(tx)) == Parsed(Committed(tx), [])
  {
    SignableParts(tx);
    ParseFrom(tx.version, tx.kind, ListsThen(tx, TailBytes(tx)));
    ListsBack(tx, TailBytes(tx));
    TailBack(tx);
  }

  // ---- Exactly when the bytes determine the transaction ----------------------------------------

  lemma SamePrefix(a: Bytes, x: Bytes, b: Bytes, y: Bytes)
    requires a + x == b + y && |a| == |b|
    ensures a == b && x == y
  {
    Cut(a, x);
    Cut(b, y);
  }

  lemma InputsAgree(s1: seq<TxInput>, r1: Bytes, s2: seq<TxInput>, r2: Bytes)
    requires |s1| == |s2| && InputsBytes(s1) + r1 == InputsBytes(s2) + r2
    ensures UnsignedAll(s1) == UnsignedAll(s2) && r1 == r2
  {
    InputsBack(s1, r1);
    InputsBack(s2, r2);
  }

  lemma OutputsAgree(s1: seq<TxOutput>, r1: Bytes, s2: seq<TxOutput>, r2: Bytes)
    requires |s1| == |s2| && OutputsBytes(s1) + r1 == OutputsBytes(s2) + r2
    ensures s1 == s2 && r1 == r2
  {
    OutputsBack(s1, r1);
    OutputsBack(s2, r2);
  }

  lemma ParentsAgree(s1: seq<Digest32>, r1: Bytes, s2: seq<Digest32>, r2: Bytes)
    requires |s1| == |s2| && ParentsBytes(s1) + r1 == ParentsBytes(s2) + r2
    ensures s1 == s2 && r1 == r2
  {
    ParentsBack(s1, r1);
    ParentsBack(s2, r2);
  }

  ghost predicate SameLengths(t1: UtxoTransaction, t2: UtxoTransaction) {
    |t1.inputs| == |t2.inputs| && |t1.outputs| == |t2.outputs| && |t1.dagParents| == |t2.dagParents|
  }

  lemma ListsAgree(t1: UtxoTransaction, r1: Bytes, t2: UtxoTransaction, r2: Bytes)
    requires SameLengths(t1, t2) && ListsThen(t1, r1) == ListsThen(t2, r2)
    ensures UnsignedAll(t1.inputs) == UnsignedAll(t2.inputs) && t1.outputs == t2.outputs
    ensures t1.dagParents == t2.dagParents && r1 == r2
  {
    var p1, p2 := ParentsBytes(t1.dagParents) + r1, ParentsBytes(t2.dagParents) + r2;
    var q1, q2 := LengthBytes(|t1.dagParents|) + p1, LengthBytes(|t2.dagParents|) + p2;
    var o1, o2 := OutputsBytes(t1.outputs) + q1, OutputsBytes(t2.outputs) + q2;
    var l1, l2 := LengthBytes(|t1.outputs|) + o1, LengthBytes(|t2.outputs|) + o2;
    SamePrefix(LengthBytes(|t1.inputs|), InputsBytes(t1.inputs) + l1,
               LengthBytes(|t2.inputs|), InputsBytes(t2.inputs) + l2);
    InputsAgree(t1.inputs, l1, t2.inputs, l2);
    SamePrefix(LengthBytes(|t1.outputs|), o1, LengthBytes(|t2.outputs|), o2);
    OutputsAgree(t1.outputs, q1, t2.outputs, q2);
    SamePrefix(LengthBytes(|t1.dagParents|), p1, LengthBytes(|t2.dagParents|), p2);
    ParentsAgree(t1.dagParents, r1, t2.dagParents, r2);
  }

  lemma TailAgrees(t1: UtxoTransaction, t2: UtxoTransaction)
    requires TailBytes(t1) == TailBytes(t2)
    ensures t1.timestamp == t2.timestamp && t1.fee == t2.fee && t1.memo == t2.memo
  {
    var m1, m2 := LengthBytes(|t1.memo|) + t1.memo, LengthBytes(|t2.memo|) + t2.memo;
    U64Back(t1.timestamp, ToLe(t1.fee, 8) + m1);
    U64Back(t2.timestamp, ToLe(t2.fee, 8) + m2);
    U64Back(t1.fee, m1);
    U64Back(t2.fee, m2);
    SamePrefix(LengthBytes(|t1.memo|), t1.memo, LengthBytes(|t2.memo|), t2.memo);
  }

  lemma BodiesAgree(t1: UtxoTransaction, t2: UtxoTransaction)
    requires SignableBytes(t1) == SignableBytes(t2)
    ensures t1.version == t2.version && t1.kind == t2.kind
    ensures ListsThen(t1, TailBytes(t1)) == ListsThen(t2, TailBytes(t2))
  {
    var b1, b2 := ListsThen(t1, TailBytes(t1)), ListsThen(t2, TailBytes(t2));
    SignableParts(t1);
    SignableParts(t2);
    SamePrefix([t1.version], [KindByte(t1.kind)] + b1, [t2.version], [KindByte(t2.kind)] + b2);
    SamePrefix([KindByte(t1.kind)], b1, [KindByte(t2.kind)], b2);
  }

  /** Whatever the lengths: two transactions with the same signable bytes agree on everything but input
      signatures exactly when they have as many inputs, outputs and parents as each other. */
  lemma SameBytesIffSameLengths(t1: UtxoTransaction, t2: UtxoTransaction)
    requires SignableBytes(t1) == SignableBytes(t2)
    ensures Committed(t1) == Committed(t2) <==> SameLengths(t1, t2)
  {
    if SameLengths(t1, t2) {
      BodiesAgree(t1, t2);
      ListsAgree(t1, TailBytes(t1), t2, TailBytes(t2));
      TailAgrees(t1, t2);
    } else {
      assert |UnsignedAll(t1.inputs)| == |t1.inputs| && |UnsignedAll(t2.inputs)| == |t2.inputs|;
    }
  }

  ghost predicate ListsFit(tx: UtxoTransaction) {
    |tx.inputs| < TWO32 && |tx.outputs| < TWO32 && |tx.dagParents| < TWO32
  }

  lemma SameLength(m: nat, x: Bytes, n: nat, y: Bytes)
    requires m < TWO32 && n < TWO32 && LengthBytes(m) + x == LengthBytes(n) + y
    ensures m == n && x == y
  {
    LengthBack(m, x);
    LengthBack(n, y);
  }

  lemma SameListLengths(t1: UtxoTransaction, r1: Bytes, t2: UtxoTransaction, r2: Bytes)
    requires ListsFit(t1) && ListsFit(t2) && ListsThen(t1, r1) == ListsThen(t2, r2)
    ensures SameLengths(t1, t2)
  {
    var p1, p2 := ParentsBytes(t1.dagParents) + r1, ParentsBytes(t2.dagParents) + r2;
    var q1, q2 := LengthBytes(|t1.dagParents|) + p1, LengthBytes(|t2.dagParents|) + p2;
    var o1, o2 := OutputsBytes(t1.outputs) + q1, OutputsBytes(t2.outputs) + q2;
    var l1, l2 := LengthBytes(|t1.outputs|) + o1, LengthBytes(|t2.outputs|) + o2;
    SameLength(|t1.inputs|, InputsBytes(t1.inputs) + l1, |t2.inputs|, InputsBytes(t2.inputs) + l2);
    InputsAgree(t1.inputs, l1, t2.inputs, l2);
    SameLength(|t1.outputs|, o1, |t2.outputs|, o2);
    OutputsAgree(t1.outputs, q1, t2.outputs, q2);
    SameLength(|t1.dagParents|, p1, |t2.dagParents|, p2);
  }

  /** So as long as no list reaches 2^32 entries, whatever the memo, two transactions with the same
      signable bytes agree on everything but input signatures. */
  lemma SameBytesSameTransaction(t1: UtxoTransaction, t2: UtxoTransaction)
    requires ListsFit(t1) && ListsFit(t2) && SignableBytes(t1) == SignableBytes(t2)
    ensures Committed(t1) == Committed(t2)
  {
    BodiesAgree(t1, t2);
    SameListLengths(t1, TailBytes(t1), t2, TailBytes(t2));
    SameBytesIffSameLengths(t1, t2);
  }

  // ---- The printer undoes the parser -----------------------------------------------------------

  lemma LeBack(b: Bytes, n: nat)
    requires n <= |b|
    ensures ToLe(FromLe(b[..n]), n) + b[n..] == b
  {
    LeCanonical(b[..n]);
    assert b[..n] + b[n..] == b;
  }

  lemma InputForth(b: Bytes)
    ensures match ParseInput(b)
            case Parsed(i, rest) => InputBytes(i) + rest == b && i == Unsigned(i)
            case Malformed => true
  {
    if |b| >= 68 {
      var b1 := b[32..];
      var b2 := b1[4..];
      LeBack(b1, 4);
      assert b == b[..32] + b1 && b2 == b2[..32] + b2[32..];
      Reassociate(ToLe(FromLe(b1[..4]), 4), b2[..32], b2[32..]);
      Reassociate(b[..32], ToLe(FromLe(b1[..4]), 4) + b2[..32], b2[32..]);
      Reassociate(b[..32], ToLe(FromLe(b1[..4]), 4), b2[..32]);
    }
  }

  lemma OutputForth(b: Bytes)
    ensures match ParseOutput(b)
            case Parsed(o, rest) => OutputBytes(o) + rest == b
            case Malformed => true
  {
    if |b| >= 40 {
      var b1 := b[8..];
      LeBack(b, 8);
      assert b1 == b1[..32] + b1[32..];
      Reassociate(ToLe(FromLe(b[..8]), 8), b1[..32], b1[32..]);
    }
  }

  lemma {:induction false} InputsForth(b: Bytes, n: nat)
    ensures match ParseInputs(b, n)
            case Parsed(s, rest) => |s| == n && UnsignedAll(s) == s && InputsBytes(s) + rest == b
            case Malformed => true
  {
    if n > 0 {
      InputForth(b);
      match ParseInput(b)
      case Malformed =>
      case Parsed(first, b1) =>
        InputsForth(b1, n - 1);
        match ParseInputs(b1, n - 1)
        case Malformed =>
        case Parsed(others, rest) =>
          assert ([first] + others)[1..] == others;
          Reassociate(InputBytes(first), InputsBytes(others), rest);
    }
  }

  lemma {:induction false} OutputsForth(b: Bytes, n: nat)
    ensures match ParseOutputs(b, n)
            case Parsed(s, rest) => |s| == n && OutputsBytes(s) + rest == b
            case Malformed => true
  {
    if n > 0 {
      OutputForth(b);
      match ParseOutput(b)
      case Malformed =>
      case Parsed(first, b1) =>
        OutputsForth(b1, n - 1);
        match ParseOutputs(b1, n - 1)
        case Malformed =>
        case Parsed(others, rest) =>
          assert ([first] + others)[1..] == others;
          Reassociate(OutputBytes(first), OutputsBytes(others), rest);
    }
  }

  lemma {:induction false} ParentsForth(b: Bytes, n: nat)
    ensures match ParseParents(b, n)
            case Parsed(s, rest) => |s| == n && ParentsBytes(s) + rest == b
            case Malformed => true
  {
    if n > 0 && |b| >= 32 {
      var b1 := b[32..];
      assert b == b[..32] + b1;
      ParentsForth(b1, n - 1);
      match ParseParents(b1, n - 1)
      case Malformed =>
      case Parsed(others, rest) =>
        assert ([Digest32(b[..32])] + others)[1..] == others;
        Reassociate(b[..32], ParentsBytes(others), rest);
    }
  }

  lemma LengthForth(b: Bytes)
    ensures match ParseU32(b)
            case Parsed(n, rest) => LengthBytes(n) + rest == b
            case Malformed => true
  {
    if |b| >= 4 {
      LeBack(b, 4);
    }
  }

  lemma InputListForth(b: Bytes)
    ensures match ParseInputList(b)
            case Parsed(s, rest) =>
              |s| < TWO32 && UnsignedAll(s) == s && LengthBytes(|s|) + (InputsBytes(s) + rest) == b
            case Malformed => true
  {
    LengthForth(b);
    match ParseU32(b)
    case Malformed =>
    case Parsed(n, b1) => InputsForth(b1, n);
  }

  lemma OutputListForth(b: Bytes)
    ensures match ParseOutputList(b)
            case Parsed(s, rest) => |s| < TWO32 && LengthBytes(|s|) + (OutputsBytes(s) + rest) == b
            case Malformed => true
  {
    LengthForth(b);
    match ParseU32(b)
    case Malformed =>
    case Parsed(n, b1) => OutputsForth(b1, n);
  }

  lemma ParentListForth(b: Bytes)
    ensures match ParseParentList(b)
            case Parsed(s, rest) => |s| < TWO32 && LengthBytes(|s|) + (ParentsBytes(s) + rest) == b
            case Malformed => true
  {
    LengthForth(b);
    match ParseU32(b)
    case Malformed =>
    case Parsed(n, b1) => ParentsForth(b1, n);
  }

  lemma TailForth(b: Bytes, tx: UtxoTransaction)
    requires ParseTail(b) == Parsed((tx.timestamp, tx.fee, tx.memo), [])
    ensures |tx.memo| < TWO32 && TailBytes(tx) == b
  {
    var b1 := b[8..];
    var b2 := b1[8..];
    LeBack(b, 8);
    LeBack(b1, 8);
    LengthForth(b2);
    var b3 := b2[4..];
    var n := FromLe(b2[..4]);
    assert b3 == b3[..n] + b3[n..];
  }

  /** The parser accepts nothing but canonical bytes: what it accepts to the end is printed back
      byte for byte. */
  lemma SignUndoesParse(b: Bytes, tx: UtxoTransaction)
    requires Parse(b) == Parsed(tx, [])
    ensures LengthsFit(tx) && Committed(tx) == tx && SignableBytes(tx) == b
  {
    ParseParts(b, tx);
    var body := b[1..][1..];
    ListsForth(body, tx);
    TailForth(ParseLists(body).rest, tx);
    SignableParts(tx);
  }

  /** The pieces a successful parse consumes. */
  lemma ParseParts(b: Bytes, tx: UtxoTransaction)
    requires Parse(b) == Parsed(tx, [])
    ensures |b| >= 2 && b[0] == tx.version && b[1] == KindByte(tx.kind)
    ensures b == [tx.version] + ([KindByte(tx.kind)] + b[1..][1..])
    ensures var lists := ParseLists(b[1..][1..]);
            && lists.Parsed? && lists.value == (tx.inputs, tx.outputs, tx.dagParents)
            && ParseTail(lists.rest) == Parsed((tx.timestamp, tx.fee, tx.memo), [])
  {
    var b1 := b[1..];
    assert b == [b[0]] + b1 && b1 == [b1[0]] + b1[1..];
  }

  lemma ListsForth(b: Bytes, tx: UtxoTransaction)
    requires ParseLists(b).Parsed? && ParseLists(b).value == (tx.inputs, tx.outputs, tx.dagParents)
    ensures |tx.inputs| < TWO32 && |tx.outputs| < TWO32 && |tx.dagParents| < TWO32
    ensures UnsignedAll(tx.inputs) == tx.inputs && ListsThen(tx, ParseLists(b).rest) == b
  {
    InputListForth(b);
    OutputListForth(ParseInputList(b).rest);
    ParentListForth(ParseOutputList(ParseInputList(b).rest).rest);
  }

  // ---- Where each field stands ---------------------------------------------------------------------

  ghost predicate Holds(b: Bytes, k: nat, part: Bytes) { k + |part| <= |b| && b[k..k + |part|] == part }

  /** Byte `k` of a little-endian integer is its digit `k` to the base 256. */
  lemma {:induction false} DigitAt(x: nat, n: nat, k: nat)
    requires k < n
    ensures Pow256(k) > 0 && ToLe(x, n)[k] == x / Pow256(k) % 256
  {
    if k > 0 {
      DigitAt(x / 256, n - 1, k - 1);
      PowQuotient(x, k);
    }
  }

  lemma {:induction false} PowPositive(n: nat)
    ensures Pow256(n) > 0
  {
    if n > 0 {
      PowPositive(n - 1);
    }
  }

  lemma PowQuotient(x: nat, n: nat)
    requires n > 0
    ensures Pow256(n - 1) > 0 && Pow256(n) > 0 && x / 256 / Pow256(n - 1) == x / Pow256(n)
  {
    PowPositive(n - 1);
    PowPositive(n);
    var p := Pow256(n - 1);
    var q := x / 256 / p;
    assert q * p <= x / 256 < q * p + p;
    assert q * (256 * p) <= x < (q + 1) * (256 * p);
    QuotientIs(x, 256 * p, q);
  }

  ghost predicate InputAt(b: Bytes, k: nat, i: TxInput) {
    Holds(b, k, i.prevHash) && Holds(b, k + 32, ToLe(i.outputIndex, 4)) && Holds(b, k + 36, i.pubkey)
  }

  ghost predicate OutputAt(b: Bytes, k: nat, o: TxOutput) {
    Holds(b, k, ToLe(o.amount, 8)) && Holds(b, k + 8, o.pubkeyHash)
  }

  ghost predicate LengthAt(b: Bytes, k: nat, n: nat) { Holds(b, k, ToLe(n % 0x1_0000_0000, 4)) }

  ghost predicate InputsAt(b: Bytes, k: nat, s: seq<TxInput>) {
    forall j :: 0 <= j < |s| ==> InputAt(b, k + 68 * j, s[j])
  }

  ghost predicate OutputsAt(b: Bytes, k: nat, s: seq<TxOutput>) {
    forall j :: 0 <= j < |s| ==> OutputAt(b, k + 40 * j, s[j])
  }

  ghost predicate ParentsAt(b: Bytes, k: nat, s: seq<Digest32>) {
    forall j :: 0 <= j < |s| ==> Holds(b, k + 32 * j, s[j].bytes)
  }

  ghost predicate TailAt(b: Bytes, k: nat, tx: UtxoTransaction) {
    && Holds(b, k, ToLe(tx.timestamp, 8)) && Holds(b, k + 8, ToLe(tx.fee, 8))
    && LengthAt(b, k + 16, |tx.memo|) && Holds(b, k + 20, tx.memo)
  }

  /** The encoding: version, kind, then inputs, outputs and parents, each list after its length, 68, 40 and
      32 bytes an entry; then timestamp, fee and the memo after its length. */
  ghost predicate LaidOut(b: Bytes, tx: UtxoTransaction) {
    var outputs := 6 + 68 * |tx.inputs|;
    var parents := outputs + 4 + 40 * |tx.outputs|;
    var tail := parents + 4 + 32 * |tx.dagParents|;
    |b| == tail + 20 + |tx.memo| && FieldsAt(b, tx, outputs, parents, tail)
  }

  ghost predicate FieldsAt(b: Bytes, tx: UtxoTransaction, outputs: nat, parents: nat, tail: nat) {
    && |b| >= 2 && b[0] == tx.version
    && b[1] == (match tx.kind case Standard => 0 case Coinbase => 1 case GenesisTx => 2)
    && LengthAt(b, 2, |tx.inputs|) && InputsAt(b, 6, tx.inputs)
    && LengthAt(b, outputs, |tx.outputs|) && OutputsAt(b, outputs + 4, tx.outputs)
    && LengthAt(b, parents, |tx.dagParents|) && ParentsAt(b, parents + 4, tx.dagParents)
    && TailAt(b, tail, tx)
  }

  lemma Ends(a: Bytes, b: Bytes)
    ensures Holds(a + b, 0, a) && Holds(a + b, |a|, b)
  {}

  lemma Within(b: Bytes, k: nat, part: Bytes, j: nat, piece: Bytes)
    requires Holds(b, k, part) && Holds(part, j, piece)
    ensures Holds(b, k + j, piece)
  {
    forall i | 0 <= i < |piece|
      ensures b[k + j..k + j + |piece|][i] == piece[i]
    {
      assert piece[i] == part[j + i] == b[k..k + |part|][j + i];
    }
  }

  lemma Piece(b: Bytes, front: Bytes, part: Bytes)
    requires Holds(b, 0, front + part)
    ensures Holds(b, 0, front) && Holds(b, |front|, part)
  {
    Ends(front, part);
    Within(b, 0, front + part, 0, front);
    Within(b, 0, front + part, |front|, part);
  }

  lemma InputPrinted(i: TxInput)
    ensures |InputBytes(i)| == 68 && InputAt(InputBytes(i), 0, i)
  {
    var index := ToLe(i.outputIndex, 4);
    Ends(i.prevHash, index);
    Ends(i.prevHash + index, i.pubkey);
    Within(InputBytes(i), 0, i.prevHash + index, 0, i.prevHash);
    Within(InputBytes(i), 0, i.prevHash + index, 32, index);
  }

  lemma OutputPrinted(o: TxOutput)
    ensures |OutputBytes(o)| == 40 && OutputAt(OutputBytes(o), 0, o)
  {
    Ends(ToLe(o.amount, 8), o.pubkeyHash);
  }

  lemma InputWithin(b: Bytes, k: nat, part: Bytes, j: nat, i: TxInput)
    requires Holds(b, k, part) && InputAt(part, j, i)
    ensures InputAt(b, k + j, i)
  {
    Within(b, k, part, j, i.prevHash);
    Within(b, k, part, j + 32, ToLe(i.outputIndex, 4));
    Within(b, k, part, j + 36, i.pubkey);
  }

  lemma OutputWithin(b: Bytes, k: nat, part: Bytes, j: nat, o: TxOutput)
    requires Holds(b, k, part) && OutputAt(part, j, o)
    ensures OutputAt(b, k + j, o)
  {
    Within(b, k, part, j, ToLe(o.amount, 8));
    Within(b, k, part, j + 8, o.pubkeyHash);
  }

  lemma {:induction false} InputsPrinted(s: seq<TxInput>)
    ensures |InputsBytes(s)| == 68 * |s| && InputsAt(InputsBytes(s), 0, s)
  {
    if s != [] {
      var first, others := InputBytes(s[0]), InputsBytes(s[1..]);
      InputPrinted(s[0]);
      InputsPrinted(s[1..]);
      Ends(first, others);
      InputWithin(InputsBytes(s), 0, first, 0, s[0]);
      forall j | 1 <= j < |s|
        ensures InputAt(InputsBytes(s), 68 * j, s[j])
      {
        assert InputAt(others, 68 * (j - 1), s[1..][j - 1]);
        InputWithin(InputsBytes(s), 68, others, 68 * (j - 1), s[j]);
      }
    }
  }

  lemma {:induction false} OutputsPrinted(s: seq<TxOutput>)
    ensures |OutputsBytes(s)| == 40 * |s| && OutputsAt(OutputsBytes(s), 0, s)
  {
    if s != [] {
      var first, others := OutputBytes(s[0]), OutputsBytes(s[1..]);
      OutputPrinted(s[0]);
      OutputsPrinted(s[1..]);
      Ends(first, others);
      OutputWithin(OutputsBytes(s), 0, first, 0, s[0]);
      forall j | 1 <= j < |s|
        ensures OutputAt(OutputsBytes(s), 40 * j, s[j])
      {
        assert OutputAt(others, 40 * (j - 1), s[1..][j - 1]);
        OutputWithin(OutputsBytes(s), 40, others, 40 * (j - 1), s[j]);
      }
    }
  }

  lemma {:induction false} ParentsPrinted(s: seq<Digest32>)
    ensures |ParentsBytes(s)| == 32 * |s| && ParentsAt(ParentsBytes(s), 0, s)
  {
    if s != [] {
      var others := ParentsBytes(s[1..]);
      ParentsPrinted(s[1..]);
      Ends(s[0].bytes, others);
      forall j | 1 <= j < |s|
        ensures Holds(ParentsBytes(s), 32 * j, s[j].bytes)
      {
        assert Holds(others, 32 * (j - 1), s[1..][j - 1].bytes);
        Within(ParentsBytes(s), 32, others, 32 * (j - 1), s[j].bytes);
      }
    }
  }

  lemma TailPrinted(tx: UtxoTransaction)
    ensures |TailBytes(tx)| == 20 + |tx.memo| && TailAt(TailBytes(tx), 0, tx)
  {
    var time, fee, length := ToLe(tx.timestamp, 8), ToLe(tx.fee, 8), LengthBytes(|tx.memo|);
    Ends(time, fee + (length + tx.memo));
    Ends(fee, length + tx.memo);
    Ends(length, tx.memo);
    Within(TailBytes(tx), 8, fee + (length + tx.memo), 0, fee);
    Within(TailBytes(tx), 8, fee + (length + tx.memo), 8, length + tx.memo);
    Within(TailBytes(tx), 16, length + tx.memo, 0, length);
    Within(TailBytes(tx), 16, length + tx.memo, 4, tx.memo);
  }

  lemma InputsWithin(b: Bytes, k: nat, part: Bytes, s: seq<TxInput>)
    requires Holds(b, k, part) && InputsAt(part, 0, s)
    ensures InputsAt(b, k, s)
  {
    forall j | 0 <= j < |s|
      ensures InputAt(b, k + 68 * j, s[j])
    {
      assert InputAt(part, 0 + 68 * j, s[j]);
      InputWithin(b, k, part, 68 * j, s[j]);
    }
  }

  lemma OutputsWithin(b: Bytes, k: nat, part: Bytes, s: seq<TxOutput>)
    requires Holds(b, k, part) && OutputsAt(part, 0, s)
    ensures OutputsAt(b, k, s)
  {
    forall j | 0 <= j < |s|
      ensures OutputAt(b, k + 40 * j, s[j])
    {
      assert OutputAt(part, 0 + 40 * j, s[j]);
      OutputWithin(b, k, part, 40 * j, s[j]);
    }
  }

  lemma ParentsWithin(b: Bytes, k: nat, part: Bytes, s: seq<Digest32>)
    requires Holds(b, k, part) && ParentsAt(part, 0, s)
    ensures ParentsAt(b, k, s)
  {
    forall j | 0 <= j < |s|
      ensures Holds(b, k + 32 * j, s[j].bytes)
    {
      assert Holds(part, 0 + 32 * j, s[j].bytes);
      Within(b, k, part, 32 * j, s[j].bytes);
    }
  }

  lemma TailWithin(b: Bytes, k: nat, part: Bytes, tx: UtxoTransaction)
    requires Holds(b, k, part) && TailAt(part, 0, tx)
    ensures TailAt(b, k, tx)
  {
    Within(b, k, part, 0, ToLe(tx.timestamp, 8));
    Within(b, k, part, 8, ToLe(tx.fee, 8));
    Within(b, k, part, 16, ToLe(|tx.memo| % 0x1_0000_0000, 4));
    Within(b, k, part, 20, tx.memo);
  }

  /** The parts of the encoding, one after the other. */
  /** The parts of the encoding stand at these offsets. */
  ghost predicate PartsAt(b: Bytes, tx: UtxoTransaction, inputs: Bytes, outputs: Bytes, parents: Bytes, tail: Bytes,
                          o: nat, p: nat, t: nat) {
    && |b| == t + |tail| && Holds(b, 0, [tx.version, KindByte(tx.kind)])
    && LengthAt(b, 2, |tx.inputs|) && Holds(b, 6, inputs)
    && LengthAt(b, o, |tx.outputs|) && Holds(b, o + 4, outputs)
    && LengthAt(b, p, |tx.dagParents|) && Holds(b, p + 4, parents) && Holds(b, t, tail)
  }

  lemma Parts(tx: UtxoTransaction, b: Bytes, inputs: Bytes, outputs: Bytes, parents: Bytes, tail: Bytes)
    requires inputs == InputsBytes(tx.inputs) && outputs == OutputsBytes(tx.outputs)
    requires parents == ParentsBytes(tx.dagParents) && tail == TailBytes(tx) && b == SignableBytes(tx)
    ensures PartsAt(b, tx, inputs, outputs, parents, tail, 6 + |inputs|, 10 + |inputs| + |outputs|,
                    14 + |inputs| + |outputs| + |parents|)
  {
    var s1 := [tx.version, KindByte(tx.kind)];
    var s2 := s1 + LengthBytes(|tx.inputs|);
    var s3 := s2 + inputs;
    var s4 := s3 + LengthBytes(|tx.outputs|);
    var s5 := s4 + outputs;
    var s6 := s5 + LengthBytes(|tx.dagParents|);
    var s7 := s6 + parents;
    Ends(s7, tail);
    Piece(b, s6, parents);
    Piece(b, s5, LengthBytes(|tx.dagParents|));
    Piece(b, s4, outputs);
    Piece(b, s3, LengthBytes(|tx.outputs|));
    Piece(b, s2, inputs);
    Piece(b, s1, LengthBytes(|tx.inputs|));
  }

  lemma Header(b: Bytes, x: Byte, y: Byte)
    requires Holds(b, 0, [x, y])
    ensures |b| >= 2 && b[0] == x && b[1] == y
  {
    assert b[..2][0] == b[0] && b[..2][1] == b[1];
  }

  lemma Assemble(b: Bytes, tx: UtxoTransaction, inputs: Bytes, outputs: Bytes, parents: Bytes, tail: Bytes,
                 o: nat, p: nat, t: nat)
    requires InputsAt(inputs, 0, tx.inputs) && OutputsAt(outputs, 0, tx.outputs) && ParentsAt(parents, 0, tx.dagParents)
    requires TailAt(tail, 0, tx) && PartsAt(b, tx, inputs, outputs, parents, tail, o, p, t)
    ensures FieldsAt(b, tx, o, p, t)
  {
    Header(b, tx.version, KindByte(tx.kind));
    InputsWithin(b, 6, inputs, tx.inputs);
    OutputsWithin(b, o + 4, outputs, tx.outputs);
    ParentsWithin(b, p + 4, parents, tx.dagParents);
    TailWithin(b, t, tail, tx);
  }

  lemma Printed(b: Bytes, tx: UtxoTransaction, inputs: Bytes, outputs: Bytes, parents: Bytes, tail: Bytes,
                o: nat, p: nat, t: nat)
    requires |inputs| == 68 * |tx.inputs| && |outputs| == 40 * |tx.outputs| && |parents| == 32 * |tx.dagParents|
    requires InputsAt(inputs, 0, tx.inputs) && OutputsAt(outputs, 0, tx.outputs) && ParentsAt(parents, 0, tx.dagParents)
    requires |tail| == 20 + |tx.memo| && TailAt(tail, 0, tx)
    requires o == 6 + |inputs| && p == o + 4 + |outputs| && t == p + 4 + |parents|
    requires PartsAt(b, tx, inputs, outputs, parents, tail, o, p, t)
    ensures LaidOut(b, tx)
  {
    Assemble(b, tx, inputs, outputs, parents, tail, o, p, t);
  }

  /** The canonical bytes have each field at its place, whatever the list lengths. */
  lemma SignableIsLaidOut(tx: UtxoTransaction)
    ensures LaidOut(SignableBytes(tx), tx)
  {
    var inputs, outputs, parents := InputsBytes(tx.inputs), OutputsBytes(tx.outputs), ParentsBytes(tx.dagParents);
    var o := 6 + |inputs|;
    var p := o + 4 + |outputs|;
    InputsPrinted(tx.inputs);
    OutputsPrinted(tx.outputs);
    ParentsPrinted(tx.dagParents);
    TailPrinted(tx);
    Parts(tx, SignableBytes(tx), inputs, outputs, parents, TailBytes(tx));
    Printed(SignableBytes(tx), tx, inputs, outputs, parents, TailBytes(tx), o, p, p + 4 + |parents|);
  }

  // ---- Lengths of 2^32 and more ----------------------------------------------------------------

  function ZeroParents(n: nat): (s: seq<Digest32>)
    ensures |s| == n
  {
    if n == 0 then [] else [Digest32(Zeros(32))] + ZeroParents(n - 1)
  }

  ghost predicate AllZero(b: Bytes) { forall i :: 0 <= i < |b| ==> b[i] == 0 }

  lemma {:induction false} ZeroParentsBytes(n: nat)
    ensures AllZero(ParentsBytes(ZeroParents(n))) && |ParentsBytes(ZeroParents(n))| == 32 * n
  {
    if n > 0 {
      ZeroParentsBytes(n - 1);
      assert ZeroParents(n)[1..] == ZeroParents(n - 1);
    }
  }

  /** Without the bound on lengths the bytes do not determine the transaction: 2^32 zero parents and
      no memo sign the same bytes as no parents and a memo of 2^37 zero bytes. */
  lemma TruncatedLengthsCollide(t1: UtxoTransaction, t2: UtxoTransaction)
    requires t1 == UtxoTransaction(1, Standard, [], [], ZeroParents(TWO32), 0, 0, [])
    requires t2 == UtxoTransaction(1, Standard, [], [], [], 0, 0, Zeros(32 * TWO32))
    ensures SignableBytes(t1) == SignableBytes(t2) && Committed(t1) != Committed(t2)
  {
    ZeroParentsBytes(TWO32);
    ZeroTail(t1);
    ZeroTail(t2);
    var head := [1, 0] + LengthBytes(0) + [] + LengthBytes(0) + [] + LengthBytes(0);
    var p1, p2 := ParentsBytes(ZeroParents(TWO32)) + TailBytes(t1), TailBytes(t2);
    SameZeros(p1, p2);
    assert SignableBytes(t1) == head + p1 && SignableBytes(t2) == head + p2;
  }

  lemma ZeroTail(tx: UtxoTransaction)
    requires tx.timestamp == 0 && tx.fee == 0 && AllZero(tx.memo) && |tx.memo| % TWO32 == 0
    ensures AllZero(TailBytes(tx)) && |TailBytes(tx)| == 20 + |tx.memo|
  {
    LeZero(4);
    LeZero(8);
  }

  lemma SameZeros(a: Bytes, b: Bytes)
    requires AllZero(a) && AllZero(b) && |a| == |b|
    ensures a == b
  {}

  lemma {:induction false} LeZero(n: nat)
    ensures AllZero(ToLe(0, n))
  {
    if n > 0 {
      LeZero(n - 1);
    }
  }
}
