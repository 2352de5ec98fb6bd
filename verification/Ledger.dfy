/**
 * Transactions, blocks and their digests (transaction.py, block.py).
 *
 * A digest is symbolic: it is the term it was computed from, or a text that is no digest at all.
 * Two digests are equal exactly when they were computed from equal contents. A Merkle node is computed from bytes:
 * those of two digests, or any others, which stand here as the text that spells them, two characters a byte.
 */
module Ledger {
  import opened Params
  import opened Results

  type Byte = x: int | 0 <= x < 256

  datatype Digest =
    | Raw(text: string)
    | TxId(tx: Transaction)
    | Node(left: Digest, right: Digest)
    | Mixed(preimage: Text)
    | HeaderHash(header: Header)

  /** A character of a text: any character, or one of the 64 hex digits of a digest. */
  datatype Symbol = Plain(c: char) | DigitOf(digest: Digest, at: nat)

  type Text = seq<Symbol>

  datatype Outpoint = Outpoint(txid: Digest, index: int)

  datatype TxOutput = TxOutput(amount: int, pubkeyHash: string)

  datatype TxInput = TxInput(prevTxid: Digest, outputIndex: int, pubkey: string, signature: seq<Byte>)

  datatype Transaction = Transaction(inputs: seq<TxInput>, outputs: seq<TxOutput>)

  datatype Header = Header(prevHash: Digest, merkleRoot: Digest, timestamp: int, bits: int, nonce: int)

  datatype Block = Block(header: Header, transactions: seq<Transaction>)

  /**
   * What the node calls but does not define: digest values, sizes, key hashes and ECDSA. A key that is not
   * hex has no hash: `bytes.fromhex` raises. On a key that is no curve point ECDSA raises an error nobody catches.
   */
  datatype Rules = Rules(
    maturity: nat,
    digestValue: Digest -> nat,
    serializedSize: Block -> nat,
    keyHash: string -> Option<string>,
    sigVerifies: (string, Transaction, seq<Byte>) -> Option<bool>)

  /** The 64 zeros that mark a coinbase input and the genesis parent. No digest equals it. */
  const NULL_DIGEST: Digest := Raw("0000000000000000000000000000000000000000000000000000000000000000")

  const CURVE_N: nat := 0xFFFF_FFFF_FFFF_FFFF_FFFF_FFFF_FFFF_FFFE_BAAE_DCE6_AF48_A03B_BFD2_5E8C_D036_4141

  function OutpointOf(txin: TxInput): Outpoint {
    Outpoint(txin.prevTxid, txin.outputIndex)
  }

  predicate IsCoinbase(tx: Transaction) {
    |tx.inputs| == 1 && tx.inputs[0].prevTxid == NULL_DIGEST
  }

  function HashOf(b: Block): Digest {
    HeaderHash(b.header)
  }

  function StripInput(txin: TxInput): TxInput {
    txin.(pubkey := "", signature := [])
  }

  /** The message every input signs: the transaction with all keys and signatures removed. */
  function SigningForm(tx: Transaction): Transaction {
    Transaction(seq(|tx.inputs|, i requires 0 <= i < |tx.inputs| => StripInput(tx.inputs[i])), tx.outputs)
  }

  /** What a signature binds: all outputs, and which outpoints are taken in which order; nothing else. */
  lemma {:induction false} MessageBinds(a: Transaction, b: Transaction)
    ensures SigningForm(a) == SigningForm(b) <==>
            && a.outputs == b.outputs && |a.inputs| == |b.inputs|
            && forall n :: 0 <= n < |a.inputs| ==> OutpointOf(a.inputs[n]) == OutpointOf(b.inputs[n])
  {
    var f, g := SigningForm(a).inputs, SigningForm(b).inputs;
    if SigningForm(a) == SigningForm(b) {
      forall n | 0 <= n < |a.inputs| ensures OutpointOf(a.inputs[n]) == OutpointOf(b.inputs[n]) {
        assert f[n] == g[n];
      }
    } else if a.outputs == b.outputs && |f| == |g| {
      var n :| 0 <= n < |f| && f[n] != g[n];
      assert OutpointOf(a.inputs[n]) != OutpointOf(b.inputs[n]);
    }
  }

  /** Big-endian number of a byte string. */
  function FromBytes(bs: seq<Byte>): (n: nat) {
    if |bs| == 0 then 0 else FromBytes(bs[..|bs| - 1]) * 256 + bs[|bs| - 1]
  }

  /** The first byte counts most. */
  lemma {:induction false} FirstByteCountsMost(b: Byte, bs: seq<Byte>)
    ensures FromBytes([b] + bs) == b * Power256(|bs|) + FromBytes(bs)
  {
    if |bs| == 0 {
      assert [b] + bs == [b] && [b][..0] == [];
    } else {
      var n := |bs| - 1;
      FirstByteCountsMost(b, bs[..n]);
      assert ([b] + bs)[..n + 1] == [b] + bs[..n];
      Shifted(b, Power256(n), FromBytes(bs[..n]));
    }
  }

  lemma Shifted(b: nat, p: nat, low: nat)
    ensures (b * p + low) * 256 == b * (256 * p) + low * 256
  {
    assert b * (256 * p) == 256 * (b * p);
  }

  /** The `width` big-endian bytes of a number. */
  function ToBytes(n: nat, width: nat): (bs: seq<Byte>)
    ensures |bs| == width
  {
    if width == 0 then [] else ToBytes(n / 256, width - 1) + [n % 256]
  }

  lemma {:induction false} ToFromBytes(n: nat, width: nat)
    requires n < Power256(width)
    ensures FromBytes(ToBytes(n, width)) == n
  {
    if width > 0 {
      ToFromBytes(n / 256, width - 1);
      var bs := ToBytes(n, width);
      assert bs[..|bs| - 1] == ToBytes(n / 256, width - 1);
    }
  }

  function Power256(k: nat): nat {
    if k == 0 then 1 else 256 * Power256(k - 1)
  }

  // ----- amounts ---------------------------------------------------------- //

  function SumOut(outputs: seq<TxOutput>): int {
    if |outputs| == 0 then 0 else SumOut(outputs[..|outputs| - 1]) + outputs[|outputs| - 1].amount
  }

  function SumIn(outs: map<Outpoint, TxOutput>, inputs: seq<TxInput>): int
    requires forall i :: 0 <= i < |inputs| ==> OutpointOf(inputs[i]) in outs
  {
    if |inputs| == 0 then 0
    else SumIn(outs, inputs[..|inputs| - 1]) + outs[OutpointOf(inputs[|inputs| - 1])].amount
  }

  /** `fee`: what the inputs bring in beyond what the outputs pay. */
  function Fee(outs: map<Outpoint, TxOutput>, tx: Transaction): int
    requires forall i :: 0 <= i < |tx.inputs| ==> OutpointOf(tx.inputs[i]) in outs
  {
    SumIn(outs, tx.inputs) - SumOut(tx.outputs)
  }

  // ----- verification ----------------------------------------------------- //

  predicate AmountsOk(outputs: seq<TxOutput>) {
    && (forall i :: 0 <= i < |outputs| ==> 0 < outputs[i].amount <= MAX_MONEY)
    && SumOut(outputs) <= MAX_MONEY
  }

  /** 64 bytes with s in the lower half of the group order. */
  predicate LowS(signature: seq<Byte>) {
    |signature| == 64 && 0 < FromBytes(signature[32..]) <= CURVE_N / 2
  }

  predicate SignatureOk(rules: Rules, txin: TxInput, message: Transaction) {
    LowS(txin.signature) && rules.sigVerifies(txin.pubkey, message, txin.signature) == Some(true)
  }

  /** Input `txin` names an unspent output of the owner of its key. */
  predicate Owns(rules: Rules, outs: map<Outpoint, TxOutput>, txin: TxInput) {
    OutpointOf(txin) in outs && rules.keyHash(txin.pubkey) == Some(outs[OutpointOf(txin)].pubkeyHash)
  }

  /** Input `txin` may spend the output it names. */
  predicate InputOk(rules: Rules, outs: map<Outpoint, TxOutput>, txin: TxInput, message: Transaction) {
    Owns(rules, outs, txin) && SignatureOk(rules, txin, message)
  }

  /** Checking `txin` raises: its key has no hash, or ECDSA cannot make a point of it. */
  predicate InputRaises(rules: Rules, outs: map<Outpoint, TxOutput>, txin: TxInput, message: Transaction) {
    && OutpointOf(txin) in outs
    && (|| rules.keyHash(txin.pubkey).None?
        || (Owns(rules, outs, txin) && LowS(txin.signature)
            && rules.sigVerifies(txin.pubkey, message, txin.signature).None?))
  }

  predicate DistinctInputs(inputs: seq<TxInput>) {
    forall i, j :: 0 <= i < j < |inputs| ==> OutpointOf(inputs[i]) != OutpointOf(inputs[j])
  }

  /** What is checked of a transaction before its inputs. */
  predicate ShapeOk(tx: Transaction) {
    !IsCoinbase(tx) && |tx.inputs| > 0 && |tx.outputs| > 0 && AmountsOk(tx.outputs)
  }

  /** The first `k` inputs pass: no outpoint twice, and each may spend the output it names. */
  predicate InputsPass(rules: Rules, outs: map<Outpoint, TxOutput>, tx: Transaction, k: nat)
    requires k <= |tx.inputs|
  {
    && DistinctInputs(tx.inputs[..k])
    && forall i :: 0 <= i < k ==> InputOk(rules, outs, tx.inputs[i], SigningForm(tx))
  }

  /** What a non-coinbase transaction must satisfy against the outputs that can still be spent. */
  predicate Verifies(rules: Rules, outs: map<Outpoint, TxOutput>, tx: Transaction) {
    && ShapeOk(tx)
    && DistinctInputs(tx.inputs)
    && (forall i :: 0 <= i < |tx.inputs| ==> InputOk(rules, outs, tx.inputs[i], SigningForm(tx)))
    && SumIn(outs, tx.inputs) >= SumOut(tx.outputs)
  }

  /** Input `k` is the first that does not pass, is no repetition, and raises. */
  predicate RaisesAt(rules: Rules, outs: map<Outpoint, TxOutput>, tx: Transaction, k: nat) {
    && k < |tx.inputs| && InputsPass(rules, outs, tx, k) && DistinctInputs(tx.inputs[..k + 1])
    && InputRaises(rules, outs, tx.inputs[k], SigningForm(tx))
  }

  /** When verification raises instead of answering. */
  ghost predicate VerifyRaises(rules: Rules, outs: map<Outpoint, TxOutput>, tx: Transaction) {
    ShapeOk(tx) && exists k: nat :: RaisesAt(rules, outs, tx, k)
  }

  /** An input that fails without raising settles the answer: later inputs are not looked at. */
  lemma FirstFailureSettles(rules: Rules, outs: map<Outpoint, TxOutput>, tx: Transaction, k: nat)
    requires k < |tx.inputs| && InputsPass(rules, outs, tx, k) && !RaisesAt(rules, outs, tx, k)
    requires !DistinctInputs(tx.inputs[..k + 1]) || !InputOk(rules, outs, tx.inputs[k], SigningForm(tx))
    ensures !Verifies(rules, outs, tx) && !VerifyRaises(rules, outs, tx)
  {
  }

  lemma AllPass(rules: Rules, outs: map<Outpoint, TxOutput>, tx: Transaction)
    requires InputsPass(rules, outs, tx, |tx.inputs|)
    ensures !VerifyRaises(rules, outs, tx) && DistinctInputs(tx.inputs)
  {
    assert tx.inputs[..|tx.inputs|] == tx.inputs;
  }

  /** Transaction.verify: one pass over the inputs with a `seen` set and a running total; None is an exception. */
  method Verify(rules: Rules, outs: map<Outpoint, TxOutput>, tx: Transaction) returns (ok: Option<bool>)
    ensures ok.None? <==> VerifyRaises(rules, outs, tx)
    ensures ok.Some? ==> ok.value == Verifies(rules, outs, tx)
  {
    if !ShapeOk(tx) { return Some(false); }
    var seen: set<Outpoint> := {};
    var totalIn := 0;
    for k := 0 to |tx.inputs|
      invariant seen == set i | 0 <= i < k :: OutpointOf(tx.inputs[i])
      invariant InputsPass(rules, outs, tx, k)
      invariant totalIn == SumIn(outs, tx.inputs[..k])
    {
      var o := OutpointOf(tx.inputs[k]);
      SeenBefore(tx.inputs, k);
      if o in seen {
        FirstFailureSettles(rules, outs, tx, k);
        return Some(false);
      }
      seen := seen + {o};
      var passes := CheckInput(rules, outs, tx.inputs[k], SigningForm(tx));
      if passes.None? {
        assert RaisesAt(rules, outs, tx, k);
        return None;
      }
      if !passes.value {
        FirstFailureSettles(rules, outs, tx, k);
        return Some(false);
      }
      assert tx.inputs[..k + 1][..k] == tx.inputs[..k];
      totalIn := totalIn + outs[o].amount;
    }
    AllPass(rules, outs, tx);
    assert tx.inputs[..|tx.inputs|] == tx.inputs;
    ok := Some(totalIn >= SumOut(tx.outputs));
  }

  lemma SeenBefore(inputs: seq<TxInput>, k: nat)
    requires k < |inputs| && DistinctInputs(inputs[..k])
    ensures var seen := set i | 0 <= i < k :: OutpointOf(inputs[i]);
            OutpointOf(inputs[k]) in seen <==> !DistinctInputs(inputs[..k + 1])
  {
    var more := inputs[..k + 1];
    if o: nat :| o < k && OutpointOf(inputs[o]) == OutpointOf(inputs[k]) {
      assert OutpointOf(more[o]) == OutpointOf(more[k]);
    }
  }

  /** One round of that pass: the output, the key, then the signature. */
  method CheckInput(rules: Rules, outs: map<Outpoint, TxOutput>, txin: TxInput, message: Transaction)
    returns (passes: Option<bool>)
    ensures passes.None? <==> InputRaises(rules, outs, txin, message)
    ensures passes.Some? ==> passes.value == InputOk(rules, outs, txin, message)
  {
    var o := OutpointOf(txin);
    if o !in outs { return Some(false); }
    var hash := rules.keyHash(txin.pubkey);
    if hash.None? { return None; }
    if hash.value != outs[o].pubkeyHash { return Some(false); }
    if |txin.signature| != 64 { return Some(false); }
    var s := FromBytes(txin.signature[32..]);
    if s == 0 || s > CURVE_N / 2 { return Some(false); }
    passes := rules.sigVerifies(txin.pubkey, message, txin.signature);
  }

  /** Every key of `tx` has a hash and every signature is good, whatever its inputs spend. */
  predicate Signed(rules: Rules, tx: Transaction) {
    forall i :: 0 <= i < |tx.inputs| ==>
      rules.keyHash(tx.inputs[i].pubkey).Some? && SignatureOk(rules, tx.inputs[i], SigningForm(tx))
  }

  /** A transaction that has verified once never makes verification raise, against whatever outputs. */
  lemma SignedNeverRaises(rules: Rules, outs: map<Outpoint, TxOutput>, tx: Transaction)
    requires Signed(rules, tx)
    ensures !VerifyRaises(rules, outs, tx)
  {
  }

  /** Transaction.fee, as a sum over the inputs. */
  method ComputeFee(outs: map<Outpoint, TxOutput>, tx: Transaction) returns (fee: int)
    requires forall i :: 0 <= i < |tx.inputs| ==> OutpointOf(tx.inputs[i]) in outs
    ensures fee == Fee(outs, tx)
  {
    var totalIn := 0;
    for k := 0 to |tx.inputs|
      invariant totalIn == SumIn(outs, tx.inputs[..k])
    {
      assert tx.inputs[..k + 1][..k] == tx.inputs[..k];
      totalIn := totalIn + outs[OutpointOf(tx.inputs[k])].amount;
    }
    assert tx.inputs[..|tx.inputs|] == tx.inputs;
    fee := totalIn - SumOut(tx.outputs);
  }

  // ----- coinbase --------------------------------------------------------- //

  /** The transaction a miner puts first: it commits to its height and pays subsidy plus fees. */
  function CreateCoinbase(height: nat, minerKeyHash: string, fees: int, extraNonce: string): Transaction {
    Transaction([TxInput(NULL_DIGEST, height, extraNonce, [])],
                [TxOutput(BlockSubsidy(height) + fees, minerKeyHash)])
  }

  predicate CoinbaseOk(txs: seq<Transaction>, height: nat, subsidy: nat, fees: int) {
    && |txs| > 0
    && IsCoinbase(txs[0])
    && txs[0].inputs[0].outputIndex == height
    && (forall i :: 1 <= i < |txs| ==> !IsCoinbase(txs[i]))
    && |txs[0].outputs| > 0
    && AmountsOk(txs[0].outputs)
    && SumOut(txs[0].outputs) <= subsidy + fees
  }

  /** validate_coinbase, in the order its checks are made. */
  method ValidateCoinbase(txs: seq<Transaction>, height: nat, subsidy: nat, fees: int) returns (ok: bool)
    ensures ok == CoinbaseOk(txs, height, subsidy, fees)
  {
    if |txs| == 0 { return false; }
    var cb := txs[0];
    if !IsCoinbase(cb) || cb.inputs[0].outputIndex != height { return false; }
    for i := 1 to |txs|
      invariant forall j :: 1 <= j < i ==> !IsCoinbase(txs[j])
    {
      if IsCoinbase(txs[i]) { return false; }
    }
    if |cb.outputs| == 0 { return false; }
    var claimed := 0;
    for i := 0 to |cb.outputs|
      invariant forall j :: 0 <= j < i ==> 0 < cb.outputs[j].amount <= MAX_MONEY
      invariant claimed == SumOut(cb.outputs[..i])
    {
      if cb.outputs[i].amount <= 0 || cb.outputs[i].amount > MAX_MONEY { return false; }
      assert cb.outputs[..i + 1][..i] == cb.outputs[..i];
      claimed := claimed + cb.outputs[i].amount;
    }
    assert cb.outputs[..|cb.outputs|] == cb.outputs;
    ok := claimed <= MAX_MONEY && claimed <= subsidy + fees;
  }
}
