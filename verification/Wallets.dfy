/** Keys, signing, and the greedy transaction builder (wallet.py, transaction.py). */
module Wallets {
  import opened Params
  import opened Ledger
  import opened Results
  import opened CoinSet
  import opened Chain
  import opened Tree
  import opened NodeChain
  import Address

  type Key = nat

  /** The signature scheme: public keys, their hashes as bytes, and deterministic signing. */
  datatype Scheme = Scheme(pub: Key -> string, digest: Key -> seq<Byte>, sign: (Key, Transaction) -> seq<Byte>)

  function SValue(sig: seq<Byte>): nat
    requires |sig| == 64
  {
    FromBytes(sig[32..])
  }

  /**
   * canonical_low_s: of the two signatures (r, s) and (r, n - s), the one with s <= n / 2. No signer
   * produces s > n; the source then fails to write a negative number, here s is left alone.
   */
  function CanonicalLowS(sig: seq<Byte>): seq<Byte> {
    if |sig| != 64 then sig
    else
      var s := SValue(sig);
      sig[..32] + ToBytes(if s > CURVE_N / 2 && s <= CURVE_N then CURVE_N - s else s, 32)
  }

  /** The same signature with n - s in place of s. */
  function Flip(sig: seq<Byte>): seq<Byte>
    requires |sig| == 64 && SValue(sig) <= CURVE_N
  {
    sig[..32] + ToBytes(CURVE_N - SValue(sig), 32)
  }

  /** What is assumed of ECDSA and SHA-256: signing gives a valid signature, and replacing s by n - s another one. */
  ghost predicate Sane(rules: Rules, scheme: Scheme) {
    && (forall k, m {:trigger scheme.sign(k, m)} ::
          && |scheme.sign(k, m)| == 64 && 0 < SValue(scheme.sign(k, m)) < CURVE_N
          && rules.sigVerifies(scheme.pub(k), m, scheme.sign(k, m)) == Some(true)
          && rules.sigVerifies(scheme.pub(k), m, Flip(scheme.sign(k, m))) == Some(true))
    && (forall k {:trigger scheme.digest(k)} ::
          |scheme.digest(k)| == 32 && rules.keyHash(scheme.pub(k)) == Some(Hex(scheme.digest(k))))
  }

  const HEX_DIGITS: string := "0123456789abcdef"

  function Hex(bs: seq<int>): string {
    if |bs| == 0 then ""
    else Hex(bs[..|bs| - 1]) + [HEX_DIGITS[bs[|bs| - 1] / 16 % 16], HEX_DIGITS[bs[|bs| - 1] % 16]]
  }

  // ----- low-S ------------------------------------------------------------------------ //

  lemma {:induction false} FromToBytes(bs: seq<Byte>)
    ensures FromBytes(bs) < Power256(|bs|) && ToBytes(FromBytes(bs), |bs|) == bs
  {
    if |bs| > 0 {
      FromToBytes(bs[..|bs| - 1]);
    }
  }

  lemma CurveFits()
    ensures CURVE_N < Power256(32)
  {
    assert Power256(4) == 0x1_0000_0000;
    assert Power256(8) == 0x1_0000_0000 * 0x1_0000_0000;
    Power256Add(8, 8);
    Power256Add(16, 16);
  }

  lemma {:induction false} Power256Add(a: nat, b: nat)
    ensures Power256(a + b) == Power256(a) * Power256(b)
    decreases b
  {
    if b > 0 {
      Power256Add(a, b - 1);
      assert Power256(a) * (256 * Power256(b - 1)) == 256 * (Power256(a) * Power256(b - 1));
    }
  }

  /** Normalising always ends at or below n / 2, keeps s positive, and keeps the signature valid. */
  lemma LowSVerifies(rules: Rules, scheme: Scheme, key: Key, m: Transaction)
    requires Sane(rules, scheme)
    ensures var sig := CanonicalLowS(scheme.sign(key, m));
            && |sig| == 64 && 0 < FromBytes(sig[32..]) <= CURVE_N / 2
            && rules.sigVerifies(scheme.pub(key), m, sig) == Some(true)
  {
    var sig := scheme.sign(key, m);
    var s := SValue(sig);
    var low := CanonicalLowS(sig);
    CurveFits();
    FromToBytes(sig[32..]);
    assert sig == sig[..32] + sig[32..];
    if s > CURVE_N / 2 {
      ToFromBytes(CURVE_N - s, 32);
      assert low == Flip(sig);
      assert low[32..] == ToBytes(CURVE_N - s, 32);
    } else {
      assert low == sig;
    }
  }

  // ----- signing ------------------------------------------------------------------------ //

  function SignedInput(scheme: Scheme, txin: TxInput, key: Key, message: Transaction): TxInput {
    TxInput(txin.prevTxid, txin.outputIndex, scheme.pub(key), CanonicalLowS(scheme.sign(key, message)))
  }

  /** sign_input: write the public key, sign the stripped transaction, write the normalised signature. */
  method SignInput(scheme: Scheme, tx: Transaction, index: nat, key: Key) returns (signed: Transaction)
    requires index < |tx.inputs|
    ensures signed == tx.(inputs := tx.inputs[index := SignedInput(scheme, tx.inputs[index], key, SigningForm(tx))])
    ensures SigningForm(signed) == SigningForm(tx)
  {
    var withKey := tx.(inputs := tx.inputs[index := tx.inputs[index].(pubkey := scheme.pub(key))]);
    SigningFormIgnores(tx, index, withKey.inputs[index]);
    var sig := scheme.sign(key, SigningForm(withKey));
    signed := withKey.(inputs := withKey.inputs[index := withKey.inputs[index].(signature := CanonicalLowS(sig))]);
    SigningFormIgnores(withKey, index, signed.inputs[index]);
    assert signed.inputs == tx.inputs[index := SignedInput(scheme, tx.inputs[index], key, SigningForm(tx))];
  }

  /** What one input's owner writes does not change the message any input signs. */
  lemma SigningFormIgnores(tx: Transaction, index: nat, txin: TxInput)
    requires index < |tx.inputs| && StripInput(txin) == StripInput(tx.inputs[index])
    ensures SigningForm(tx.(inputs := tx.inputs[index := txin])) == SigningForm(tx)
  {
    var tx' := tx.(inputs := tx.inputs[index := txin]);
    assert SigningForm(tx').inputs == SigningForm(tx).inputs;
  }

  // ----- coin selection -------------------------------------------------------------------- //

  datatype Utxo = Utxo(outpoint: Outpoint, out: TxOutput)

  function OwnedOf(utxos: seq<Utxo>, owned: set<string>): seq<Utxo> {
    if |utxos| == 0 then []
    else
      var before := OwnedOf(utxos[..|utxos| - 1], owned);
      var last := utxos[|utxos| - 1];
      if last.out.pubkeyHash in owned then before + [last] else before
  }

  function ValueOf(utxos: seq<Utxo>): int {
    if |utxos| == 0 then 0 else ValueOf(utxos[..|utxos| - 1]) + utxos[|utxos| - 1].out.amount
  }

  /** The owned outputs up to the first one that makes the sum reach the target, or all when none does. */
  ghost predicate FirstFit(utxos: seq<Utxo>, owned: set<string>, target: int, selected: seq<Utxo>) {
    exists k: nat :: StopsAt(utxos, owned, target, selected, k)
  }

  ghost predicate StopsAt(utxos: seq<Utxo>, owned: set<string>, target: int, selected: seq<Utxo>, k: nat) {
    && k <= |utxos| && selected == OwnedOf(utxos[..k], owned)
    && (forall j :: 0 <= j < k ==> ValueOf(OwnedOf(utxos[..j], owned)) < target)
    && (ValueOf(selected) >= target || k == |utxos|)
  }

  /** What greedy selection has picked after looking at `utxos`: nothing is taken once the target is reached. */
  function PickCoins(utxos: seq<Utxo>, owned: set<string>, target: int): seq<Utxo> {
    if |utxos| == 0 then []
    else
      var before, last := PickCoins(utxos[..|utxos| - 1], owned, target), utxos[|utxos| - 1];
      if ValueOf(before) < target && last.out.pubkeyHash in owned then before + [last] else before
  }

  lemma {:induction false} PickIsFirstFit(utxos: seq<Utxo>, owned: set<string>, target: int)
    requires target > 0
    ensures FirstFit(utxos, owned, target, PickCoins(utxos, owned, target))
  {
    if |utxos| == 0 {
      assert StopsAt(utxos, owned, target, [], 0);
    } else {
      var init := utxos[..|utxos| - 1];
      PickIsFirstFit(init, owned, target);
      var k: nat :| StopsAt(init, owned, target, PickCoins(init, owned, target), k);
      StopsLater(utxos, owned, target, PickCoins(init, owned, target), k);
    }
  }

  lemma {:induction false} StopsLater(utxos: seq<Utxo>, owned: set<string>, target: int, before: seq<Utxo>, k: nat)
    requires |utxos| > 0 && StopsAt(utxos[..|utxos| - 1], owned, target, before, k)
    ensures var last := utxos[|utxos| - 1];
            FirstFit(utxos, owned, target,
                     if ValueOf(before) < target && last.out.pubkeyHash in owned then before + [last] else before)
  {
    var init := utxos[..|utxos| - 1];
    forall j | 0 <= j <= |init| ensures init[..j] == utxos[..j] {}
    if ValueOf(before) >= target {
      assert StopsAt(utxos, owned, target, before, k);
    } else {
      assert utxos[..|utxos|] == utxos && init[..|init|] == init;
      assert StopsAt(utxos, owned, target, OwnedOf(utxos, owned), |utxos|);
    }
  }

  lemma {:induction false} PickStops(utxos: seq<Utxo>, owned: set<string>, target: int, k: nat)
    requires k <= |utxos| && ValueOf(PickCoins(utxos[..k], owned, target)) >= target
    ensures PickCoins(utxos, owned, target) == PickCoins(utxos[..k], owned, target)
  {
    if k < |utxos| {
      assert utxos[..|utxos| - 1][..k] == utxos[..k];
      PickStops(utxos[..|utxos| - 1], owned, target, k);
    } else {
      assert utxos[..k] == utxos;
    }
  }

  lemma {:induction false} PickStep(utxos: seq<Utxo>, owned: set<string>, target: int, k: nat)
    requires k < |utxos| && ValueOf(PickCoins(utxos[..k], owned, target)) < target
    ensures PickCoins(utxos[..k + 1], owned, target)
         == PickCoins(utxos[..k], owned, target) + if utxos[k].out.pubkeyHash in owned then [utxos[k]] else []
  {
    assert utxos[..k + 1][..k] == utxos[..k];
  }

  lemma {:induction false} ValueGrows(utxos: seq<Utxo>, u: Utxo)
    ensures ValueOf(utxos + [u]) == ValueOf(utxos) + u.out.amount
  {
    assert (utxos + [u])[..|utxos|] == utxos;
  }

  /** The selection loop of create_transaction: stop at the first owned output that reaches the target. */
  method SelectCoins(utxos: seq<Utxo>, owned: set<string>, target: int) returns (selected: seq<Utxo>, total: int)
    requires target > 0
    ensures selected == PickCoins(utxos, owned, target) && total == ValueOf(selected)
  {
    selected, total := [], 0;
    for k := 0 to |utxos|
      invariant selected == PickCoins(utxos[..k], owned, target) && total == ValueOf(selected) && total < target
    {
      PickStep(utxos, owned, target, k);
      if utxos[k].out.pubkeyHash in owned {
        ValueGrows(selected, utxos[k]);
        selected := selected + [utxos[k]];
        total := total + utxos[k].out.amount;
        if total >= target {
          PickStops(utxos, owned, target, k + 1);
          return;
        }
      }
    }
    assert utxos[..|utxos|] == utxos;
  }

  /** Any list of entries that the index holds, without repetitions. */
  ghost predicate Listed(utxos: seq<Utxo>, outs: map<Outpoint, TxOutput>) {
    && (forall i :: 0 <= i < |utxos| ==> utxos[i].outpoint in outs && outs[utxos[i].outpoint] == utxos[i].out)
    && (forall i, j :: 0 <= i < j < |utxos| ==> utxos[i].outpoint != utxos[j].outpoint)
  }

  lemma {:induction false} PickIsListed(utxos: seq<Utxo>, owned: set<string>, target: int,
                                        outs: map<Outpoint, TxOutput>)
    requires Listed(utxos, outs)
    ensures Listed(PickCoins(utxos, owned, target), outs)
    ensures forall u :: u in PickCoins(utxos, owned, target) ==> u in utxos
  {
    if |utxos| > 0 {
      var init, last := utxos[..|utxos| - 1], utxos[|utxos| - 1];
      PickIsListed(init, owned, target, outs);
      forall u | u in PickCoins(init, owned, target) ensures u.outpoint != last.outpoint {
        var i :| 0 <= i < |init| && init[i] == u;
        assert utxos[i].outpoint != last.outpoint;
      }
    }
  }

  /** The inputs that spend selected entries bring in their value. */
  lemma {:induction false} InputsValue(selected: seq<Utxo>, inputs: seq<TxInput>, outs: map<Outpoint, TxOutput>)
    requires Listed(selected, outs) && |inputs| == |selected|
    requires forall i :: 0 <= i < |inputs| ==> OutpointOf(inputs[i]) == selected[i].outpoint
    ensures SumIn(outs, inputs) == ValueOf(selected)
  {
    if |inputs| > 0 {
      InputsValue(selected[..|selected| - 1], inputs[..|inputs| - 1], outs);
    }
  }

  /** Selected entries are worth no more than the whole index. */
  lemma {:induction false} SelectedWithinTotal(selected: seq<Utxo>, inputs: seq<TxInput>, outs: map<Outpoint, TxOutput>)
    requires Listed(selected, outs) && |inputs| == |selected|
    requires forall i :: 0 <= i < |inputs| ==> OutpointOf(inputs[i]) == selected[i].outpoint
    requires forall o :: o in outs ==> outs[o].amount > 0
    ensures ValueOf(selected) <= Total(outs)
  {
    InputsValue(selected, inputs, outs);
    assert DistinctInputs(inputs);
    TotalAfterSpend(outs, inputs);
    TotalNonNegative(outs - SpentBy(inputs));
  }

  // ----- the wallet -------------------------------------------------------------------------- //

  /** The key hash an address stands for, in hex; None is the ValueError. */
  function AddressHash(address: string): Option<string> {
    var p := Address.PubkeyHashFromAddress(address);
    if p.None? then None else Some(Hex(p.value))
  }

  lemma DigestIsBytes(d: seq<Byte>)
    ensures Address.ByteString(d)
  {
    assert Pow2(8) == 256;
  }

  /** The address of a key hash, given as bytes. */
  function MoonAddress(p: seq<Byte>): string {
    DigestIsBytes(p);
    Address.AddressFromPubkeyHash(p, Address.MOONBITE_HRP)
  }

  /** It parses back, under the prefix of the network. */
  lemma {:induction false} MoonAddressParses(p: seq<Byte>)
    requires |p| <= 49
    ensures AddressHash(MoonAddress(p)) == Some(Hex(p))
    ensures var d := Address.Decode(MoonAddress(p)); d.Some? && d.value.hrp == Address.MOONBITE_HRP
  {
    DigestIsBytes(p);
    Address.AddressRoundTrip(p);
  }

  function GivenChange(changeAddress: Option<string>): Option<Option<string>> {
    if changeAddress.None? then None else Some(AddressHash(changeAddress.value))
  }

  function OutputsFor(amount: int, recipient: string, change: int, changeHash: string): seq<TxOutput> {
    [TxOutput(amount, recipient)] + if change > 0 then [TxOutput(change, changeHash)] else []
  }

  function InputsFor(selected: seq<Utxo>): seq<TxInput> {
    seq(|selected|, i requires 0 <= i < |selected| =>
      TxInput(selected[i].outpoint.txid, selected[i].outpoint.index, "", []))
  }

  /** The wallet's two dictionaries, and one line of its history. */
  datatype KeyRing = KeyRing(keys: map<string, Key>, addresses: map<string, string>)
  datatype Sent = Sent(txid: Digest, amount: int, to: string)

  /** Every key is filed under the hash of its public key. */
  ghost predicate OwnKeys(rules: Rules, scheme: Scheme, keys: map<string, Key>) {
    forall h :: h in keys ==> rules.keyHash(scheme.pub(keys[h])) == Some(h)
  }

  /** Every filed address parses back to the hash it is filed under. */
  ghost predicate LeadBack(addresses: map<string, string>) {
    forall h {:trigger AddressHash(addresses[h])} :: h in addresses ==> AddressHash(addresses[h]) == Some(h)
  }

  /** Output `k` pays `amount` to the owner of the key behind `hash`. */
  predicate PaysTo(tx: Transaction, k: nat, amount: int, hash: Option<string>) {
    k < |tx.outputs| && tx.outputs[k].amount == amount && hash == Some(tx.outputs[k].pubkeyHash)
  }

  /**
   * A transaction takes the selected entries, in order, pays the recipient first, and then pays what is left over
   * amount and fee, if anything is, to `changeTo`.
   */
  predicate Shows(tx: Transaction, selected: seq<Utxo>, recipient: Option<string>, amount: int, fee: int,
                  changeTo: Option<string>)
  {
    var surplus := ValueOf(selected) - amount - fee;
    && |tx.inputs| == |selected|
    && (forall i :: 0 <= i < |selected| ==> OutpointOf(tx.inputs[i]) == selected[i].outpoint)
    && PaysTo(tx, 0, amount, recipient)
    && |tx.outputs| == (if surplus > 0 then 2 else 1) && (surplus > 0 ==> PaysTo(tx, 1, surplus, changeTo))
  }

  class Wallet {
    const rules: Rules
    const scheme: Scheme
    var keys: map<string, Key>
    var addresses: map<string, string>
    var history: seq<Sent>

    ghost predicate Valid()
      reads this
    {
      Sane(rules, scheme) && OwnKeys(rules, scheme, keys) && LeadBack(addresses)
    }

    function Ring(): KeyRing
      reads this
    {
      KeyRing(keys, addresses)
    }

    constructor (r: Rules, s: Scheme)
      requires Sane(r, s)
      ensures Valid() && rules == r && scheme == s && keys == map[] && addresses == map[] && history == []
    {
      rules, scheme, keys, addresses, history := r, s, map[], map[], [];
    }

    /** new_key; the random key is a parameter. The address it returns leads back to the key's own hash. */
    method NewKey(key: Key) returns (address: string)
      requires Valid()
      modifies this
      ensures Valid() && history == old(history)
      ensures var h := Hex(scheme.digest(key));
              && rules.keyHash(scheme.pub(key)) == Some(h) && AddressHash(address) == Some(h)
              && keys == old(keys)[h := key] && addresses == old(addresses)[h := address]
      ensures address == MoonAddress(scheme.digest(key))
      ensures Address.Decode(address).Some? && Address.Decode(address).value.hrp == Address.MOONBITE_HRP
    {
      var h := Hex(scheme.digest(key));
      MoonAddressParses(scheme.digest(key));
      address := MoonAddress(scheme.digest(key));
      keys := keys[h := key];
      addresses := addresses[h := address];
    }

    /**
     * create_transaction; None is a ValueError. `freshKey` is the key a change address is made from when the
     * caller gives none.
     */
    method CreateTransaction(utxos: seq<Utxo>, toAddress: string, amount: int, fee: int,
                             changeAddress: Option<string>, freshKey: Key)
      returns (result: Option<Transaction>, ghost selected: seq<Utxo>, ghost changeHash: string)
      requires Valid()
      modifies this
      ensures Valid()
      ensures Paid(utxos, old(Ring()), AddressHash(toAddress), amount, fee, GivenChange(changeAddress), freshKey,
                   Ring(), selected, changeHash, result)
      ensures result.Some? ==> Shows(result.value, selected, AddressHash(toAddress), amount, fee,
                                     if changeAddress.Some? then AddressHash(changeAddress.value)
                                     else rules.keyHash(scheme.pub(freshKey)))
      ensures history == old(history) + if result.Some? then [Sent(TxId(result.value), amount, toAddress)] else []
    {
      result, selected, changeHash :=
        Pay(utxos, AddressHash(toAddress), amount, fee, GivenChange(changeAddress), freshKey);
      if result.Some? {
        PaidShows(this, utxos, old(Ring()), AddressHash(toAddress), amount, fee, GivenChange(changeAddress), freshKey,
            Ring(), selected, changeHash, result.value);
        history := history + [Sent(TxId(result.value), amount, toAddress)];
      }
    }

    /** create_transaction once its addresses have been read: selection, change, outputs, signatures. */
    method Pay(utxos: seq<Utxo>, recipient: Option<string>, amount: int, fee: int,
               changeTo: Option<Option<string>>, freshKey: Key)
      returns (result: Option<Transaction>, ghost selected: seq<Utxo>, ghost changeHash: string)
      requires Valid()
      modifies this
      ensures Valid() && history == old(history)
      ensures Paid(utxos, old(Ring()), recipient, amount, fee, changeTo, freshKey, Ring(), selected, changeHash, result)
    {
      result, selected, changeHash := None, [], "";
      if amount <= 0 || fee < 0 { return; }
      var target := amount + fee;
      var picked, total := SelectCoins(utxos, keys.Keys, target);
      selected := picked;
      if total < target || recipient.None? { return; }
      PickedKeys(utxos, keys.Keys, target);
      var hash := MakeChange(total - target, changeTo, freshKey);
      if hash.None? { return; }
      changeHash := hash.value;
      var outputs := OutputsFor(amount, recipient.value, total - target, hash.value);
      var tx := SignAll(Transaction(InputsFor(picked), outputs), picked);
      result := Some(tx);
    }

    /** What create_transaction does: when it builds, what it builds, and whether it makes a key for the change. */
    ghost predicate Paid(utxos: seq<Utxo>, before: KeyRing, recipient: Option<string>, amount: int, fee: int,
                         changeTo: Option<Option<string>>, freshKey: Key, after: KeyRing,
                         selected: seq<Utxo>, changeHash: string, result: Option<Transaction>)
    {
      && (amount > 0 && fee >= 0 ==> selected == PickCoins(utxos, before.keys.Keys, amount + fee))
      && var change := ValueOf(selected) - amount - fee;
         && (result.Some? <==> && amount > 0 && fee >= 0 && change >= 0 && recipient.Some?
                               && (change == 0 || ChangeHash(changeTo, freshKey).Some?))
         && (result.Some? ==>
               && Spends(rules, scheme, after.keys, selected, result.value)
               && result.value.outputs == OutputsFor(amount, recipient.value, change, changeHash)
               && (change > 0 ==> Some(changeHash) == ChangeHash(changeTo, freshKey)))
         && after == if result.Some? && change > 0 && changeTo.None? then Filed(before, freshKey) else before
    }

    /** Where change goes: to the hash of the given address, or to a fresh key of this wallet. */
    function ChangeHash(changeTo: Option<Option<string>>, freshKey: Key): Option<string> {
      if changeTo.Some? then changeTo.value else Some(Hex(scheme.digest(freshKey)))
    }

    /** A new key and its address, filed under the key's hash. */
    function Filed(ring: KeyRing, key: Key): KeyRing {
      var h := Hex(scheme.digest(key));
      KeyRing(ring.keys[h := key], ring.addresses[h := MoonAddress(scheme.digest(key))])
    }

    /** The change branch of create_transaction: a new key is made only when there is change and no address for it. */
    method MakeChange(change: int, changeTo: Option<Option<string>>, freshKey: Key)
      returns (hash: Option<string>)
      requires Valid()
      modifies this
      ensures Valid() && history == old(history)
      ensures hash == if change > 0 then ChangeHash(changeTo, freshKey) else Some("")
      ensures Ring() == if change > 0 && changeTo.None? then Filed(old(Ring()), freshKey) else old(Ring())
    {
      if change <= 0 { return Some(""); }
      if changeTo.Some? { return changeTo.value; }
      var address := NewKey(freshKey);
      hash := AddressHash(address);
    }

    /** The signing loop of create_transaction. */
    method SignAll(unsigned: Transaction, selected: seq<Utxo>) returns (tx: Transaction)
      requires Valid() && unsigned.inputs == InputsFor(selected)
      requires forall i :: 0 <= i < |selected| ==> selected[i].out.pubkeyHash in keys
      ensures tx.outputs == unsigned.outputs && Spends(rules, scheme, keys, selected, tx)
    {
      tx := unsigned;
      for i := 0 to |selected|
        invariant |tx.inputs| == |selected| && tx.outputs == unsigned.outputs
        invariant SigningForm(tx) == SigningForm(unsigned)
        invariant forall j :: i <= j < |selected| ==> tx.inputs[j] == InputsFor(selected)[j]
        invariant forall j :: 0 <= j < i ==>
                    tx.inputs[j] == SignedInput(scheme, InputsFor(selected)[j], keys[selected[j].out.pubkeyHash],
                        SigningForm(unsigned))
      {
        tx := SignInput(scheme, tx, i, keys[selected[i].out.pubkeyHash]);
      }
    }
  }

  /** What is paid shows in the transaction. */
  lemma {:induction false} PaidShows(wallet: Wallet, utxos: seq<Utxo>, before: KeyRing, recipient: Option<string>,
                                     amount: int, fee: int, changeTo: Option<Option<string>>, freshKey: Key,
                                     after: KeyRing, selected: seq<Utxo>, changeHash: string, tx: Transaction)
    requires Sane(wallet.rules, wallet.scheme)
    requires wallet.Paid(utxos, before, recipient, amount, fee, changeTo, freshKey, after, selected, changeHash,
                         Some(tx))
    ensures Shows(tx, selected, recipient, amount, fee,
                  if changeTo.Some? then changeTo.value else wallet.rules.keyHash(wallet.scheme.pub(freshKey)))
  {
    InputsMatch(wallet.rules, wallet.scheme, after.keys, selected, tx);
    assert |wallet.scheme.digest(freshKey)| == 32;
  }

  lemma {:induction false} PickedKeys(utxos: seq<Utxo>, owned: set<string>, target: int)
    ensures var selected := PickCoins(utxos, owned, target);
            forall i :: 0 <= i < |selected| ==> selected[i].out.pubkeyHash in owned
  {
    if |utxos| > 0 {
      PickedKeys(utxos[..|utxos| - 1], owned, target);
      assert forall u :: u in PickCoins(utxos[..|utxos| - 1], owned, target) ==> u.out.pubkeyHash in owned;
    }
  }

  /** `tx` spends exactly the selected entries, in order, each signed with the key of its owner. */
  ghost predicate Spends(rules: Rules, scheme: Scheme, keys: map<string, Key>, selected: seq<Utxo>, tx: Transaction) {
    && |tx.inputs| == |selected|
    && forall i {:trigger InputsFor(selected)[i]} :: 0 <= i < |selected| ==>
         && selected[i].out.pubkeyHash in keys
         && tx.inputs[i] == SignedInput(scheme, InputsFor(selected)[i], keys[selected[i].out.pubkeyHash],
             SigningForm(tx))
  }

  // ----- what is built is accepted ---------------------------------------------------------------- //

  /** Spending `selected` to pay `amount` with `fee`, the rest going to `changeHash`. */
  ghost predicate Pays(rules: Rules, scheme: Scheme, keys: map<string, Key>, selected: seq<Utxo>,
                       amount: int, recipient: string, fee: int, changeHash: string, tx: Transaction)
  {
    && amount > 0 && fee >= 0 && ValueOf(selected) >= amount + fee
    && Spends(rules, scheme, keys, selected, tx)
    && tx.outputs == OutputsFor(amount, recipient, ValueOf(selected) - amount - fee, changeHash)
  }

  lemma OutputsValue(amount: int, recipient: string, change: int, changeHash: string)
    requires change >= 0
    ensures SumOut(OutputsFor(amount, recipient, change, changeHash)) == amount + change
    ensures 0 < amount && amount + change <= MAX_MONEY ==> AmountsOk(OutputsFor(amount, recipient, change, changeHash))
  {
    var outputs := OutputsFor(amount, recipient, change, changeHash);
    var first := [TxOutput(amount, recipient)];
    assert first[..0] == [];
    assert SumOut(first) == amount;
    if change > 0 {
      assert outputs[..1] == first;
    } else {
      assert outputs == first;
    }
  }

  /** Each input of a wallet transaction passes the check of its own output, whatever the other inputs are. */
  lemma WalletInputOk(rules: Rules, scheme: Scheme, keys: map<string, Key>, selected: seq<Utxo>,
                      outs: map<Outpoint, TxOutput>, tx: Transaction, i: nat)
    requires Sane(rules, scheme) && OwnKeys(rules, scheme, keys) && Listed(selected, outs)
    requires Spends(rules, scheme, keys, selected, tx) && i < |selected|
    ensures OutpointOf(tx.inputs[i]) == selected[i].outpoint
    ensures InputOk(rules, outs, tx.inputs[i], SigningForm(tx))
  {
    assert OutpointOf(InputsFor(selected)[i]) == selected[i].outpoint;
    LowSVerifies(rules, scheme, keys[selected[i].out.pubkeyHash], SigningForm(tx));
  }

  /** A wallet transaction verifies against the index its coins come from, and its fee is the requested one. */
  lemma {:induction false} WalletTxVerifies(rules: Rules, scheme: Scheme, keys: map<string, Key>, selected: seq<Utxo>,
                         amount: int, recipient: string, fee: int, changeHash: string,
                         outs: map<Outpoint, TxOutput>, tx: Transaction)
    requires Sane(rules, scheme) && OwnKeys(rules, scheme, keys) && Listed(selected, outs)
    requires Pays(rules, scheme, keys, selected, amount, recipient, fee, changeHash, tx)
    requires forall o :: o in outs ==> o.txid.TxId? && outs[o].amount > 0
    requires Total(outs) <= MAX_MONEY
    ensures Verifies(rules, outs, tx) && Fee(outs, tx) == fee
    ensures SumIn(outs, tx.inputs) == ValueOf(selected)
  {
    WalletInputsOk(rules, scheme, keys, selected, outs, tx);
    InputsValue(selected, tx.inputs, outs);
    SelectedWithinTotal(selected, tx.inputs, outs);
    OutputsValue(amount, recipient, ValueOf(selected) - amount - fee, changeHash);
    PaidVerifies(rules, selected, outs, tx);
  }

  lemma WalletInputsOk(rules: Rules, scheme: Scheme, keys: map<string, Key>, selected: seq<Utxo>,
                       outs: map<Outpoint, TxOutput>, tx: Transaction)
    requires Sane(rules, scheme) && OwnKeys(rules, scheme, keys) && Listed(selected, outs)
    requires Spends(rules, scheme, keys, selected, tx)
    ensures |tx.inputs| == |selected|
    ensures forall i :: 0 <= i < |selected| ==>
              OutpointOf(tx.inputs[i]) == selected[i].outpoint && InputOk(rules, outs, tx.inputs[i], SigningForm(tx))
  {
    forall i: nat | i < |selected|
      ensures OutpointOf(tx.inputs[i]) == selected[i].outpoint && InputOk(rules, outs, tx.inputs[i], SigningForm(tx))
    {
      WalletInputOk(rules, scheme, keys, selected, outs, tx, i);
    }
  }

  lemma {:induction false} PaidVerifies(rules: Rules, selected: seq<Utxo>, outs: map<Outpoint, TxOutput>,
                                        tx: Transaction)
    requires Listed(selected, outs) && |tx.inputs| == |selected| > 0 && |tx.outputs| > 0 && AmountsOk(tx.outputs)
    requires forall i :: 0 <= i < |selected| ==>
               OutpointOf(tx.inputs[i]) == selected[i].outpoint && InputOk(rules, outs, tx.inputs[i], SigningForm(tx))
    requires forall o :: o in outs ==> o.txid.TxId?
    requires SumIn(outs, tx.inputs) >= SumOut(tx.outputs)
    ensures Verifies(rules, outs, tx)
  {
    assert OutpointOf(tx.inputs[0]) in outs;
    assert DistinctInputs(tx.inputs);
  }

  /** What create_transaction returns pays what was asked: `WalletTxAccepted` is about exactly these transactions. */
  lemma {:induction false} CreatedPays(wallet: Wallet, utxos: seq<Utxo>, before: KeyRing, recipient: Option<string>,
                                       amount: int, fee: int, changeTo: Option<Option<string>>, freshKey: Key,
                                       selected: seq<Utxo>, changeHash: string, tx: Transaction)
    requires wallet.Valid()
    requires wallet.Paid(utxos, before, recipient, amount, fee, changeTo, freshKey,
                         wallet.Ring(), selected, changeHash, Some(tx))
    ensures Sane(wallet.rules, wallet.scheme) && OwnKeys(wallet.rules, wallet.scheme, wallet.keys)
    ensures Chosen(selected, utxos, before.keys.Keys, amount + fee) && recipient.Some?
    ensures Pays(wallet.rules, wallet.scheme, wallet.keys, selected, amount, recipient.value, fee, changeHash, tx)
  {
  }

  /** Entries that the index holds and that may be spent at `height`. */
  ghost predicate Spendable(rules: Rules, utxos: seq<Utxo>, c: Coins, height: nat) {
    Listed(utxos, c.outs) && forall i :: 0 <= i < |utxos| ==> Mature(rules, c, utxos[i].outpoint, height)
  }

  /** `selected` is what coin selection picks. */
  predicate Chosen(selected: seq<Utxo>, utxos: seq<Utxo>, owned: set<string>, target: int) {
    selected == PickCoins(utxos, owned, target)
  }

  lemma {:induction false} PickIsSpendable(rules: Rules, utxos: seq<Utxo>, owned: set<string>, target: int,
                                           selected: seq<Utxo>, c: Coins, height: nat)
    requires Chosen(selected, utxos, owned, target)
    requires Spendable(rules, utxos, c, height)
    ensures Spendable(rules, selected, c, height)
  {
    PickIsListed(utxos, owned, target, c.outs);
    forall i | 0 <= i < |selected| ensures Mature(rules, c, selected[i].outpoint, height) {
      assert selected[i] in utxos;
    }
  }

  /** A wallet transaction built from spendable entries of an index can be pooled against that index. */
  lemma {:induction false} WalletTxFits(rules: Rules, scheme: Scheme, keys: map<string, Key>,
                                        pool: map<Digest, Transaction>,
                                        c: Coins, height: nat, selected: seq<Utxo>,
                                        amount: int, recipient: string, fee: int, changeHash: string, tx: Transaction)
    requires Sane(rules, scheme) && OwnKeys(rules, scheme, keys) && Spendable(rules, selected, c, height)
    requires Pays(rules, scheme, keys, selected, amount, recipient, fee, changeHash, tx)
    requires forall o :: o in c.outs ==> o.txid.TxId? && c.outs[o].amount > 0
    requires Total(c.outs) <= MAX_MONEY
    requires fee >= MIN_RELAY_FEE && |pool| < MAX_MEMPOOL_TXS && TxId(tx) !in pool
    ensures PoolAccepts(rules, pool, c, tx, height) && Fee(c.outs, tx) == fee
  {
    WalletTxVerifies(rules, scheme, keys, selected, amount, recipient, fee, changeHash, c.outs, tx);
    InputsMatch(rules, scheme, keys, selected, tx);
    PoolTakes(rules, pool, c, height, tx);
  }

  /** The same when the entries were picked from a list of spendable ones. */
  lemma {:induction false} PickedTxFits(rules: Rules, scheme: Scheme, keys: map<string, Key>,
                                        pool: map<Digest, Transaction>,
                                        c: Coins, height: nat, utxos: seq<Utxo>, owned: set<string>,
                                        selected: seq<Utxo>, target: int,
                                        amount: int, recipient: string, fee: int, changeHash: string, tx: Transaction)
    requires Sane(rules, scheme) && OwnKeys(rules, scheme, keys)
    requires Chosen(selected, utxos, owned, target) && Spendable(rules, utxos, c, height)
    requires Pays(rules, scheme, keys, selected, amount, recipient, fee, changeHash, tx)
    requires forall o :: o in c.outs ==> o.txid.TxId? && c.outs[o].amount > 0
    requires Total(c.outs) <= MAX_MONEY
    requires fee >= MIN_RELAY_FEE && |pool| < MAX_MEMPOOL_TXS && TxId(tx) !in pool
    ensures PoolAccepts(rules, pool, c, tx, height) && Fee(c.outs, tx) == fee
  {
    PickIsSpendable(rules, utxos, owned, target, selected, c, height);
    WalletTxFits(rules, scheme, keys, pool, c, height, selected, amount, recipient, fee, changeHash, tx);
  }

  lemma InputsMatch(rules: Rules, scheme: Scheme, keys: map<string, Key>, selected: seq<Utxo>, tx: Transaction)
    requires Spends(rules, scheme, keys, selected, tx)
    ensures |tx.inputs| == |selected|
    ensures forall i :: 0 <= i < |selected| ==> OutpointOf(tx.inputs[i]) == selected[i].outpoint
  {
    forall i | 0 <= i < |selected| ensures OutpointOf(tx.inputs[i]) == selected[i].outpoint {
      assert OutpointOf(InputsFor(selected)[i]) == selected[i].outpoint;
    }
  }

  lemma PoolTakes(rules: Rules, pool: map<Digest, Transaction>, c: Coins, height: nat, tx: Transaction)
    requires Verifies(rules, c.outs, tx) && Fee(c.outs, tx) >= MIN_RELAY_FEE
    requires forall i :: 0 <= i < |tx.inputs| ==> Mature(rules, c, OutpointOf(tx.inputs[i]), height)
    requires |pool| < MAX_MEMPOOL_TXS && TxId(tx) !in pool
    ensures PoolAccepts(rules, pool, c, tx, height)
  {
  }

  /**
   * A transaction built from the active chain's own mature outputs is accepted by its pool, given the
   * minimum relay fee, room in the pool, and that it is not there already.
   */
  lemma {:induction false} WalletTxAccepted(chain: Blockchain, scheme: Scheme, keys: map<string, Key>,
                                            utxos: seq<Utxo>, owned: set<string>, selected: seq<Utxo>, target: int,
                                            amount: int, recipient: string, fee: int, changeHash: string,
                                            tx: Transaction)
    requires chain.Valid() && Sane(chain.rules, scheme) && OwnKeys(chain.rules, scheme, keys)
    requires Spendable(chain.rules, utxos, chain.utxo.Contents(), |chain.branches[chain.tip]|)
    requires target == amount + fee && Chosen(selected, utxos, owned, target)
    requires Pays(chain.rules, scheme, keys, selected, amount, recipient, fee, changeHash, tx)
    requires fee >= MIN_RELAY_FEE && |chain.mempool| < MAX_MEMPOOL_TXS && TxId(tx) !in chain.mempool
    ensures PoolAccepts(chain.rules, chain.mempool, Replay(chain.branches[chain.tip]), tx, |chain.branches[chain.tip]|)
    ensures Fee(Replay(chain.branches[chain.tip]).outs, tx) == fee
  {
    TipCoins(chain);
    PickedTxFits(chain.rules, scheme, keys, chain.mempool, chain.utxo.Contents(), |chain.branches[chain.tip]|,
                 utxos, owned, selected, target, amount, recipient, fee, changeHash, tx);
  }

  /** What the index of the active chain holds: outputs of transactions, of positive value, within the cap. */
  lemma TipCoins(chain: Blockchain)
    requires chain.Valid()
    ensures chain.utxo.Contents() == Replay(chain.branches[chain.tip])
    ensures forall o :: o in chain.utxo.utxos ==> o.txid.TxId? && chain.utxo.utxos[o].amount > 0
    ensures 0 <= Total(chain.utxo.utxos) <= MAX_MONEY
  {
    StoredBlock(chain.rules, chain.View(), chain.tip);
    BranchHistory(chain.rules, chain.branches[chain.tip]);
    SupplyBounded(chain.rules, chain.branches[chain.tip]);
  }

}
