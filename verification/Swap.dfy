/** The on-chain verdict on one atomic swap (swap_verifier.py): a decision over two chain observations. */
module Swap {
  import opened Results
  import opened Script

  type Id = nat

  datatype Status =
    | SwapInit | BaseFunded | QuoteFunded | BothLocked
    | QuoteRedeemed | BaseRedeemed | SwapSettled | Expired

  /** One row of the swaps table. Public keys are hex text, as registered; amounts and prices are exact. */
  datatype Row = Row(
    buyOrder: Id, sellOrder: Id, pair: string, price: real, amount: real,
    hashlock: Bytes, baseRecipient: string, baseRefund: string, quoteRecipient: string, quoteRefund: string,
    baseLocktime: int, quoteLocktime: int,
    baseHtlcTxid: Option<string>, quoteHtlcTxid: Option<string>,
    baseRedeemTxid: Option<string>, quoteRedeemTxid: Option<string>,
    preimage: Option<Bytes>, baseConfs: int, quoteConfs: int,
    status: Status, createdAt: int, settledAt: Option<int>)

  /** A funding script, named by the redeem script it commits to. */
  datatype ScriptPubKey = P2wsh(redeem: Bytes) | P2sh(redeem: Bytes)

  datatype OutputSeen = OutputSeen(vout: int, value: real, confirmations: int)
  datatype SpendSeen = SpendSeen(txid: string, items: seq<Bytes>, confirmations: int)

  /** What one chain answers during a pass. */
  datatype Adapter = Adapter(
    findOutput: (string, set<ScriptPubKey>) -> Option<OutputSeen>,
    findSpend: (string, int) -> Option<SpendSeen>)

  /** One verification pass sees both chains at one time. */
  datatype View = View(base: Adapter, quote: Adapter, now: int)

  /**
   * The verifier's fixed parameters: the hash, whether legacy P2SH is accepted, the depths, and the rounding of
   * decimal products to 28 significant digits.
   */
  datatype Watch = Watch(
    sha256: Bytes -> Bytes, hasRipemd: bool, minConfsBase: int, minConfsQuote: int, product: (real, real) -> real)

  /** The columns a verification may write; None leaves a column alone. */
  datatype Updates = Updates(
    status: Option<Status>, preimage: Option<Bytes>, quoteRedeemTxid: Option<string>, quoteConfs: Option<int>,
    baseRedeemTxid: Option<string>, baseConfs: Option<int>, settledAt: Option<int>)

  const NOTHING: Updates := Updates(None, None, None, None, None, None, None)

  /** Raised is the ValueError of a public key that is no byte string or does not fit a push. */
  datatype Outcome = Found(updates: Updates) | Raised

  // ----- helpers ------------------------------------------------------------------------- //

  function HexValue(c: char): int {
    if '0' <= c <= '9' then c as int - '0' as int
    else if 'a' <= c <= 'f' then c as int - 'a' as int + 10
    else -1
  }

  /** `bytes.fromhex` of a registered key: lower-case digits only. */
  function KeyBytes(s: string): Option<Bytes> {
    if |s| == 0 then Some([])
    else if |s| == 1 then None
    else
      var hi, lo, rest := HexValue(s[0]), HexValue(s[1]), KeyBytes(s[2..]);
      if hi < 0 || lo < 0 || rest.None? then None else Some([16 * hi + lo] + rest.value)
  }

  function LegScript(hashlock: Bytes, recipient: string, refund: string, locktime: int): Option<Bytes> {
    var r, f := KeyBytes(recipient), KeyBytes(refund);
    if r.None? || f.None? then None else RedeemScript(hashlock, r.value, f.value, locktime)
  }

  function BaseScript(s: Row): Option<Bytes> {
    LegScript(s.hashlock, s.baseRecipient, s.baseRefund, s.baseLocktime)
  }

  function QuoteScript(s: Row): Option<Bytes> {
    LegScript(s.hashlock, s.quoteRecipient, s.quoteRefund, s.quoteLocktime)
  }

  /** funding_script_pubkeys. */
  function FundingScripts(w: Watch, redeem: Bytes): set<ScriptPubKey> {
    {P2wsh(redeem)} + if w.hasRipemd then {P2sh(redeem)} else {}
  }

  /** find_preimage: the first non-empty item that hashes to the hashlock. */
  function FindPreimage(w: Watch, items: seq<Bytes>, hashlock: Bytes): (r: Option<Bytes>)
    ensures r.Some? ==> r.value in items && r.value != [] && w.sha256(r.value) == hashlock
    ensures r.None? ==> forall i :: 0 <= i < |items| && items[i] != [] ==> w.sha256(items[i]) != hashlock
  {
    if |items| == 0 then None
    else if items[0] != [] && w.sha256(items[0]) == hashlock then Some(items[0])
    else FindPreimage(w, items[1..], hashlock)
  }

  function OrEmpty(txid: Option<string>): string {
    if txid.Some? then txid.value else ""
  }

  function BaseOutput(w: Watch, s: Row, v: View): Option<OutputSeen>
    requires BaseScript(s).Some?
  {
    v.base.findOutput(OrEmpty(s.baseHtlcTxid), FundingScripts(w, BaseScript(s).value))
  }

  function QuoteOutput(w: Watch, s: Row, v: View): Option<OutputSeen>
    requires QuoteScript(s).Some?
  {
    v.quote.findOutput(OrEmpty(s.quoteHtlcTxid), FundingScripts(w, QuoteScript(s).value))
  }

  predicate ScriptsOk(s: Row) {
    BaseScript(s).Some? && QuoteScript(s).Some?
  }

  predicate Actionable(status: Status) {
    status in {BothLocked, QuoteRedeemed, BaseRedeemed}
  }

  // ----- what a view shows ----------------------------------------------------------------- //

  /** Both outputs pay the scripts derived from the swap's own parameters, in full and at depth. */
  predicate Funded(w: Watch, s: Row, v: View) {
    && ScriptsOk(s)
    && var b, q := BaseOutput(w, s, v), QuoteOutput(w, s, v);
       && b.Some? && q.Some?
       && b.value.value >= s.amount && q.value.value >= w.product(s.amount, s.price)
       && b.value.confirmations >= w.minConfsBase && q.value.confirmations >= w.minConfsQuote
  }

  function QuoteSpend(w: Watch, s: Row, v: View): Option<SpendSeen>
    requires Funded(w, s, v)
  {
    v.quote.findSpend(OrEmpty(s.quoteHtlcTxid), QuoteOutput(w, s, v).value.vout)
  }

  function BaseSpend(w: Watch, s: Row, v: View): Option<SpendSeen>
    requires Funded(w, s, v)
  {
    v.base.findSpend(OrEmpty(s.baseHtlcTxid), BaseOutput(w, s, v).value.vout)
  }

  /** The quote output was spent at depth by a transaction that reveals `x`. */
  predicate QuoteReveals(w: Watch, s: Row, v: View, x: Bytes) {
    && Funded(w, s, v) && QuoteSpend(w, s, v).Some?
    && var spend := QuoteSpend(w, s, v).value;
       FindPreimage(w, spend.items, s.hashlock) == Some(x) && spend.confirmations >= w.minConfsQuote
  }

  predicate BaseReveals(w: Watch, s: Row, v: View, x: Bytes) {
    && Funded(w, s, v) && BaseSpend(w, s, v).Some?
    && var spend := BaseSpend(w, s, v).value;
       FindPreimage(w, spend.items, s.hashlock) == Some(x) && spend.confirmations >= w.minConfsBase
  }

  /** A funded output was spent by something that does not reveal the expected secret. */
  predicate SpentOtherwise(w: Watch, spend: Option<SpendSeen>, hashlock: Bytes, expected: Option<Bytes>) {
    spend.Some? && var found := FindPreimage(w, spend.value.items, hashlock);
                   if expected.None? then found.None? else found != expected
  }

  // ----- the decision ---------------------------------------------------------------------- //

  /** verify_swap: look as far as the confirmed evidence reaches, and note what it proves. */
  method VerifySwap(w: Watch, s: Row, v: View) returns (o: Outcome)
    ensures o == Decision(w, s, v)
  {
    if !Actionable(s.status) { return Found(NOTHING); }
    var updates := NOTHING;
    var baseRedeem, quoteRedeem := BaseScript(s), QuoteScript(s);
    if baseRedeem.None? || quoteRedeem.None? { return Raised; }
    var baseFund := v.base.findOutput(OrEmpty(s.baseHtlcTxid), FundingScripts(w, baseRedeem.value));
    var quoteFund := v.quote.findOutput(OrEmpty(s.quoteHtlcTxid), FundingScripts(w, quoteRedeem.value));
    if baseFund.None? || quoteFund.None? { return Found(NOTHING); }
    if baseFund.value.value < s.amount
        || quoteFund.value.value < w.product(s.amount, s.price) { return Found(NOTHING); }
    if baseFund.value.confirmations < w.minConfsBase || quoteFund.value.confirmations < w.minConfsQuote {
      return Found(NOTHING);
    }
    assert Funded(w, s, v);

    var preimage := s.preimage;
    if preimage.None? {
      var spend := v.quote.findSpend(OrEmpty(s.quoteHtlcTxid), quoteFund.value.vout);
      if spend.Some? {
        var found := FindPreimage(w, spend.value.items, s.hashlock);
        if found.None? {
          updates := updates.(status := Some(Expired));
          return Found(updates);
        }
        if spend.value.confirmations >= w.minConfsQuote {
          preimage := found;
          updates := updates.(preimage := found, quoteRedeemTxid := Some(spend.value.txid),
                              quoteConfs := Some(spend.value.confirmations), status := Some(QuoteRedeemed));
        }
      } else {
        if v.now >= s.quoteLocktime { updates := updates.(status := Some(Expired)); }
        return Found(updates);
      }
    }
    if preimage.None? { return Found(updates); }

    if s.baseRedeemTxid.None? {
      var spend := v.base.findSpend(OrEmpty(s.baseHtlcTxid), baseFund.value.vout);
      if spend.None? { return Found(updates); }
      if FindPreimage(w, spend.value.items, s.hashlock) != preimage {
        updates := updates.(status := Some(Expired));
        return Found(updates);
      }
      if spend.value.confirmations < w.minConfsBase { return Found(updates); }
      updates := updates.(baseRedeemTxid := Some(spend.value.txid), baseConfs := Some(spend.value.confirmations),
                          status := Some(BaseRedeemed));
    }
    updates := updates.(status := Some(SwapSettled), settledAt := Some(v.now));
    o := Found(updates);
  }

  /** The same decision by what the view shows: first the quote leg, then the base leg. */
  function Decision(w: Watch, s: Row, v: View): Outcome {
    if !Actionable(s.status) then Found(NOTHING)
    else if !ScriptsOk(s) then Raised
    else if !Funded(w, s, v) then Found(NOTHING)
    else if s.preimage.Some? then Found(BaseStage(w, s, v, s.preimage.value, NOTHING))
    else
      var spend := QuoteSpend(w, s, v);
      if spend.None? then Found(if v.now >= s.quoteLocktime then NOTHING.(status := Some(Expired)) else NOTHING)
      else if SpentOtherwise(w, spend, s.hashlock, None) then Found(NOTHING.(status := Some(Expired)))
      else if spend.value.confirmations < w.minConfsQuote then Found(NOTHING)
      else
        var x := FindPreimage(w, spend.value.items, s.hashlock).value;
        Found(BaseStage(w, s, v, x,
          NOTHING.(preimage := Some(x), quoteRedeemTxid := Some(spend.value.txid),
                   quoteConfs := Some(spend.value.confirmations), status := Some(QuoteRedeemed))))
  }

  function BaseStage(w: Watch, s: Row, v: View, x: Bytes, u: Updates): Updates
    requires Funded(w, s, v)
  {
    var settled := u.(status := Some(SwapSettled), settledAt := Some(v.now));
    if s.baseRedeemTxid.Some? then settled
    else
      var spend := BaseSpend(w, s, v);
      if spend.None? then u
      else if SpentOtherwise(w, spend, s.hashlock, Some(x)) then u.(status := Some(Expired))
      else if spend.value.confirmations < w.minConfsBase then u
      else settled.(baseRedeemTxid := Some(spend.value.txid), baseConfs := Some(spend.value.confirmations))
  }

  /** The secret a view (or an earlier pass) has established for a swap. */
  predicate Knows(w: Watch, s: Row, v: View, x: Bytes) {
    s.preimage == Some(x) || (s.preimage.None? && QuoteReveals(w, s, v, x))
  }

  /** When and why a verdict settles, reveals, expires or leaves a swap alone: the whole decision table. */
  lemma DecisionTable(w: Watch, s: Row, v: View)
    requires Actionable(s.status) && ScriptsOk(s) && s.baseRedeemTxid.None?
    ensures Decision(w, s, v).Found?
    ensures var u := Decision(w, s, v).updates;
            && (u.status == Some(SwapSettled)
                <==> exists x :: Knows(w, s, v, x) && Funded(w, s, v) && BaseReveals(w, s, v, x))
            && (u.preimage.Some? <==> s.preimage.None? && exists x :: QuoteReveals(w, s, v, x))
            && (u.preimage.Some? ==> QuoteReveals(w, s, v, u.preimage.value))
            && (u.status == Some(Expired) <==>
                  && Funded(w, s, v)
                  && if s.preimage.None? && !exists x :: QuoteReveals(w, s, v, x) then
                       || SpentOtherwise(w, QuoteSpend(w, s, v), s.hashlock, None)
                       || (QuoteSpend(w, s, v).None? && v.now >= s.quoteLocktime)
                     else exists x :: Knows(w, s, v, x) && SpentOtherwise(w, BaseSpend(w, s, v), s.hashlock, Some(x)))
            && (u.status != Some(BaseRedeemed))
            && (u.settledAt.Some? <==> u.status == Some(SwapSettled))
            && (u.baseRedeemTxid.Some? <==> u.status == Some(SwapSettled))
            && (u.preimage.Some? && u.status != Some(SwapSettled) && u.status != Some(Expired)
                ==> u.status == Some(QuoteRedeemed))
            && (u.status.None? ==> u == NOTHING)
  {
    if Funded(w, s, v) {
      if s.preimage.Some? {
        assert Knows(w, s, v, s.preimage.value);
      } else if QuoteSpend(w, s, v).Some? {
        var spend := QuoteSpend(w, s, v).value;
        var found := FindPreimage(w, spend.items, s.hashlock);
        if found.Some? && spend.confirmations >= w.minConfsQuote {
          assert QuoteReveals(w, s, v, found.value) && Knows(w, s, v, found.value);
        }
      }
    }
  }

  /** `x` is item `i`, the first that is not empty and hashes to the hashlock. */
  predicate SecretAt(w: Watch, items: seq<Bytes>, hashlock: Bytes, x: Bytes, i: nat) {
    && i < |items| && items[i] == x && x != [] && w.sha256(x) == hashlock
    && forall j :: 0 <= j < i ==> items[j] == [] || w.sha256(items[j]) != hashlock
  }

  ghost predicate FirstSecret(w: Watch, items: seq<Bytes>, hashlock: Bytes, x: Bytes) {
    exists i: nat :: SecretAt(w, items, hashlock, x, i)
  }

  lemma {:induction false} SecretInRest(w: Watch, items: seq<Bytes>, hashlock: Bytes, x: Bytes, i: nat)
    requires |items| > 0 && (items[0] == [] || w.sha256(items[0]) != hashlock)
    ensures SecretAt(w, items, hashlock, x, i + 1) <==> SecretAt(w, items[1..], hashlock, x, i)
    ensures !SecretAt(w, items, hashlock, x, 0)
  {
    assert forall j :: 0 <= j < |items| - 1 ==> items[1..][j] == items[j + 1];
    if SecretAt(w, items[1..], hashlock, x, i) {
      forall j | 0 <= j < i + 1 ensures items[j] == [] || w.sha256(items[j]) != hashlock {
        if j > 0 { assert items[1..][j - 1] == items[j]; }
      }
    }
  }

  lemma {:induction false} FoundIsFirst(w: Watch, items: seq<Bytes>, hashlock: Bytes, x: Bytes)
    ensures FindPreimage(w, items, hashlock) == Some(x) <==> FirstSecret(w, items, hashlock, x)
  {
    if |items| > 0 {
      if items[0] != [] && w.sha256(items[0]) == hashlock {
        if items[0] == x { assert SecretAt(w, items, hashlock, x, 0); }
      } else {
        FoundIsFirst(w, items[1..], hashlock, x);
        if i: nat :| SecretAt(w, items, hashlock, x, i) {
          SecretInRest(w, items, hashlock, x, if i > 0 then i - 1 else 0);
        }
        if i: nat :| SecretAt(w, items[1..], hashlock, x, i) { SecretInRest(w, items, hashlock, x, i); }
      }
    }
  }

  lemma {:induction false} AllFound(w: Watch, items: seq<Bytes>, hashlock: Bytes)
    ensures forall x :: FindPreimage(w, items, hashlock) == Some(x) <==> FirstSecret(w, items, hashlock, x)
  {
    forall x ensures FindPreimage(w, items, hashlock) == Some(x) <==> FirstSecret(w, items, hashlock, x) {
      FoundIsFirst(w, items, hashlock, x);
    }
  }

  /** An output of transaction `txid` pays one of the forms of a script, in full and at depth. */
  predicate Pays(w: Watch, chain: Adapter, txid: Option<string>, script: Bytes, value: real, depth: int,
                 seen: OutputSeen)
  {
    var forms := if w.hasRipemd then {P2wsh(script), P2sh(script)} else {P2wsh(script)};
    && chain.findOutput(if txid.Some? then txid.value else "", forms) == Some(seen)
    && seen.value >= value && seen.confirmations >= depth
  }

  /** That output was spent at depth by items among which `x` is the first secret. */
  ghost predicate SpentFor(w: Watch, chain: Adapter, txid: Option<string>, output: OutputSeen, depth: int,
                           hashlock: Bytes, x: Bytes, spend: SpendSeen)
  {
    && chain.findSpend(if txid.Some? then txid.value else "", output.vout) == Some(spend)
    && spend.confirmations >= depth && FirstSecret(w, spend.items, hashlock, x)
  }

  /** In one view each leg pays its own script, base the amount and quote its price, and both were spent for `x`. */
  ghost predicate Evidence(w: Watch, s: Row, v: View, b: OutputSeen, q: OutputSeen, sb: SpendSeen, sq: SpendSeen,
                           x: Bytes)
    requires BaseScript(s).Some? && QuoteScript(s).Some?
  {
    && Pays(w, v.base, s.baseHtlcTxid, BaseScript(s).value, s.amount, w.minConfsBase, b)
    && Pays(w, v.quote, s.quoteHtlcTxid, QuoteScript(s).value, w.product(s.amount, s.price), w.minConfsQuote, q)
    && SpentFor(w, v.base, s.baseHtlcTxid, b, w.minConfsBase, s.hashlock, x, sb)
    && SpentFor(w, v.quote, s.quoteHtlcTxid, q, w.minConfsQuote, s.hashlock, x, sq)
  }

  lemma {:induction false} EvidenceIs(w: Watch, s: Row, v: View, b: OutputSeen, q: OutputSeen, sb: SpendSeen,
                                      sq: SpendSeen, x: Bytes)
    requires BaseScript(s).Some? && QuoteScript(s).Some?
    ensures Evidence(w, s, v, b, q, sb, sq, x) <==>
            && Funded(w, s, v) && BaseOutput(w, s, v) == Some(b) && QuoteOutput(w, s, v) == Some(q)
            && BaseReveals(w, s, v, x) && BaseSpend(w, s, v) == Some(sb)
            && QuoteReveals(w, s, v, x) && QuoteSpend(w, s, v) == Some(sq)
  {
    FundingForms(w, BaseScript(s).value);
    FundingForms(w, QuoteScript(s).value);
    FoundIsFirst(w, sb.items, s.hashlock, x);
    FoundIsFirst(w, sq.items, s.hashlock, x);
  }

  lemma FundingForms(w: Watch, script: Bytes)
    ensures FundingScripts(w, script) == if w.hasRipemd then {P2wsh(script), P2sh(script)} else {P2wsh(script)}
  {
  }

  /** A swap nothing was known of is settled at once exactly on such evidence. */
  lemma {:induction false} SettledExactly(w: Watch, s: Row, v: View)
    requires Actionable(s.status) && s.preimage.None? && s.baseRedeemTxid.None?
    requires BaseScript(s).Some? && QuoteScript(s).Some?
    ensures Decision(w, s, v).Found?
    ensures Decision(w, s, v).updates.status == Some(SwapSettled) <==>
            exists b, q, sb, sq, x :: Evidence(w, s, v, b, q, sb, sq, x)
  {
    DecisionTable(w, s, v);
    forall b, q, sb, sq, x ensures Evidence(w, s, v, b, q, sb, sq, x) <==>
        && Funded(w, s, v) && BaseOutput(w, s, v) == Some(b) && QuoteOutput(w, s, v) == Some(q)
        && BaseReveals(w, s, v, x) && BaseSpend(w, s, v) == Some(sb)
        && QuoteReveals(w, s, v, x) && QuoteSpend(w, s, v) == Some(sq)
    {
      EvidenceIs(w, s, v, b, q, sb, sq, x);
    }
    if x :| Knows(w, s, v, x) && Funded(w, s, v) && BaseReveals(w, s, v, x) {
      assert Evidence(w, s, v, BaseOutput(w, s, v).value, QuoteOutput(w, s, v).value, BaseSpend(w, s, v).value,
          QuoteSpend(w, s, v).value, x);
    }
    if b, q, sb, sq, x :| Evidence(w, s, v, b, q, sb, sq, x) { assert Knows(w, s, v, x); }
  }

  /** What spoils a swap whose two outputs `b` and `q` pay: no secret by the locktime, or a spend without the secret. */
  ghost predicate Spoilt(w: Watch, s: Row, v: View, b: OutputSeen, q: OutputSeen) {
    var sq := v.quote.findSpend(if s.quoteHtlcTxid.Some? then s.quoteHtlcTxid.value else "", q.vout);
    var sb := v.base.findSpend(if s.baseHtlcTxid.Some? then s.baseHtlcTxid.value else "", b.vout);
    if sq.None? then v.now >= s.quoteLocktime
    else if forall x :: !FirstSecret(w, sq.value.items, s.hashlock, x) then true
    else
      && sq.value.confirmations >= w.minConfsQuote && sb.Some?
      && exists x :: FirstSecret(w, sq.value.items, s.hashlock, x) && !FirstSecret(w, sb.value.items, s.hashlock, x)
  }

  /** A swap nothing was known of expires exactly when its outputs pay and one of these has happened. */
  lemma {:induction false} ExpiredExactly(w: Watch, s: Row, v: View)
    requires Actionable(s.status) && s.preimage.None? && s.baseRedeemTxid.None?
    requires BaseScript(s).Some? && QuoteScript(s).Some?
    ensures Decision(w, s, v).Found?
    ensures Decision(w, s, v).updates.status == Some(Expired) <==>
            exists b, q ::
              && Pays(w, v.base, s.baseHtlcTxid, BaseScript(s).value, s.amount, w.minConfsBase, b)
              && Pays(w, v.quote, s.quoteHtlcTxid, QuoteScript(s).value, w.product(s.amount, s.price),
                      w.minConfsQuote, q)
              && Spoilt(w, s, v, b, q)
  {
    FundingForms(w, BaseScript(s).value);
    FundingForms(w, QuoteScript(s).value);
    if Funded(w, s, v) {
      var b, q := BaseOutput(w, s, v).value, QuoteOutput(w, s, v).value;
      SpoiltExactly(w, s, v, b, q);
      assert Pays(w, v.base, s.baseHtlcTxid, BaseScript(s).value, s.amount, w.minConfsBase, b);
      assert Pays(w, v.quote, s.quoteHtlcTxid, QuoteScript(s).value, w.product(s.amount, s.price), w.minConfsQuote, q);
    }
  }

  lemma {:induction false} SpoiltExactly(w: Watch, s: Row, v: View, b: OutputSeen, q: OutputSeen)
    requires Actionable(s.status) && s.preimage.None? && s.baseRedeemTxid.None? && Funded(w, s, v)
    requires BaseOutput(w, s, v) == Some(b) && QuoteOutput(w, s, v) == Some(q)
    ensures Decision(w, s, v).Found? && (Decision(w, s, v).updates.status == Some(Expired) <==> Spoilt(w, s, v, b, q))
  {
    var sq, sb := QuoteSpend(w, s, v), BaseSpend(w, s, v);
    if sq.Some? {
      AllFound(w, sq.value.items, s.hashlock);
      if sb.Some? { AllFound(w, sb.value.items, s.hashlock); }
    }
  }

  /** How far along a status is; the two terminal ones are last. */
  function Rank(status: Status): nat {
    match status
    case SwapInit => 0
    case BaseFunded => 1
    case QuoteFunded => 1
    case BothLocked => 2
    case QuoteRedeemed => 3
    case BaseRedeemed => 4
    case SwapSettled => 5
    case Expired => 5
  }

  predicate Terminal(status: Status) {
    status in {SwapSettled, Expired}
  }

  /**
   * A verdict never takes a step back: a locked swap reveals, settles or expires; a revealed one settles or expires.
   */
  lemma VerdictMovesForward(w: Watch, s: Row, v: View)
    requires Decision(w, s, v).Found? && Decision(w, s, v).updates.status.Some? && s.status != BaseRedeemed
    requires s.status == QuoteRedeemed <==> s.preimage.Some?
    ensures Rank(Decision(w, s, v).updates.status.value) > Rank(s.status) && !Terminal(s.status)
  {
  }
}
