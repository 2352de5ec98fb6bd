/** The exchange's operations over its two tables (exchange.py), and the verification pass (swap_verifier.py). */
module ExchangeServer {
  import opened Results
  import opened Script
  import opened Swap
  import opened Exchange

  // ----- input checks ----------------------------------------------------------------------- //

  /** A finite decimal number as it was written: trailing zeros count. */
  datatype Decimal = Decimal(coefficient: int, exponent: int)

  function DigitCount(n: nat): nat {
    if n < 10 then 1 else 1 + DigitCount(n / 10)
  }

  /** `adjusted()`: the power of the leading digit. */
  function Adjusted(d: Decimal): int {
    DigitCount(if d.coefficient < 0 then -d.coefficient else d.coefficient) + d.exponent - 1
  }

  function PowerOfTen(k: nat): (p: nat)
    ensures p > 0
  {
    if k == 0 then 1 else 10 * PowerOfTen(k - 1)
  }

  function ValueOf(d: Decimal): real {
    if d.exponent >= 0 then (d.coefficient * PowerOfTen(d.exponent)) as real
    else d.coefficient as real / PowerOfTen(-d.exponent) as real
  }

  /** `_pos_decimal`: positive, leading digit at most 10^20, at most 20 decimal places written out. */
  predicate PosDecimal(d: Decimal) {
    d.coefficient > 0 && Adjusted(d) <= 20 && d.exponent >= -20
  }

  lemma ProductPositive(a: int, b: int)
    requires a > 0 && b > 0
    ensures a * b > 0
  {
  }

  lemma PositiveValue(d: Decimal)
    requires PosDecimal(d)
    ensures ValueOf(d) > 0.0
  {
    if d.exponent >= 0 { ProductPositive(d.coefficient, PowerOfTen(d.exponent)); }
  }

  lemma {:induction false} DigitsBelow(n: nat, k: nat)
    ensures DigitCount(n) <= k <==> k > 0 && n < PowerOfTen(k)
  {
    if n >= 10 {
      if k > 0 { DigitsBelow(n / 10, k - 1); }
    } else if k > 0 {
      TenIsLeast(k);
    }
  }

  lemma {:induction false} TenIsLeast(k: nat)
    requires k > 0
    ensures PowerOfTen(k) >= 10
  {
    if k > 1 { TenIsLeast(k - 1); }
  }

  lemma {:induction false} PowersOfTen(a: nat, b: nat)
    ensures PowerOfTen(a + b) == PowerOfTen(a) * PowerOfTen(b)
  {
    if a > 0 {
      PowersOfTen(a - 1, b);
      Regrouped(10, PowerOfTen(a - 1), PowerOfTen(b));
    }
  }

  lemma Regrouped(a: int, b: int, c: int)
    ensures a * (b * c) == (a * b) * c
  {
  }

  lemma ScaledBelow(a: int, b: int, p: int)
    requires p > 0
    ensures a * p < b * p <==> a < b
  {
  }

  lemma QuotientBelow(c: int, bound: int, p: int)
    requires p > 0
    ensures c as real / p as real < bound as real <==> c < bound * p
  {
    var q := c as real / p as real;
    assert q * p as real == c as real;
  }

  /** What is let through: a positive number below 10^21, written with at most twenty decimal places. */
  lemma {:induction false} PosDecimalExactly(d: Decimal)
    ensures PosDecimal(d) <==> ValueOf(d) > 0.0 && ValueOf(d) < PowerOfTen(21) as real && d.exponent >= -20
  {
    if d.coefficient > 0 && d.exponent >= -20 {
      PositiveSmall(d);
      if d.exponent >= 0 { ProductPositive(d.coefficient, PowerOfTen(d.exponent)); }
    } else if d.exponent >= 0 {
      NotPositive(d.coefficient, PowerOfTen(d.exponent));
    }
  }

  lemma NotPositive(c: int, p: int)
    requires p > 0
    ensures c <= 0 ==> c * p <= 0
  {
  }

  lemma {:induction false} PositiveSmall(d: Decimal)
    requires d.coefficient > 0 && d.exponent >= -20
    ensures Adjusted(d) <= 20 <==> ValueOf(d) < PowerOfTen(21) as real
  {
    var c, e := d.coefficient, d.exponent;
    if e > 21 {
      PowersOfTen(21, e - 21);
      LeastProduct(c, PowerOfTen(21), PowerOfTen(e - 21), PowerOfTen(e));
    } else {
      DigitsBelow(c, 21 - e);
      if e >= 0 {
        PowersOfTen(21 - e, e);
        ScaledBelow(c, PowerOfTen(21 - e), PowerOfTen(e));
        assert PowerOfTen(0) == 1;
      } else {
        PowersOfTen(21, -e);
        QuotientBelow(c, PowerOfTen(21), PowerOfTen(-e));
      }
    }
  }

  lemma LeastProduct(c: int, a: int, b: int, p: int)
    requires c >= 1 && a >= 1 && b >= 1 && p == a * b
    ensures c * p >= a
  {
    assert a * b >= a;
    assert c * p >= p;
  }

  /** `str.isspace`: the whitespace characters of Unicode and the four ASCII separators. */
  predicate IsSpace(c: char) {
    var n := c as int;
    || 0x09 <= n <= 0x0D || 0x1C <= n <= 0x20 || n == 0x85 || n == 0xA0 || n == 0x1680
    || 0x2000 <= n <= 0x200A || n == 0x2028 || n == 0x2029 || n == 0x202F || n == 0x205F || n == 0x3000
  }

  /** `_clean_address`, on text that has been stripped. */
  predicate AddressOk(s: string) {
    6 <= |s| <= 120 && forall i :: 0 <= i < |s| ==> !IsSpace(s[i])
  }

  predicate KeysOk(keys: seq<string>) {
    forall i :: 0 <= i < |keys| ==> HexOk(keys[i], 40, 130)
  }

  predicate LocktimesOk(baseLocktime: int, quoteLocktime: int) {
    0 < quoteLocktime && quoteLocktime + MIN_TIMELOCK_GAP_SECONDS <= baseLocktime <= MAX_INTEGER
  }

  /** The order's owner shows the secret token. */
  predicate Authorized(orders: Orders, id: Id, token: string) {
    id in orders && orders[id].cancelToken != "" && orders[id].cancelToken == token
  }

  // ----- matching ------------------------------------------------------------------------------ //

  /** Open orders that cross order `id`. */
  function Candidates(orders: Orders, id: Id): set<Id>
    requires id in orders
  {
    set k | k in orders && k != id && orders[k].status == Open && Fits(orders[id], orders[k])
  }

  /** The book's ranking: by rounded price, best for the taker first, then by age. */
  predicate Better(cast: real -> real, taker: Side, a: Order, b: Order) {
    || (if taker == Buy then cast(a.price) < cast(b.price) else cast(a.price) > cast(b.price))
    || (cast(a.price) == cast(b.price) && a.createdAt < b.createdAt)
  }

  /**
   * Order `id` of `book` has been offered: matched with a best order it crosses, or nothing changed as it crosses none.
   */
  ghost predicate Offered(cast: real -> real, book: Orders, id: Id, counter: Option<Id>, after: Orders) {
    && (counter.Some? <==> id in book && book[id].status == Open && Candidates(book, id) != {})
    && (counter.Some? ==>
          && counter.value in Candidates(book, id)
          && after == Matching(book, id, counter.value)
          && forall k :: k in Candidates(book, id) ==> !Better(cast, book[id].side, book[k], book[counter.value]))
    && (counter.None? ==> after == book)
  }

  /** With a rounding that keeps the order of prices, the chosen price is the best but for rounding. */
  lemma BestUpToRounding(cast: real -> real, taker: Side, chosen: Order, other: Order)
    requires forall x: real, y: real :: x <= y ==> cast(x) <= cast(y)
    requires !Better(cast, taker, other, chosen)
    requires if taker == Buy then other.price < chosen.price else other.price > chosen.price
    ensures cast(other.price) == cast(chosen.price) && other.createdAt >= chosen.createdAt
  {
  }

  // ----- swaps ---------------------------------------------------------------------------------- //

  /** The earlier of two orders: the resting one, which sets the price. */
  predicate IsMaker(a: Order, b: Order) {
    a.createdAt < b.createdAt || (a.createdAt == b.createdAt && a.rowid < b.rowid)
  }

  function MinReal(a: real, b: real): real {
    if a <= b then a else b
  }

  function NewRow(orders: Orders, id: Id, counter: Id, hashlock: Bytes, keys: seq<string>,
                  baseLocktime: int, quoteLocktime: int, now: int): Row
    requires id in orders && counter in orders && |keys| == 4
  {
    var mine, other := orders[id], orders[counter];
    var buy, sell := if mine.side == Buy then id else counter, if mine.side == Buy then counter else id;
    Row(buy, sell, mine.pair, if IsMaker(mine, other) then mine.price else other.price,
        MinReal(orders[buy].amount, orders[sell].amount),
        hashlock, keys[0], keys[1], keys[2], keys[3], baseLocktime, quoteLocktime,
        None, None, None, None, None, 0, 0, SwapInit, now, None)
  }

  lemma NewRowTerms(orders: Orders, id: Id, counter: Id, hashlock: Bytes, keys: seq<string>,
                    baseLocktime: int, quoteLocktime: int, now: int)
    requires BookOk(orders) && id in orders && orders[id].status == Matched && orders[id].matchedWith == Some(counter)
    requires |keys| == 4 && KeysOk(keys) && |hashlock| == 32 && LocktimesOk(baseLocktime, quoteLocktime)
    ensures counter in orders && orders[counter].status == Matched
    ensures TermsOk(orders, NewRow(orders, id, counter, hashlock, keys, baseLocktime, quoteLocktime, now))
  {
    assert PairOk(orders, id);
  }

  /**
   * A trade executes at the price of the resting order, for the smaller of the two amounts, and it does not matter
   * which of the two parties registers the swap.
   */
  lemma RestingOrderSetsPrice(orders: Orders, nextRow: nat, maker: Id, taker: Id, hashlock: Bytes,
                              keys: seq<string>, baseLocktime: int, quoteLocktime: int, now: int)
    requires BookOk(orders) && Ranked(orders, nextRow) && |keys| == 4
    requires maker in orders && orders[maker].status == Matched && orders[maker].matchedWith == Some(taker)
             && taker in orders
    requires orders[maker].createdAt <= orders[taker].createdAt && orders[maker].rowid <= orders[taker].rowid
    ensures var byMaker := NewRow(orders, maker, taker, hashlock, keys, baseLocktime, quoteLocktime, now);
            && byMaker == NewRow(orders, taker, maker, hashlock, keys, baseLocktime, quoteLocktime, now)
            && byMaker.price == orders[maker].price
            && byMaker.amount in {orders[maker].amount, orders[taker].amount}
            && byMaker.amount <= orders[maker].amount && byMaker.amount <= orders[taker].amount
  {
    assert PairOk(orders, maker);
    assert SameRank(orders, maker, taker) ==> maker == taker;
  }

  /** A row with the columns of a verdict written over it. */
  function Patched(s: Row, u: Updates): Row {
    s.(status := if u.status.Some? then u.status.value else s.status,
       preimage := if u.preimage.Some? then u.preimage else s.preimage,
       quoteRedeemTxid := if u.quoteRedeemTxid.Some? then u.quoteRedeemTxid else s.quoteRedeemTxid,
       quoteConfs := if u.quoteConfs.Some? then u.quoteConfs.value else s.quoteConfs,
       baseRedeemTxid := if u.baseRedeemTxid.Some? then u.baseRedeemTxid else s.baseRedeemTxid,
       baseConfs := if u.baseConfs.Some? then u.baseConfs.value else s.baseConfs,
       settledAt := if u.settledAt.Some? then u.settledAt else s.settledAt)
  }

  /** What a view shows depends only on a swap's terms and its funding transactions. */
  lemma SameView(w: Watch, s: Row, s': Row, v: View, x: Bytes)
    requires SameTerms(s, s') && s'.baseHtlcTxid == s.baseHtlcTxid && s'.quoteHtlcTxid == s.quoteHtlcTxid
    ensures QuoteReveals(w, s', v, x) == QuoteReveals(w, s, v, x)
    ensures BaseReveals(w, s', v, x) == BaseReveals(w, s, v, x)
  {
  }

  function Noted(seen: map<Id, View>, id: Id, v: View, note: bool): map<Id, View> {
    if note then seen[id := v] else seen
  }

  /** What was noted as seen was seen by some pass. */
  ghost predicate SeenIn(seen: map<Id, View>, passes: seq<View>) {
    forall id :: id in seen ==> seen[id] in passes
  }

  /** Everything the server keeps true: its tables, its queue, and that all evidence was seen by passes. */
  ghost predicate ServerOk(w: Watch, orders: Orders, pending: set<Id>, nextRow: nat, swaps: Swaps,
                           quoteSeen: map<Id, View>, baseSeen: map<Id, View>, passes: seq<View>)
  {
    && TablesOk(w, orders, swaps, quoteSeen, baseSeen) && QueueOk(orders, pending, nextRow)
    && SeenIn(quoteSeen, passes) && SeenIn(baseSeen, passes)
  }

  /** Writing a verdict over a row keeps it in order, moves it forward, and is backed by the view it came from. */
  lemma VerdictKeepsRow(w: Watch, s: Row, v: View, id: Id, quoteSeen: map<Id, View>, baseSeen: map<Id, View>)
    requires Actionable(s.status) && ProgressOk(s) && EvidenceOk(w, s, id, quoteSeen, baseSeen)
    requires Decision(w, s, v).Found?
    ensures var u := Decision(w, s, v).updates;
            var s' := Patched(s, u);
            && SameTerms(s, s') && ProgressOk(s') && Rank(s.status) <= Rank(s'.status)
            && EvidenceOk(w, s', id, Noted(quoteSeen, id, v, u.preimage.Some?),
                Noted(baseSeen, id, v, u.status == Some(SwapSettled)))
  {
    var u := Decision(w, s, v).updates;
    var s' := Patched(s, u);
    DecisionTable(w, s, v);
    if s'.preimage.Some? {
      var x := s'.preimage.value;
      SameView(w, s, s', v, x);
      if s.preimage.Some? { SameView(w, s, s', quoteSeen[id], x); }
      if u.status == Some(SwapSettled) {
        var y :| Knows(w, s, v, y) && Funded(w, s, v) && BaseReveals(w, s, v, y);
        SecretIsUnique(w, s, v, x, y);
      }
    }
  }

  lemma SecretIsUnique(w: Watch, s: Row, v: View, x: Bytes, y: Bytes)
    requires BaseReveals(w, s, v, y) && (s.preimage == Some(x) || (s.preimage.None? && QuoteReveals(w, s, v, x)))
    requires Knows(w, s, v, y)
    ensures x == y
  {
  }

  predicate SameRank(orders: Orders, a: Id, b: Id) {
    a in orders && b in orders && orders[a].rowid == orders[b].rowid
  }

  /** Every order has a rank of its own. */
  ghost predicate Ranked(orders: Orders, nextRow: nat) {
    && (forall id :: id in orders ==> orders[id].rowid < nextRow)
    && (forall a, b {:trigger SameRank(orders, a, b)} :: SameRank(orders, a, b) ==> a == b)
  }

  lemma RanksStay(before: Orders, after: Orders, nextRow: nat)
    requires Ranked(before, nextRow) && after.Keys == before.Keys
    requires forall id :: id in before ==> after[id].rowid == before[id].rowid
    ensures Ranked(after, nextRow)
  {
    forall a, b | SameRank(after, a, b) ensures a == b {
      assert SameRank(before, a, b);
    }
  }

  ghost predicate QueueOk(orders: Orders, pending: set<Id>, nextRow: nat) {
    CrossedOnlyIfPending(orders, pending) && Ranked(orders, nextRow)
  }

  // ----- what the steps rest on ---------------------------------------------------------------------- //

  /** A row after a funding report. */
  function Reported(s: Row, baseLeg: bool, txid: string): Row {
    var t := if baseLeg then s.(baseHtlcTxid := Some(txid)) else s.(quoteHtlcTxid := Some(txid));
    t.(status := FundingStatus(t))
  }

  /** It writes one column, and the status that the two then amount to. */
  lemma ReportedColumns(s: Row, baseLeg: bool, txid: string)
    requires s.status in {SwapInit, BaseFunded, QuoteFunded} && s.status == FundingStatus(s)
    ensures var t := Reported(s, baseLeg, txid);
            && (baseLeg ==> t.baseHtlcTxid == Some(txid) && t.quoteHtlcTxid == s.quoteHtlcTxid)
            && (!baseLeg ==> t.quoteHtlcTxid == Some(txid) && t.baseHtlcTxid == s.baseHtlcTxid)
            && t == s.(baseHtlcTxid := t.baseHtlcTxid, quoteHtlcTxid := t.quoteHtlcTxid, status := t.status)
            && (t.status == BothLocked <==> t.baseHtlcTxid.Some? && t.quoteHtlcTxid.Some?)
            && (t.status == BaseFunded <==> t.baseHtlcTxid.Some? && t.quoteHtlcTxid.None?)
            && (t.status == QuoteFunded <==> t.baseHtlcTxid.None? && t.quoteHtlcTxid.Some?)
  {
  }

  lemma InsertStep(w: Watch, orders: Orders, pending: set<Id>, nextRow: nat, swaps: Swaps,
                   quoteSeen: map<Id, View>, baseSeen: map<Id, View>, id: Id, o: Order)
    requires TablesOk(w, orders, swaps, quoteSeen, baseSeen) && QueueOk(orders, pending, nextRow) && id !in orders
    requires o.status == Open && o.matchedWith.None? && o.price > 0.0 && o.amount > 0.0 && o.rowid == nextRow
    requires |OpenAt(orders, o.mbiteAddress)| < MAX_OPEN_ORDERS_PER_ADDRESS
    ensures TablesOk(w, orders[id := o], swaps, quoteSeen, baseSeen)
    ensures QueueOk(orders[id := o], pending + {id}, nextRow + 1)
  {
    var after := orders[id := o];
    InsertKeepsBook(orders, id, o);
    OtherOrdersMayChange(w, orders, after, swaps, quoteSeen, baseSeen);
    forall a, b | SameRank(after, a, b) ensures a == b {
      assert a != id && b != id ==> SameRank(orders, a, b);
    }
  }

  lemma CancelStep(w: Watch, orders: Orders, pending: set<Id>, nextRow: nat, swaps: Swaps,
                   quoteSeen: map<Id, View>, baseSeen: map<Id, View>, id: Id)
    requires TablesOk(w, orders, swaps, quoteSeen, baseSeen) && QueueOk(orders, pending, nextRow)
    requires id in orders && orders[id].status == Open
    ensures var after := orders[id := orders[id].(status := Cancelled)];
            TablesOk(w, after, swaps, quoteSeen, baseSeen) && QueueOk(after, pending, nextRow)
  {
    var after := orders[id := orders[id].(status := Cancelled)];
    CancelKeepsBook(orders, id);
    OtherOrdersMayChange(w, orders, after, swaps, quoteSeen, baseSeen);
    RanksStay(orders, after, nextRow);
  }

  lemma MatchStep(w: Watch, orders: Orders, pending: set<Id>, nextRow: nat, swaps: Swaps,
                  quoteSeen: map<Id, View>, baseSeen: map<Id, View>, id: Id, best: Id)
    requires TablesOk(w, orders, swaps, quoteSeen, baseSeen) && QueueOk(orders, pending + {id}, nextRow)
    requires id in orders && orders[id].status == Open && best in Candidates(orders, id)
    ensures TablesOk(w, Matching(orders, id, best), swaps, quoteSeen, baseSeen)
    ensures QueueOk(Matching(orders, id, best), pending, nextRow)
  {
    MatchingKeepsQueue(orders, pending, nextRow, id, best);
    MatchKeepsBook(orders, id, best);
    OtherOrdersMayChange(w, orders, Matching(orders, id, best), swaps, quoteSeen, baseSeen);
  }

  lemma MatchingKeepsQueue(orders: Orders, pending: set<Id>, nextRow: nat, id: Id, best: Id)
    requires QueueOk(orders, pending + {id}, nextRow) && id in orders && best in orders
    ensures QueueOk(Matching(orders, id, best), pending, nextRow)
  {
    RanksStay(orders, Matching(orders, id, best), nextRow);
  }

  lemma NothingCrosses(orders: Orders, id: Id)
    requires id in orders && orders[id].status == Open && Candidates(orders, id) == {}
    ensures forall k :: k in orders && orders[k].status == Open ==>
              !Crosses(orders[id], orders[k]) && !Crosses(orders[k], orders[id])
  {
    forall k | k in orders && orders[k].status == Open
      ensures !Crosses(orders[id], orders[k]) && !Crosses(orders[k], orders[id])
    {
      assert k != id ==> k !in Candidates(orders, id);
    }
  }

  predicate Names(s: Row, id: Id) {
    s.buyOrder == id || s.sellOrder == id
  }

  /** An order occurs in at most one swap. */
  lemma OrderHasOneSwap(w: Watch, orders: Orders, swaps: Swaps, quoteSeen: map<Id, View>, baseSeen: map<Id, View>,
                        id: Id)
    requires TablesOk(w, orders, swaps, quoteSeen, baseSeen)
    ensures forall j, k | j in swaps && k in swaps :: Names(swaps[j], id) && Names(swaps[k], id) ==> j == k
  {
    forall j, k | j in swaps && k in swaps && Names(swaps[j], id) && Names(swaps[k], id) ensures j == k
    {
      assert RowOk(w, orders, swaps[j], j, quoteSeen, baseSeen);
      assert RowOk(w, orders, swaps[k], k, quoteSeen, baseSeen);
    }
  }

  /** Looking for a swap of either order of a pair finds the swap of the pair. */
  lemma PairHasOneSwap(w: Watch, orders: Orders, swaps: Swaps, quoteSeen: map<Id, View>, baseSeen: map<Id, View>,
                       id: Id, counter: Id)
    requires TablesOk(w, orders, swaps, quoteSeen, baseSeen)
    requires id in orders && counter in orders
    requires orders[id].matchedWith == Some(counter) && orders[counter].matchedWith == Some(id)
    ensures forall k :: k in swaps ==>
              (swaps[k].buyOrder in {id, counter} || swaps[k].sellOrder in {id, counter}
               <==> swaps[k].buyOrder == id || swaps[k].sellOrder == id)
  {
    forall k | k in swaps
      ensures swaps[k].buyOrder in {id, counter} || swaps[k].sellOrder in {id, counter}
              <==> swaps[k].buyOrder == id || swaps[k].sellOrder == id
    {
      assert RowOk(w, orders, swaps[k], k, quoteSeen, baseSeen);
    }
  }

  /** A swap of order `id` that still awaits funding. */
  predicate Reportable(swaps: Swaps, id: Id, k: Id) {
    k in swaps && (swaps[k].buyOrder == id || swaps[k].sellOrder == id)
        && swaps[k].status in {SwapInit, BaseFunded, QuoteFunded}
  }

  lemma ReportStep(w: Watch, orders: Orders, swaps: Swaps, quoteSeen: map<Id, View>, baseSeen: map<Id, View>,
                   k: Id, baseLeg: bool, txid: string)
    requires TablesOk(w, orders, swaps, quoteSeen, baseSeen) && k in swaps
             && swaps[k].status in {SwapInit, BaseFunded, QuoteFunded}
    ensures var s := Reported(swaps[k], baseLeg, txid);
            TablesOk(w, orders, swaps[k := s], quoteSeen, baseSeen) && Advances(swaps, swaps[k := s])
  {
    var s := Reported(swaps[k], baseLeg, txid);
    assert RowOk(w, orders, swaps[k], k, quoteSeen, baseSeen);
    ReportKeepsRow(swaps[k], baseLeg, txid);
    UnsettledStep(w, orders, swaps, quoteSeen, quoteSeen, baseSeen, k, s);
  }

  lemma ReportKeepsRow(s: Row, baseLeg: bool, txid: string)
    requires ProgressOk(s) && s.status in {SwapInit, BaseFunded, QuoteFunded}
    ensures var s' := Reported(s, baseLeg, txid);
            && SameTerms(s, s') && ProgressOk(s') && Rank(s.status) <= Rank(s'.status)
            && s'.preimage.None? && s'.status in {BaseFunded, QuoteFunded, BothLocked}
  {
  }

  /** Writing the verdict a view supports keeps the tables in order. */
  lemma VerdictStep(w: Watch, orders: Orders, swaps: Swaps, quoteSeen: map<Id, View>, baseSeen: map<Id, View>, id: Id,
                    v: View)
    requires TablesOk(w, orders, swaps, quoteSeen, baseSeen) && id in swaps && Actionable(swaps[id].status)
    requires Decision(w, swaps[id], v).Found?
    ensures var u := Decision(w, swaps[id], v).updates;
            var s := Patched(swaps[id], u);
            var quoteSeen', baseSeen' := Noted(quoteSeen, id, v, u.preimage.Some?),
                Noted(baseSeen, id, v, u.status == Some(SwapSettled));
            && s.buyOrder in orders && s.sellOrder in orders
            && TablesOk(w, if u.status == Some(SwapSettled) then Settling(orders, s.buyOrder, s.sellOrder) else orders,
                        swaps[id := s], quoteSeen', baseSeen')
            && Advances(swaps, swaps[id := s])
  {
    var u := Decision(w, swaps[id], v).updates;
    var s := Patched(swaps[id], u);
    assert RowOk(w, orders, swaps[id], id, quoteSeen, baseSeen);
    VerdictKeepsRow(w, swaps[id], v, id, quoteSeen, baseSeen);
    var quoteSeen', baseSeen' := Noted(quoteSeen, id, v, u.preimage.Some?),
        Noted(baseSeen, id, v, u.status == Some(SwapSettled));
    RowAdvances(swaps, id, s);
    if u.status == Some(SwapSettled) {
      SettledStep(w, orders, swaps, quoteSeen, quoteSeen', baseSeen, baseSeen', id, s);
    } else {
      UnsettledStep(w, orders, swaps, quoteSeen, quoteSeen', baseSeen, id, s);
    }
  }

  /** The two orders of a swap settle with it. */
  function BookAfter(orders: Orders, s: Row, u: Updates): Orders
    requires s.buyOrder in orders && s.sellOrder in orders
  {
    if u.status == Some(SwapSettled) then Settling(orders, s.buyOrder, s.sellOrder) else orders
  }

  lemma BookOnlySettles(orders: Orders, s: Row, u: Updates)
    requires s.buyOrder in orders && s.sellOrder in orders
    ensures OnlySettles(orders, BookAfter(orders, s, u))
  {
  }

  lemma NothingToWrite(swaps: Swaps, id: Id)
    requires id in swaps
    ensures swaps[id := Patched(swaps[id], NOTHING)] == swaps
  {
  }

  lemma ApplyStep(w: Watch, orders: Orders, pending: set<Id>, nextRow: nat, swaps: Swaps,
                  quoteSeen: map<Id, View>, baseSeen: map<Id, View>, passes: seq<View>, id: Id, u: Updates, v: View)
    requires ServerOk(w, orders, pending, nextRow, swaps, quoteSeen, baseSeen, passes) && id in swaps
    requires swaps[id].buyOrder in orders && swaps[id].sellOrder in orders
    ensures Backed(w, swaps, id, u, v) && v in passes ==>
              && ServerOk(w, BookAfter(orders, swaps[id], u), pending, nextRow, swaps[id := Patched(swaps[id], u)],
                          Noted(quoteSeen, id, v, u.preimage.Some?),
                              Noted(baseSeen, id, v, u.status == Some(SwapSettled)), passes)
              && Advances(swaps, swaps[id := Patched(swaps[id], u)])
  {
    SettlingKeepsQueue(orders, swaps[id].buyOrder, swaps[id].sellOrder, pending, nextRow);
    if Backed(w, swaps, id, u, v) {
      VerdictStep(w, orders, swaps, quoteSeen, baseSeen, id, v);
    }
  }

  /** The verdict is the one the view supports for the row. */
  ghost predicate Backed(w: Watch, swaps: Swaps, id: Id, u: Updates, v: View) {
    id in swaps ==> Actionable(swaps[id].status) && Decision(w, swaps[id], v) == Found(u)
  }

  lemma PartiesExist(w: Watch, orders: Orders, swaps: Swaps, quoteSeen: map<Id, View>, baseSeen: map<Id, View>, id: Id)
    requires TablesOk(w, orders, swaps, quoteSeen, baseSeen) && id in swaps
    ensures swaps[id].buyOrder in orders && swaps[id].sellOrder in orders
  {
    assert RowOk(w, orders, swaps[id], id, quoteSeen, baseSeen);
  }

  lemma RowAdvances(swaps: Swaps, id: Id, s: Row)
    requires id in swaps && SameTerms(swaps[id], s) && Rank(swaps[id].status) <= Rank(s.status)
             && !Terminal(swaps[id].status)
    ensures Advances(swaps, swaps[id := s])
  {
  }

  lemma SettlingKeepsQueue(orders: Orders, a: Id, b: Id, pending: set<Id>, nextRow: nat)
    requires a in orders && b in orders && QueueOk(orders, pending, nextRow)
    ensures QueueOk(Settling(orders, a, b), pending, nextRow) && OnlySettles(orders, Settling(orders, a, b))
  {
    RanksStay(orders, Settling(orders, a, b), nextRow);
  }

  /** A row after a pass has judged it. */
  function Judged(w: Watch, s: Row, v: View): Row {
    var o := Decision(w, s, v);
    if o.Found? then Patched(s, o.updates) else s
  }

  /** Where a pass has been: the swaps still to do are untouched, the others judged, and none of those raised. */
  ghost predicate PassedOver(w: Watch, before: Swaps, now: Swaps, todo: set<Id>, v: View) {
    && now.Keys == before.Keys && todo <= before.Keys
    && forall k :: k in before ==>
         if k in todo then Actionable(before[k].status) && now[k] == before[k]
         else now[k] == Judged(w, before[k], v) && (Actionable(before[k].status) ==> ScriptsOk(before[k]))
  }

  /** After a pass: every row is judged, or one raised and the rows it left are as they were. */
  ghost predicate AllJudged(w: Watch, before: Swaps, after: Swaps, v: View, raised: bool) {
    && after.Keys == before.Keys
    && forall k :: k in before ==> after[k] == Judged(w, before[k], v) || (raised && after[k] == before[k])
  }

  lemma PassStep(w: Watch, before: Swaps, now: Swaps, todo: set<Id>, k: Id, v: View)
    requires PassedOver(w, before, now, todo, v) && k in todo && Decision(w, before[k], v).Found?
    ensures PassedOver(w, before, now[k := Patched(now[k], Decision(w, before[k], v).updates)], todo - {k}, v)
  {
    RaisesWithoutScripts(w, before[k], v);
    assert Judged(w, before[k], v) == Patched(before[k], Decision(w, before[k], v).updates);
  }

  lemma RaiseStopsPass(w: Watch, before: Swaps, now: Swaps, todo: set<Id>, k: Id, v: View)
    requires PassedOver(w, before, now, todo, v) && k in todo && Decision(w, before[k], v).Raised?
    ensures k in before && Actionable(before[k].status) && !ScriptsOk(before[k]) && AllJudged(w, before, now, v, true)
  {
    RaisesWithoutScripts(w, before[k], v);
  }

  lemma RaisesWithoutScripts(w: Watch, s: Row, v: View)
    ensures Decision(w, s, v).Raised? <==> Actionable(s.status) && !ScriptsOk(s)
  {
  }

  /** A pass may settle orders and does nothing else to the book. */
  ghost predicate OnlySettles(before: Orders, after: Orders) {
    && after.Keys == before.Keys
    && forall id :: id in before ==> after[id] == before[id] || after[id] == before[id].(status := Settled)
  }

  lemma OnlySettlesTransitive(a: Orders, b: Orders, c: Orders)
    requires OnlySettles(a, b) && OnlySettles(b, c)
    ensures OnlySettles(a, c)
  {
  }

  lemma PassedFurther(a: Swaps, b: Swaps, c: Swaps, x: Orders, y: Orders, z: Orders)
    requires Advances(a, b) && Advances(b, c) && OnlySettles(x, y) && OnlySettles(y, z)
    ensures Advances(a, c) && OnlySettles(x, z)
  {
    AdvancesTransitive(a, b, c);
    OnlySettlesTransitive(x, y, z);
  }

  /** A swap that makes every pass raise: it is watchable and a key of it gives no script. */
  predicate Jammed(s: Row) {
    Actionable(s.status) && !ScriptsOk(s)
  }

  ghost predicate AnyJammed(swaps: Swaps) {
    exists k :: k in swaps && Jammed(swaps[k])
  }

  /** Jammed swaps stay as they are. */
  ghost predicate JamsStay(before: Swaps, after: Swaps) {
    forall k :: k in before && Jammed(before[k]) ==> k in after && after[k] == before[k]
  }

  lemma JamsStayTransitive(a: Swaps, b: Swaps, c: Swaps)
    requires JamsStay(a, b) && JamsStay(b, c)
    ensures JamsStay(a, c) && (AnyJammed(a) ==> AnyJammed(b))
  {
    if AnyJammed(a) {
      var k :| k in a && Jammed(a[k]);
      assert k in b && Jammed(b[k]);
    }
  }

  /** A pass judges no jammed swap. */
  lemma PassSkipsJammed(w: Watch, before: Swaps, after: Swaps, v: View, raised: bool)
    requires AllJudged(w, before, after, v, raised)
    ensures JamsStay(before, after)
  {
    forall k | k in before && Jammed(before[k]) ensures after[k] == before[k] {
      RaisesWithoutScripts(w, before[k], v);
    }
  }

  type FourKeys = keys: seq<string> | |keys| == 4 witness ["", "", "", ""]

  /** The calls a run is made of, with their arguments. */
  datatype Step =
    | Insert(id: Id, side: Side, pair: string, price: Decimal, amount: Decimal,
             mbiteAddress: string, quoteAddress: string, token: string, now: int)
    | Offer(id: Id)
    | Cancel(id: Id, token: string)
    | Init(swapId: Id, id: Id, token: string, hashlock: Bytes, keys: FourKeys, baseLocktime: int, quoteLocktime: int,
        now: int)
    | Report(id: Id, token: string, baseLeg: bool, txid: string)
    | Pass(view: View)

  function ViewsOf(step: Step): seq<View> {
    if step.Pass? then [step.view] else []
  }

  /** The views of the passes among the steps, in order. */
  function PassViews(steps: seq<Step>): seq<View> {
    if |steps| == 0 then [] else PassViews(steps[..|steps| - 1]) + ViewsOf(steps[|steps| - 1])
  }

  lemma {:induction false} PassViewsStep(steps: seq<Step>, i: nat)
    requires i < |steps|
    ensures PassViews(steps[..i + 1]) == PassViews(steps[..i]) + ViewsOf(steps[i])
  {
    assert steps[..i + 1][..i] == steps[..i];
  }

  /** A view among them is that of a step. */
  lemma {:induction false} PassViewsAreSteps(steps: seq<Step>, v: View)
    requires v in PassViews(steps)
    ensures Pass(v) in steps
  {
    var last := |steps| - 1;
    if v in PassViews(steps[..last]) { PassViewsAreSteps(steps[..last], v); }
  }

  // ----- the server -------------------------------------------------------------------------------- //

  class Server {
    const w: Watch
    const cast: real -> real
    var orders: Orders
    var swaps: Swaps
    var nextRow: nat
    /** Orders inserted but not yet offered for matching: the two halves of create_order take the lock apart. */
    ghost var pending: set<Id>
    ghost var quoteSeen: map<Id, View>
    ghost var baseSeen: map<Id, View>
    /** The views of all verification passes so far. */
    ghost var passes: seq<View>

    ghost predicate Valid()
      reads this
    {
      ServerOk(w, orders, pending, nextRow, swaps, quoteSeen, baseSeen, passes)
    }

    constructor (watch: Watch, rounding: real -> real)
      ensures Valid() && w == watch && orders == map[] && swaps == map[] && pending == {} && passes == []
    {
      w, cast, orders, swaps, nextRow := watch, rounding, map[], map[], 0;
      pending, quoteSeen, baseSeen, passes := {}, map[], map[], [];
      new;
      forall a ensures |OpenAt(orders, a)| <= MAX_OPEN_ORDERS_PER_ADDRESS {
        assert OpenAt(orders, a) == {};
      }
    }

    /** First half of create_order: validate and insert. `id` and `token` are the fresh random names. */
    method InsertOrder(id: Id, side: Side, pair: string, price: Decimal, amount: Decimal,
                       mbiteAddress: string, quoteAddress: string, token: string, now: int) returns (ok: bool)
      requires Valid() && id !in orders
      modifies this
      ensures Valid()
      ensures ok <==> && pair in SUPPORTED_PAIRS && PosDecimal(price) && PosDecimal(amount)
                      && AddressOk(mbiteAddress) && AddressOk(quoteAddress)
                      && |OpenAt(old(orders), mbiteAddress)| < MAX_OPEN_ORDERS_PER_ADDRESS
      ensures ok ==> && ValueOf(price) > 0.0 && ValueOf(amount) > 0.0
                     && 6 <= |mbiteAddress| <= 120 && 6 <= |quoteAddress| <= 120
                     && (forall i :: 0 <= i < |mbiteAddress| ==> !IsSpace(mbiteAddress[i]))
                     && (forall i :: 0 <= i < |quoteAddress| ==> !IsSpace(quoteAddress[i]))
      ensures swaps == old(swaps) && passes == old(passes)
      ensures if ok then
                && orders == old(orders)[id := Order(side, pair, ValueOf(price), ValueOf(amount), mbiteAddress,
                    quoteAddress, Open, now, token, None, old(nextRow))]
                && pending == old(pending) + {id}
              else orders == old(orders) && pending == old(pending)
    {
      if pair !in SUPPORTED_PAIRS || !PosDecimal(price) || !PosDecimal(amount) { return false; }
      if !AddressOk(mbiteAddress) || !AddressOk(quoteAddress) { return false; }
      if |OpenAt(orders, mbiteAddress)| >= MAX_OPEN_ORDERS_PER_ADDRESS { return false; }
      var o := Order(side, pair, ValueOf(price), ValueOf(amount), mbiteAddress, quoteAddress, Open, now, token, None,
          nextRow);
      PositiveValue(price);
      PositiveValue(amount);
      InsertStep(w, orders, pending, nextRow, swaps, quoteSeen, baseSeen, id, o);
      orders := orders[id := o];
      nextRow := nextRow + 1;
      pending := pending + {id};
      ok := true;
    }

    /** Second half of create_order, _try_match: pair the order with the best open order it crosses. */
    method TryMatch(id: Id) returns (counter: Option<Id>)
      requires Valid()
      modifies this
      ensures Valid() && swaps == old(swaps) && pending == old(pending) - {id} && passes == old(passes)
      ensures Offered(cast, old(orders), id, counter, orders)
    {
      pending := pending - {id};
      if id !in orders || orders[id].status != Open { return None; }
      var todo := Candidates(orders, id);
      if todo == {} {
        NothingCrosses(orders, id);
        return None;
      }
      var best := Best(id, todo);
      MatchStep(w, orders, pending, nextRow, swaps, quoteSeen, baseSeen, id, best);
      orders := Matching(orders, id, best);
      counter := Some(best);
    }

    /** ORDER BY price, created_at, first row. */
    method Best(id: Id, candidates: set<Id>) returns (best: Id)
      requires id in orders && candidates != {} && candidates <= orders.Keys
      ensures best in candidates
      ensures forall k :: k in candidates ==> !Better(cast, orders[id].side, orders[k], orders[best])
    {
      best :| best in candidates;
      var rest := candidates - {best};
      while rest != {}
        invariant best in candidates && rest <= candidates
        invariant forall k :: k in candidates && k !in rest ==> !Better(cast, orders[id].side, orders[k], orders[best])
        decreases rest
      {
        var k :| k in rest;
        rest := rest - {k};
        if Better(cast, orders[id].side, orders[k], orders[best]) { best := k; }
      }
    }

    /** create_order with both halves in one go: the new order takes the best it crosses, or rests crossing none. */
    method CreateOrder(id: Id, side: Side, pair: string, price: Decimal, amount: Decimal,
                       mbiteAddress: string, quoteAddress: string, token: string, now: int) returns (ok: bool,
                       counter: Option<Id>)
      requires Valid() && id !in orders
      modifies this
      ensures Valid() && swaps == old(swaps) && pending <= old(pending) && passes == old(passes)
      ensures old(pending) == {} ==>
                forall a, b | a in orders && b in orders && orders[a].status == Open && orders[b].status == Open ::
                  orders[a].side == Buy && orders[b].side == Sell && orders[a].pair == orders[b].pair ==>
                    orders[a].mbiteAddress == orders[b].mbiteAddress || orders[a].price < orders[b].price
      ensures !ok ==> orders == old(orders) && counter == None
      ensures ok ==>
                var o := Order(side, pair, ValueOf(price), ValueOf(amount), mbiteAddress, quoteAddress, Open, now,
                    token, None, old(nextRow));
                Offered(cast, old(orders)[id := o], id, counter, orders)
    {
      counter := None;
      ok := InsertOrder(id, side, pair, price, amount, mbiteAddress, quoteAddress, token, now);
      if ok { counter := TryMatch(id); }
    }

    method CancelOrder(id: Id, token: string) returns (ok: bool)
      requires Valid()
      modifies this
      ensures Valid() && swaps == old(swaps) && pending == old(pending) && passes == old(passes)
      ensures ok <==> && id in old(orders) && old(orders)[id].status == Open
                      && token == old(orders)[id].cancelToken && token != ""
      ensures orders == if ok then old(orders)[id := old(orders)[id].(status := Cancelled)] else old(orders)
    {
      if id !in orders || orders[id].status != Open || !Authorized(orders, id, token) { return false; }
      CancelStep(w, orders, pending, nextRow, swaps, quoteSeen, baseSeen, id);
      orders := orders[id := orders[id].(status := Cancelled)];
      ok := true;
    }

    /** init_swap: register the terms of a swap for a matched pair, once. */
    method InitSwap(swapId: Id, id: Id, token: string, hashlock: Bytes, keys: seq<string>,
                    baseLocktime: int, quoteLocktime: int, now: int) returns (ok: bool)
      requires Valid() && swapId !in swaps && |keys| == 4
      modifies this
      ensures Valid() && orders == old(orders) && pending == old(pending) && passes == old(passes)
      ensures ok <==> && Authorized(orders, id, token) && orders[id].status == Matched
                      && (forall k :: k in old(swaps) ==> old(swaps)[k].buyOrder != id && old(swaps)[k].sellOrder != id)
                      && |hashlock| == 32 && (forall k :: k in old(swaps) ==> old(swaps)[k].hashlock != hashlock)
                      && KeysOk(keys) && LocktimesOk(baseLocktime, quoteLocktime)
      ensures ok ==> && orders[id].matchedWith.Some? && orders[id].matchedWith.value in orders
                     && swaps == old(swaps)[swapId := NewRow(orders, id, orders[id].matchedWith.value, hashlock, keys,
                         baseLocktime, quoteLocktime, now)]
      ensures ok ==> swapId in swaps && var s := swaps[swapId];
                && s.baseRecipient == keys[0] && s.baseRefund == keys[1]
                && s.quoteRecipient == keys[2] && s.quoteRefund == keys[3]
                && s.hashlock == hashlock && s.baseLocktime == baseLocktime && s.quoteLocktime == quoteLocktime
                && s.baseHtlcTxid == s.quoteHtlcTxid == None && s.status == SwapInit && s.createdAt == now
                && {s.buyOrder, s.sellOrder} == {id, orders[id].matchedWith.value}
                && orders[s.buyOrder].side == Buy && orders[s.sellOrder].side == Sell
      ensures !ok ==> swaps == old(swaps)
    {
      if !Authorized(orders, id, token) || orders[id].status != Matched { return false; }
      assert PairOk(orders, id);
      var counter := orders[id].matchedWith.value;
      PairHasOneSwap(w, orders, swaps, quoteSeen, baseSeen, id, counter);
      if exists k :: k in swaps
          && (swaps[k].buyOrder in {id, counter} || swaps[k].sellOrder in {id, counter}) { return false; }
      if |hashlock| != 32 || exists k :: k in swaps && swaps[k].hashlock == hashlock { return false; }
      if !KeysOk(keys) || !LocktimesOk(baseLocktime, quoteLocktime) { return false; }
      var row := NewRow(orders, id, counter, hashlock, keys, baseLocktime, quoteLocktime, now);
      NewRowTerms(orders, id, counter, hashlock, keys, baseLocktime, quoteLocktime, now);
      NewSwap(w, orders, swaps, quoteSeen, baseSeen, swapId, row);
      swaps := swaps[swapId := row];
      ok := true;
    }

    /** report_funding: note one leg's funding transaction and recompute the status. */
    method ReportFunding(id: Id, token: string, baseLeg: bool, txid: string) returns (swapId: Option<Id>)
      requires Valid()
      modifies this
      ensures Valid() && orders == old(orders) && pending == old(pending) && passes == old(passes)
      ensures Advances(old(swaps), swaps)
      ensures swapId.Some? <==> HexOk(txid, 64, 64) && Authorized(orders, id, token)
                                && exists k :: Reportable(old(swaps), id, k)
      ensures swapId.Some? ==> && Reportable(old(swaps), id, swapId.value)
                               && swaps == old(swaps)[swapId.value := Reported(old(swaps)[swapId.value], baseLeg, txid)]
      ensures swapId.None? ==> swaps == old(swaps)
    {
      OrderHasOneSwap(w, orders, swaps, quoteSeen, baseSeen, id);
      if !HexOk(txid, 64, 64) || !Authorized(orders, id, token) { return None; }
      if !exists k :: k in swaps && (swaps[k].buyOrder == id || swaps[k].sellOrder == id) { return None; }
      var k :| k in swaps && (swaps[k].buyOrder == id || swaps[k].sellOrder == id);
      if swaps[k].status !in {SwapInit, BaseFunded, QuoteFunded} { return None; }
      assert Reportable(swaps, id, k);
      ReportStep(w, orders, swaps, quoteSeen, baseSeen, k, baseLeg, txid);
      swaps := swaps[k := Reported(swaps[k], baseLeg, txid)];
      swapId := Some(k);
    }

    /** list_swaps_for_verification: the swaps a pass looks at. */
    method SwapsToVerify() returns (ids: set<Id>)
      ensures ids == set k | k in swaps && Actionable(swaps[k].status)
    {
      ids := set k | k in swaps && Actionable(swaps[k].status);
    }

    /**
     * apply_swap_verification: write a verdict over a row and, when it settles the swap, over its two orders.
     * It trusts its caller: the tables stay in order when the verdict is the one the view of a pass supports for that
     * row.
     */
    method ApplySwapVerification(id: Id, u: Updates, ghost v: View) returns (ok: bool)
      requires Valid()
      modifies this
      ensures ok <==> u == NOTHING || id in old(swaps)
      ensures swaps == if id in old(swaps) then old(swaps)[id := Patched(old(swaps)[id], u)] else old(swaps)
      ensures id in old(swaps) ==> old(swaps)[id].buyOrder in old(orders) && old(swaps)[id].sellOrder in old(orders)
      ensures orders == if id in old(swaps) then BookAfter(old(orders), old(swaps)[id], u) else old(orders)
      ensures OnlySettles(old(orders), orders) && pending == old(pending) && passes == old(passes)
      ensures Backed(w, old(swaps), id, u, v) && v in passes ==> Valid() && Advances(old(swaps), swaps)
    {
      if id !in swaps { return u == NOTHING; }
      PartiesExist(w, orders, swaps, quoteSeen, baseSeen, id);
      if u == NOTHING {
        NothingToWrite(swaps, id);
        return true;
      }
      BookOnlySettles(orders, swaps[id], u);
      ApplyStep(w, orders, pending, nextRow, swaps, quoteSeen, baseSeen, passes, id, u, v);
      WriteVerdict(id, u, v);
      ok := true;
    }

    /** Its UPDATE statements: the row, and the orders when the swap settles. */
    method WriteVerdict(id: Id, u: Updates, ghost v: View)
      requires id in swaps && swaps[id].buyOrder in orders && swaps[id].sellOrder in orders
      modifies this`swaps, this`orders, this`quoteSeen, this`baseSeen
      ensures swaps == old(swaps)[id := Patched(old(swaps)[id], u)]
      ensures orders == BookAfter(old(orders), old(swaps)[id], u)
      ensures quoteSeen == Noted(old(quoteSeen), id, v, u.preimage.Some?)
      ensures baseSeen == Noted(old(baseSeen), id, v, u.status == Some(SwapSettled))
    {
      var row := swaps[id];
      orders := BookAfter(orders, row, u);
      swaps := swaps[id := Patched(row, u)];
      quoteSeen := Noted(quoteSeen, id, v, u.preimage.Some?);
      baseSeen := Noted(baseSeen, id, v, u.status == Some(SwapSettled));
    }

    /**
     * run_verification_pass: judge every watchable swap by one view and write the verdicts. A swap whose
     * keys give no script raises; verdicts already written stay.
     */
    method RunVerificationPass(v: View) returns (raised: bool)
      requires Valid()
      modifies this
      ensures Valid() && pending == old(pending) && Advances(old(swaps), swaps) && passes == old(passes) + [v]
      ensures raised <==> exists k :: k in old(swaps) && Actionable(old(swaps)[k].status) && !ScriptsOk(old(swaps)[k])
      ensures AllJudged(w, old(swaps), swaps, v, raised)
      ensures OnlySettles(old(orders), orders)
    {
      ghost var before := swaps;
      passes := passes + [v];
      var rows := swaps;
      var todo := SwapsToVerify();
      while todo != {}
        invariant Valid() && pending == old(pending) && Advances(before, swaps) && OnlySettles(old(orders), orders)
        invariant rows == before && PassedOver(w, before, swaps, todo, v) && passes == old(passes) + [v]
        decreases todo
      {
        var k :| k in todo;
        var o := VerifySwap(w, rows[k], v);
        if o.Raised? {
          RaiseStopsPass(w, before, swaps, todo, k, v);
          return true;
        }
        ghost var sofar, book := swaps, orders;
        var applied := ApplySwapVerification(k, o.updates, v);
        PassStep(w, before, sofar, todo, k, v);
        PassedFurther(before, sofar, swaps, old(orders), book, orders);
        todo := todo - {k};
      }
      raised := false;
    }

    /** One step of a run: any caller, any arguments, the two halves of create_order possibly apart. */
    method Take(step: Step) returns (raised: bool)
      requires Valid()
      modifies this
      ensures Valid() && Advances(old(swaps), swaps) && passes == old(passes) + ViewsOf(step)
      ensures JamsStay(old(swaps), swaps) && (raised <==> step.Pass? && AnyJammed(old(swaps)))
    {
      raised := false;
      match step
      case Insert(id, side, pair, price, amount, mbiteAddress, quoteAddress, token, now) =>
        if id !in orders {
          var _ := InsertOrder(id, side, pair, price, amount, mbiteAddress, quoteAddress, token, now);
        }
      case Offer(id) =>
        var _ := TryMatch(id);
      case Cancel(id, token) =>
        var _ := CancelOrder(id, token);
      case Init(swapId, id, token, hashlock, keys, baseLocktime, quoteLocktime, now) =>
        if swapId !in swaps {
          var _ := InitSwap(swapId, id, token, hashlock, keys, baseLocktime, quoteLocktime, now);
        }
      case Report(id, token, baseLeg, txid) =>
        var _ := ReportFunding(id, token, baseLeg, txid);
      case Pass(view) =>
        ghost var before := swaps;
        raised := RunVerificationPass(view);
        PassSkipsJammed(w, before, swaps, view, raised);
    }

    /**
     * Any run keeps the tables in order, no swap ever goes back, and the passes are those among the steps. Once a swap
     * is jammed it stays as it is, and every pass raises; `raised` counts the passes that did.
     */
    method Run(steps: seq<Step>) returns (raised: nat)
      requires Valid()
      modifies this
      ensures Valid() && Advances(old(swaps), swaps) && passes == old(passes) + PassViews(steps)
      ensures JamsStay(old(swaps), swaps) && raised <= |PassViews(steps)|
      ensures AnyJammed(old(swaps)) ==> AnyJammed(swaps) && raised == |PassViews(steps)|
    {
      raised := 0;
      for i := 0 to |steps|
        invariant Valid() && Advances(old(swaps), swaps) && passes == old(passes) + PassViews(steps[..i])
        invariant JamsStay(old(swaps), swaps) && raised <= |PassViews(steps[..i])|
        invariant AnyJammed(old(swaps)) ==> AnyJammed(swaps) && raised == |PassViews(steps[..i])|
      {
        ghost var sofar := swaps;
        PassViewsStep(steps, i);
        var r := Take(steps[i]);
        if r { raised := raised + 1; }
        AdvancesTransitive(old(swaps), sofar, swaps);
        JamsStayTransitive(old(swaps), sofar, swaps);
        JamsStayTransitive(sofar, swaps, swaps);
      }
      assert steps[..|steps|] == steps;
    }
  }

  // ----- what every reachable state shows ---------------------------------------------------------------- //

  /**
   * One secret behind the hashlock, revealed at depth on the quote chain in view `q` and on the base chain in view `b`.
   */
  ghost predicate Proof(w: Watch, s: Row, x: Bytes, q: View, b: View) {
    w.sha256(x) == s.hashlock && QuoteReveals(w, s, q, x) && BaseReveals(w, s, b, x)
  }

  /**
   * A settled swap was paid for, and passes saw it: its two outputs were seen funded, in full and at depth, with the
   * scripts its own
   * terms derive, and both were seen spent at depth by transactions that reveal one secret behind its hashlock.
   */
  lemma SettlementIsProven(w: Watch, orders: Orders, swaps: Swaps, quoteSeen: map<Id, View>, baseSeen: map<Id, View>,
                           passes: seq<View>, id: Id)
    requires TablesOk(w, orders, swaps, quoteSeen, baseSeen) && id in swaps
    requires SeenIn(quoteSeen, passes) && SeenIn(baseSeen, passes)
    ensures var s := swaps[id];
            && s.buyOrder in orders && s.sellOrder in orders
            && (s.status == SwapSettled <==> orders[s.buyOrder].status == Settled)
            && (s.status == SwapSettled <==> orders[s.sellOrder].status == Settled)
    ensures swaps[id].status == SwapSettled ==>
              exists x, q, b :: q in passes && b in passes && Proof(w, swaps[id], x, q, b)
  {
    var s := swaps[id];
    assert RowOk(w, orders, s, id, quoteSeen, baseSeen);
    if s.status == SwapSettled {
      var x := s.preimage.value;
      assert Proof(w, s, x, quoteSeen[id], baseSeen[id]);
    }
  }

  /** Whatever calls a new server gets, in whatever order: it settles a swap only when two of its passes prove it. */
  method RunFromStart(watch: Watch, rounding: real -> real, steps: seq<Step>) returns (server: Server)
    ensures server.Valid() && server.w == watch
    ensures forall id :: id in server.swaps && server.swaps[id].status == SwapSettled ==>
              exists x, q, b :: Pass(q) in steps && Pass(b) in steps && Proof(watch, server.swaps[id], x, q, b)
  {
    server := new Server(watch, rounding);
    var raised := server.Run(steps);
    assert [] + PassViews(steps) == PassViews(steps);
    forall id | id in server.swaps && server.swaps[id].status == SwapSettled
      ensures exists x, q, b :: Pass(q) in steps && Pass(b) in steps && Proof(watch, server.swaps[id], x, q, b)
    {
      SettlementIsProven(watch, server.orders, server.swaps, server.quoteSeen, server.baseSeen, server.passes, id);
      var x, q, b :| q in server.passes && b in server.passes && Proof(watch, server.swaps[id], x, q, b);
      PassViewsAreSteps(steps, q);
      PassViewsAreSteps(steps, b);
    }
  }

  /** A swap is jammed exactly when it is locked and some key of it has an odd length, which registration lets pass. */
  lemma {:induction false} JammedExactly(w: Watch, orders: Orders, swaps: Swaps, quoteSeen: map<Id, View>,
                                         baseSeen: map<Id, View>, id: Id)
    requires TablesOk(w, orders, swaps, quoteSeen, baseSeen) && id in swaps
    ensures Jammed(swaps[id]) <==> swaps[id].status == BothLocked && !EvenKeys(swaps[id])
  {
    assert RowOk(w, orders, swaps[id], id, quoteSeen, baseSeen);
    ScriptsNeedEvenKeys(swaps[id]);
  }

  /** An order is settled exactly when a settled swap names it. */
  lemma OrderSettlesWithItsSwap(w: Watch, orders: Orders, swaps: Swaps, quoteSeen: map<Id, View>,
                                baseSeen: map<Id, View>, o: Id)
    requires TablesOk(w, orders, swaps, quoteSeen, baseSeen) && o in orders
    ensures orders[o].status == Settled <==>
            exists k :: k in swaps && swaps[k].status == SwapSettled
                && (swaps[k].buyOrder == o || swaps[k].sellOrder == o)
  {
    forall k | k in swaps && swaps[k].status == SwapSettled && (swaps[k].buyOrder == o || swaps[k].sellOrder == o)
      ensures orders[o].status == Settled
    {
      assert RowOk(w, orders, swaps[k], k, quoteSeen, baseSeen);
    }
  }

  /** The terms of every swap lie between its two orders, and its timelocks leave six hours. */
  lemma SwapTermsAreFair(w: Watch, orders: Orders, swaps: Swaps, quoteSeen: map<Id, View>, baseSeen: map<Id, View>,
                         id: Id)
    requires TablesOk(w, orders, swaps, quoteSeen, baseSeen) && id in swaps
    ensures var s := swaps[id];
            && s.buyOrder in orders && s.sellOrder in orders
            && orders[s.sellOrder].price <= s.price <= orders[s.buyOrder].price
            && 0.0 < s.amount <= orders[s.buyOrder].amount && s.amount <= orders[s.sellOrder].amount
            && s.baseLocktime - s.quoteLocktime >= 21_600
            && (s.status in {SwapInit, BaseFunded, QuoteFunded, BothLocked} ==> s.status == FundingStatus(s))
    ensures forall k :: k in swaps && k != id ==>
              && swaps[k].hashlock != swaps[id].hashlock
              && swaps[k].buyOrder !in {swaps[id].buyOrder, swaps[id].sellOrder}
              && swaps[k].sellOrder !in {swaps[id].buyOrder, swaps[id].sellOrder}
  {
    assert RowOk(w, orders, swaps[id], id, quoteSeen, baseSeen);
    OrderHasOneSwap(w, orders, swaps, quoteSeen, baseSeen, swaps[id].buyOrder);
    OrderHasOneSwap(w, orders, swaps, quoteSeen, baseSeen, swaps[id].sellOrder);
  }
}
