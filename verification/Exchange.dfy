/** The order book and the swap table (exchange.py), and a verification pass over them. */
module Exchange {
  import opened Results
  import opened Script
  import opened Swap

  datatype Side = Buy | Sell
  datatype OrderStatus = Open | Matched | Settled | Cancelled

  /** One row of the orders table. `rowid` is its insertion rank. */
  datatype Order = Order(
    side: Side, pair: string, price: real, amount: real, mbiteAddress: string, quoteAddress: string,
    status: OrderStatus, createdAt: int, cancelToken: string, matchedWith: Option<Id>, rowid: nat)

  const SUPPORTED_PAIRS: set<string> := {"MBITE/LTC", "MBITE/BTC", "MBITE/USDT"}
  const MAX_OPEN_ORDERS_PER_ADDRESS: nat := 20
  const MIN_TIMELOCK_GAP_SECONDS: int := 6 * 60 * 60

  type Orders = map<Id, Order>
  type Swaps = map<Id, Row>

  // ----- the book, as a value ----------------------------------------------------------------- //

  /** A bid reaches an ask of the same pair from another address. */
  predicate Crosses(bid: Order, ask: Order) {
    && bid.side == Buy && ask.side == Sell && bid.pair == ask.pair
    && bid.mbiteAddress != ask.mbiteAddress && bid.price >= ask.price
  }

  predicate Fits(a: Order, b: Order) {
    Crosses(a, b) || Crosses(b, a)
  }

  predicate Paired(o: Order) {
    o.status in {Matched, Settled}
  }

  /** `id` is matched with an order that is matched back, crosses it, and shares its status. */
  ghost predicate PairOk(orders: Orders, id: Id)
    requires id in orders
  {
    var o := orders[id];
    if Paired(o) then
      && o.matchedWith.Some? && o.matchedWith.value in orders
      && var p := orders[o.matchedWith.value];
         p.matchedWith == Some(id) && Fits(o, p) && p.status == o.status
    else o.matchedWith.None?
  }

  /** Open orders of one address. */
  function OpenAt(orders: Orders, address: string): set<Id> {
    set id | id in orders && orders[id].status == Open && orders[id].mbiteAddress == address
  }

  ghost predicate BookOk(orders: Orders) {
    && (forall id {:trigger PairOk(orders, id)} :: id in orders ==> PairOk(orders, id))
    && (forall id :: id in orders ==> orders[id].price > 0.0 && orders[id].amount > 0.0)
    && CapOk(orders)
  }

  ghost predicate CapOk(orders: Orders) {
    forall a {:trigger OpenAt(orders, a)} :: |OpenAt(orders, a)| <= MAX_OPEN_ORDERS_PER_ADDRESS
  }

  /** Open orders that cross: at least one is new and has not been matched yet. */
  ghost predicate CrossedOnlyIfPending(orders: Orders, pending: set<Id>) {
    forall a, b | a in orders && b in orders && orders[a].status == Open && orders[b].status == Open ::
      Crosses(orders[a], orders[b]) ==> a in pending || b in pending
  }

  lemma OpenShrinks(before: Orders, after: Orders)
    requires forall id :: id in after && after[id].status == Open ==> id in before && before[id] == after[id]
    requires CapOk(before)
    ensures CapOk(after)
  {
    forall a ensures |OpenAt(after, a)| <= MAX_OPEN_ORDERS_PER_ADDRESS {
      SubsetSize(OpenAt(after, a), OpenAt(before, a));
    }
  }

  lemma {:induction false} SubsetSize(a: set<Id>, b: set<Id>)
    requires a <= b
    ensures |a| <= |b|
  {
    if a != {} {
      var x :| x in a;
      SubsetSize(a - {x}, b - {x});
    }
  }

  lemma OneMoreOpen(before: Orders, id: Id, o: Order)
    requires id !in before && o.status == Open && CapOk(before)
    requires |OpenAt(before, o.mbiteAddress)| < MAX_OPEN_ORDERS_PER_ADDRESS
    ensures CapOk(before[id := o])
  {
    var after := before[id := o];
    forall a ensures |OpenAt(after, a)| <= MAX_OPEN_ORDERS_PER_ADDRESS {
      OpenAfterInsert(before, id, o, a);
    }
  }

  lemma OpenAfterInsert(before: Orders, id: Id, o: Order, a: string)
    requires id !in before && o.status == Open
    ensures OpenAt(before[id := o], a) == OpenAt(before, a) + if a == o.mbiteAddress then {id} else {}
  {
  }

  lemma InsertKeepsBook(orders: Orders, id: Id, o: Order)
    requires BookOk(orders) && id !in orders && o.status == Open && o.matchedWith.None?
    requires o.price > 0.0 && o.amount > 0.0 && |OpenAt(orders, o.mbiteAddress)| < MAX_OPEN_ORDERS_PER_ADDRESS
    ensures BookOk(orders[id := o])
  {
    OneMoreOpen(orders, id, o);
    var after := orders[id := o];
    forall k | k in after ensures PairOk(after, k) {
      if k != id { assert PairOk(orders, k); }
    }
  }

  lemma CancelKeepsBook(orders: Orders, id: Id)
    requires BookOk(orders) && id in orders && orders[id].status == Open
    ensures BookOk(orders[id := orders[id].(status := Cancelled)])
  {
    var after := orders[id := orders[id].(status := Cancelled)];
    OpenShrinks(orders, after);
    forall k | k in after ensures PairOk(after, k) {
      assert PairOk(orders, k);
      assert PairOk(orders, id);
    }
  }

  /** The book after `a` and `b` have been matched with each other. */
  function Matching(orders: Orders, a: Id, b: Id): Orders
    requires a in orders && b in orders
  {
    orders[a := orders[a].(status := Matched, matchedWith := Some(b))]
          [b := orders[b].(status := Matched, matchedWith := Some(a))]
  }

  lemma MatchKeepsBook(orders: Orders, a: Id, b: Id)
    requires BookOk(orders) && a in orders && b in orders && a != b
    requires orders[a].status == Open && orders[b].status == Open && Fits(orders[a], orders[b])
    ensures BookOk(Matching(orders, a, b))
  {
    var after := Matching(orders, a, b);
    OpenShrinks(orders, after);
    forall k | k in after ensures PairOk(after, k) {
      assert PairOk(orders, k);
      assert PairOk(orders, a);
      assert PairOk(orders, b);
    }
  }

  /** The book after both orders of a swap have been settled. */
  function Settling(orders: Orders, a: Id, b: Id): Orders
    requires a in orders && b in orders
  {
    orders[a := orders[a].(status := Settled)][b := orders[b].(status := Settled)]
  }

  lemma SettleKeepsBook(orders: Orders, a: Id, b: Id)
    requires BookOk(orders) && a in orders && b in orders && a != b && Paired(orders[a])
    requires orders[a].matchedWith == Some(b) && orders[b].matchedWith == Some(a)
    ensures BookOk(Settling(orders, a, b))
  {
    var after := Settling(orders, a, b);
    OpenShrinks(orders, after);
    assert PairOk(orders, a);
    forall k | k in after ensures PairOk(after, k) {
      assert PairOk(orders, k);
    }
  }

  /** `_hexish`, on text that has been stripped, lower-cased and freed of a 0x prefix. */
  predicate HexOk(s: string, minLen: nat, maxLen: nat) {
    minLen <= |s| <= maxLen && forall i :: 0 <= i < |s| ==> HexValue(s[i]) >= 0
  }

  /** The largest number an SQLite INTEGER column holds: inserting a larger one raises. */
  const MAX_INTEGER: int := 0x7FFF_FFFF_FFFF_FFFF

  /** What registration checked of the four keys and the locktimes. */
  predicate RegisteredOk(s: Row) {
    && HexOk(s.baseRecipient, 40, 130) && HexOk(s.baseRefund, 40, 130)
    && HexOk(s.quoteRecipient, 40, 130) && HexOk(s.quoteRefund, 40, 130)
    && s.baseLocktime <= MAX_INTEGER
  }

  /** Hex digits spell bytes exactly when their number is even. */
  lemma {:induction false} EvenKey(s: string)
    requires forall i :: 0 <= i < |s| ==> HexValue(s[i]) >= 0
    ensures KeyBytes(s).Some? <==> |s| % 2 == 0
    ensures KeyBytes(s).Some? ==> |KeyBytes(s).value| == |s| / 2
  {
    if |s| > 1 { EvenKey(s[2..]); }
  }

  predicate EvenKeys(s: Row) {
    && |s.baseRecipient| % 2 == 0 && |s.baseRefund| % 2 == 0
    && |s.quoteRecipient| % 2 == 0 && |s.quoteRefund| % 2 == 0
  }

  /**
   * A registered swap has both its scripts exactly when its four keys have even lengths: registration does not check
   * that.
   */
  lemma {:induction false} ScriptsNeedEvenKeys(s: Row)
    requires RegisteredOk(s) && |s.hashlock| == 32 && 0 < s.quoteLocktime < s.baseLocktime
    ensures ScriptsOk(s) <==> EvenKeys(s)
  {
    EvenKey(s.baseRecipient);
    EvenKey(s.baseRefund);
    EvenKey(s.quoteRecipient);
    EvenKey(s.quoteRefund);
    ScriptNumLength(s.baseLocktime);
    ScriptNumLength(s.quoteLocktime);
  }

  // ----- the swap table, as a value -------------------------------------------------------------- //

  /** The terms of a swap follow from the two orders it settles, and the timelocks leave the safety gap. */
  ghost predicate TermsOk(orders: Orders, s: Row) {
    && s.buyOrder in orders && s.sellOrder in orders
    && PairTerms(s, orders[s.buyOrder], orders[s.sellOrder])
    && |s.hashlock| == 32
    && 0 < s.quoteLocktime && s.baseLocktime - s.quoteLocktime >= MIN_TIMELOCK_GAP_SECONDS
    && RegisteredOk(s)
  }

  predicate PairTerms(s: Row, bid: Order, ask: Order) {
    && bid.side == Buy && ask.side == Sell && Paired(bid) && Paired(ask)
    && bid.matchedWith == Some(s.sellOrder) && ask.matchedWith == Some(s.buyOrder)
    && bid.pair == ask.pair == s.pair && bid.mbiteAddress != ask.mbiteAddress
    && ask.price <= s.price <= bid.price
    && 0.0 < s.amount <= bid.amount && s.amount <= ask.amount
  }

  /** The two orders of a swap are settled exactly when the swap is. */
  ghost predicate OrdersFollow(orders: Orders, s: Row)
    requires TermsOk(orders, s)
  {
    && (orders[s.buyOrder].status == Settled <==> s.status == SwapSettled)
    && (orders[s.sellOrder].status == Settled <==> s.status == SwapSettled)
  }

  /** Before verification the status says exactly which funding transactions have been reported. */
  function FundingStatus(s: Row): Status {
    if s.baseHtlcTxid.Some? && s.quoteHtlcTxid.Some? then BothLocked
    else if s.baseHtlcTxid.Some? then BaseFunded
    else if s.quoteHtlcTxid.Some? then QuoteFunded
    else SwapInit
  }

  ghost predicate ProgressOk(s: Row) {
    && s.status != BaseRedeemed
    && (if s.status in {SwapInit, BaseFunded, QuoteFunded, BothLocked} then s.status == FundingStatus(s)
        else FundingStatus(s) == BothLocked)
    && (s.preimage.Some? ==> s.status in {QuoteRedeemed, SwapSettled, Expired})
    && (s.status in {QuoteRedeemed, SwapSettled} ==> s.preimage.Some?)
    && (s.baseRedeemTxid.Some? <==> s.status == SwapSettled)
    && (s.settledAt.Some? <==> s.status == SwapSettled)
  }

  /** A known secret was revealed on the quote chain in some pass, a settlement on the base chain in some pass. */
  ghost predicate EvidenceOk(w: Watch, s: Row, id: Id, quoteSeen: map<Id, View>, baseSeen: map<Id, View>) {
    && (s.preimage.Some? ==>
          && w.sha256(s.preimage.value) == s.hashlock
          && id in quoteSeen && QuoteReveals(w, s, quoteSeen[id], s.preimage.value))
    && (s.status == SwapSettled ==>
          && s.preimage.Some?
          && id in baseSeen && BaseReveals(w, s, baseSeen[id], s.preimage.value))
  }

  ghost predicate RowOk(w: Watch, orders: Orders, s: Row, id: Id, quoteSeen: map<Id, View>, baseSeen: map<Id, View>) {
    TermsOk(orders, s) && OrdersFollow(orders, s) && ProgressOk(s) && EvidenceOk(w, s, id, quoteSeen, baseSeen)
  }

  /** No two swaps share an order or a hashlock. */
  ghost predicate Apart(swaps: Swaps) {
    forall i, j | i in swaps && j in swaps && i != j ::
      && swaps[i].buyOrder != swaps[j].buyOrder && swaps[i].sellOrder != swaps[j].sellOrder
      && swaps[i].hashlock != swaps[j].hashlock
  }

  /** Every settled order belongs to a settled swap. */
  ghost predicate SettledBySwap(orders: Orders, swaps: Swaps) {
    forall id :: id in orders && orders[id].status == Settled ==>
      exists k :: k in swaps && swaps[k].status == SwapSettled && (swaps[k].buyOrder == id || swaps[k].sellOrder == id)
  }

  /** Everything the tables keep true, in every reachable state. */
  ghost predicate TablesOk(w: Watch, orders: Orders, swaps: Swaps, quoteSeen: map<Id, View>, baseSeen: map<Id, View>) {
    && BookOk(orders)
    && (forall id {:trigger RowOk(w, orders, swaps[id], id, quoteSeen, baseSeen)} ::
          id in swaps ==> RowOk(w, orders, swaps[id], id, quoteSeen, baseSeen))
    && Apart(swaps)
    && SettledBySwap(orders, swaps)
  }

  // ----- what a step may change --------------------------------------------------------------------- //

  /** What registration fixed, and what a step never changes. */
  ghost predicate SameTerms(s: Row, s': Row) {
    && s'.buyOrder == s.buyOrder && s'.sellOrder == s.sellOrder && s'.pair == s.pair
    && s'.price == s.price && s'.amount == s.amount && s'.hashlock == s.hashlock
    && s'.baseRecipient == s.baseRecipient && s'.baseRefund == s.baseRefund
    && s'.quoteRecipient == s.quoteRecipient && s'.quoteRefund == s.quoteRefund
    && s'.baseLocktime == s.baseLocktime && s'.quoteLocktime == s.quoteLocktime
  }

  /** Swaps are never removed, never go back, and never change once settled or expired. */
  ghost predicate Advances(before: Swaps, after: Swaps) {
    forall id :: id in before ==>
      && id in after && SameTerms(before[id], after[id])
      && Rank(before[id].status) <= Rank(after[id].status)
      && (Terminal(before[id].status) ==> after[id] == before[id])
  }

  lemma AdvancesTransitive(a: Swaps, b: Swaps, c: Swaps)
    requires Advances(a, b) && Advances(b, c)
    ensures Advances(a, c)
  {
  }

  /** Orders that a change leaves paired with the same partner keep every swap row in order. */
  lemma OtherOrdersMayChange(w: Watch, orders: Orders, orders': Orders, swaps: Swaps,
                             quoteSeen: map<Id, View>, baseSeen: map<Id, View>)
    requires TablesOk(w, orders, swaps, quoteSeen, baseSeen) && BookOk(orders')
    requires forall id :: id in orders && Paired(orders[id]) ==> id in orders' && orders'[id] == orders[id]
    requires forall id :: id in orders' && orders'[id].status == Settled ==> id in orders && orders[id] == orders'[id]
    ensures TablesOk(w, orders', swaps, quoteSeen, baseSeen)
  {
    forall id | id in swaps ensures RowOk(w, orders', swaps[id], id, quoteSeen, baseSeen) {
      assert RowOk(w, orders, swaps[id], id, quoteSeen, baseSeen);
    }
  }

  /** Writing a row that is new or was not settled leaves every settled order its settled swap. */
  lemma SettledElsewhere(orders: Orders, swaps: Swaps, id: Id, s: Row)
    requires SettledBySwap(orders, swaps) && (id in swaps ==> swaps[id].status != SwapSettled)
    ensures SettledBySwap(orders, swaps[id := s])
  {
    var after := swaps[id := s];
    forall o | o in orders && orders[o].status == Settled
      ensures exists k :: && k in after && after[k].status == SwapSettled
                          && (after[k].buyOrder == o || after[k].sellOrder == o)
    {
      var k :| k in swaps && swaps[k].status == SwapSettled && (swaps[k].buyOrder == o || swaps[k].sellOrder == o);
      assert after[k] == swaps[k];
    }
  }

  lemma NewSwap(w: Watch, orders: Orders, swaps: Swaps, quoteSeen: map<Id, View>, baseSeen: map<Id, View>, id: Id,
                s: Row)
    requires TablesOk(w, orders, swaps, quoteSeen, baseSeen) && id !in swaps
    requires TermsOk(orders, s) && orders[s.buyOrder].status == Matched && orders[s.sellOrder].status == Matched
    requires s.status == SwapInit && ProgressOk(s)
    requires forall k :: k in swaps ==>
               swaps[k].buyOrder != s.buyOrder && swaps[k].sellOrder != s.sellOrder && swaps[k].hashlock != s.hashlock
    ensures TablesOk(w, orders, swaps[id := s], quoteSeen, baseSeen)
  {
    var after := swaps[id := s];
    forall k | k in after ensures RowOk(w, orders, after[k], k, quoteSeen, baseSeen) {
      if k != id { assert RowOk(w, orders, swaps[k], k, quoteSeen, baseSeen); }
    }
    SettledElsewhere(orders, swaps, id, s);
  }

  lemma StillApart(swaps: Swaps, id: Id, s: Row)
    requires Apart(swaps) && id in swaps && SameTerms(swaps[id], s)
    ensures Apart(swaps[id := s])
  {
  }

  /** Replacing the row of a swap that is not settled by one with the same terms that is not settled either. */
  lemma UnsettledStep(w: Watch, orders: Orders, swaps: Swaps, quoteSeen: map<Id, View>, quoteSeen': map<Id, View>,
                      baseSeen: map<Id, View>, id: Id, s: Row)
    requires TablesOk(w, orders, swaps, quoteSeen, baseSeen) && id in swaps && SameTerms(swaps[id], s)
    requires swaps[id].status != SwapSettled && s.status != SwapSettled
    requires ProgressOk(s) && EvidenceOk(w, s, id, quoteSeen', baseSeen)
    requires forall k :: k in quoteSeen && k != id ==> k in quoteSeen' && quoteSeen'[k] == quoteSeen[k]
    ensures TablesOk(w, orders, swaps[id := s], quoteSeen', baseSeen)
  {
    var after := swaps[id := s];
    StillApart(swaps, id, s);
    assert RowOk(w, orders, swaps[id], id, quoteSeen, baseSeen);
    forall k | k in after ensures RowOk(w, orders, after[k], k, quoteSeen', baseSeen) {
      if k != id { assert RowOk(w, orders, swaps[k], k, quoteSeen, baseSeen); }
    }
    SettledElsewhere(orders, swaps, id, s);
  }

  /** Settling a swap together with its two orders. */
  lemma SettledStep(w: Watch, orders: Orders, swaps: Swaps, quoteSeen: map<Id, View>, quoteSeen': map<Id, View>,
                    baseSeen: map<Id, View>, baseSeen': map<Id, View>, id: Id, s: Row)
    requires TablesOk(w, orders, swaps, quoteSeen, baseSeen) && id in swaps && SameTerms(swaps[id], s)
    requires s.buyOrder in orders && s.sellOrder in orders
    requires s.status == SwapSettled && ProgressOk(s) && EvidenceOk(w, s, id, quoteSeen', baseSeen')
    requires forall k :: k in quoteSeen && k != id ==> k in quoteSeen' && quoteSeen'[k] == quoteSeen[k]
    requires forall k :: k in baseSeen && k != id ==> k in baseSeen' && baseSeen'[k] == baseSeen[k]
    ensures TablesOk(w, Settling(orders, s.buyOrder, s.sellOrder), swaps[id := s], quoteSeen', baseSeen')
  {
    var after, orders' := swaps[id := s], Settling(orders, s.buyOrder, s.sellOrder);
    assert RowOk(w, orders, swaps[id], id, quoteSeen, baseSeen);
    SettleKeepsBook(orders, s.buyOrder, s.sellOrder);
    OwnRowSettles(w, orders, swaps[id], id, quoteSeen', baseSeen', s);
    forall k | k in after ensures RowOk(w, orders', after[k], k, quoteSeen', baseSeen') {
      if k != id {
        assert RowOk(w, orders, swaps[k], k, quoteSeen, baseSeen);
        OtherRowSettles(w, orders, swaps, quoteSeen, quoteSeen', baseSeen, baseSeen', id, k);
      }
    }
    StillSettledBySwap(orders, swaps, id, s);
    StillApart(swaps, id, s);
  }

  lemma OwnRowSettles(w: Watch, orders: Orders, before: Row, id: Id, quoteSeen: map<Id, View>, baseSeen: map<Id, View>,
                      s: Row)
    requires TermsOk(orders, before) && SameTerms(before, s)
    requires s.status == SwapSettled && ProgressOk(s) && EvidenceOk(w, s, id, quoteSeen, baseSeen)
    ensures RowOk(w, Settling(orders, s.buyOrder, s.sellOrder), s, id, quoteSeen, baseSeen)
  {
  }

  lemma StillSettledBySwap(orders: Orders, swaps: Swaps, id: Id, s: Row)
    requires SettledBySwap(orders, swaps) && id in swaps && SameTerms(swaps[id], s) && s.status == SwapSettled
    requires s.buyOrder in orders && s.sellOrder in orders
    ensures SettledBySwap(Settling(orders, s.buyOrder, s.sellOrder), swaps[id := s])
  {
    var after, orders' := swaps[id := s], Settling(orders, s.buyOrder, s.sellOrder);
    forall o | o in orders' && orders'[o].status == Settled
      ensures exists k :: && k in after && after[k].status == SwapSettled
                          && (after[k].buyOrder == o || after[k].sellOrder == o)
    {
      if o == s.buyOrder || o == s.sellOrder {
        assert after[id] == s;
      } else {
        var k :| k in swaps && swaps[k].status == SwapSettled && (swaps[k].buyOrder == o || swaps[k].sellOrder == o);
        assert k == id || after[k] == swaps[k];
        assert k in after;
      }
    }
  }

  lemma OtherRowSettles(w: Watch, orders: Orders, swaps: Swaps, quoteSeen: map<Id, View>, quoteSeen': map<Id, View>,
                        baseSeen: map<Id, View>, baseSeen': map<Id, View>, id: Id, k: Id)
    requires id in swaps && k in swaps && k != id && Apart(swaps)
    requires RowOk(w, orders, swaps[id], id, quoteSeen, baseSeen) && RowOk(w, orders, swaps[k], k, quoteSeen, baseSeen)
    requires forall j :: j in quoteSeen && j != id ==> j in quoteSeen' && quoteSeen'[j] == quoteSeen[j]
    requires forall j :: j in baseSeen && j != id ==> j in baseSeen' && baseSeen'[j] == baseSeen[j]
    ensures RowOk(w, Settling(orders, swaps[id].buyOrder, swaps[id].sellOrder), swaps[k], k, quoteSeen', baseSeen')
  {
    assert orders[swaps[id].buyOrder].side != orders[swaps[id].sellOrder].side;
    assert orders[swaps[k].buyOrder].side != orders[swaps[k].sellOrder].side;
  }
}
