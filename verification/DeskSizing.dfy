/** Shadow desk review: categories, ranking and capped whole-share sizing.  Decimal values are
    exact; symbols are represented by integers in the same order. */
module DeskSizing {
  import opened Options
  import opened Sorting

  const VXZ := -1
  const MAX_CANDIDATES := 3

  datatype Fact = Fact(etf: bool, actionBeforeHorizon: bool, assetOrder: int)

  datatype NativeState = Review | Watch | Observe | Reject | NoState

  /** Ages are in seconds; a missing measure is None. */
  datatype Market = Market(
    symbol: int, bid: real, ask: real, spread: Option<real>, atr14: Option<real>, sma50: Option<real>,
    return60: Option<real>, volume: Option<real>, quoteAge: int, tradeAge: int, historyAge: int)

  datatype Native = Native(state: NativeState, blocked: bool, gated: bool)

  datatype Category = Pilot | Research | Defer | Exclude

  datatype Candidate = Candidate(market: Market, native: Native, fact: Option<Fact>, category: Category)

  datatype Policy = Policy(maxEntry: real, scenarioRisk: real, atrMultiple: real, buffer: real, investment: real)

  /** What the review contract demands of a policy. */
  predicate ValidPolicy(p: Policy) {
    && 0.0 < p.maxEntry <= 1.0 && 0.0 < p.scenarioRisk <= 1.0 && 0.0 < p.investment <= 1.0
    && 0.0 < p.atrMultiple <= 100.0 && 0.0 <= p.buffer <= 1.0
  }

  // ---------------------------------------------------------------- categories and ranks

  predicate Usable(m: Market, reviewAge: int) {
    && m.spread.Some? && m.atr14.Some? && m.sma50.Some? && m.return60.Some? && m.volume.Some?
    && m.bid > 0.0 && m.ask > 0.0 && m.atr14.value > 0.0 && m.spread.value <= 0.5 && m.volume.value >= 100000.0
    && m.quoteAge <= 24 * 3600 && m.tradeAge <= 24 * 3600 && m.historyAge <= 5 * 24 * 3600 && reviewAge <= 24 * 3600
  }

  /** The category branches of `_compute`. */
  function CategoryOf(m: Market, n: Native, fact: Option<Fact>, reviewAge: int): Category {
    if m.symbol == VXZ || (fact.Some? && !fact.value.etf) then Exclude
    else if fact.Some? && fact.value.actionBeforeHorizon then Exclude
    else if !Usable(m, reviewAge) then Defer
    else if fact.Some? then Research
    else if n.state.Reject? || n.blocked then Defer
    else if n.gated then Defer
    else Pilot
  }

  ghost predicate Categorised(c: Candidate, reviewAge: int) {
    c.category == CategoryOf(c.market, c.native, c.fact, reviewAge)
  }

  /** What a market must show before a size is proposed in it. */
  predicate Liquid(m: Market, reviewAge: int) {
    && m.bid > 0.0 && m.ask > 0.0 && m.sma50 != None && m.return60 != None
    && m.spread.Some? && m.spread.value <= 0.5 && m.volume.Some? && m.volume.value >= 100000.0
    && m.atr14.Some? && m.atr14.value > 0.0
    && m.quoteAge <= 86400 && m.tradeAge <= 86400 && m.historyAge <= 432000 && reviewAge <= 86400
  }

  /** Who may be picked and who may be held, in terms of the evidence: a pilot is liquid, without issuer
      facts, and neither rejected, blocked nor gated; a holding is a liquid fund with issuer facts and no
      known corporate action before the horizon; nothing else is either. */
  lemma CategoriesAre(m: Market, n: Native, fact: Option<Fact>, reviewAge: int)
    ensures CategoryOf(m, n, fact, reviewAge) == Pilot <==>
              m.symbol != VXZ && Liquid(m, reviewAge) && fact == None && n.state != Reject && !n.blocked && !n.gated
    ensures CategoryOf(m, n, fact, reviewAge) == Research <==>
              m.symbol != VXZ && Liquid(m, reviewAge) && fact.Some? && fact.value.etf && !fact.value.actionBeforeHorizon
    ensures CategoryOf(m, n, fact, reviewAge) == Exclude <==>
              m.symbol == VXZ || (fact.Some? && (!fact.value.etf || fact.value.actionBeforeHorizon))
  {
  }

  function Priority(s: NativeState): int {
    match s
    case Review => 0
    case Watch => 1
    case Observe => 2
    case Reject => 3
    case NoState => 4
  }

  /** Native attention first, then the tighter spread, the larger feed volume and the symbol. */
  predicate PilotLess(a: Candidate, b: Candidate) {
    var pa, pb := Priority(a.native.state), Priority(b.native.state);
    if pa != pb then pa < pb
    else if Measure(a.market.spread) != Measure(b.market.spread) then Measure(a.market.spread) < Measure(b.market.spread)
    else if Measure(a.market.volume) != Measure(b.market.volume) then Measure(a.market.volume) > Measure(b.market.volume)
    else a.market.symbol < b.market.symbol
  }

  /** Native attention, from the most to the least: REVIEW, WATCH, OBSERVE, REJECT, none. */
  predicate MoreAttention(a: NativeState, b: NativeState) {
    || (a.Review? && !b.Review?)
    || (a == Watch && b in {Observe, Reject, NoState})
    || (a == Observe && b in {Reject, NoState})
    || (a == Reject && b == NoState)
  }

  /** One pilot goes before another for more attention; between equals for the tighter spread, then for
      the larger volume, then for the earlier symbol. */
  lemma PilotsRank(a: Candidate, b: Candidate)
    requires a.market.spread.Some? && b.market.spread.Some? && a.market.volume.Some? && b.market.volume.Some?
    ensures PilotLess(a, b) <==>
              || MoreAttention(a.native.state, b.native.state)
              || (a.native.state == b.native.state
                  && (|| a.market.spread.value < b.market.spread.value
                      || (a.market.spread == b.market.spread
                          && (|| a.market.volume.value > b.market.volume.value
                              || (a.market.volume == b.market.volume && a.market.symbol < b.market.symbol)))))
  {
  }

  predicate ResearchLess(a: Candidate, b: Candidate) {
    var oa, ob := AssetOrder(a.fact), AssetOrder(b.fact);
    if oa != ob then oa < ob else a.market.symbol < b.market.symbol
  }

  /** Holdings go by their fund's class, a broad one first, then by symbol. */
  lemma HoldingsRank(a: Candidate, b: Candidate)
    requires a.fact.Some? && b.fact.Some?
    ensures ResearchLess(a, b) <==>
              || a.fact.value.assetOrder < b.fact.value.assetOrder
              || (a.fact.value.assetOrder == b.fact.value.assetOrder && a.market.symbol < b.market.symbol)
  {
  }

  function Measure(m: Option<real>): real {
    if m.Some? then m.value else 0.0
  }

  function AssetOrder(f: Option<Fact>): int {
    if f.Some? then f.value.assetOrder else 3
  }

  const PILOT_LESS: (Candidate, Candidate) -> bool := (a: Candidate, b: Candidate) => PilotLess(a, b)
  const RESEARCH_LESS: (Candidate, Candidate) -> bool := (a: Candidate, b: Candidate) => ResearchLess(a, b)

  lemma RanksAreOrdered()
    ensures Ordered(PILOT_LESS) && Ordered(RESEARCH_LESS)
  {
  }

  function OfCategory(rows: seq<Candidate>, c: Category): seq<Candidate> {
    if rows == [] then []
    else
      var r := rows[|rows| - 1];
      OfCategory(rows[..|rows| - 1], c) + if r.category == c then [r] else []
  }

  lemma {:induction false} OfCategoryAre(rows: seq<Candidate>, c: Category)
    ensures forall r :: r in OfCategory(rows, c) <==> r in rows && r.category == c
  {
    if rows != [] {
      OfCategoryAre(rows[..|rows| - 1], c);
      assert rows == rows[..|rows| - 1] + [rows[|rows| - 1]];
    }
  }

  function RankedPilots(rows: seq<Candidate>): seq<Candidate> {
    Sorted(OfCategory(rows, Pilot), PILOT_LESS)
  }

  function RankedResearch(rows: seq<Candidate>): seq<Candidate> {
    Sorted(OfCategory(rows, Research), RESEARCH_LESS)
  }

  /** The candidate list `_plan` sees: each category in its rank order. */
  function Ranked(rows: seq<Candidate>): seq<Candidate> {
    RankedPilots(rows) + RankedResearch(rows) + OfCategory(rows, Defer) + OfCategory(rows, Exclude)
  }

  // ---------------------------------------------------------------- sizes

  /** Rounding toward zero to whole shares. */
  function Whole(x: real): int {
    if x >= 0.0 then x.Floor else -(-x).Floor
  }

  /** Rounding toward zero to cents. */
  function Cents(x: real): real {
    Whole(x * 100.0) as real / 100.0
  }

  /** A desk's share of its budget, in whole cents. */
  function Cap(budget: real, fraction: real): real {
    Cents(budget * fraction)
  }

  /** A cap is the largest whole number of cents within its share of the budget. */
  lemma CapIs(budget: real, fraction: real)
    requires budget >= 0.0 && fraction >= 0.0
    ensures Cap(budget, fraction) <= budget * fraction < Cap(budget, fraction) + 0.01
    ensures (Cap(budget, fraction) * 100.0).Floor as real == Cap(budget, fraction) * 100.0
  {
    assert budget * fraction >= 0.0;
    CentsAre(budget * fraction);
  }

  lemma CentsAre(x: real)
    requires x >= 0.0
    ensures Cents(x) <= x < Cents(x) + 0.01 && (Cents(x) * 100.0).Floor as real == Cents(x) * 100.0
  {
    var n := (x * 100.0).Floor;
    assert Cents(x) * 100.0 == n as real;
  }

  lemma CentsBelow(x: real)
    requires x >= 0.0
    ensures 0.0 <= Cents(x) <= x
  {
  }

  /** A whole number of shares at a positive price is within an amount exactly up to the quotient. */
  lemma WholeShares(amount: real, price: real, n: int)
    requires price > 0.0 && amount >= 0.0
    ensures Whole(amount / price) >= 0
    ensures price * n as real <= amount <==> n <= Whole(amount / price)
  {
    var q := amount / price;
    assert q * price == amount;
    if n <= q.Floor {
      assert n as real <= q;
      assert n as real * price <= q * price;
    } else {
      assert n as real >= q.Floor as real + 1.0 > q;
      assert n as real * price > q * price;
    }
  }

  function Price(c: Candidate, p: Policy): real {
    c.market.ask * (1.0 + p.buffer)
  }

  function Distance(c: Candidate, p: Policy): real {
    Measure(c.market.atr14) * p.atrMultiple
  }

  /** The pilot size of one candidate. */
  function PilotSize(c: Candidate, p: Policy, budget: real): int {
    var price, distance := Price(c, p), Distance(c, p);
    if 0.0 < distance < price then
      var entry, scenario := Whole(Cap(budget, p.maxEntry) / price), Whole(Cap(budget, p.scenarioRisk) / distance);
      if entry <= scenario then entry else scenario
    else 0
  }

  /** The pilot size is the largest whole number of shares within both caps. */
  lemma PilotSizeIsLargest(c: Candidate, p: Policy, budget: real, n: int)
    requires ValidPolicy(p) && budget >= 0.0 && 0.0 < Distance(c, p) < Price(c, p)
    ensures PilotSize(c, p, budget) >= 0
    ensures n <= PilotSize(c, p, budget) <==>
              Price(c, p) * n as real <= Cap(budget, p.maxEntry) && Distance(c, p) * n as real <= Cap(budget, p.scenarioRisk)
  {
    hide Cap, Whole, Price, Distance;
    BudgetCaps(p, budget);
    WholeShares(Cap(budget, p.maxEntry), Price(c, p), n);
    WholeShares(Cap(budget, p.scenarioRisk), Distance(c, p), n);
  }

  lemma BudgetCaps(p: Policy, budget: real)
    requires ValidPolicy(p) && budget >= 0.0
    ensures 0.0 <= Cap(budget, p.maxEntry) <= budget && 0.0 <= Cap(budget, p.scenarioRisk) <= budget
    ensures 0.0 <= Cap(budget, p.investment) <= budget
  {
    hide Cap;
    Fraction(budget, p.maxEntry);
    Fraction(budget, p.scenarioRisk);
    Fraction(budget, p.investment);
  }

  lemma Fraction(budget: real, f: real)
    requires budget >= 0.0 && 0.0 < f <= 1.0
    ensures 0.0 <= Cap(budget, f) <= budget
  {
    assert 0.0 <= budget * f <= budget;
    CentsBelow(budget * f);
  }

  // ---------------------------------------------------------------- the plan

  datatype TradingPlan = Deferred | Conditional(candidate: Candidate, qty: int, notional: real, loss: real)

  datatype Holding = Holding(candidate: Candidate, qty: int, cost: real)

  function Costs(holdings: seq<Holding>): real {
    if holdings == [] then 0.0 else Costs(holdings[..|holdings| - 1]) + holdings[|holdings| - 1].cost
  }

  /** One investment holding, chosen with `left` still to spend. */
  predicate GoodHolding(h: Holding, p: Policy, cap: real, left: real) {
    && h.candidate.category == Research && h.qty > 0 && h.cost == Price(h.candidate, p) * h.qty as real
    && h.cost <= cap && h.cost <= left
    && (Price(h.candidate, p) * (h.qty + 1) as real > cap || Price(h.candidate, p) * (h.qty + 1) as real > left)
  }

  /** The trading pick of `_plan`: the first ranked pilot with a positive size, within both caps. */
  method PickPilot(ranked: seq<Candidate>, p: Policy, trading: real) returns (plan: TradingPlan)
    requires ValidPolicy(p) && trading >= 0.0
    ensures plan.Conditional? ==>
              exists i :: 0 <= i < |ranked| && ranked[i] == plan.candidate && ranked[i].category == Pilot
                && plan.qty == PilotSize(ranked[i], p, trading) > 0
                && forall j :: 0 <= j < i && ranked[j].category == Pilot ==> PilotSize(ranked[j], p, trading) == 0
    ensures plan.Deferred? ==>
              forall j :: 0 <= j < |ranked| && ranked[j].category == Pilot ==> PilotSize(ranked[j], p, trading) == 0
    ensures plan.Conditional? ==> WithinCaps(plan, p, trading)
  {
    hide PilotSize, Cap, Price, Distance;
    for i := 0 to |ranked|
      invariant forall j :: 0 <= j < i && ranked[j].category == Pilot ==> PilotSize(ranked[j], p, trading) == 0
    {
      var c := ranked[i];
      var qty := PilotSize(c, p, trading);
      if c.category == Pilot && qty != 0 {
        SizeGuard(c, p, trading);
        PilotSizeIsLargest(c, p, trading, qty);
        return Conditional(c, qty, Price(c, p) * qty as real, Distance(c, p) * qty as real);
      }
    }
    return Deferred;
  }

  predicate WithinCaps(plan: TradingPlan, p: Policy, trading: real)
    requires plan.Conditional?
  {
    && plan.notional == Price(plan.candidate, p) * plan.qty as real <= Cap(trading, p.maxEntry)
    && plan.loss == Distance(plan.candidate, p) * plan.qty as real <= Cap(trading, p.scenarioRisk)
  }

  lemma SizeGuard(c: Candidate, p: Policy, budget: real)
    requires PilotSize(c, p, budget) != 0
    ensures 0.0 < Distance(c, p) < Price(c, p)
  {
  }

  /** Each holding was good when it was chosen. */
  predicate AllGood(holdings: seq<Holding>, p: Policy, investment: real) {
    holdings != [] ==>
      var before := holdings[..|holdings| - 1];
      && AllGood(before, p, investment)
      && GoodHolding(holdings[|holdings| - 1], p, Cap(investment, p.investment), investment - Costs(before))
  }

  lemma OneMoreGood(holdings: seq<Holding>, h: Holding, p: Policy, investment: real)
    requires AllGood(holdings, p, investment)
    requires GoodHolding(h, p, Cap(investment, p.investment), investment - Costs(holdings))
    ensures AllGood(holdings + [h], p, investment)
  {
    assert (holdings + [h])[..|holdings|] == holdings;
  }

  predicate Investable(c: Candidate, chosen: Option<int>) {
    c.category == Research && chosen != Some(c.market.symbol)
  }

  /** The holdings are candidates in rank order, the i-th one at rank `at[i]`. */
  predicate InRankOrder(ranked: seq<Candidate>, holdings: seq<Holding>, at: seq<nat>) {
    && |at| == |holdings|
    && (forall i :: 0 <= i < |at| ==> at[i] < |ranked| && holdings[i].candidate == ranked[at[i]])
    && forall i, j :: 0 <= i < j < |at| ==> at[i] < at[j]
  }

  /** The candidate at rank k is held; or three better ranked ones are; or not one share of it fits in
      the cap and what the n better ranked holdings leave. */
  ghost predicate Considered(ranked: seq<Candidate>, holdings: seq<Holding>, at: seq<nat>, k: nat, p: Policy, investment: real)
    requires k < |ranked| && |at| == |holdings|
  {
    || k in at
    || exists n: nat :: SkippedAfter(ranked, holdings, at, k, n, p, investment)
  }

  predicate SkippedAfter(ranked: seq<Candidate>, holdings: seq<Holding>, at: seq<nat>, k: nat, n: nat, p: Policy, investment: real)
    requires k < |ranked| && |at| == |holdings|
  {
    && n <= |holdings| && (forall i :: 0 <= i < |at| ==> (at[i] < k <==> i < n))
    && (|| n == MAX_CANDIDATES
        || Price(ranked[k], p) > Cap(investment, p.investment)
        || Price(ranked[k], p) > investment - Costs(holdings[..n]))
  }

  /** No candidate up to rank `upTo` that could have been held was passed over. */
  ghost predicate NonePassedOver(ranked: seq<Candidate>, upTo: nat, holdings: seq<Holding>, at: seq<nat>, p: Policy,
                                 investment: real, chosen: Option<int>) {
    && upTo <= |ranked| && InRankOrder(ranked, holdings, at)
    && forall k :: 0 <= k < upTo && Investable(ranked[k], chosen) ==> Considered(ranked, holdings, at, k, p, investment)
  }

  lemma Skipping(ranked: seq<Candidate>, k: nat, holdings: seq<Holding>, at: seq<nat>, p: Policy, investment: real,
                 chosen: Option<int>)
    requires NonePassedOver(ranked, k, holdings, at, p, investment, chosen) && k < |ranked|
    requires forall i :: 0 <= i < |at| ==> at[i] < k
    requires Investable(ranked[k], chosen) ==>
               || |holdings| == MAX_CANDIDATES
               || Price(ranked[k], p) > Cap(investment, p.investment) || Price(ranked[k], p) > investment - Costs(holdings)
    ensures NonePassedOver(ranked, k + 1, holdings, at, p, investment, chosen)
  {
    hide Price, Cap, Costs, Considered;
    if Investable(ranked[k], chosen) {
      assert holdings[..|holdings|] == holdings;
      assert SkippedAfter(ranked, holdings, at, k, |holdings|, p, investment);
      SkippedIsConsidered(ranked, holdings, at, k, |holdings|, p, investment);
    }
  }

  lemma SkippedIsConsidered(ranked: seq<Candidate>, holdings: seq<Holding>, at: seq<nat>, k: nat, n: nat, p: Policy, investment: real)
    requires k < |ranked| && |at| == |holdings| && SkippedAfter(ranked, holdings, at, k, n, p, investment)
    ensures Considered(ranked, holdings, at, k, p, investment)
  {
  }

  lemma Holds(ranked: seq<Candidate>, k: nat, holdings: seq<Holding>, h: Holding, at: seq<nat>, p: Policy, investment: real,
              chosen: Option<int>)
    requires NonePassedOver(ranked, k, holdings, at, p, investment, chosen) && k < |ranked| && h.candidate == ranked[k]
    requires forall i :: 0 <= i < |at| ==> at[i] < k
    ensures NonePassedOver(ranked, k + 1, holdings + [h], at + [k], p, investment, chosen)
  {
    hide Price, Cap, Costs;
    var longer, more := holdings + [h], at + [k];
    forall j | 0 <= j < k + 1 && Investable(ranked[j], chosen)
      ensures Considered(ranked, longer, more, j, p, investment)
    {
      if j == k {
        assert more[|at|] == k;
      } else if j in at {
        assert j in more;
      } else {
        var n: nat :| SkippedAfter(ranked, holdings, at, j, n, p, investment);
        assert longer[..n] == holdings[..n];
        assert SkippedAfter(ranked, longer, more, j, n, p, investment);
      }
    }
  }

  /** The investment side of `_plan`: costs and reserve add up to the budget exactly, each cost is
      within the cap and what is left, each holding is the largest that fits, at most three are held,
      in rank order, and no candidate that could have been held is passed over. */
  method ChooseHoldings(ranked: seq<Candidate>, p: Policy, investment: real, chosen: Option<int>, reviewAge: int)
      returns (holdings: seq<Holding>, reserve: real, ghost at: seq<nat>)
    requires ValidPolicy(p) && investment >= 0.0
    requires forall c :: c in ranked ==> Categorised(c, reviewAge)
    ensures Costs(holdings) + reserve == investment && reserve >= 0.0 && |holdings| <= MAX_CANDIDATES
    ensures AllGood(holdings, p, investment)
    ensures forall h :: h in holdings ==> h.candidate in ranked && chosen != Some(h.candidate.market.symbol)
    ensures NonePassedOver(ranked, |ranked|, holdings, at, p, investment, chosen)
  {
    hide Cap, Whole, Price, Categorised, GoodHolding, Costs, AllGood, ValidPolicy, NonePassedOver;
    BudgetCaps(p, investment);
    var cap := Cap(investment, p.investment);
    var remaining := investment;
    holdings, at := [], [];
    assert NonePassedOver(ranked, 0, [], [], p, investment, chosen) by { NothingConsidered(ranked, p, investment, chosen); }
    assert Costs([]) == 0.0 && AllGood([], p, investment) by { NoCosts(p, investment); }
    for k := 0 to |ranked|
      invariant Costs(holdings) + remaining == investment && remaining >= 0.0 && |holdings| <= MAX_CANDIDATES
      invariant AllGood(holdings, p, investment)
      invariant forall h :: h in holdings ==> h.candidate in ranked && chosen != Some(h.candidate.market.symbol)
      invariant NonePassedOver(ranked, k, holdings, at, p, investment, chosen)
      invariant |at| == |holdings| && forall i :: 0 <= i < |at| ==> at[i] < k
    {
      var c := ranked[k];
      if c.category == Research && chosen != Some(c.market.symbol) && |holdings| < MAX_CANDIDATES {
        PositivePrice(c, p, reviewAge);
        var price := Price(c, p);
        var qty := Whole((if cap <= remaining then cap else remaining) / price);
        if qty > 0 {
          var h := Holding(c, qty, price * qty as real);
          LargestHolding(h, p, cap, remaining);
          assert remaining == investment - Costs(holdings);
          OneMoreGood(holdings, h, p, investment);
          CostsOfAppend(holdings, h);
          Holds(ranked, k, holdings, h, at, p, investment, chosen);
          holdings, at := holdings + [h], at + [k];
          remaining := remaining - h.cost;
        } else {
          NotOneShare(c, p, cap, remaining);
          Skipping(ranked, k, holdings, at, p, investment, chosen);
        }
      } else {
        Skipping(ranked, k, holdings, at, p, investment, chosen);
      }
    }
    reserve := remaining;
  }

  lemma NothingConsidered(ranked: seq<Candidate>, p: Policy, investment: real, chosen: Option<int>)
    ensures NonePassedOver(ranked, 0, [], [], p, investment, chosen)
  {
  }

  lemma NotOneShare(c: Candidate, p: Policy, cap: real, left: real)
    requires Price(c, p) > 0.0 && cap >= 0.0 && left >= 0.0
    requires Whole((if cap <= left then cap else left) / Price(c, p)) <= 0
    ensures Price(c, p) > cap || Price(c, p) > left
  {
    hide Whole, Price;
    WholeShares(if cap <= left then cap else left, Price(c, p), 1);
  }

  lemma NoCosts(p: Policy, investment: real)
    ensures Costs([]) == 0.0 && AllGood([], p, investment)
  {
  }

  lemma CostsOfAppend(holdings: seq<Holding>, h: Holding)
    ensures Costs(holdings + [h]) == Costs(holdings) + h.cost
  {
    assert (holdings + [h])[..|holdings|] == holdings;
  }

  lemma LargestHolding(h: Holding, p: Policy, cap: real, left: real)
    requires h.candidate.category == Research && Price(h.candidate, p) > 0.0 && cap >= 0.0 && left >= 0.0
    requires h.qty == Whole((if cap <= left then cap else left) / Price(h.candidate, p)) && h.qty > 0
    requires h.cost == Price(h.candidate, p) * h.qty as real
    ensures GoodHolding(h, p, cap, left) && h.cost <= left
  {
    hide Whole, Price;
    var most := if cap <= left then cap else left;
    WholeShares(most, Price(h.candidate, p), h.qty);
    WholeShares(most, Price(h.candidate, p), h.qty + 1);
  }

  lemma PositivePrice(c: Candidate, p: Policy, reviewAge: int)
    requires ValidPolicy(p) && Categorised(c, reviewAge) && c.category in {Research, Pilot}
    ensures c.market.ask > 0.0 && Price(c, p) > 0.0
  {
  }

  /** The ranked list holds exactly the rows, pilots first and research next, each in rank order. */
  lemma RankedAre(rows: seq<Candidate>)
    ensures forall c :: c in Ranked(rows) <==> c in rows
    ensures Ascending(RankedPilots(rows), PILOT_LESS)
    ensures forall c :: c in RankedPilots(rows) <==> c in rows && c.category == Pilot
    ensures forall i :: |RankedPilots(rows)| <= i < |Ranked(rows)| ==> Ranked(rows)[i].category != Pilot
    ensures forall i, j :: 0 <= i < j < |Ranked(rows)| && Ranked(rows)[i].category == Research && Ranked(rows)[j].category == Research ==>
              !ResearchLess(Ranked(rows)[j], Ranked(rows)[i])
  {
    hide Sorted, OfCategory, ResearchLess, PilotLess;
    RanksAreOrdered();
    OfCategoryAre(rows, Pilot);
    OfCategoryAre(rows, Research);
    OfCategoryAre(rows, Category.Defer);
    OfCategoryAre(rows, Exclude);
    SortedElements(OfCategory(rows, Pilot), PILOT_LESS);
    SortedElements(OfCategory(rows, Research), RESEARCH_LESS);
    var pilots, research := RankedPilots(rows), RankedResearch(rows);
    var others := OfCategory(rows, Category.Defer) + OfCategory(rows, Exclude);
    assert Ranked(rows) == pilots + research + others;
    assert forall c :: c in others ==> c.category != Pilot && c.category != Research;
    forall i | 0 <= i < |Ranked(rows)|
      ensures Ranked(rows)[i].category == Pilot <==> i < |pilots|
      ensures Ranked(rows)[i].category == Research ==>
                |pilots| <= i < |pilots| + |research| && Ranked(rows)[i] == research[i - |pilots|]
    {
      if i < |pilots| {
        assert Ranked(rows)[i] == pilots[i] && pilots[i] in pilots;
      } else if i < |pilots| + |research| {
        assert Ranked(rows)[i] == research[i - |pilots|] && research[i - |pilots|] in research;
      } else {
        assert Ranked(rows)[i] == others[i - |pilots| - |research|] && Ranked(rows)[i] in others;
      }
    }
    forall i, j | 0 <= i < j < |Ranked(rows)| && Ranked(rows)[i].category == Research && Ranked(rows)[j].category == Research
      ensures !ResearchLess(Ranked(rows)[j], Ranked(rows)[i])
    {
      assert !RESEARCH_LESS(research[j - |pilots|], research[i - |pilots|]);
    }
  }

  lemma SortedElements(s: seq<Candidate>, less: (Candidate, Candidate) -> bool)
    requires Ordered(less)
    ensures Ascending(Sorted(s, less), less) && forall c :: c in Sorted(s, less) <==> c in s
  {
    hide Sorted;
    SortedKeeps(s, less);
    assert forall c :: c in Sorted(s, less) <==> c in multiset(Sorted(s, less));
    assert forall c :: c in s <==> c in multiset(s);
  }

  /** Ranking and sizing together: the pick is the best ranked pilot that has a positive size at
      all, it is never also an investment candidate, the investment budget is conserved, and research
      candidates are held in rank order, none passed over that could have been held. */
  method Review(rows: seq<Candidate>, p: Policy, trading: real, investment: real, reviewAge: int)
      returns (plan: TradingPlan, holdings: seq<Holding>, reserve: real, ghost at: seq<nat>)
    requires ValidPolicy(p) && trading >= 0.0 && investment >= 0.0
    requires forall c :: c in rows ==> Categorised(c, reviewAge)
    ensures plan.Conditional? ==>
              && plan.candidate in rows && plan.candidate.category == Pilot && WithinCaps(plan, p, trading)
              && plan.qty == PilotSize(plan.candidate, p, trading) > 0
              && forall c :: c in rows && c.category == Pilot && PilotLess(c, plan.candidate) ==> PilotSize(c, p, trading) == 0
    ensures plan.Deferred? ==> forall c :: c in rows && c.category == Pilot ==> PilotSize(c, p, trading) == 0
    ensures plan.Conditional? ==>
              && Liquid(plan.candidate.market, reviewAge) && plan.candidate.fact == None && plan.candidate.market.symbol != VXZ
              && plan.candidate.native.state != Reject && !plan.candidate.native.blocked && !plan.candidate.native.gated
              && plan.notional == plan.candidate.market.ask * (1.0 + p.buffer) * plan.qty as real
              && plan.loss == plan.candidate.market.atr14.value * p.atrMultiple * plan.qty as real
    ensures forall h :: h in holdings ==>
              && Liquid(h.candidate.market, reviewAge) && h.candidate.fact.Some? && h.candidate.fact.value.etf
              && !h.candidate.fact.value.actionBeforeHorizon
              && h.qty > 0 && h.cost == h.candidate.market.ask * (1.0 + p.buffer) * h.qty as real
    ensures Costs(holdings) + reserve == investment && reserve >= 0.0 && |holdings| <= MAX_CANDIDATES
    ensures AllGood(holdings, p, investment)
    ensures forall h :: h in holdings ==>
              h.candidate in rows && (plan.Conditional? ==> h.candidate.market.symbol != plan.candidate.market.symbol)
    ensures NonePassedOver(Ranked(rows), |Ranked(rows)|, holdings, at, p, investment,
                           if plan.Conditional? then Some(plan.candidate.market.symbol) else None)
    ensures forall i, j :: 0 <= i < j < |holdings| ==> !ResearchLess(holdings[j].candidate, holdings[i].candidate)
  {
    hide PilotSize, Cap, Price, Distance, AllGood, Ranked, RankedPilots, Categorised, PilotLess, WithinCaps, NonePassedOver, ResearchLess, GoodHolding;
    RankedAre(rows);
    var ranked := Ranked(rows);
    plan := PickPilot(ranked, p, trading);
    if plan.Conditional? {
      BestRanked(rows, plan.candidate, p, trading);
      PilotEvidence(plan, p, trading, reviewAge);
    } else {
      assert forall c :: c in rows ==> exists j :: 0 <= j < |ranked| && ranked[j] == c;
    }
    var chosen := if plan.Conditional? then Some(plan.candidate.market.symbol) else None;
    holdings, reserve, at := ChooseHoldings(ranked, p, investment, chosen, reviewAge);
    HeldInOrder(rows, holdings, at, p, investment, chosen);
    forall h | h in holdings
      ensures Held(h, p, reviewAge)
    {
      HoldingEvidence(holdings, h, p, investment, reviewAge);
    }
  }

  /** What is known of a holding, in terms of its evidence and its price. */
  predicate Held(h: Holding, p: Policy, reviewAge: int) {
    && Liquid(h.candidate.market, reviewAge) && h.candidate.fact.Some? && h.candidate.fact.value.etf
    && !h.candidate.fact.value.actionBeforeHorizon
    && h.qty > 0 && h.cost == h.candidate.market.ask * (1.0 + p.buffer) * h.qty as real
  }

  lemma {:induction false} HoldingEvidence(holdings: seq<Holding>, h: Holding, p: Policy, investment: real, reviewAge: int)
    requires AllGood(holdings, p, investment) && h in holdings && Categorised(h.candidate, reviewAge)
    ensures Held(h, p, reviewAge)
  {
    var n := |holdings| - 1;
    if h == holdings[n] {
      CategoriesAre(h.candidate.market, h.candidate.native, h.candidate.fact, reviewAge);
    } else {
      HoldingEvidence(holdings[..n], h, p, investment, reviewAge);
    }
  }

  lemma HeldInOrder(rows: seq<Candidate>, holdings: seq<Holding>, at: seq<nat>, p: Policy, investment: real, chosen: Option<int>)
    requires NonePassedOver(Ranked(rows), |Ranked(rows)|, holdings, at, p, investment, chosen)
    requires AllGood(holdings, p, investment)
    ensures forall i, j :: 0 <= i < j < |holdings| ==> !ResearchLess(holdings[j].candidate, holdings[i].candidate)
  {
    hide Price, Cap, Costs, GoodHolding, Ranked, Considered, ResearchLess;
    RankedAre(rows);
    AllResearch(holdings, p, investment);
    forall i, j | 0 <= i < j < |holdings|
      ensures !ResearchLess(holdings[j].candidate, holdings[i].candidate)
    {
      assert at[i] < at[j] < |Ranked(rows)|;
      assert Ranked(rows)[at[i]].category == Research && Ranked(rows)[at[j]].category == Research;
    }
  }

  lemma {:induction false} AllResearch(holdings: seq<Holding>, p: Policy, investment: real)
    requires AllGood(holdings, p, investment)
    ensures forall i :: 0 <= i < |holdings| ==> holdings[i].candidate.category == Research
  {
    if holdings != [] { AllResearch(holdings[..|holdings| - 1], p, investment); }
  }

  lemma PilotEvidence(plan: TradingPlan, p: Policy, trading: real, reviewAge: int)
    requires plan.Conditional? && WithinCaps(plan, p, trading)
    requires Categorised(plan.candidate, reviewAge) && plan.candidate.category == Pilot
    ensures Liquid(plan.candidate.market, reviewAge) && plan.candidate.fact == None && plan.candidate.market.symbol != VXZ
    ensures plan.candidate.native.state != Reject && !plan.candidate.native.blocked && !plan.candidate.native.gated
    ensures plan.notional == plan.candidate.market.ask * (1.0 + p.buffer) * plan.qty as real
    ensures plan.loss == plan.candidate.market.atr14.value * p.atrMultiple * plan.qty as real
  {
    CategoriesAre(plan.candidate.market, plan.candidate.native, plan.candidate.fact, reviewAge);
  }

  lemma BestRanked(rows: seq<Candidate>, pick: Candidate, p: Policy, trading: real)
    requires exists i :: 0 <= i < |Ranked(rows)| && Ranked(rows)[i] == pick && pick.category == Pilot
               && forall j :: 0 <= j < i && Ranked(rows)[j].category == Pilot ==> PilotSize(Ranked(rows)[j], p, trading) == 0
    ensures forall c :: c in rows && c.category == Pilot && PilotLess(c, pick) ==> PilotSize(c, p, trading) == 0
  {
    hide PilotSize, RankedPilots, RankedResearch, OfCategory, PilotLess;
    RankedAre(rows);
    var pilots := RankedPilots(rows);
    var i :| 0 <= i < |Ranked(rows)| && Ranked(rows)[i] == pick && pick.category == Pilot
             && forall j :: 0 <= j < i && Ranked(rows)[j].category == Pilot ==> PilotSize(Ranked(rows)[j], p, trading) == 0;
    assert i < |pilots| && pilots[i] == pick;
    forall c | c in rows && c.category == Pilot && PilotLess(c, pick)
      ensures PilotSize(c, p, trading) == 0
    {
      var j :| 0 <= j < |pilots| && pilots[j] == c;
      assert PILOT_LESS(pilots[j], pilots[i]);
      assert !PILOT_LESS(pick, pick) by { RanksAreOrdered(); }
      assert j < i;
      assert Ranked(rows)[j] == c;
    }
  }
}
