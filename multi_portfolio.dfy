/** The multi-asset portfolio of the trading agent: it liquidates every holding at the
    day's prices into a running portfolio value, keeps a bounded window of those values
    and of the memory ids cited per symbol, and turns the change of value over the window
    into reinforcement for the oldest cited ids of every symbol. The optimiser that
    proposes weights is outside the model; only the normalisation of its weights is in. */
module MultiPortfolio {
  import opened Common
  import opened Portfolio

  /** Reinforcement for all memories of one symbol cited at one step. */
  datatype AccessMulti = AccessMulti(symbol: string, ids: seq<nat>, feedback: seq<int>)

  /** `cur_shares * cur_price`: the worth of a holding at a price. */
  function Worth(shares: real, price: real): real { shares * price }

  predicate Distinct(symbols: seq<string>) {
    forall i, j :: 0 <= i < j < |symbols| ==> symbols[i] != symbols[j]
  }

  // ---------------------------------------------------------------------------
  // Liquidation: `_update_portfolio_value`

  /** The loop state of `_update_portfolio_value`: the value of the long holdings sold
      so far, the buying power after buying back short holdings, and the share counts. */
  datatype Liq = Liq(longValue: real, buyingPower: real, shares: map<string, real>)

  /** A symbol can be liquidated when both its share count and its price are known;
      otherwise the lookup raises a `KeyError`. */
  predicate Ready(s: string, shares: map<string, real>, prices: map<string, real>) {
    s in shares && s in prices
  }

  /** One turn of the loop: a long (or empty) holding is sold into the value, a short one
      is bought back out of the buying power, and the share count drops to zero. Either
      way value plus buying power moves by the holding's worth. */
  function LiqStep(st: Liq, s: string, prices: map<string, real>): (r: Liq)
    requires Ready(s, st.shares, prices)
    ensures r.shares == st.shares[s := 0.0]
    ensures r.longValue + r.buyingPower == st.longValue + st.buyingPower + Worth(st.shares[s], prices[s])
    ensures r.longValue >= st.longValue || r.buyingPower == st.buyingPower
  {
    var w := Worth(st.shares[s], prices[s]);
    if st.shares[s] >= 0.0 then Liq(st.longValue + w, st.buyingPower, st.shares[s := 0.0])
    else Liq(st.longValue, st.buyingPower + w, st.shares[s := 0.0])
  }

  /** The loop run over `symbols` in order. */
  function Liquidate(st: Liq, symbols: seq<string>, prices: map<string, real>): (r: Liq)
    requires forall k :: 0 <= k < |symbols| ==> Ready(symbols[k], st.shares, prices)
    ensures forall s :: s in r.shares <==> s in st.shares
  {
    if symbols == [] then st
    else
      var last := symbols[|symbols| - 1];
      assert Ready(last, st.shares, prices);
      LiqStep(Liquidate(st, symbols[..|symbols| - 1], prices), last, prices)
  }

  /** How many symbols the loop gets through before a missing share count or price
      stops it. */
  function PricedPrefix(symbols: seq<string>, shares: map<string, real>, prices: map<string, real>): (n: nat)
    ensures n <= |symbols|
    ensures forall k :: 0 <= k < n ==> Ready(symbols[k], shares, prices)
    ensures n < |symbols| ==> !Ready(symbols[n], shares, prices)
  {
    if symbols == [] || !Ready(symbols[0], shares, prices) then 0
    else 1 + PricedPrefix(symbols[1..], shares, prices)
  }

  /** The value of the holdings at the given prices, short ones counting negatively. */
  function MarkToMarket(symbols: seq<string>, shares: map<string, real>, prices: map<string, real>): real
    requires forall k :: 0 <= k < |symbols| ==> Ready(symbols[k], shares, prices)
  {
    if symbols == [] then 0.0
    else
      var last := symbols[|symbols| - 1];
      assert Ready(last, shares, prices);
      MarkToMarket(symbols[..|symbols| - 1], shares, prices) + Worth(shares[last], prices[last])
  }

  /** Liquidation zeroes the share count of every symbol it passes and leaves the other
      counts alone. */
  lemma {:induction false} LiquidateZeroes(st: Liq, symbols: seq<string>, prices: map<string, real>)
    requires forall k :: 0 <= k < |symbols| ==> Ready(symbols[k], st.shares, prices)
    ensures forall k :: 0 <= k < |symbols| ==> Liquidate(st, symbols, prices).shares[symbols[k]] == 0.0
    ensures forall s :: s in st.shares && s !in symbols ==> Liquidate(st, symbols, prices).shares[s] == st.shares[s]
  {
    if symbols != [] {
      var init := symbols[..|symbols| - 1];
      LiquidateZeroes(st, init, prices);
      forall s | s in st.shares && s !in symbols
        ensures Liquidate(st, symbols, prices).shares[s] == st.shares[s]
      {
        assert s !in init;
      }
    }
  }

  /** Over distinct symbols, the value liquidation arrives at (long sales plus the buying
      power left after covering the shorts) is the buying power it started with plus the
      mark-to-market value of the holdings. */
  lemma {:induction false} LiquidationValue(st: Liq, symbols: seq<string>, prices: map<string, real>)
    requires Distinct(symbols)
    requires forall k :: 0 <= k < |symbols| ==> Ready(symbols[k], st.shares, prices)
    ensures var r := Liquidate(st, symbols, prices);
      r.longValue + r.buyingPower == st.longValue + st.buyingPower + MarkToMarket(symbols, st.shares, prices)
  {
    if symbols != [] {
      var init, s := symbols[..|symbols| - 1], symbols[|symbols| - 1];
      LiquidationValue(st, init, prices);
      LiquidateZeroes(st, init, prices);
      assert s !in init by {
        forall k | 0 <= k < |init| ensures init[k] != s {
          assert symbols[k] == init[k];
        }
      }
    }
  }

  /** The two branches of one liquidation step. */
  lemma {:induction false} LiqStepBranches(st: Liq, s: string, prices: map<string, real>)
    requires Ready(s, st.shares, prices)
    ensures st.shares[s] >= 0.0 ==>
      LiqStep(st, s, prices) == Liq(st.longValue + Worth(st.shares[s], prices[s]), st.buyingPower, st.shares[s := 0.0])
    ensures st.shares[s] < 0.0 ==>
      LiqStep(st, s, prices) == Liq(st.longValue, st.buyingPower + Worth(st.shares[s], prices[s]), st.shares[s := 0.0])
  {
  }

  /** The loop stops exactly at the first symbol that is not ready. */
  lemma {:induction false} PricedPrefixExact(symbols: seq<string>, shares: map<string, real>, prices: map<string, real>, n: nat)
    requires n <= |symbols| && forall k :: 0 <= k < n ==> Ready(symbols[k], shares, prices)
    requires n < |symbols| ==> !Ready(symbols[n], shares, prices)
    ensures PricedPrefix(symbols, shares, prices) == n
    decreases n
  {
    if n > 0 {
      assert Ready(symbols[0], shares, prices);
      assert forall k :: 0 <= k < n - 1 ==> symbols[1..][k] == symbols[k + 1];
      PricedPrefixExact(symbols[1..], shares, prices, n - 1);
    }
  }

  /** Liquidating one more symbol takes one more step. */
  lemma {:induction false} LiquidateNext(st0: Liq, symbols: seq<string>, n: nat, prices: map<string, real>, done: Liq)
    requires n < |symbols| && forall k :: 0 <= k <= n ==> Ready(symbols[k], st0.shares, prices)
    requires Liquidate(st0, symbols[..n], prices) == done
    ensures Ready(symbols[n], done.shares, prices)
    ensures Liquidate(st0, symbols[..n + 1], prices) == LiqStep(done, symbols[n], prices)
  {
    assert symbols[..n + 1][..n] == symbols[..n];
  }

  /** One turn of the loop on the loop's own variables. */
  method SellOne(value: real, power: real, held: map<string, real>, s: string, priceInfo: map<string, real>)
    returns (value': real, power': real, held': map<string, real>)
    requires Ready(s, held, priceInfo)
    ensures Liq(value', power', held') == LiqStep(Liq(value, power, held), s, priceInfo)
  {
    LiqStepBranches(Liq(value, power, held), s, priceInfo);
    value', power', held' := value, power, held;
    var count := held[s];
    if count >= 0.0 {
      value' := value + Worth(count, priceInfo[s]);
    } else {
      power' := power + Worth(count, priceInfo[s]);
    }
    held' := held[s := 0.0];
  }

  /** The loop of `_update_portfolio_value` over the symbols in order, stopping at the
      first symbol without a share count or a price; `n` is how far it got. */
  method LiquidateLoop(symbols: seq<string>, shares: map<string, real>, buyingPower: real, priceInfo: map<string, real>)
    returns (n: nat, st: Liq)
    ensures n == PricedPrefix(symbols, shares, priceInfo)
    ensures st == Liquidate(Liq(0.0, buyingPower, shares), symbols[..n], priceInfo)
  {
    ghost var st0 := Liq(0.0, buyingPower, shares);
    var value, power, held := 0.0, buyingPower, shares;
    n := 0;
    while n < |symbols|
      invariant 0 <= n <= |symbols|
      invariant forall k :: 0 <= k < n ==> Ready(symbols[k], shares, priceInfo)
      invariant Liq(value, power, held) == Liquidate(st0, symbols[..n], priceInfo)
    {
      var s := symbols[n];
      if s !in held || s !in priceInfo {
        break;
      }
      LiquidateNext(st0, symbols, n, priceInfo, Liq(value, power, held));
      value, power, held := SellOne(value, power, held, s, priceInfo);
      n := n + 1;
    }
    PricedPrefixExact(symbols, shares, priceInfo, n);
    st := Liq(value, power, held);
  }

  // ---------------------------------------------------------------------------
  // Weight normalisation in `_markowitz_portfolio_weight`

  function Abs(x: real): real { if x < 0.0 then -x else x }

  /** `sum(abs(i) for i in weights)`. */
  function AbsSum(ws: seq<real>): (r: real)
    ensures r >= 0.0
  {
    if ws == [] then 0.0 else AbsSum(ws[..|ws| - 1]) + Abs(ws[|ws| - 1])
  }

  /** Each weight divided by `d`. */
  function Divided(ws: seq<real>, d: real): (r: seq<real>)
    requires d != 0.0
    ensures |r| == |ws|
    ensures forall k :: 0 <= k < |r| ==> r[k] == ws[k] / d
  {
    seq(|ws|, k requires 0 <= k < |ws| => ws[k] / d)
  }

  /** Linear normalisation: weights whose absolute values sum to zero stay as they are,
      all others are divided by that sum. */
  function Normalized(ws: seq<real>): (r: seq<real>)
    ensures |r| == |ws|
  {
    if AbsSum(ws) == 0.0 then ws else Divided(ws, AbsSum(ws))
  }

  /** The absolute values sum to zero exactly when every weight is zero. */
  lemma {:induction false} AbsSumZero(ws: seq<real>)
    ensures AbsSum(ws) == 0.0 <==> forall k :: 0 <= k < |ws| ==> ws[k] == 0.0
  {
    if ws != [] {
      var init := ws[..|ws| - 1];
      AbsSumZero(init);
      if AbsSum(ws) == 0.0 {
        forall k | 0 <= k < |ws| ensures ws[k] == 0.0 {
          if k < |init| { assert init[k] == ws[k]; }
        }
      } else {
        assert AbsSum(init) != 0.0 || ws[|ws| - 1] != 0.0;
        if AbsSum(init) != 0.0 {
          var k :| 0 <= k < |init| && init[k] != 0.0;
          assert ws[k] == init[k];
        }
      }
    }
  }

  lemma {:induction false} AbsSumDivided(ws: seq<real>, d: real)
    requires d > 0.0
    ensures AbsSum(Divided(ws, d)) == AbsSum(ws) / d
  {
    if ws != [] {
      var init, x := ws[..|ws| - 1], ws[|ws| - 1];
      AbsSumDivided(init, d);
      assert Divided(ws, d)[..|ws| - 1] == Divided(init, d);
      AbsDiv(x, d);
      DivAdd(AbsSum(init), Abs(x), d);
    }
  }

  lemma {:induction false} AbsDiv(x: real, d: real)
    requires d > 0.0
    ensures Abs(x / d) == Abs(x) / d
  {
    if x < 0.0 {
      assert x / d < 0.0;
      assert -(x / d) == (-x) / d;
    } else {
      assert x / d >= 0.0;
    }
  }

  lemma {:induction false} DivAdd(a: real, b: real, d: real)
    requires d > 0.0
    ensures (a + b) / d == a / d + b / d
  {
  }

  /** After normalising weights that are not all zero their absolute values sum to one. */
  lemma {:induction false} NormalizedUnit(ws: seq<real>)
    requires exists k :: 0 <= k < |ws| && ws[k] != 0.0
    ensures AbsSum(Normalized(ws)) == 1.0
  {
    AbsSumZero(ws);
    var d := AbsSum(ws);
    assert d != 0.0;
    AbsSumDivided(ws, d);
    DivSelf(d);
  }

  lemma {:induction false} DivSelf(d: real)
    requires d > 0.0
    ensures d / d == 1.0
  {
  }

  /** All-zero weights are left unchanged. */
  lemma {:induction false} NormalizedAllZero(ws: seq<real>)
    requires forall k :: 0 <= k < |ws| ==> ws[k] == 0.0
    ensures Normalized(ws) == ws
  {
    AbsSumZero(ws);
  }

  /** Normalising keeps the sign of every weight. */
  lemma {:induction false} NormalizedSign(ws: seq<real>)
    ensures forall k :: 0 <= k < |ws| ==> Sign(Normalized(ws)[k]) == Sign(ws[k])
  {
    var d := AbsSum(ws);
    if d != 0.0 {
      forall k | 0 <= k < |ws| ensures Sign(ws[k] / d) == Sign(ws[k]) {
        if ws[k] > 0.0 {
          assert ws[k] / d > 0.0;
        } else if ws[k] < 0.0 {
          assert ws[k] / d < 0.0;
        }
      }
    }
  }

  /** The normalisation loop of `_markowitz_portfolio_weight`, in place over the weights in
      the dictionary's order. */
  method NormalizeWeights(w: array<real>)
    modifies w
    ensures w[..] == Normalized(old(w[..]))
  {
    var total := 0.0;
    var i := 0;
    while i < w.Length
      invariant 0 <= i <= w.Length
      invariant total == AbsSum(w[..i])
    {
      assert w[..i + 1][..i] == w[..i];
      total := total + Abs(w[i]);
      i := i + 1;
    }
    assert w[..] == w[..w.Length];
    if total != 0.0 {
      var j := 0;
      while j < w.Length
        invariant 0 <= j <= w.Length
        invariant forall k :: 0 <= k < j ==> w[k] == old(w[k]) / total
        invariant forall k :: j <= k < w.Length ==> w[k] == old(w[k])
      {
        w[j] := w[j] / total;
        j := j + 1;
      }
    }
  }

  // ---------------------------------------------------------------------------
  // Feedback: `get_feedback_response` and `_assemble_feedback_response`

  /** `[f for _ in range(n)]`. */
  function Repeat(f: int, n: nat): (r: seq<int>)
    ensures |r| == n
    ensures forall k :: 0 <= k < n ==> r[k] == f
  {
    if n == 0 then [] else Repeat(f, n - 1) + [f]
  }

  /** How many symbols, in order, have an evidence deque with a step in it. */
  function Cited(symbols: seq<string>, evidence: map<string, seq<seq<nat>>>): (n: nat)
    ensures n <= |symbols|
    ensures forall k :: 0 <= k < n ==> symbols[k] in evidence && evidence[symbols[k]] != []
    ensures n < |symbols| ==> symbols[n] !in evidence || evidence[symbols[n]] == []
  {
    if symbols == [] || symbols[0] !in evidence || evidence[symbols[0]] == [] then 0
    else 1 + Cited(symbols[1..], evidence)
  }

  /** One record per symbol in order, carrying the ids cited at the oldest step of its
      window, each with feedback `f`; the first symbol without evidence stops it with a
      `KeyError`, the first with an empty deque with an `IndexError`. */
  function Assembled(symbols: seq<string>, evidence: map<string, seq<seq<nat>>>, f: int): (r: Result<seq<AccessMulti>>)
    ensures r.Ok? <==> Cited(symbols, evidence) == |symbols|
    ensures r.Ok? ==> |r.value| == |symbols| && forall k :: 0 <= k < |symbols| ==>
      r.value[k].symbol == symbols[k] && r.value[k].ids == evidence[symbols[k]][0]
      && r.value[k].feedback == Repeat(f, |r.value[k].ids|)
    ensures r.Err? ==> var n := Cited(symbols, evidence);
      n < |symbols| && r.error == (if symbols[n] in evidence then IndexError else KeyError(symbols[n]))
  {
    if symbols == [] then Ok([])
    else
      var s := symbols[0];
      if s !in evidence then Err(KeyError(s))
      else if evidence[s] == [] then Err(IndexError)
      else
        match Assembled(symbols[1..], evidence, f)
        case Err(e) => Err(e)
        case Ok(rest) =>
          var ids := evidence[s][0];
          Ok([AccessMulti(s, ids, Repeat(f, |ids|))] + rest)
  }

  /** The records `done` followed by the outcome `rest` of the remaining symbols. */
  function After(done: seq<AccessMulti>, rest: Result<seq<AccessMulti>>): Result<seq<AccessMulti>>
  {
    match rest
    case Err(e) => Err(e)
    case Ok(more) => Ok(done + more)
  }

  lemma {:induction false} AfterAppend(done: seq<AccessMulti>, x: AccessMulti, rest: Result<seq<AccessMulti>>)
    ensures After(done, After([x], rest)) == After(done + [x], rest)
  {
    if rest.Ok? {
      assert done + ([x] + rest.value) == done + [x] + rest.value;
    }
  }

  /** Everything a multi-asset portfolio holds; also the `MultiPortfolioDump` record. */
  datatype MultiDump = MultiDump(
    symbols: seq<string>,
    buyingPower: real,
    lookBackWindowSize: nat,
    valueDeque: seq<real>,
    evidenceDeque: map<string, seq<seq<nat>>>,
    tradingDates: seq<Date>,
    tradingPrice: map<string, seq<real>>,
    portfolioValue: seq<real>,
    shares: map<string, real>,
    curValue: Option<real>,
    config: PortfolioConfig)
  {
    /** The deques fit their maximum length and there is one evidence deque per symbol. */
    ghost predicate Bounded() {
      |valueDeque| <= lookBackWindowSize
      && (forall s :: s in evidenceDeque ==> |evidenceDeque[s]| <= lookBackWindowSize)
      && evidenceDeque.Keys == set s | s in symbols
    }

    /** Loading looks up every symbol's evidence, and its prices when loading for a test. */
    predicate Loadable(loadForTest: bool) {
      forall s :: s in symbols ==> s in evidenceDeque && (loadForTest ==> s in tradingPrice)
    }

    /** How loading ends: the evidence of every symbol is looked up first, so a `KeyError`
        names the first symbol without evidence; only then, for a test, the prices, where
        it names the first symbol without prices. */
    function LoadStatus(loadForTest: bool): Result<()>
    {
      var e := CoveredPrefix(symbols, evidenceDeque);
      var p := CoveredPrefix(symbols, tradingPrice);
      if e < |symbols| then Err(KeyError(symbols[e]))
      else if loadForTest && p < |symbols| then Err(KeyError(symbols[p]))
      else Ok(())
    }

    /** The portfolio `PortfolioMultiAsset(portfolio_dump=..., load_for_test=...)` builds.
        Loading for a test restarts the book: no dates, the last seven prices per symbol
        kept so trading can start at once, no value history, no shares and the configured
        cash as buying power. */
    function Loaded(loadForTest: bool): (d: MultiDump)
      requires Loadable(loadForTest)
      ensures d.Bounded()
      ensures d.symbols == symbols && d.lookBackWindowSize == lookBackWindowSize && d.config == config
      ensures forall s :: s in symbols ==> d.evidenceDeque[s] == DequeFrom(evidenceDeque[s], lookBackWindowSize)
      ensures !loadForTest ==> (
        d.tradingDates == tradingDates && d.tradingPrice == tradingPrice
        && d.portfolioValue == portfolioValue && d.shares == shares && d.curValue == curValue
        && d.buyingPower == buyingPower && d.valueDeque == DequeFrom(valueDeque, lookBackWindowSize))
      ensures loadForTest ==> (
        d.tradingDates == [] && d.portfolioValue == [] && d.valueDeque == []
        && d.curValue == None && d.buyingPower == config.cash
        && (forall s :: s in d.shares <==> s in symbols) && (forall s :: s in d.shares ==> d.shares[s] == 0.0)
        && (forall s :: s in d.tradingPrice <==> s in symbols)
        && (forall s :: s in symbols ==> d.tradingPrice[s] == DequeFrom(tradingPrice[s], 7)))
    {
      var evidence := map s | s in symbols :: DequeFrom(evidenceDeque[s], lookBackWindowSize);
      if loadForTest then
        MultiDump(symbols, config.cash, lookBackWindowSize, [], evidence, [],
                  map s | s in symbols :: DequeFrom(tradingPrice[s], 7), [],
                  map s | s in symbols :: 0.0, None, config)
      else
        this.(valueDeque := DequeFrom(valueDeque, lookBackWindowSize), evidenceDeque := evidence)
    }

    /** How `_update_portfolio_value` ends: a `KeyError` for the first symbol without a
        share count or a price. */
    function RevalueStatus(priceInfo: map<string, real>): (r: Result<()>)
      ensures r.Ok? <==> forall s :: s in symbols ==> Ready(s, shares, priceInfo)
    {
      var n := PricedPrefix(symbols, shares, priceInfo);
      if n < |symbols| then Err(KeyError(symbols[n])) else Ok(())
    }

    /** The state after `_update_portfolio_value`: the symbols before the first one that
        cannot be priced are liquidated; when all can be, the resulting value is recorded
        in the history and the window and becomes the buying power. */
    function Revalued(priceInfo: map<string, real>): (d: MultiDump)
      requires Bounded()
      ensures d.Bounded()
    {
      var n := PricedPrefix(symbols, shares, priceInfo);
      Settled(n, Liquidate(Liq(0.0, buyingPower, shares), symbols[..n], priceInfo))
    }

    /** The state once the liquidation loop stopped after `n` symbols in state `st`. */
    function Settled(n: nat, st: Liq): (d: MultiDump)
      requires Bounded()
      ensures d.Bounded()
    {
      if n < |symbols| then this.(buyingPower := st.buyingPower, shares := st.shares)
      else
        var v := st.longValue + st.buyingPower;
        this.(buyingPower := v, shares := st.shares, curValue := Some(v),
              portfolioValue := portfolioValue + [v],
              valueDeque := DequeAppend(valueDeque, v, lookBackWindowSize))
    }

    /** `get_feedback_response`: nothing until the history is longer than the window;
        then the sign of the window's reward decides the feedback of every symbol's
        oldest cited ids, and a zero reward gives nothing. */
    function Feedback(): (r: Result<seq<AccessMulti>>)
      ensures |tradingDates| <= lookBackWindowSize ==> r == Ok([])
    {
      if |tradingDates| <= lookBackWindowSize then Ok([])
      else
        var diff := PairwiseDiff(valueDeque);
        match CumSum(ElementWiseMul(diff, Repeat(1, |diff|)))
        case Err(e) => Err(e)
        case Ok(reward) =>
          if reward == 0.0 then Ok([])
          else Assembled(symbols, evidenceDeque, if reward > 0.0 then 1 else -1)
    }
  }

  /** After `_update_portfolio_value` succeeds every symbol holds no shares, the current
      value equals the buying power, that value was appended once to the history and to
      the window, and (for distinct symbols) it is the old buying power plus the
      mark-to-market value of the old holdings. A failure leaves the history, the window
      and the current value alone. */
  lemma {:induction false} RevaluedSettles(d: MultiDump, priceInfo: map<string, real>)
    requires d.Bounded()
    ensures var e := d.Revalued(priceInfo);
      d.RevalueStatus(priceInfo).Err? ==>
        e.portfolioValue == d.portfolioValue && e.valueDeque == d.valueDeque && e.curValue == d.curValue
    ensures var e := d.Revalued(priceInfo);
      d.RevalueStatus(priceInfo).Ok? ==>
        (forall k :: 0 <= k < |d.symbols| ==> e.shares[d.symbols[k]] == 0.0)
        && e.curValue == Some(e.buyingPower)
        && e.portfolioValue == d.portfolioValue + [e.buyingPower]
        && e.valueDeque == DequeFrom(d.valueDeque + [e.buyingPower], d.lookBackWindowSize)
        && (Distinct(d.symbols) ==> e.buyingPower == d.buyingPower + MarkToMarket(d.symbols, d.shares, priceInfo))
  {
    var n := PricedPrefix(d.symbols, d.shares, priceInfo);
    var st := Liquidate(Liq(0.0, d.buyingPower, d.shares), d.symbols[..n], priceInfo);
    RevaluedAfter(d, priceInfo, n, st);
    SettledFields(d, n, st);
    if n == |d.symbols| {
      assert d.symbols[..n] == d.symbols;
      RevaluedLiquidatesAll(d, priceInfo);
    }
  }

  /** When every symbol is priced, the liquidation clears every symbol and adds the
      mark-to-market value of the holdings to the buying power. */
  lemma {:induction false} RevaluedLiquidatesAll(d: MultiDump, priceInfo: map<string, real>)
    requires d.Bounded()
    requires PricedPrefix(d.symbols, d.shares, priceInfo) == |d.symbols|
    ensures var st := Liquidate(Liq(0.0, d.buyingPower, d.shares), d.symbols, priceInfo);
      (forall k :: 0 <= k < |d.symbols| ==> st.shares[d.symbols[k]] == 0.0)
      && (Distinct(d.symbols) ==> st.longValue + st.buyingPower == d.buyingPower + MarkToMarket(d.symbols, d.shares, priceInfo))
  {
    var st0 := Liq(0.0, d.buyingPower, d.shares);
    var st := Liquidate(st0, d.symbols, priceInfo);
    LiquidateZeroes(st0, d.symbols, priceInfo);
    if Distinct(d.symbols) {
      LiquidationValue(st0, d.symbols, priceInfo);
    }
  }

  lemma {:induction false} SettledAll(d: MultiDump, n: nat, st: Liq)
    requires d.Bounded()
    ensures n < |d.symbols| ==> d.Settled(n, st) == d.(buyingPower := st.buyingPower, shares := st.shares)
    ensures var v := st.longValue + st.buyingPower;
      n >= |d.symbols| ==>
      d.Settled(n, st) == d.(buyingPower := v, shares := st.shares, curValue := Some(v),
                             portfolioValue := d.portfolioValue + [v],
                             valueDeque := DequeAppend(d.valueDeque, v, d.lookBackWindowSize))
  {
  }

  /** `SettledAll` field by field. */
  lemma {:induction false} SettledFields(d: MultiDump, n: nat, st: Liq)
    requires d.Bounded()
    ensures var e := d.Settled(n, st);
      e.shares == st.shares
      && (n < |d.symbols| ==>
            e.portfolioValue == d.portfolioValue && e.valueDeque == d.valueDeque && e.curValue == d.curValue)
      && (n >= |d.symbols| ==>
            e.buyingPower == st.longValue + st.buyingPower && e.curValue == Some(e.buyingPower)
            && e.portfolioValue == d.portfolioValue + [e.buyingPower]
            && e.valueDeque == DequeFrom(d.valueDeque + [e.buyingPower], d.lookBackWindowSize))
  {
    SettledAll(d, n, st);
  }

  lemma {:induction false} RevaluedAfter(d: MultiDump, priceInfo: map<string, real>, n: nat, st: Liq)
    requires d.Bounded()
    requires n == PricedPrefix(d.symbols, d.shares, priceInfo)
    requires st == Liquidate(Liq(0.0, d.buyingPower, d.shares), d.symbols[..n], priceInfo)
    ensures d.Revalued(priceInfo) == d.Settled(n, st)
    ensures d.RevalueStatus(priceInfo) == if n < |d.symbols| then Err(KeyError(d.symbols[n])) else Ok(())
  {
  }

  /** Saving and loading (not for a test) gives back the portfolio that was saved. */
  lemma {:induction false} LoadRoundTrip(d: MultiDump)
    requires d.Bounded()
    ensures d.Loadable(false)
    ensures d.Loaded(false) == d
  {
    var e := d.Loaded(false).evidenceDeque;
    assert e.Keys == d.evidenceDeque.Keys;
  }

  /** Loading fails exactly when a symbol lacks its evidence, or its prices for a test,
      and a symbol without evidence is reported before any symbol without prices. */
  lemma {:induction false} LoadStatusOutcome(d: MultiDump, loadForTest: bool)
    ensures d.LoadStatus(loadForTest).Ok? <==> d.Loadable(loadForTest)
    ensures (exists k :: 0 <= k < |d.symbols| && d.symbols[k] !in d.evidenceDeque) ==>
      d.LoadStatus(loadForTest) == Err(KeyError(d.symbols[CoveredPrefix(d.symbols, d.evidenceDeque)]))
  {
    var e := CoveredPrefix(d.symbols, d.evidenceDeque);
    var p := CoveredPrefix(d.symbols, d.tradingPrice);
    if !d.Loadable(loadForTest) {
      var s :| s in d.symbols && !(s in d.evidenceDeque && (loadForTest ==> s in d.tradingPrice));
      var k :| 0 <= k < |d.symbols| && d.symbols[k] == s;
      assert e <= k || (loadForTest && p <= k);
    }
  }

  /** The state `PortfolioMultiAsset(portfolio_config=...)` starts from: the configured
      symbols, cash and window, no shares, nothing recorded and no current value. */
  function FreshMulti(c: PortfolioConfig): MultiDump
  {
    MultiDump(c.tradingSymbols, c.cash, c.lookBackWindowSize, [], map s | s in c.tradingSymbols :: [], [],
              map s | s in c.tradingSymbols :: [], [], map s | s in c.tradingSymbols :: 0.0, None, c)
  }

  /** A freshly configured portfolio is bounded, and a checkpoint of it loads back to the
      same state, for a test as well as for a resumed run. */
  lemma {:induction false} FreshLoadsBack(c: PortfolioConfig)
    ensures FreshMulti(c).Bounded() && FreshMulti(c).Loadable(false) && FreshMulti(c).Loadable(true)
    ensures FreshMulti(c).Loaded(false) == FreshMulti(c)
    ensures FreshMulti(c).Loaded(true) == FreshMulti(c)
  {
    var d := FreshMulti(c);
    LoadRoundTrip(d);
    var t := d.Loaded(true);
    assert t.tradingPrice == d.tradingPrice;
    assert t.evidenceDeque == d.evidenceDeque;
  }

  /** Once the history is longer than the window the reward is the change of portfolio
      value from the oldest to the newest value in the window: no feedback when the value
      did not move, otherwise its sign for every symbol's oldest cited ids. A window of
      fewer than two values has no change to sum, which is an `IndexError`. */
  lemma {:induction false} FeedbackFollowsValueChange(d: MultiDump)
    requires |d.tradingDates| > d.lookBackWindowSize
    ensures |d.valueDeque| < 2 ==> d.Feedback() == Err(IndexError)
    ensures |d.valueDeque| >= 2 ==>
      var change := d.valueDeque[|d.valueDeque| - 1] - d.valueDeque[0];
      d.Feedback() == if change == 0.0 then Ok([]) else Assembled(d.symbols, d.evidenceDeque, Sign(change))
  {
    var diff := PairwiseDiff(d.valueDeque);
    MulByOnes(diff, Repeat(1, |diff|));
    if |d.valueDeque| >= 2 {
      Telescope(d.valueDeque);
    }
  }

  // ---------------------------------------------------------------------------
  // PortfolioMultiAsset

  class MultiAsset {
    var symbols: seq<string>
    var buyingPower: real
    var lookBack: nat
    var config: PortfolioConfig
    var valueDeque: seq<real>
    var evidenceDeque: map<string, seq<seq<nat>>>
    var tradingDates: seq<Date>
    var tradingPrice: map<string, seq<real>>
    var portfolioValue: seq<real>
    var shares: map<string, real>
    var curValue: Option<real>

    /** The whole state, as `save_checkpoint` dumps it. */
    function ToDump(): MultiDump
      reads this
    {
      MultiDump(symbols, buyingPower, lookBack, valueDeque, evidenceDeque, tradingDates,
                tradingPrice, portfolioValue, shares, curValue, config)
    }

    ghost predicate Valid()
      reads this
    {
      ToDump().Bounded()
    }

    constructor InitFromConfig(c: PortfolioConfig)
      ensures Valid() && ToDump() == FreshMulti(c)
      ensures symbols == c.tradingSymbols && buyingPower == c.cash && lookBack == c.lookBackWindowSize
      ensures config == c && valueDeque == [] && tradingDates == [] && portfolioValue == [] && curValue == None
      ensures forall s :: s in evidenceDeque <==> s in symbols
      ensures forall s :: s in evidenceDeque ==> evidenceDeque[s] == []
      ensures forall s :: s in tradingPrice <==> s in symbols
      ensures forall s :: s in tradingPrice ==> tradingPrice[s] == []
      ensures forall s :: s in shares <==> s in symbols
      ensures forall s :: s in shares ==> shares[s] == 0.0
    {
      symbols := c.tradingSymbols;
      buyingPower := c.cash;
      lookBack := c.lookBackWindowSize;
      config := c;
      valueDeque := [];
      evidenceDeque := map s | s in c.tradingSymbols :: [];
      tradingDates := [];
      tradingPrice := map s | s in c.tradingSymbols :: [];
      portfolioValue := [];
      shares := map s | s in c.tradingSymbols :: 0.0;
      curValue := None;
    }

    constructor InitFromDump(d: MultiDump, loadForTest: bool)
      requires d.Loadable(loadForTest)
      ensures Valid()
      ensures ToDump() == d.Loaded(loadForTest)
    {
      var e := d.Loaded(loadForTest);
      symbols := e.symbols;
      buyingPower := e.buyingPower;
      lookBack := e.lookBackWindowSize;
      config := e.config;
      valueDeque := e.valueDeque;
      evidenceDeque := e.evidenceDeque;
      tradingDates := e.tradingDates;
      tradingPrice := e.tradingPrice;
      portfolioValue := e.portfolioValue;
      shares := e.shares;
      curValue := e.curValue;
    }

    /** The end of `_update_portfolio_value` once every symbol is liquidated: the value
        becomes the current value and the buying power and joins the history and the
        window. */
    method RecordValue(value: real)
      requires Valid()
      modifies this
      ensures ToDump() == old(ToDump()).(buyingPower := value, curValue := Some(value),
                                         portfolioValue := old(portfolioValue) + [value],
                                         valueDeque := DequeAppend(old(valueDeque), value, old(lookBack)))
      ensures Valid()
    {
      curValue := Some(value);
      valueDeque := DequeAppend(valueDeque, value, lookBack);
      portfolioValue := portfolioValue + [value];
      buyingPower := value;
    }

    /** `_update_portfolio_value`: sell every long holding, buy back every short one, and
        record the resulting value, which becomes the buying power. A symbol without a
        share count or a price stops the loop with a `KeyError`, leaving the symbols
        before it already liquidated. */
    method UpdatePortfolioValue(priceInfo: map<string, real>) returns (r: Result<()>)
      requires Valid()
      modifies this
      ensures r == old(ToDump()).RevalueStatus(priceInfo)
      ensures ToDump() == old(ToDump()).Revalued(priceInfo)
      ensures Valid()
    {
      ghost var d0 := ToDump();
      var n, st := LiquidateLoop(symbols, shares, buyingPower, priceInfo);
      RevaluedAfter(d0, priceInfo, n, st);
      SettledAll(d0, n, st);
      buyingPower, shares := st.buyingPower, st.shares;
      if n < |symbols| {
        return Err(KeyError(symbols[n]));
      }
      RecordValue(st.longValue + st.buyingPower);
      r := Ok(());
    }

    /** `_assemble_feedback_response`, one symbol at a time. */
    method AssembleFeedbackResponse(f: int) returns (r: Result<seq<AccessMulti>>)
      ensures r == Assembled(symbols, evidenceDeque, f)
    {
      var out: seq<AccessMulti> := [];
      var i := 0;
      assert symbols[0..] == symbols;
      assert After([], Assembled(symbols, evidenceDeque, f)) == Assembled(symbols, evidenceDeque, f) by {
        if Assembled(symbols, evidenceDeque, f).Ok? {
          assert [] + Assembled(symbols, evidenceDeque, f).value == Assembled(symbols, evidenceDeque, f).value;
        }
      }
      while i < |symbols|
        invariant 0 <= i <= |symbols|
        invariant Assembled(symbols, evidenceDeque, f) == After(out, Assembled(symbols[i..], evidenceDeque, f))
      {
        var s := symbols[i];
        assert symbols[i..][0] == s && symbols[i..][1..] == symbols[i + 1..];
        if s !in evidenceDeque {
          return Err(KeyError(s));
        }
        if evidenceDeque[s] == [] {
          return Err(IndexError);
        }
        var ids := evidenceDeque[s][0];
        var record := AccessMulti(s, ids, Repeat(f, |ids|));
        AfterAppend(out, record, Assembled(symbols[i + 1..], evidenceDeque, f));
        out := out + [record];
        i := i + 1;
      }
      assert symbols[i..] == [] && out + [] == out;
      r := Ok(out);
    }

    /** `get_feedback_response` on the current state. */
    method GetFeedbackResponse() returns (r: Result<seq<AccessMulti>>)
      ensures r == ToDump().Feedback()
    {
      if |tradingDates| <= lookBack {
        return Ok([]);
      }
      var diff := PairwiseDiff(valueDeque);
      var reward := CumSum(ElementWiseMul(diff, Repeat(1, |diff|)));
      if reward.Err? {
        return Err(reward.error);
      }
      if reward.value == 0.0 {
        return Ok([]);
      }
      r := AssembleFeedbackResponse(if reward.value > 0.0 then 1 else -1);
    }
  }

  /** The lookups of the dump branch: every symbol's evidence, then, for a test, every
      symbol's prices. */
  method CheckLoadable(d: MultiDump, loadForTest: bool) returns (r: Result<()>)
    ensures r == d.LoadStatus(loadForTest)
  {
    var i := 0;
    while i < |d.symbols|
      invariant 0 <= i <= |d.symbols|
      invariant forall k :: 0 <= k < i ==> d.symbols[k] in d.evidenceDeque
    {
      if d.symbols[i] !in d.evidenceDeque {
        return Err(KeyError(d.symbols[i]));
      }
      i := i + 1;
    }
    if loadForTest {
      i := 0;
      while i < |d.symbols|
        invariant 0 <= i <= |d.symbols|
        invariant forall k :: 0 <= k < i ==> d.symbols[k] in d.tradingPrice
      {
        if d.symbols[i] !in d.tradingPrice {
          return Err(KeyError(d.symbols[i]));
        }
        i := i + 1;
      }
    }
    r := Ok(());
  }

  /** `PortfolioMultiAsset(portfolio_config=..., portfolio_dump=..., load_for_test=...)`:
      a `ValueError` unless exactly one is given, a `KeyError` for a dump that lacks the
      evidence (or, for a test, the prices) of one of its symbols. */
  method NewMultiAsset(config: Option<PortfolioConfig>, dump: Option<MultiDump>, loadForTest: bool)
    returns (r: Result<MultiAsset>)
    ensures r.Err? <==> ChooseInit(config, dump).Err? || (dump.Some? && config.None? && !dump.value.Loadable(loadForTest))
    ensures r.Err? && ChooseInit(config, dump).Ok? ==> r.error.KeyError?
    ensures r.Ok? ==> fresh(r.value) && r.value.Valid()
    ensures r.Ok? && config.Some? ==> r.value.ToDump() == FreshMulti(config.value)
    ensures r.Ok? && dump.Some? ==> r.value.ToDump() == dump.value.Loaded(loadForTest)
    ensures config.None? && dump.Some? ==> (r.Err? <==> dump.value.LoadStatus(loadForTest).Err?)
    ensures config.None? && dump.Some? && r.Err? ==> r.error == dump.value.LoadStatus(loadForTest).error
  {
    var choice := ChooseInit(config, dump);
    if choice.Err? {
      r := Err(choice.error);
    } else if choice.value == FromConfig {
      var p := new MultiAsset.InitFromConfig(config.value);
      r := Ok(p);
    } else {
      var d := dump.value;
      var status := CheckLoadable(d, loadForTest);
      LoadStatusOutcome(d, loadForTest);
      if status.Err? {
        return Err(status.error);
      }
      var p := new MultiAsset.InitFromDump(d, loadForTest);
      r := Ok(p);
    }
  }
}
