/** Portfolio bookkeeping of the trading agent: the list helpers the reward is computed
    with, bounded deques, and the single-asset portfolio that turns a window of positions
    and prices into reinforcement for the memories cited as evidence. Prices are `real`:
    only sums and signs matter to the feedback. */
module Portfolio {
  import opened Common

  datatype TradeAction = Buy | Sell | Hold {
    /** The enum's value, the word the language model answers with. */
    function Value(): string {
      match this
      case Buy => "buy"
      case Sell => "sell"
      case Hold => "hold"
    }
  }

  datatype AssetPosition = Long | Short | Neutral {
    function Value(): int {
      match this
      case Long => 1
      case Short => -1
      case Neutral => 0
    }
  }

  /** The direction the multi-asset portfolio hands its optimiser for each action. */
  function ActionDirection(a: TradeAction): int {
    match a
    case Buy => 1
    case Sell => -1
    case Hold => 0
  }

  /** Buying goes long, selling goes short, holding goes flat: the single-asset position
      always carries the direction the multi-asset portfolio gives the same action. */
  function PositionStateTransition(a: TradeAction): (p: AssetPosition)
    ensures p.Value() == ActionDirection(a)
  {
    match a
    case Buy => Long
    case Sell => Short
    case Hold => Neutral
  }

  /** One reinforcement record: memory `id` gets `feedback` (+1 or -1). */
  datatype AccessSingle = AccessSingle(id: nat, feedback: int)

  function Min(a: int, b: int): int { if a <= b then a else b }

  // ---------------------------------------------------------------------------
  // List helpers: pairwise_diff, element_wise_mul, cumsum

  /** `[b - a for a, b in pairwise(xs)]`. */
  function PairwiseDiff(xs: seq<real>): (r: seq<real>)
    ensures |r| == if |xs| == 0 then 0 else |xs| - 1
    ensures forall i :: 0 <= i < |r| ==> r[i] == xs[i + 1] - xs[i]
  {
    if |xs| < 2 then [] else PairwiseDiff(xs[..|xs| - 1]) + [xs[|xs| - 1] - xs[|xs| - 2]]
  }

  /** `x * k`: a price move scaled by a position. */
  function Scale(x: real, k: int): real { x * k as real }

  /** `list(map(mul, a, b))`: stops at the shorter list. */
  function ElementWiseMul(a: seq<real>, b: seq<int>): (r: seq<real>)
    ensures |r| == Min(|a|, |b|)
    ensures forall i :: 0 <= i < |r| ==> r[i] == Scale(a[i], b[i])
  {
    if |a| == 0 || |b| == 0 then [] else [Scale(a[0], b[0])] + ElementWiseMul(a[1..], b[1..])
  }

  /** Sum of a list, added up from the left. */
  function Total(xs: seq<real>): real
  {
    if xs == [] then 0.0 else Total(xs[..|xs| - 1]) + xs[|xs| - 1]
  }

  /** `list(accumulate(xs))`: the running totals. */
  function Accumulate(xs: seq<real>): (r: seq<real>)
    ensures |r| == |xs|
    ensures forall i :: 0 <= i < |xs| ==> r[i] == Total(xs[..i + 1])
  {
    if xs == [] then []
    else
      var prev := Accumulate(xs[..|xs| - 1]);
      var last := (if prev == [] then 0.0 else prev[|prev| - 1]) + xs[|xs| - 1];
      forall i | 0 <= i < |prev| ensures prev[i] == Total(xs[..i + 1]) {
        assert xs[..|xs| - 1][..i + 1] == xs[..i + 1];
      }
      assert xs[..|xs|] == xs;
      prev + [last]
  }

  /** `cumsum`: the last running total, an `IndexError` for an empty list. */
  function CumSum(xs: seq<real>): (r: Result<real>)
    ensures xs == [] <==> r == Err(IndexError)
    ensures r.Ok? ==> r.value == Total(xs)
  {
    var sums := Accumulate(xs);
    if sums == [] then Err(IndexError)
    else
      assert xs[..|xs|] == xs;
      Ok(sums[|sums| - 1])
  }

  lemma {:induction false} TotalSnoc(xs: seq<real>, x: real)
    ensures Total(xs + [x]) == Total(xs) + x
  {
    assert (xs + [x])[..|xs|] == xs;
  }

  /** A sum of consecutive differences telescopes to last minus first. */
  lemma {:induction false} Telescope(xs: seq<real>)
    requires |xs| >= 1
    ensures Total(PairwiseDiff(xs)) == xs[|xs| - 1] - xs[0]
  {
    if |xs| >= 2 {
      var init := xs[..|xs| - 1];
      Telescope(init);
      assert PairwiseDiff(xs) == PairwiseDiff(init) + [xs[|xs| - 1] - xs[|xs| - 2]];
      TotalSnoc(PairwiseDiff(init), xs[|xs| - 1] - xs[|xs| - 2]);
    }
  }

  /** Multiplying element-wise by a list of ones of the same length changes nothing. */
  lemma {:induction false} MulByOnes(xs: seq<real>, ones: seq<int>)
    requires |ones| == |xs| && forall i :: 0 <= i < |ones| ==> ones[i] == 1
    ensures ElementWiseMul(xs, ones) == xs
  {
    var r := ElementWiseMul(xs, ones);
    forall i | 0 <= i < |xs| ensures r[i] == xs[i] {
      assert r[i] == Scale(xs[i], ones[i]);
    }
  }

  // ---------------------------------------------------------------------------
  // collections.deque with a maxlen

  /** `deque(xs, maxlen=maxlen)`: only the newest `maxlen` items are kept. */
  function DequeFrom<T>(xs: seq<T>, maxlen: nat): (r: seq<T>)
    ensures |r| == Min(|xs|, maxlen)
  {
    if |xs| <= maxlen then xs else xs[|xs| - maxlen..]
  }

  /** `q.append(x)` on a deque with a maxlen: when full, the oldest item falls out. */
  function DequeAppend<T>(q: seq<T>, x: T, maxlen: nat): (r: seq<T>)
    requires |q| <= maxlen
    ensures r == DequeFrom(q + [x], maxlen)
    ensures |r| <= maxlen
    ensures maxlen > 0 ==> r[|r| - 1] == x
  {
    if |q| < maxlen then q + [x] else if maxlen == 0 then [] else q[1..] + [x]
  }

  /** Keeping the newest items then appending keeps the newest items of the longer list. */
  lemma {:induction false} DequeFromAppend<T>(xs: seq<T>, x: T, maxlen: nat)
    ensures DequeAppend(DequeFrom(xs, maxlen), x, maxlen) == DequeFrom(xs + [x], maxlen)
  {
    var ys := xs + [x];
    if |xs| > maxlen && maxlen > 0 {
      assert xs[|xs| - maxlen..][1..] + [x] == ys[|ys| - maxlen..];
    }
  }

  // ---------------------------------------------------------------------------
  // Reward over a window

  /** Each position weighed by the price move into the step it was recorded at, summed
      over a window: `positions[k]` was recorded together with `prices[k + 1]`, and
      counts `prices[k + 1] - prices[k]`. The reference for the single-asset reward. */
  function HeldReturn(prices: seq<real>, positions: seq<int>): real
    requires |prices| == |positions| + 1
  {
    if positions == [] then 0.0
    else HeldReturn(prices[..|prices| - 1], positions[..|positions| - 1])
         + Scale(prices[|prices| - 1] - prices[|prices| - 2], positions[|positions| - 1])
  }

  lemma {:induction false} ElementWiseMulSnoc(a: seq<real>, b: seq<int>, x: real, y: int)
    requires |a| == |b|
    ensures ElementWiseMul(a + [x], b + [y]) == ElementWiseMul(a, b) + [Scale(x, y)]
  {
  }

  /** The feedback reward of a window of `n + 1` prices and `n` positions weighs each
      position by the move from the price before it to its own step's price. */
  lemma {:induction false} WindowReturn(prices: seq<real>, positions: seq<int>)
    requires |prices| == |positions| + 1
    ensures Total(ElementWiseMul(PairwiseDiff(prices), positions)) == HeldReturn(prices, positions)
    decreases |positions|
  {
    if positions != [] {
      var x := Scale(prices[|prices| - 1] - prices[|prices| - 2], positions[|positions| - 1]);
      WindowReturn(prices[..|prices| - 1], positions[..|positions| - 1]);
      MulDiffSnoc(prices, positions);
      TotalSnoc(ElementWiseMul(PairwiseDiff(prices[..|prices| - 1]), positions[..|positions| - 1]), x);
    }
  }

  /** The products of the price moves with the positions, one day at a time. */
  lemma {:induction false} MulDiffSnoc(xs: seq<real>, ys: seq<int>)
    requires |xs| >= 2 && |ys| == |xs| - 1
    ensures ElementWiseMul(PairwiseDiff(xs), ys)
         == ElementWiseMul(PairwiseDiff(xs[..|xs| - 1]), ys[..|ys| - 1])
            + [Scale(xs[|xs| - 1] - xs[|xs| - 2], ys[|ys| - 1])]
  {
    var a := PairwiseDiff(xs[..|xs| - 1]);
    assert PairwiseDiff(xs) == a + [xs[|xs| - 1] - xs[|xs| - 2]];
    assert ys == ys[..|ys| - 1] + [ys[|ys| - 1]];
    ElementWiseMulSnoc(a, ys[..|ys| - 1], xs[|xs| - 1] - xs[|xs| - 2], ys[|ys| - 1]);
  }

  /** `[AccessSingle(id=i, feedback=f) for i in ids]`. */
  function Reinforce(ids: seq<nat>, f: int): (r: seq<AccessSingle>)
    ensures |r| == |ids|
    ensures forall k :: 0 <= k < |r| ==> r[k].id == ids[k] && r[k].feedback == f
  {
    if ids == [] then [] else [AccessSingle(ids[0], f)] + Reinforce(ids[1..], f)
  }

  function Sign(x: real): int {
    if x > 0.0 then 1 else if x < 0.0 then -1 else 0
  }

  // ---------------------------------------------------------------------------
  // Configuration and checkpoints

  /** The keys of the portfolio configuration the portfolios read. */
  datatype PortfolioConfig = PortfolioConfig(tradingSymbols: seq<string>, lookBackWindowSize: nat, cash: real)

  datatype InitSource = FromConfig | FromDump

  /** Exactly one of a configuration and a checkpoint dump must be given. */
  function ChooseInit<C, D>(config: Option<C>, dump: Option<D>): (r: Result<InitSource>)
    ensures r.Err? <==> (config.Some? <==> dump.Some?)
    ensures r.Err? ==> r.error.ValueError?
    ensures r == Ok(FromConfig) <==> config.Some? && dump.None?
    ensures r == Ok(FromDump) <==> config.None? && dump.Some?
  {
    if config.Some? && dump.Some? then
      Err(ValueError("Only one of portfolio_config and portfolio_dump should be provided."))
    else if config.Some? then Ok(FromConfig)
    else if dump.Some? then Ok(FromDump)
    else Err(ValueError("Either portfolio_config or portfolio_dump should be provided."))
  }

  /** Everything a single-asset portfolio holds; also the `SinglePortfolioDump` record
      that `save_checkpoint` writes. */
  datatype SingleDump = SingleDump(
    symbol: string,
    position: AssetPosition,
    lookBackWindowSize: nat,
    tradingDates: seq<Date>,
    tradingPrice: seq<real>,
    tradingSymbols: seq<string>,
    tradingPosition: seq<int>,
    positionDeque: seq<int>,
    priceDeque: seq<real>,
    evidenceDeque: seq<seq<nat>>)
  {
    /** The deques fit their maximum lengths. */
    predicate Bounded() {
      |positionDeque| <= lookBackWindowSize && |priceDeque| <= lookBackWindowSize + 1
      && |evidenceDeque| <= lookBackWindowSize
    }

    /** For a portfolio built from a configuration: the four records grow together and
        each deque holds the newest part of its record. */
    predicate Windowed() {
      |tradingPrice| == |tradingDates| && |tradingSymbols| == |tradingDates|
      && |tradingPosition| == |tradingDates|
      && positionDeque == DequeFrom(tradingPosition, lookBackWindowSize)
      && priceDeque == DequeFrom(tradingPrice, lookBackWindowSize + 1)
      && |evidenceDeque| == Min(|tradingDates|, lookBackWindowSize)
    }

    /** What loading keeps: each deque is rebuilt with its maxlen. */
    function Restored(): (d: SingleDump)
      ensures d.Bounded()
    {
      this.(positionDeque := DequeFrom(positionDeque, lookBackWindowSize),
            priceDeque := DequeFrom(priceDeque, lookBackWindowSize + 1),
            evidenceDeque := DequeFrom(evidenceDeque, lookBackWindowSize))
    }

    /** The state after `record_action`. Without a price for the traded symbol the
        `KeyError` comes after the position and the date were already recorded. */
    function Recorded(date: Date, action: TradeAction, priceInfo: map<string, real>, evidence: seq<nat>): (d: SingleDump)
      requires Bounded()
      ensures d.Bounded()
      ensures d.position == PositionStateTransition(action)
      ensures d.tradingDates == tradingDates + [date]
      ensures symbol !in priceInfo ==> d == this.(position := d.position, tradingDates := d.tradingDates)
      ensures symbol in priceInfo ==>
        d.symbol == symbol && d.lookBackWindowSize == lookBackWindowSize
        && d.tradingPrice == tradingPrice + [priceInfo[symbol]] && d.tradingSymbols == tradingSymbols + [symbol]
        && d.tradingPosition == tradingPosition + [d.position.Value()]
        && d.positionDeque == DequeFrom(positionDeque + [d.position.Value()], lookBackWindowSize)
        && d.priceDeque == DequeFrom(priceDeque + [priceInfo[symbol]], lookBackWindowSize + 1)
        && d.evidenceDeque == DequeFrom(evidenceDeque + [evidence], lookBackWindowSize)
    {
      var cur := PositionStateTransition(action);
      var moved := this.(position := cur, tradingDates := tradingDates + [date]);
      if symbol !in priceInfo then moved
      else
        var price := priceInfo[symbol];
        moved.(tradingPrice := tradingPrice + [price],
               tradingSymbols := tradingSymbols + [symbol],
               tradingPosition := tradingPosition + [cur.Value()],
               positionDeque := DequeAppend(positionDeque, cur.Value(), lookBackWindowSize),
               priceDeque := DequeAppend(priceDeque, price, lookBackWindowSize + 1),
               evidenceDeque := DequeAppend(evidenceDeque, evidence, lookBackWindowSize))
    }

    /** `get_feedback_response`: nothing until the history is longer than the window;
        then every id cited at the oldest step of the window gets the sign of the
        window's reward, and a zero reward gives nothing. */
    function Feedback(): (r: Result<seq<AccessSingle>>)
      ensures |tradingDates| <= lookBackWindowSize ==> r == Ok([])
      ensures r.Ok? && r.value != [] ==>
        |evidenceDeque| > 0 && |r.value| == |evidenceDeque[0]|
        && (r.value[0].feedback == 1 || r.value[0].feedback == -1)
        && forall k :: 0 <= k < |r.value| ==>
             r.value[k].id == evidenceDeque[0][k] && r.value[k].feedback == r.value[0].feedback
    {
      if |tradingDates| <= lookBackWindowSize then Ok([])
      else
        match CumSum(ElementWiseMul(PairwiseDiff(priceDeque), positionDeque))
        case Err(e) => Err(e)
        case Ok(reward) =>
          if reward == 0.0 then Ok([])
          else if |evidenceDeque| == 0 then Err(IndexError)
          else Ok(Reinforce(evidenceDeque[0], if reward > 0.0 then 1 else -1))
    }
  }

  /** Loading a dump that fits its bounds loses nothing. */
  lemma {:induction false} RestoreBounded(d: SingleDump)
    requires d.Bounded()
    ensures d.Restored() == d
  {
  }

  /** The state `PortfolioSingleAsset(portfolio_config=...)` starts from: the first
      configured symbol and the configured window, NEUTRAL, nothing recorded. */
  function FreshSingle(config: PortfolioConfig): SingleDump
    requires |config.tradingSymbols| > 0
  {
    SingleDump(config.tradingSymbols[0], Neutral, config.lookBackWindowSize, [], [], [], [], [], [], [])
  }

  /** A freshly configured portfolio keeps its deques in step with its records, and a
      checkpoint of it loads back to the same state. */
  lemma {:induction false} FreshRestores(config: PortfolioConfig)
    requires |config.tradingSymbols| > 0
    ensures FreshSingle(config).Windowed()
    ensures FreshSingle(config).Restored() == FreshSingle(config)
  {
    RestoreBounded(FreshSingle(config));
  }

  /** After a recorded step the newest entry of each deque is what was just recorded. */
  lemma {:induction false} RecordedNewest(s: SingleDump, date: Date, action: TradeAction, priceInfo: map<string, real>, evidence: seq<nat>)
    requires s.Bounded() && s.symbol in priceInfo && s.lookBackWindowSize > 0
    ensures var d := s.Recorded(date, action, priceInfo, evidence);
      |d.positionDeque| > 0 && d.positionDeque[|d.positionDeque| - 1] == ActionDirection(action)
      && |d.priceDeque| > 0 && d.priceDeque[|d.priceDeque| - 1] == priceInfo[s.symbol]
      && |d.evidenceDeque| > 0 && d.evidenceDeque[|d.evidenceDeque| - 1] == evidence
  {
  }

  /** Recording a step whose price is known keeps each deque the newest part of its
      record. */
  lemma {:induction false} RecordedWindowed(s: SingleDump, date: Date, action: TradeAction, priceInfo: map<string, real>, evidence: seq<nat>)
    requires s.Bounded() && s.Windowed() && s.symbol in priceInfo
    ensures s.Recorded(date, action, priceInfo, evidence).Windowed()
  {
    var d := s.Recorded(date, action, priceInfo, evidence);
    DequeFromAppend(s.tradingPosition, d.position.Value(), s.lookBackWindowSize);
    DequeFromAppend(s.tradingPrice, priceInfo[s.symbol], s.lookBackWindowSize + 1);
  }

  /** In a portfolio built from a configuration with a non-empty window, feedback never
      fails: once the history is longer than the window, the ids cited `L` steps ago are
      reinforced with the sign of the last `L` recorded positions, each weighed by the
      price move into its own step, and get nothing when that sum is zero. */
  lemma {:induction false} FeedbackFollowsHeldReturn(d: SingleDump)
    requires d.Windowed() && d.lookBackWindowSize >= 1 && |d.tradingDates| > d.lookBackWindowSize
    ensures |d.evidenceDeque| == d.lookBackWindowSize
    ensures var n, l := |d.tradingDates|, d.lookBackWindowSize;
      var ret := HeldReturn(d.tradingPrice[n - l - 1..n], d.tradingPosition[n - l..n]);
      d.Feedback() == Ok(if ret == 0.0 then [] else Reinforce(d.evidenceDeque[0], Sign(ret)))
  {
    WindowSlices(d);
    WindowReturn(d.priceDeque, d.positionDeque);
  }

  /** With a window of size 0 the price deque keeps one price, so there is no price
      difference to sum and, once anything is recorded, feedback is an `IndexError`. */
  lemma {:induction false} FeedbackEmptyWindow(d: SingleDump)
    requires d.Windowed() && d.lookBackWindowSize == 0 && |d.tradingDates| > 0
    ensures d.Feedback() == Err(IndexError)
  {
    assert |d.priceDeque| == 1;
    assert PairwiseDiff(d.priceDeque) == [];
  }

  /** Once the history is longer than the window, the deques hold its last days. */
  lemma {:induction false} WindowSlices(d: SingleDump)
    requires d.Windowed() && d.lookBackWindowSize >= 1 && |d.tradingDates| > d.lookBackWindowSize
    ensures var n, l := |d.tradingDates|, d.lookBackWindowSize;
      d.priceDeque == d.tradingPrice[n - l - 1..n] && d.positionDeque == d.tradingPosition[n - l..n]
  {
  }

  // ---------------------------------------------------------------------------
  // PortfolioSingleAsset

  class SingleAsset {
    var symbol: string
    var lookBack: nat
    var position: AssetPosition
    var positionDeque: seq<int>
    var priceDeque: seq<real>
    var evidenceDeque: seq<seq<nat>>
    var tradingDates: seq<Date>
    var tradingPrice: seq<real>
    var tradingSymbols: seq<string>
    var tradingPosition: seq<int>

    /** The whole state, as `save_checkpoint` dumps it. */
    function ToDump(): SingleDump
      reads this
    {
      SingleDump(symbol, position, lookBack, tradingDates, tradingPrice, tradingSymbols,
                 tradingPosition, positionDeque, priceDeque, evidenceDeque)
    }

    /** The three deques never exceed their maximum lengths. */
    ghost predicate Valid()
      reads this
    {
      ToDump().Bounded()
    }

    constructor InitFromConfig(config: PortfolioConfig)
      requires |config.tradingSymbols| > 0
      ensures Valid() && ToDump().Windowed() && ToDump() == FreshSingle(config)
      ensures symbol == config.tradingSymbols[0] && lookBack == config.lookBackWindowSize
      ensures position == Neutral && tradingDates == [] && evidenceDeque == []
    {
      symbol := config.tradingSymbols[0];
      lookBack := config.lookBackWindowSize;
      positionDeque, priceDeque, evidenceDeque := [], [], [];
      tradingDates, tradingPrice, tradingSymbols, tradingPosition := [], [], [], [];
      position := Neutral;
    }

    constructor InitFromDump(d: SingleDump)
      ensures Valid()
      ensures ToDump() == d.Restored()
    {
      position := d.position;
      symbol := d.symbol;
      lookBack := d.lookBackWindowSize;
      positionDeque := DequeFrom(d.positionDeque, d.lookBackWindowSize);
      priceDeque := DequeFrom(d.priceDeque, d.lookBackWindowSize + 1);
      evidenceDeque := DequeFrom(d.evidenceDeque, d.lookBackWindowSize);
      tradingDates := d.tradingDates;
      tradingPrice := d.tradingPrice;
      tradingSymbols := d.tradingSymbols;
      tradingPosition := d.tradingPosition;
    }

    /** `__eq__`: all ten fields agree, which is exactly agreement of the dumps. */
    function Equals(other: SingleAsset): (r: bool)
      reads this, other
      ensures r <==> ToDump() == other.ToDump()
    {
      position == other.position && symbol == other.symbol && lookBack == other.lookBack
      && positionDeque == other.positionDeque && priceDeque == other.priceDeque
      && evidenceDeque == other.evidenceDeque && tradingDates == other.tradingDates
      && tradingPrice == other.tradingPrice && tradingSymbols == other.tradingSymbols
      && tradingPosition == other.tradingPosition
    }

    /** `record_action`: a `KeyError` when the price of the traded symbol is missing. */
    method RecordAction(date: Date, action: TradeAction, priceInfo: map<string, real>, evidence: seq<nat>)
      returns (r: Result<()>)
      requires Valid()
      modifies this
      ensures Valid()
      ensures r == if symbol in priceInfo then Ok(()) else Err(KeyError(symbol))
      ensures ToDump() == old(ToDump()).Recorded(date, action, priceInfo, evidence)
    {
      ghost var next := ToDump().Recorded(date, action, priceInfo, evidence);
      var cur := PositionStateTransition(action);
      position := cur;
      tradingDates := tradingDates + [date];
      if symbol !in priceInfo {
        return Err(KeyError(symbol));
      }
      var price := priceInfo[symbol];
      tradingPrice := tradingPrice + [price];
      tradingSymbols := tradingSymbols + [symbol];
      tradingPosition := tradingPosition + [cur.Value()];
      positionDeque := DequeAppend(positionDeque, cur.Value(), lookBack);
      priceDeque := DequeAppend(priceDeque, price, lookBack + 1);
      evidenceDeque := DequeAppend(evidenceDeque, evidence, lookBack);
      r := Ok(());
    }

    /** `get_feedback_response` on the current state. */
    function GetFeedbackResponse(): (r: Result<seq<AccessSingle>>)
      reads this
      ensures |tradingDates| <= lookBack ==> r == Ok([])
    {
      ToDump().Feedback()
    }
  }

  /** `save_checkpoint` followed by `load_checkpoint` (the file round trip left aside):
      the reloaded portfolio is equal to the saved one under `__eq__`. */
  method CheckpointRoundTrip(p: SingleAsset) returns (q: SingleAsset)
    requires p.Valid()
    ensures fresh(q) && q.Valid()
    ensures p.Equals(q)
  {
    var dump := p.ToDump();
    RestoreBounded(dump);
    q := new SingleAsset.InitFromDump(dump);
  }

  /** `PortfolioSingleAsset(portfolio_config=..., portfolio_dump=...)`: a `ValueError`
      unless exactly one is given, an `IndexError` for a configuration without symbols. */
  method NewSingleAsset(config: Option<PortfolioConfig>, dump: Option<SingleDump>)
    returns (r: Result<SingleAsset>)
    ensures r.Err? <==> ChooseInit(config, dump).Err? || (config.Some? && dump.None? && config.value.tradingSymbols == [])
    ensures r.Ok? ==> fresh(r.value) && r.value.Valid()
    ensures r.Ok? && config.Some? ==> r.value.ToDump().Windowed()
    ensures r.Ok? && config.Some? ==> |config.value.tradingSymbols| > 0 && r.value.ToDump() == FreshSingle(config.value)
    ensures r.Ok? && dump.Some? ==> r.value.ToDump() == dump.value.Restored()
  {
    var choice := ChooseInit(config, dump);
    if choice.Err? {
      r := Err(choice.error);
    } else if choice.value == FromConfig {
      if config.value.tradingSymbols == [] {
        r := Err(IndexError);
      } else {
        var p := new SingleAsset.InitFromConfig(config.value);
        r := Ok(p);
      }
    } else {
      var p := new SingleAsset.InitFromDump(dump.value);
      r := Ok(p);
    }
  }
}
