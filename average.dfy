/**
 * The average-allocation scenario: each day every instrument is sold out at
 * its own limit price and then bought back to an equal share `1/n` of the
 * portfolio; one scalar reward, from a pluggable function of the day's
 * return, is given to every instrument.
 */
module Average {
  import opened Collaborators
  import opened Pricing
  import opened Engine

  /** Decodes one instrument's action pair into its sell and buy limit prices, both in whole cents. */
  function GetActionPrice(preClose: real, vSell: real, vBuy: real): (prices: (real, real))
    ensures IsCents(prices.0) && IsCents(prices.1)
  {
    (LimitPrice(preClose, vSell), LimitPrice(preClose, vBuy))
  }

  /**
   * On a non-negative previous close, a pair whose sell scalar is at most its
   * buy scalar never sells dearer than it buys.
   */
  lemma ActionPricesOrdered(preClose: real, vSell: real, vBuy: real)
    requires preClose >= 0.0 && vSell <= vBuy
    ensures var prices := GetActionPrice(preClose, vSell, vBuy);
            prices.0 <= prices.1
  {
    LimitPriceMonotone(preClose, vSell, vBuy);
  }

  /** The sell pass: instrument `i` sold down to weight 0 at the price from `action[2i]`. */
  function SellOrders(preCloses: seq<real>, action: seq<real>): (os: seq<Order>)
    requires |action| >= 2 * |preCloses|
    ensures |os| == |preCloses| && Addressed(os, |preCloses|)
    ensures forall i :: 0 <= i < |os| ==> os[i].index == i
  {
    seq(|preCloses|, i requires 0 <= i < |preCloses| =>
      Order(i, GetActionPrice(preCloses[i], action[2 * i], action[2 * i + 1]).0, 0.0))
  }

  /** The buy pass: instrument `i` bought up to weight `target` at the price from `action[2i + 1]`. */
  function BuyOrders(preCloses: seq<real>, action: seq<real>, target: real): (os: seq<Order>)
    requires |action| >= 2 * |preCloses|
    ensures |os| == |preCloses| && Addressed(os, |preCloses|)
    ensures forall i :: 0 <= i < |os| ==> os[i].index == i
  {
    seq(|preCloses|, i requires 0 <= i < |preCloses| =>
      Order(i, GetActionPrice(preCloses[i], action[2 * i], action[2 * i + 1]).1, target))
  }

  /**
   * The day's two passes: none when only updating, otherwise every
   * instrument sold out and then bought back to weight `target`.
   */
  function DayOrders(preCloses: seq<real>, action: seq<real>, onlyUpdate: bool, target: real)
    : (orders: (seq<Order>, seq<Order>))
    requires onlyUpdate || |action| >= 2 * |preCloses|
    ensures Addressed(orders.0, |preCloses|) && Addressed(orders.1, |preCloses|)
    ensures onlyUpdate ==> orders == ([], [])
    ensures !onlyUpdate ==> |orders.0| == |preCloses| == |orders.1|
  {
    if onlyUpdate then ([], []) else (SellOrders(preCloses, action), BuyOrders(preCloses, action, target))
  }

  /** The day's reward from the day's return, given to every instrument alike. */
  function Rewarded(rewardFn: real -> real, s: Account): (t: Account)
  {
    var r := rewardFn(s.dailyReturn);
    s.(reward := r, rewards := seq(|s.rewards|, _ => r))
  }

  /**
   * One trading day as a function of the state before it: mark the episode
   * done on the final date (which still trades), execute the day's orders
   * with the morning's portfolio value, roll up, update value percents,
   * reward, and move the window and the date pointer.
   */
  function Stepped(c: Setup, rewardFn: real -> real, avgPercent: real, s: Account, action: seq<real>,
                   onlyUpdate: bool): Account
    requires Consistent(c, s)
    requires onlyUpdate || |action| >= 2 * |c.codes|
  {
    var orders := DayOrders(Quotes(c.market.preClose, c.codes, s.currentDate), action, onlyUpdate, avgPercent);
    Advanced(c, Rewarded(rewardFn, Traded(c, s, orders.0, orders.1)))
  }

  /** Instrument `i`'s two orders carry the limit prices its action pair asks for. */
  lemma DayOrdersAt(preCloses: seq<real>, action: seq<real>, target: real, i: nat)
    requires |action| >= 2 * |preCloses| && i < |preCloses|
    ensures var orders := DayOrders(preCloses, action, false, target);
            && orders.0[i] == Order(i, LimitPrice(preCloses[i], action[2 * i]), 0.0)
            && orders.1[i] == Order(i, LimitPrice(preCloses[i], action[2 * i + 1]), target)
  {
  }

  /** A step keeps the environment's shape. */
  lemma StepKeepsConsistent(c: Setup, rewardFn: real -> real, avgPercent: real, s: Account, action: seq<real>,
                            onlyUpdate: bool)
    requires Consistent(c, s)
    requires onlyUpdate || |action| >= 2 * |c.codes|
    ensures Consistent(c, Stepped(c, rewardFn, avgPercent, s, action, onlyUpdate))
  {
  }

  /**
   * A step's accounts, positions and ledger calls are those of the trading
   * day on the decoded orders (the reward and the window move only the
   * reward, window and date fields).
   */
  lemma StepAccounts(c: Setup, rewardFn: real -> real, avgPercent: real, s: Account, action: seq<real>,
                     onlyUpdate: bool)
    requires Consistent(c, s)
    requires onlyUpdate || |action| >= 2 * |c.codes|
    ensures var t := Stepped(c, rewardFn, avgPercent, s, action, onlyUpdate);
            var orders := DayOrders(Quotes(c.market.preClose, c.codes, s.currentDate), action, onlyUpdate, avgPercent);
            var u := Traded(c, s, orders.0, orders.1);
            && t.portfolios == u.portfolios && t.cash == u.cash && t.figures == u.figures
            && t.totalPnl == u.totalPnl && t.dailyReturn == u.dailyReturn && t.portfolioValue == u.portfolioValue
            && t.valuePercent == u.valuePercent && t.portfolioValueLogs == u.portfolioValueLogs && t.calls == u.calls
  {
  }

  /**
   * A step ticks the date pointer (done on the final date, moving on only
   * while not done), appends the day's row to the window, and remembers
   * the cash.
   */
  lemma StepClock(c: Setup, rewardFn: real -> real, avgPercent: real, s: Account, action: seq<real>,
                  onlyUpdate: bool)
    requires Consistent(c, s)
    requires onlyUpdate || |action| >= 2 * |c.codes|
    ensures var t := Stepped(c, rewardFn, avgPercent, s, action, onlyUpdate);
            && Clock(t.currentTimeId, t.done) == Tick(c.dates, Clock(s.currentTimeId, s.done))
            && t.obs == Shift(s.obs, c.market.info(s.currentDate) + PortfolioFeatures(t.portfolios))
            && t.preCash == t.cash
  {
    var orders := DayOrders(Quotes(c.market.preClose, c.codes, s.currentDate), action, onlyUpdate, avgPercent);
    var u := Rewarded(rewardFn, Traded(c, s, orders.0, orders.1));
    assert Stepped(c, rewardFn, avgPercent, s, action, onlyUpdate) == Advanced(c, u);
  }

  /** A step's reward is the reward function of its return, and every instrument gets it. */
  lemma StepRewards(c: Setup, rewardFn: real -> real, avgPercent: real, s: Account, action: seq<real>,
                    onlyUpdate: bool)
    requires Consistent(c, s)
    requires onlyUpdate || |action| >= 2 * |c.codes|
    ensures var t := Stepped(c, rewardFn, avgPercent, s, action, onlyUpdate);
            && t.reward == rewardFn(t.dailyReturn)
            && |t.rewards| == |c.codes|
            && forall i :: 0 <= i < |t.rewards| ==> t.rewards[i] == t.reward
  {
  }

  /**
   * A hold-only step (the buy-and-hold baseline) issues no orders: the cash
   * is kept, and the day's ledger calls are the adjustments, the end-of-day
   * updates with a zero cash change and the value-percent updates.
   */
  lemma StepHoldOnly(c: Setup, rewardFn: real -> real, avgPercent: real, s: Account, action: seq<real>)
    requires Consistent(c, s)
    ensures var t := Stepped(c, rewardFn, avgPercent, s, action, true);
            && t.cash == s.cash
            && t.calls == s.calls + BeforeCalls(Quotes(c.market.divideRate, c.codes, s.currentDate))
                                  + AfterCalls(Quotes(c.market.close, c.codes, s.currentDate), 0.0, s.portfolioValue)
                                  + ValuePercentCalls(|c.codes|, t.portfolioValue)
  {
    StepAccounts(c, rewardFn, avgPercent, s, action, true);
    TradedWithoutOrders(c, s);
  }

  class AverageEnv {
    const codes: seq<Code>
    const n: nat
    const dates: seq<Date>
    const lookBackDays: nat
    const market: Market
    const ledger: Ledger
    /** The reward function chosen by name; it sees only the day's return. */
    const rewardFn: real -> real
    const avgPercent: real

    var portfolios: seq<Position>
    var cash: real
    var preCash: real
    var figures: Figures
    var totalPnl: real
    var dailyReturn: real
    var portfolioValue: real
    var valuePercent: real
    var portfolioValueLogs: seq<real>
    var reward: real
    var rewards: seq<real>
    var obs: seq<seq<real>>
    var currentTimeId: nat
    var currentDate: Date
    var done: bool
    /** Every call made on the ledger, in order. */
    ghost var calls: seq<Call>

    ghost function Config(): Setup
    {
      Setup(codes, dates, lookBackDays, market, ledger)
    }

    /** The environment's fields as one value. */
    ghost function State(): Account
      reads this
    {
      Account(portfolios, cash, preCash, figures,
              totalPnl, dailyReturn, portfolioValue, valuePercent, portfolioValueLogs, reward, rewards, obs,
              currentTimeId, currentDate, done, calls)
    }

    ghost predicate Valid()
      reads this
    {
      n == |codes| && Consistent(Config(), State())
    }

    /** Starts an episode on the first date with `investment` in cash and the opening window. */
    constructor (codes: seq<Code>, dates: seq<Date>, lookBackDays: nat, market: Market, ledger: Ledger,
                 rewardFn: real -> real, positions: seq<Position>, investment: real)
      requires |codes| >= 1 && |positions| == |codes|
      requires 1 <= lookBackDays <= |dates|
      requires FixedWidth(market)
      ensures Valid()
      ensures this.codes == codes && this.dates == dates && this.lookBackDays == lookBackDays
      ensures this.market == market && this.ledger == ledger && this.rewardFn == rewardFn
      ensures n == |codes| && avgPercent == 1.0 / |codes| as real
      ensures portfolios == positions && cash == investment && portfolioValue == investment
      ensures obs == InitObs(market, dates, lookBackDays, |codes|).value
      ensures currentTimeId == 0 && !done && calls == []
      ensures rewards == Zeros(|codes|) && figures == NoFigures
      ensures totalPnl == 0.0 && dailyReturn == 0.0 && valuePercent == 0.0
    {
      this.codes := codes;
      this.n := |codes|;
      this.dates := dates;
      this.lookBackDays := lookBackDays;
      this.market := market;
      this.ledger := ledger;
      this.rewardFn := rewardFn;
      this.avgPercent := 1.0 / |codes| as real;
      portfolios := positions;
      cash := investment;
      preCash := investment;
      figures := NoFigures;
      totalPnl, dailyReturn, valuePercent := 0.0, 0.0, 0.0;
      portfolioValue := investment;
      portfolioValueLogs := [];
      reward := 0.0;
      rewards := Zeros(|codes|);
      var w := InitObs(market, dates, lookBackDays, |codes|);
      obs := w.value;
      currentTimeId := 0;
      currentDate := dates[0];
      done := false;
      calls := [];
    }

    /**
     * One day's order execution: adjust every position, then (unless
     * `onlyUpdate`) sell every instrument out and buy every instrument back
     * to `avgPercent`, then run every position's end-of-day bookkeeping with
     * the day's total cash change. Returns the limit prices used.
     */
    method DoAction(action: seq<real>, prePortfolioValue: real, onlyUpdate: bool)
      returns (sellPrices: seq<real>, buyPrices: seq<real>)
      requires Valid()
      requires onlyUpdate || |action| >= 2 * n
      modifies this`portfolios, this`cash, this`calls
      ensures Valid()
      ensures var orders := DayOrders(Quotes(market.preClose, codes, currentDate), action, onlyUpdate, avgPercent);
              && State() == Executed(Config(), old(State()), prePortfolioValue, orders.0, orders.1)
              && sellPrices == Prices(orders.0) && buyPrices == Prices(orders.1)
      ensures onlyUpdate ==> sellPrices == [] && buyPrices == []
      ensures !onlyUpdate ==> |sellPrices| == n && |buyPrices| == n
    {
      ghost var s0 := State();
      var orders := DayOrders(Quotes(market.preClose, codes, currentDate), action, onlyUpdate, avgPercent);
      var e := ExecuteDay(ledger, market, codes, currentDate, portfolios, cash, portfolioValue, prePortfolioValue,
                          orders.0, orders.1);
      sellPrices, buyPrices := Prices(orders.0), Prices(orders.1);
      portfolios, cash, calls := e.positions, e.cash, calls + e.calls;
      assert State() == s0.(portfolios := e.positions, cash := e.cash, calls := s0.calls + e.calls);
    }

    /**
     * Rolls the positions up into the environment totals, adds the day's pnl
     * to the running total, derives the day's return on the previous
     * portfolio value and logs the new portfolio value.
     */
    method UpdatePortfolio()
      requires Valid()
      modifies this`figures, this`totalPnl, this`dailyReturn, this`portfolioValue, this`portfolioValueLogs
      ensures Valid()
      ensures State() == RolledUp(old(State()))
    {
      ghost var s0 := State();
      var prePortfolioValue := portfolioValue;
      var f := SumPositions(portfolios);
      var r := if prePortfolioValue == 0.0 then 0.0 else f.dailyPnl / prePortfolioValue;
      var pv := f.marketValue + cash;
      figures, totalPnl, dailyReturn := f, totalPnl + f.pnl, r;
      portfolioValue, portfolioValueLogs := pv, portfolioValueLogs + [pv];
      assert State() == s0.(figures := f, totalPnl := s0.totalPnl + f.pnl, dailyReturn := r, portfolioValue := pv,
                            portfolioValueLogs := s0.portfolioValueLogs + [pv]);
    }

    /** The invested share of the portfolio, and every position told the portfolio value. */
    method UpdateValuePercent()
      requires Valid()
      modifies this`valuePercent, this`portfolios, this`calls
      ensures Valid()
      ensures State() == WithValuePercents(ledger, old(State()))
    {
      ghost var s0 := State();
      var pv := portfolioValue;
      var share := if pv == 0.0 then 0.0 else figures.marketValue / pv;
      var ps := portfolios;
      ghost var log := calls;
      var i := 0;
      while i < n
        invariant 0 <= i <= n && |ps| == n
        invariant forall k :: 0 <= k < i ==> ps[k] == ledger.updateValuePercent(portfolios[k], pv)
        invariant forall k :: i <= k < n ==> ps[k] == portfolios[k]
        invariant log == calls + ValuePercentCalls(i, pv)
      {
        ps := ps[i := ledger.updateValuePercent(ps[i], pv)];
        log := log + [Call.UpdateValuePercent(i, pv)];
        assert log == calls + ValuePercentCalls(i + 1, pv) by {
          ValuePercentCallsSnoc(i, pv);
        }
        i := i + 1;
      }
      assert ps == ValuePercentAll(ledger, portfolios, pv);
      valuePercent, portfolios, calls := share, ps, log;
      assert State() == s0.(valuePercent := share, portfolios := ps, calls := log);
    }

    /** The day's reward from the day's return, given to every instrument alike. */
    method UpdateReward()
      requires Valid()
      modifies this`reward, this`rewards
      ensures Valid()
      ensures State() == Rewarded(rewardFn, old(State()))
    {
      var r := rewardFn(dailyReturn);
      var rs := rewards;
      var i := 0;
      while i < n
        invariant 0 <= i <= n && |rs| == n
        invariant forall k :: 0 <= k < i ==> rs[k] == r
      {
        rs := rs[i := r];
        i := i + 1;
      }
      assert rs == seq(|rewards|, _ => r);
      reward, rewards := r, rs;
    }

    /**
     * Builds the day's observation row (market features, then each
     * position's daily return and value percent), returns the window with
     * that row appended and the oldest dropped, and moves to the next date
     * unless the episode is done.
     */
    method Next() returns (window: seq<seq<real>>)
      requires Valid()
      requires !done ==> currentTimeId + 1 < |dates|
      modifies this`currentTimeId, this`currentDate, this`preCash, this`obs
      ensures Valid()
      ensures State() == Advanced(Config(), old(State())) && window == obs
    {
      var marketInfo := market.info(currentDate);
      var portfolioInfo: seq<real> := [];
      var i := 0;
      while i < n
        invariant 0 <= i <= n
        invariant portfolioInfo == PortfolioFeatures(portfolios[..i])
      {
        portfolioInfo := portfolioInfo + [portfolios[i].dailyReturn, portfolios[i].valuePercent];
        assert portfolios[..i + 1][..i] == portfolios[..i];
        i := i + 1;
      }
      assert portfolios[..n] == portfolios;
      window := Shift(obs, marketInfo + portfolioInfo);
      obs := window;
      if !done {
        currentTimeId := currentTimeId + 1;
        currentDate := dates[currentTimeId];
      }
      preCash := cash;
    }

    /**
     * One trading day: mark the episode done if this is the final date (the
     * final date still trades), execute the day's orders, roll up the
     * portfolio, update value percents, compute the rewards and move the
     * window and the date pointer.
     */
    method Step(action: seq<real>, onlyUpdate: bool)
      returns (window: seq<seq<real>>, r: real, isDone: bool, rs: seq<real>)
      requires Valid()
      requires onlyUpdate || |action| >= 2 * n
      modifies this
      ensures Valid()
      ensures State() == Stepped(Config(), rewardFn, avgPercent, old(State()), action, onlyUpdate)
      ensures window == obs && r == reward && isDone == done && rs == rewards
    {
      ghost var s0 := State();
      if currentDate == dates[|dates| - 1] {
        done := true;
      }
      ghost var s1 := State();
      assert s1 == MarkedDone(Config(), s0);
      var prePortfolioValue := portfolioValue;
      var sellPrices, buyPrices := DoAction(action, prePortfolioValue, onlyUpdate);
      ghost var orders := DayOrders(Quotes(market.preClose, codes, s0.currentDate), action, onlyUpdate, avgPercent);
      ghost var s2 := State();
      assert s2 == Executed(Config(), s1, s0.portfolioValue, orders.0, orders.1);
      UpdatePortfolio();
      ghost var s3 := State();
      assert s3 == RolledUp(s2);
      UpdateValuePercent();
      ghost var s4 := State();
      assert s4 == WithValuePercents(ledger, s3) == Traded(Config(), s0, orders.0, orders.1);
      UpdateReward();
      ghost var s5 := State();
      assert s5 == Rewarded(rewardFn, s4);
      window := Next();
      assert State() == Advanced(Config(), s5);
      r, isDone, rs := reward, done, rewards;
    }
  }
}
