/**
 * The multi-volume scenario: each day every instrument is sold down to a
 * target weight and then bought up to another, each at its own limit
 * price, all four read from the action; the reward is the sign of the
 * day's pnl, overall and per instrument.
 */
module MultiVol {
  import opened Collaborators
  import opened Pricing
  import opened Engine

  /** Scales an action scalar from [-1, 1] onto a target portfolio weight in [0, 1]. */
  function GetActionTargetPct(v: real): (pct: real)
    ensures -1.0 <= v <= 1.0 ==> 0.0 <= pct <= 1.0
  {
    v * 0.5 + 0.5
  }

  /** The scale's fixed points: -1 asks for nothing, 0 for half, 1 for everything. */
  lemma TargetPctEndpoints()
    ensures GetActionTargetPct(-1.0) == 0.0 && GetActionTargetPct(0.0) == 0.5 && GetActionTargetPct(1.0) == 1.0
  {
  }

  /** A larger scalar never asks for a smaller weight, and the scalar is recovered from the weight. */
  lemma TargetPctMonotone(v: real, w: real)
    ensures v <= w ==> GetActionTargetPct(v) <= GetActionTargetPct(w)
    ensures (GetActionTargetPct(v) - 0.5) * 2.0 == v
  {
  }

  /** The sell pass: instrument `i` sold at the price from `action[4i]` down to the weight from `action[4i + 1]`. */
  function SellOrders(preCloses: seq<real>, action: seq<real>): (os: seq<Order>)
    requires |action| >= 4 * |preCloses|
    ensures |os| == |preCloses| && Addressed(os, |preCloses|)
    ensures forall i :: 0 <= i < |os| ==> os[i].index == i
  {
    seq(|preCloses|, i requires 0 <= i < |preCloses| =>
      Order(i, LimitPrice(preCloses[i], action[4 * i]), GetActionTargetPct(action[4 * i + 1])))
  }

  /** The buy pass: instrument `i` bought at the price from `action[4i + 2]` up to the weight from `action[4i + 3]`. */
  function BuyOrders(preCloses: seq<real>, action: seq<real>): (os: seq<Order>)
    requires |action| >= 4 * |preCloses|
    ensures |os| == |preCloses| && Addressed(os, |preCloses|)
    ensures forall i :: 0 <= i < |os| ==> os[i].index == i
  {
    seq(|preCloses|, i requires 0 <= i < |preCloses| =>
      Order(i, LimitPrice(preCloses[i], action[4 * i + 2]), GetActionTargetPct(action[4 * i + 3])))
  }

  /** The day's two passes: none when only updating, otherwise one sell and one buy per instrument. */
  function DayOrders(preCloses: seq<real>, action: seq<real>, onlyUpdate: bool): (orders: (seq<Order>, seq<Order>))
    requires onlyUpdate || |action| >= 4 * |preCloses|
    ensures Addressed(orders.0, |preCloses|) && Addressed(orders.1, |preCloses|)
    ensures onlyUpdate ==> orders == ([], [])
    ensures !onlyUpdate ==> |orders.0| == |preCloses| == |orders.1|
  {
    if onlyUpdate then ([], []) else (SellOrders(preCloses, action), BuyOrders(preCloses, action))
  }

  /** Instrument `i`'s two orders read its four action scalars, with stride 4. */
  lemma DayOrdersAt(preCloses: seq<real>, action: seq<real>, i: nat)
    requires |action| >= 4 * |preCloses| && i < |preCloses|
    ensures var orders := DayOrders(preCloses, action, false);
            && orders.0[i] == Order(i, LimitPrice(preCloses[i], action[4 * i]), GetActionTargetPct(action[4 * i + 1]))
            && orders.1[i] == Order(i, LimitPrice(preCloses[i], action[4 * i + 2]), GetActionTargetPct(action[4 * i + 3]))
  {
  }

  /** -1 for a pnl that is not positive (zero included), +1 otherwise. */
  function SignReward(pnl: real): (r: real)
    ensures r == 1.0 || r == -1.0
    ensures r == 1.0 <==> pnl > 0.0
  {
    if pnl <= 0.0 then -1.0 else 1.0
  }

  /** Each position's sign reward of its own daily pnl. */
  function SignRewards(ps: seq<Position>): (rs: seq<real>)
    ensures |rs| == |ps|
    ensures forall i :: 0 <= i < |ps| ==> rs[i] == SignReward(ps[i].dailyPnl)
  {
    seq(|ps|, i requires 0 <= i < |ps| => SignReward(ps[i].dailyPnl))
  }

  /** The day's rewards: the sign of the day's pnl overall, and of each position's own. */
  function Rewarded(s: Account): (t: Account)
  {
    s.(reward := SignReward(s.figures.dailyPnl), rewards := SignRewards(s.portfolios))
  }

  /**
   * One trading day as a function of the state before it: mark the episode
   * done on the final date (which still trades), execute the day's orders
   * with the morning's portfolio value, roll up, update value percents,
   * reward, and move the window and the date pointer.
   */
  function Stepped(c: Setup, s: Account, action: seq<real>, onlyUpdate: bool): Account
    requires Consistent(c, s)
    requires onlyUpdate || |action| >= 4 * |c.codes|
  {
    var orders := DayOrders(Quotes(c.market.preClose, c.codes, s.currentDate), action, onlyUpdate);
    Advanced(c, Rewarded(Traded(c, s, orders.0, orders.1)))
  }

  /** A step keeps the environment's shape. */
  lemma StepKeepsConsistent(c: Setup, s: Account, action: seq<real>, onlyUpdate: bool)
    requires Consistent(c, s)
    requires onlyUpdate || |action| >= 4 * |c.codes|
    ensures Consistent(c, Stepped(c, s, action, onlyUpdate))
  {
  }

  /**
   * A step's accounts, positions and ledger calls are those of the trading
   * day on the decoded orders (the reward and the window move only the
   * reward, window and date fields).
   */
  lemma StepAccounts(c: Setup, s: Account, action: seq<real>, onlyUpdate: bool)
    requires Consistent(c, s)
    requires onlyUpdate || |action| >= 4 * |c.codes|
    ensures var t := Stepped(c, s, action, onlyUpdate);
            var orders := DayOrders(Quotes(c.market.preClose, c.codes, s.currentDate), action, onlyUpdate);
            var u := Traded(c, s, orders.0, orders.1);
            && t.portfolios == u.portfolios && t.cash == u.cash && t.figures == u.figures
            && t.totalPnl == u.totalPnl && t.dailyReturn == u.dailyReturn && t.portfolioValue == u.portfolioValue
            && t.valuePercent == u.valuePercent && t.portfolioValueLogs == u.portfolioValueLogs && t.calls == u.calls
  {
  }

  /**
   * A step ticks the date pointer (done on the final date, moving on only
   * while not done), appends the day's row to the window, and remembers
   * the cash.
   */
  lemma StepClock(c: Setup, s: Account, action: seq<real>, onlyUpdate: bool)
    requires Consistent(c, s)
    requires onlyUpdate || |action| >= 4 * |c.codes|
    ensures var t := Stepped(c, s, action, onlyUpdate);
            && Clock(t.currentTimeId, t.done) == Tick(c.dates, Clock(s.currentTimeId, s.done))
            && t.obs == Shift(s.obs, c.market.info(s.currentDate) + PortfolioFeatures(t.portfolios))
            && t.preCash == t.cash
  {
    var orders := DayOrders(Quotes(c.market.preClose, c.codes, s.currentDate), action, onlyUpdate);
    var u := Rewarded(Traded(c, s, orders.0, orders.1));
    assert Stepped(c, s, action, onlyUpdate) == Advanced(c, u);
  }

  /**
   * A step's rewards all lie in {-1, 1}: the overall one is +1 exactly when
   * the day's pnl is positive, and each instrument's exactly when its own
   * daily pnl is.
   */
  lemma StepRewards(c: Setup, s: Account, action: seq<real>, onlyUpdate: bool)
    requires Consistent(c, s)
    requires onlyUpdate || |action| >= 4 * |c.codes|
    ensures var t := Stepped(c, s, action, onlyUpdate);
            && (t.reward == 1.0 || t.reward == -1.0)
            && (t.reward == 1.0 <==> t.figures.dailyPnl > 0.0)
            && |t.rewards| == |c.codes|
            && forall i :: 0 <= i < |t.rewards| ==>
                 && (t.rewards[i] == 1.0 || t.rewards[i] == -1.0)
                 && (t.rewards[i] == 1.0 <==> t.portfolios[i].dailyPnl > 0.0)
  {
  }

  /**
   * A hold-only step (the buy-and-hold baseline) issues no orders: the cash
   * is kept, and the day's ledger calls are the adjustments, the end-of-day
   * updates with a zero cash change and the value-percent updates.
   */
  lemma StepHoldOnly(c: Setup, s: Account, action: seq<real>)
    requires Consistent(c, s)
    ensures var t := Stepped(c, s, action, true);
            && t.cash == s.cash
            && t.calls == s.calls + BeforeCalls(Quotes(c.market.divideRate, c.codes, s.currentDate))
                                  + AfterCalls(Quotes(c.market.close, c.codes, s.currentDate), 0.0, s.portfolioValue)
                                  + ValuePercentCalls(|c.codes|, t.portfolioValue)
  {
    StepAccounts(c, s, action, true);
    TradedWithoutOrders(c, s);
  }

  class MultiVolEnv {
    const codes: seq<Code>
    const n: nat
    const dates: seq<Date>
    const lookBackDays: nat
    const market: Market
    const ledger: Ledger

    var portfolios: seq<Position>
    var cash: real
    var preCash: real
    var figures: Figures
    var totalPnl: real
    var dailyReturn: real
    var portfolioValue: real
    var valuePercent: real
    var portfolioValueLogs: seq<real>
    var reward: real
    var rewards: seq<real>
    var obs: seq<seq<real>>
    var currentTimeId: nat
    var currentDate: Date
    var done: bool
    /** Every call made on the ledger, in order. */
    ghost var calls: seq<Call>

    ghost function Config(): Setup
    {
      Setup(codes, dates, lookBackDays, market, ledger)
    }

    /** The environment's fields as one value. */
    ghost function State(): Account
      reads this
    {
      Account(portfolios, cash, preCash, figures,
              totalPnl, dailyReturn, portfolioValue, valuePercent, portfolioValueLogs, reward, rewards, obs,
              currentTimeId, currentDate, done, calls)
    }

    ghost predicate Valid()
      reads this
    {
      n == |codes| && Consistent(Config(), State())
    }

    /** Starts an episode on the first date with `investment` in cash and the opening window. */
    constructor (codes: seq<Code>, dates: seq<Date>, lookBackDays: nat, market: Market, ledger: Ledger,
                 positions: seq<Position>, investment: real)
      requires |positions| == |codes|
      requires 1 <= lookBackDays <= |dates|
      requires FixedWidth(market)
      ensures Valid()
      ensures this.codes == codes && this.dates == dates && this.lookBackDays == lookBackDays
      ensures this.market == market && this.ledger == ledger && n == |codes|
      ensures portfolios == positions && cash == investment && portfolioValue == investment
      ensures obs == InitObs(market, dates, lookBackDays, |codes|).value
      ensures currentTimeId == 0 && !done && calls == []
      ensures rewards == Zeros(|codes|) && figures == NoFigures
      ensures totalPnl == 0.0 && dailyReturn == 0.0 && valuePercent == 0.0
    {
      this.codes := codes;
      this.n := |codes|;
      this.dates := dates;
      this.lookBackDays := lookBackDays;
      this.market := market;
      this.ledger := ledger;
      portfolios := positions;
      cash := investment;
      preCash := investment;
      figures := NoFigures;
      totalPnl, dailyReturn, valuePercent := 0.0, 0.0, 0.0;
      portfolioValue := investment;
      portfolioValueLogs := [];
      reward := 0.0;
      rewards := Zeros(|codes|);
      var w := InitObs(market, dates, lookBackDays, |codes|);
      obs := w.value;
      currentTimeId := 0;
      currentDate := dates[0];
      done := false;
      calls := [];
    }

    /**
     * One day's order execution: adjust every position, then (unless
     * `onlyUpdate`) sell every instrument down to the weight its action
     * asks for and then buy every instrument up to the weight its action
     * asks for, then run every position's end-of-day bookkeeping with the
     * day's total cash change.
     */
    method DoAction(action: seq<real>, prePortfolioValue: real, onlyUpdate: bool)
      requires Valid()
      requires onlyUpdate || |action| >= 4 * n
      modifies this`portfolios, this`cash, this`calls
      ensures Valid()
      ensures var orders := DayOrders(Quotes(market.preClose, codes, currentDate), action, onlyUpdate);
              State() == Executed(Config(), old(State()), prePortfolioValue, orders.0, orders.1)
    {
      ghost var s0 := State();
      var orders := DayOrders(Quotes(market.preClose, codes, currentDate), action, onlyUpdate);
      var e := ExecuteDay(ledger, market, codes, currentDate, portfolios, cash, portfolioValue, prePortfolioValue,
                          orders.0, orders.1);
      portfolios, cash, calls := e.positions, e.cash, calls + e.calls;
      assert State() == s0.(portfolios := e.positions, cash := e.cash, calls := s0.calls + e.calls);
    }

    /**
     * Rolls the positions up into the environment totals, adds the day's pnl
     * to the running total, derives the day's return on the previous
     * portfolio value and logs the new portfolio value.
     */
    method UpdatePortfolio()
      requires Valid()
      modifies this`figures, this`totalPnl, this`dailyReturn, this`portfolioValue, this`portfolioValueLogs
      ensures Valid()
      ensures State() == RolledUp(old(State()))
    {
      ghost var s0 := State();
      var prePortfolioValue := portfolioValue;
      var f := SumPositions(portfolios);
      var r := if prePortfolioValue == 0.0 then 0.0 else f.dailyPnl / prePortfolioValue;
      var pv := f.marketValue + cash;
      figures, totalPnl, dailyReturn := f, totalPnl + f.pnl, r;
      portfolioValue, portfolioValueLogs := pv, portfolioValueLogs + [pv];
      assert State() == s0.(figures := f, totalPnl := s0.totalPnl + f.pnl, dailyReturn := r, portfolioValue := pv,
                            portfolioValueLogs := s0.portfolioValueLogs + [pv]);
    }

    /** The invested share of the portfolio, and every position told the portfolio value. */
    method UpdateValuePercent()
      requires Valid()
      modifies this`valuePercent, this`portfolios, this`calls
      ensures Valid()
      ensures State() == WithValuePercents(ledger, old(State()))
    {
      ghost var s0 := State();
      var pv := portfolioValue;
      var share := if pv == 0.0 then 0.0 else figures.marketValue / pv;
      var ps := portfolios;
      ghost var log := calls;
      var i := 0;
      while i < n
        invariant 0 <= i <= n && |ps| == n
        invariant forall k :: 0 <= k < i ==> ps[k] == ledger.updateValuePercent(portfolios[k], pv)
        invariant forall k :: i <= k < n ==> ps[k] == portfolios[k]
        invariant log == calls + ValuePercentCalls(i, pv)
      {
        ps := ps[i := ledger.updateValuePercent(ps[i], pv)];
        log := log + [Call.UpdateValuePercent(i, pv)];
        assert log == calls + ValuePercentCalls(i + 1, pv) by {
          ValuePercentCallsSnoc(i, pv);
        }
        i := i + 1;
      }
      assert ps == ValuePercentAll(ledger, portfolios, pv);
      valuePercent, portfolios, calls := share, ps, log;
      assert State() == s0.(valuePercent := share, portfolios := ps, calls := log);
    }

    /** The sign reward of the day's pnl, and each instrument's sign reward of its own daily pnl. */
    method UpdateReward()
      requires Valid()
      modifies this`reward, this`rewards
      ensures Valid()
      ensures State() == Rewarded(old(State()))
    {
      var r: real;
      if figures.dailyPnl <= 0.0 {
        r := -1.0;
      } else {
        r := 1.0;
      }
      var rs := rewards;
      var i := 0;
      while i < n
        invariant 0 <= i <= n && |rs| == n
        invariant forall k :: 0 <= k < i ==> rs[k] == SignReward(portfolios[k].dailyPnl)
      {
        if portfolios[i].dailyPnl <= 0.0 {
          rs := rs[i := -1.0];
        } else {
          rs := rs[i := 1.0];
        }
        i := i + 1;
      }
      assert rs == SignRewards(portfolios);
      reward, rewards := r, rs;
    }

    /**
     * Builds the day's observation row (market features, then each
     * position's daily return and value percent), returns the window with
     * that row appended and the oldest dropped, and moves to the next date
     * unless the episode is done.
     */
    method Next() returns (window: seq<seq<real>>)
      requires Valid()
      requires !done ==> currentTimeId + 1 < |dates|
      modifies this`currentTimeId, this`currentDate, this`preCash, this`obs
      ensures Valid()
      ensures State() == Advanced(Config(), old(State())) && window == obs
    {
      var marketInfo := market.info(currentDate);
      var portfolioInfo: seq<real> := [];
      var i := 0;
      while i < n
        invariant 0 <= i <= n
        invariant portfolioInfo == PortfolioFeatures(portfolios[..i])
      {
        portfolioInfo := portfolioInfo + [portfolios[i].dailyReturn, portfolios[i].valuePercent];
        assert portfolios[..i + 1][..i] == portfolios[..i];
        i := i + 1;
      }
      assert portfolios[..n] == portfolios;
      window := Shift(obs, marketInfo + portfolioInfo);
      obs := window;
      if !done {
        currentTimeId := currentTimeId + 1;
        currentDate := dates[currentTimeId];
      }
      preCash := cash;
    }

    /**
     * One trading day: mark the episode done if this is the final date (the
     * final date still trades), execute the day's orders, roll up the
     * portfolio, update value percents, compute the rewards and move the
     * window and the date pointer.
     */
    method Step(action: seq<real>, onlyUpdate: bool)
      returns (window: seq<seq<real>>, r: real, isDone: bool, rs: seq<real>)
      requires Valid()
      requires onlyUpdate || |action| >= 4 * n
      modifies this
      ensures Valid()
      ensures State() == Stepped(Config(), old(State()), action, onlyUpdate)
      ensures window == obs && r == reward && isDone == done && rs == rewards
    {
      ghost var s0 := State();
      if currentDate == dates[|dates| - 1] {
        done := true;
      }
      ghost var s1 := State();
      assert s1 == MarkedDone(Config(), s0);
      var prePortfolioValue := portfolioValue;
      DoAction(action, prePortfolioValue, onlyUpdate);
      ghost var orders := DayOrders(Quotes(market.preClose, codes, s0.currentDate), action, onlyUpdate);
      ghost var s2 := State();
      assert s2 == Executed(Config(), s1, s0.portfolioValue, orders.0, orders.1);
      UpdatePortfolio();
      ghost var s3 := State();
      assert s3 == RolledUp(s2);
      UpdateValuePercent();
      ghost var s4 := State();
      assert s4 == WithValuePercents(ledger, s3) == Traded(Config(), s0, orders.0, orders.1);
      UpdateReward();
      ghost var s5 := State();
      assert s5 == Rewarded(s4);
      window := Next();
      assert State() == Advanced(Config(), s5);
      r, isDone, rs := reward, done, rewards;
    }
  }
}
