/**
 * The parts of the daily trading step that both scenario environments share,
 * stated as functions: the per-instrument quotes, the two-pass order
 * execution, the portfolio rollups, the hook-call log of a step, the
 * observation window and the date pointer.
 */
module Engine {
  import opened Collaborators

  datatype Option<T> = None | Some(value: T)

  // ----------------------------------------------------------------------
  // Quotes per instrument

  /** One quote per instrument, in code order, for one date. */
  function Quotes(quote: (Code, Date) -> real, codes: seq<Code>, date: Date): (q: seq<real>)
    ensures |q| == |codes|
    ensures forall k :: 0 <= k < |q| ==> q[k] == quote(codes[k], date)
  {
    seq(|codes|, k requires 0 <= k < |codes| => quote(codes[k], date))
  }

  // ----------------------------------------------------------------------
  // Portfolio rollups

  /** The figures the environment sums over its positions. */
  datatype Figures = Figures(
    marketValue: real,
    dailyPnl: real,
    pnl: real,
    transactionCost: real,
    allTransactionCost: real)

  const NoFigures := Figures(0.0, 0.0, 0.0, 0.0, 0.0)

  function Plus(a: Figures, b: Figures): Figures
  {
    Figures(a.marketValue + b.marketValue, a.dailyPnl + b.dailyPnl, a.pnl + b.pnl,
            a.transactionCost + b.transactionCost, a.allTransactionCost + b.allTransactionCost)
  }

  function FiguresOf(p: Position): Figures
  {
    Figures(p.marketValue, p.dailyPnl, p.pnl, p.transactionCost, p.allTransactionCost)
  }

  /** Each figure summed over the positions, accumulated in index order. */
  function Totals(ps: seq<Position>): Figures
  {
    if ps == [] then NoFigures else Plus(Totals(ps[..|ps| - 1]), FiguresOf(ps[|ps| - 1]))
  }

  /** The roll-up loop: one accumulator per figure, positions visited in index order. */
  method SumPositions(ps: seq<Position>) returns (f: Figures)
    ensures f == Totals(ps)
  {
    var marketValue, dailyPnl, pnl, transactionCost, allTransactionCost := 0.0, 0.0, 0.0, 0.0, 0.0;
    var i := 0;
    while i < |ps|
      invariant 0 <= i <= |ps|
      invariant Figures(marketValue, dailyPnl, pnl, transactionCost, allTransactionCost) == Totals(ps[..i])
    {
      var p := ps[i];
      marketValue := marketValue + p.marketValue;
      dailyPnl := dailyPnl + p.dailyPnl;
      pnl := pnl + p.pnl;
      transactionCost := transactionCost + p.transactionCost;
      allTransactionCost := allTransactionCost + p.allTransactionCost;
      assert ps[..i + 1][..i] == ps[..i];
      i := i + 1;
    }
    assert ps[..i] == ps;
    f := Figures(marketValue, dailyPnl, pnl, transactionCost, allTransactionCost);
  }

  /** The totals of two runs of positions add up. */
  lemma {:induction false} TotalsAppend(a: seq<Position>, b: seq<Position>)
    ensures Totals(a + b) == Plus(Totals(a), Totals(b))
  {
    if b == [] {
      assert a + b == a;
    } else {
      var b' := b[..|b| - 1];
      assert (a + b)[..|a + b| - 1] == a + b';
      assert (a + b)[|a + b| - 1] == b[|b| - 1];
      TotalsAppend(a, b');
    }
  }

  /**
   * Replacing one position moves every total by exactly that position's
   * difference: the new totals plus the old position's figures equal the old
   * totals plus the new position's figures.
   */
  lemma TotalsUpdate(ps: seq<Position>, i: nat, p: Position)
    requires i < |ps|
    ensures Plus(Totals(ps[i := p]), FiguresOf(ps[i])) == Plus(Totals(ps), FiguresOf(p))
  {
    assert ps == ps[..i] + [ps[i]] + ps[i + 1..];
    assert ps[i := p] == ps[..i] + [p] + ps[i + 1..];
    TotalsAppend(ps[..i] + [ps[i]], ps[i + 1..]);
    TotalsAppend(ps[..i], [ps[i]]);
    TotalsAppend(ps[..i] + [p], ps[i + 1..]);
    TotalsAppend(ps[..i], [p]);
    assert [ps[i]][..0] == [];
    assert [p][..0] == [];
  }

  /**
   * `part / whole`, defined as 0 when `whole` is 0: both the day's return on
   * the previous portfolio value and the invested share of the portfolio
   * value are guarded this way.
   */
  function GuardedRatio(part: real, whole: real): (r: real)
    ensures whole == 0.0 ==> r == 0.0
  {
    if whole == 0.0 then 0.0 else part / whole
  }

  /** Otherwise the ratio scales back to the part. */
  lemma GuardedRatioScales(part: real, whole: real)
    requires whole != 0.0
    ensures GuardedRatio(part, whole) * whole == part
  {
  }

  // ----------------------------------------------------------------------
  // Order execution

  /** The cash and positions during a day's trading, and the cash change so far. */
  datatype Book = Book(positions: seq<Position>, cash: real, cashChange: real)

  /** Every order names one of `n` positions. */
  predicate Addressed(orders: seq<Order>, n: nat)
  {
    forall k :: 0 <= k < |orders| ==> orders[k].index < n
  }

  /**
   * One pass of orders, issued in sequence order: each order runs against
   * the book the previous one left, and the pass's cash change is the sum
   * of the deltas the orders report.
   */
  function RunPass(exec: (Order, Position, real, real) -> Fill, ps: seq<Position>, cash: real,
                   portfolioValue: real, orders: seq<Order>): (b: Book)
    requires Addressed(orders, |ps|)
    ensures |b.positions| == |ps|
    decreases |orders|
  {
    if orders == [] then Book(ps, cash, 0.0)
    else
      var b := RunPass(exec, ps, cash, portfolioValue, orders[..|orders| - 1]);
      var o := orders[|orders| - 1];
      var f := exec(o, b.positions[o.index], b.cash, portfolioValue);
      Book(b.positions[o.index := f.position], f.cash, b.cashChange + f.cashChange)
  }

  /**
   * The whole trading part of a day: every sell, then every buy against the
   * book the sells left; the cash change covers both passes.
   */
  function Trade(l: Ledger, ps: seq<Position>, cash: real, portfolioValue: real,
                 sells: seq<Order>, buys: seq<Order>): (b: Book)
    requires Addressed(sells, |ps|) && Addressed(buys, |ps|)
    ensures |b.positions| == |ps|
    ensures sells == [] && buys == [] ==> b == Book(ps, cash, 0.0)
  {
    var s := RunPass(l.sell, ps, cash, portfolioValue, sells);
    var t := RunPass(l.buy, s.positions, s.cash, portfolioValue, buys);
    Book(t.positions, t.cash, s.cashChange + t.cashChange)
  }

  /** The dividend/split adjustment applied to every position. */
  function BeforeTradeAll(l: Ledger, ps: seq<Position>, rates: seq<real>): (r: seq<Position>)
    requires |rates| == |ps|
    ensures |r| == |ps|
  {
    seq(|ps|, k requires 0 <= k < |ps| => l.beforeTrade(ps[k], rates[k]))
  }

  /** The end-of-day bookkeeping applied to every position, all with the same cash change. */
  function AfterTradeAll(l: Ledger, ps: seq<Position>, closes: seq<real>, cashChange: real,
                         prePortfolioValue: real): (r: seq<Position>)
    requires |closes| == |ps|
    ensures |r| == |ps|
  {
    seq(|ps|, k requires 0 <= k < |ps| => l.afterTrade(ps[k], closes[k], cashChange, prePortfolioValue))
  }

  /** Every position told the same portfolio value. */
  function ValuePercentAll(l: Ledger, ps: seq<Position>, portfolioValue: real): (r: seq<Position>)
    ensures |r| == |ps|
  {
    seq(|ps|, k requires 0 <= k < |ps| => l.updateValuePercent(ps[k], portfolioValue))
  }

  /** The adjustment loop: every position, in index order, adjusted by its instrument's ratio for `date`. */
  method AdjustPositions(l: Ledger, m: Market, codes: seq<Code>, date: Date, ps: seq<Position>)
    returns (adjusted: seq<Position>, log: seq<Call>)
    requires |ps| == |codes|
    ensures adjusted == BeforeTradeAll(l, ps, Quotes(m.divideRate, codes, date))
    ensures log == BeforeCalls(Quotes(m.divideRate, codes, date))
  {
    ghost var rates := Quotes(m.divideRate, codes, date);
    adjusted, log := ps, [];
    var i := 0;
    while i < |ps|
      invariant 0 <= i <= |ps| && |adjusted| == |ps|
      invariant forall k :: 0 <= k < i ==> adjusted[k] == l.beforeTrade(ps[k], rates[k])
      invariant forall k :: i <= k < |ps| ==> adjusted[k] == ps[k]
      invariant log == BeforeCalls(rates[..i])
    {
      var divideRate := m.divideRate(codes[i], date);
      adjusted := adjusted[i := l.beforeTrade(adjusted[i], divideRate)];
      log := log + [BeforeTrade(i, divideRate)];
      assert log == BeforeCalls(rates[..i + 1]) by {
        BeforeCallsSnoc(rates, i);
      }
      i := i + 1;
    }
    assert rates[..i] == rates;
  }

  /**
   * A pass loop: the orders issued one after another to the ledger's sell
   * (when `selling`) or buy, the cash change accumulated.
   */
  method ExecuteOrders(l: Ledger, selling: bool, ps: seq<Position>, cash: real, portfolioValue: real,
                       orders: seq<Order>)
    returns (b: Book, log: seq<Call>)
    requires Addressed(orders, |ps|)
    ensures b == RunPass(if selling then l.sell else l.buy, ps, cash, portfolioValue, orders)
    ensures log == OrderCalls(selling, orders)
  {
    var exec: (Order, Position, real, real) -> Fill := if selling then l.sell else l.buy;
    var positions, balance, cashChange := ps, cash, 0.0;
    log := [];
    var i := 0;
    while i < |orders|
      invariant 0 <= i <= |orders|
      invariant Book(positions, balance, cashChange) == RunPass(exec, ps, cash, portfolioValue, orders[..i])
      invariant log == OrderCalls(selling, orders[..i])
    {
      var order := orders[i];
      var fill := exec(order, positions[order.index], balance, portfolioValue);
      assert orders[..i + 1][..i] == orders[..i];
      positions := positions[order.index := fill.position];
      balance := fill.cash;
      cashChange := cashChange + fill.cashChange;
      log := log + [if selling then Sell(order) else Buy(order)];
      assert log == OrderCalls(selling, orders[..i + 1]) by {
        OrderCallsSnoc(selling, orders, i);
      }
      i := i + 1;
    }
    assert orders[..i] == orders;
    b := Book(positions, balance, cashChange);
  }

  /** The end-of-day loop: every position, in index order, settled at its close with the day's cash change. */
  method SettlePositions(l: Ledger, m: Market, codes: seq<Code>, date: Date, ps: seq<Position>,
                         cashChange: real, prePortfolioValue: real)
    returns (settled: seq<Position>, log: seq<Call>)
    requires |ps| == |codes|
    ensures settled == AfterTradeAll(l, ps, Quotes(m.close, codes, date), cashChange, prePortfolioValue)
    ensures log == AfterCalls(Quotes(m.close, codes, date), cashChange, prePortfolioValue)
  {
    ghost var closes := Quotes(m.close, codes, date);
    settled, log := ps, [];
    var i := 0;
    while i < |ps|
      invariant 0 <= i <= |ps| && |settled| == |ps|
      invariant forall k :: 0 <= k < i ==>
                  settled[k] == l.afterTrade(ps[k], closes[k], cashChange, prePortfolioValue)
      invariant forall k :: i <= k < |ps| ==> settled[k] == ps[k]
      invariant log == AfterCalls(closes[..i], cashChange, prePortfolioValue)
    {
      var closePrice := m.close(codes[i], date);
      settled := settled[i := l.afterTrade(settled[i], closePrice, cashChange, prePortfolioValue)];
      log := log + [AfterTrade(i, closePrice, cashChange, prePortfolioValue)];
      assert log == AfterCalls(closes[..i + 1], cashChange, prePortfolioValue) by {
        AfterCallsSnoc(closes, cashChange, prePortfolioValue, i);
      }
      i := i + 1;
    }
    assert closes[..i] == closes;
  }

  /** One day's order execution, loop by loop, with the ledger calls it makes. */
  method ExecuteDay(l: Ledger, m: Market, codes: seq<Code>, date: Date, ps: seq<Position>, cash: real,
                    portfolioValue: real, prePortfolioValue: real, sells: seq<Order>, buys: seq<Order>)
    returns (e: Execution)
    requires |ps| == |codes| && Addressed(sells, |ps|) && Addressed(buys, |ps|)
    ensures e == Execute(l, m, codes, date, ps, cash, portfolioValue, prePortfolioValue, sells, buys)
  {
    var adjusted, adjustLog := AdjustPositions(l, m, codes, date, ps);
    var sold, sellLog := ExecuteOrders(l, true, adjusted, cash, portfolioValue, sells);
    var bought, buyLog := ExecuteOrders(l, false, sold.positions, sold.cash, portfolioValue, buys);
    var cashChange := sold.cashChange + bought.cashChange;
    var settled, settleLog := SettlePositions(l, m, codes, date, bought.positions, cashChange, prePortfolioValue);
    e := Execution(settled, bought.cash, cashChange, adjustLog + sellLog + buyLog + settleLog);
  }

  /** The limit prices of a pass, in order. */
  function Prices(orders: seq<Order>): (r: seq<real>)
    ensures |r| == |orders|
  {
    seq(|orders|, k requires 0 <= k < |orders| => orders[k].price)
  }

  // ----------------------------------------------------------------------
  // The call log of a step

  function BeforeCalls(rates: seq<real>): seq<Call>
  {
    seq(|rates|, k requires 0 <= k < |rates| => BeforeTrade(k, rates[k]))
  }

  function OrderCalls(selling: bool, orders: seq<Order>): seq<Call>
  {
    seq(|orders|, k requires 0 <= k < |orders| => if selling then Sell(orders[k]) else Buy(orders[k]))
  }

  function AfterCalls(closes: seq<real>, cashChange: real, prePortfolioValue: real): seq<Call>
  {
    seq(|closes|, k requires 0 <= k < |closes| => AfterTrade(k, closes[k], cashChange, prePortfolioValue))
  }

  function ValuePercentCalls(n: nat, portfolioValue: real): seq<Call>
  {
    seq(n, k requires 0 <= k < n => UpdateValuePercent(k, portfolioValue))
  }

  // Each log grows by one entry per loop iteration.

  lemma BeforeCallsSnoc(rates: seq<real>, i: nat)
    requires i < |rates|
    ensures BeforeCalls(rates[..i + 1]) == BeforeCalls(rates[..i]) + [BeforeTrade(i, rates[i])]
  {
    assert forall k :: 0 <= k < i ==> BeforeCalls(rates[..i + 1])[k] == BeforeCalls(rates[..i])[k];
  }

  lemma OrderCallsSnoc(selling: bool, orders: seq<Order>, i: nat)
    requires i < |orders|
    ensures OrderCalls(selling, orders[..i + 1])
         == OrderCalls(selling, orders[..i]) + [if selling then Sell(orders[i]) else Buy(orders[i])]
  {
    assert forall k :: 0 <= k < i ==> OrderCalls(selling, orders[..i + 1])[k] == OrderCalls(selling, orders[..i])[k];
  }

  lemma AfterCallsSnoc(closes: seq<real>, cashChange: real, prePortfolioValue: real, i: nat)
    requires i < |closes|
    ensures AfterCalls(closes[..i + 1], cashChange, prePortfolioValue)
         == AfterCalls(closes[..i], cashChange, prePortfolioValue) + [AfterTrade(i, closes[i], cashChange, prePortfolioValue)]
  {
    assert forall k :: 0 <= k < i ==>
      AfterCalls(closes[..i + 1], cashChange, prePortfolioValue)[k] == AfterCalls(closes[..i], cashChange, prePortfolioValue)[k];
  }

  lemma ValuePercentCallsSnoc(i: nat, portfolioValue: real)
    ensures ValuePercentCalls(i + 1, portfolioValue)
         == ValuePercentCalls(i, portfolioValue) + [UpdateValuePercent(i, portfolioValue)]
  {
    assert forall k :: 0 <= k < i ==> ValuePercentCalls(i + 1, portfolioValue)[k] == ValuePercentCalls(i, portfolioValue)[k];
  }

  /** The ledger calls of one day's order execution, in the order they are made. */
  function ExecutionCalls(rates: seq<real>, sells: seq<Order>, buys: seq<Order>, closes: seq<real>,
                          cashChange: real, prePortfolioValue: real): seq<Call>
  {
    BeforeCalls(rates) + OrderCalls(true, sells) + OrderCalls(false, buys) + AfterCalls(closes, cashChange, prePortfolioValue)
  }

  /** A day's order execution as a whole: the positions and cash it leaves, its cash change and its ledger calls. */
  datatype Execution = Execution(positions: seq<Position>, cash: real, cashChange: real, calls: seq<Call>)

  /**
   * One day's order execution on the ledger: every position adjusted for
   * the date's dividend/split ratio, the sell pass then the buy pass, then
   * every position settled at the date's close with the day's cash change.
   */
  function Execute(l: Ledger, m: Market, codes: seq<Code>, date: Date, ps: seq<Position>, cash: real,
                   portfolioValue: real, prePortfolioValue: real, sells: seq<Order>, buys: seq<Order>)
    : (e: Execution)
    requires |ps| == |codes| && Addressed(sells, |ps|) && Addressed(buys, |ps|)
    ensures |e.positions| == |ps|
    ensures sells == [] && buys == [] ==> e.cash == cash && e.cashChange == 0.0
  {
    var rates := Quotes(m.divideRate, codes, date);
    var closes := Quotes(m.close, codes, date);
    var t := Trade(l, BeforeTradeAll(l, ps, rates), cash, portfolioValue, sells, buys);
    Execution(AfterTradeAll(l, t.positions, closes, t.cashChange, prePortfolioValue), t.cash, t.cashChange,
              ExecutionCalls(rates, sells, buys, closes, t.cashChange, prePortfolioValue))
  }

  /** Which stage of the step a call belongs to. */
  function Phase(c: Call): nat
  {
    match c
    case BeforeTrade(_, _) => 0
    case Sell(_) => 1
    case Buy(_) => 2
    case AfterTrade(_, _, _, _) => 3
    case UpdateValuePercent(_, _) => 4
  }

  /** The stage of the call at position `k` of a day's execution log. */
  lemma ExecutionPhaseAt(rates: seq<real>, sells: seq<Order>, buys: seq<Order>, closes: seq<real>,
                         cashChange: real, prePortfolioValue: real, k: nat)
    requires k < |rates| + |sells| + |buys| + |closes|
    ensures var c := ExecutionCalls(rates, sells, buys, closes, cashChange, prePortfolioValue);
            var a, s, b := |rates|, |sells|, |buys|;
            && |c| == a + s + b + |closes|
            && Phase(c[k]) == if k < a then 0 else if k < a + s then 1 else if k < a + s + b then 2 else 3
  {
    var A, S, B, D := BeforeCalls(rates), OrderCalls(true, sells), OrderCalls(false, buys),
                      AfterCalls(closes, cashChange, prePortfolioValue);
    var c := A + S + B + D;
    assert c == ExecutionCalls(rates, sells, buys, closes, cashChange, prePortfolioValue);
    if k < |A| {
      assert c[k] == A[k];
    } else if k < |A| + |S| {
      assert c[k] == S[k - |A|];
    } else if k < |A| + |S| + |B| {
      assert c[k] == B[k - |A| - |S|];
    } else {
      assert c[k] == D[k - |A| - |S| - |B|];
    }
  }

  /**
   * In a day's execution log, every adjustment comes before every order,
   * every sell before every buy and every order before every end-of-day
   * update; the end-of-day updates close the log, one per position in index
   * order, all with the same cash change.
   */
  lemma ExecutionOrder(rates: seq<real>, sells: seq<Order>, buys: seq<Order>, closes: seq<real>,
                       cashChange: real, prePortfolioValue: real)
    ensures var c := ExecutionCalls(rates, sells, buys, closes, cashChange, prePortfolioValue);
            forall p, q :: 0 <= p < |c| && 0 <= q < |c| && Phase(c[p]) < Phase(c[q]) ==> p < q
    ensures var c := ExecutionCalls(rates, sells, buys, closes, cashChange, prePortfolioValue);
            forall k :: 0 <= k < |closes| ==>
              c[|c| - |closes| + k] == AfterTrade(k, closes[k], cashChange, prePortfolioValue)
  {
    var c := ExecutionCalls(rates, sells, buys, closes, cashChange, prePortfolioValue);
    var D := AfterCalls(closes, cashChange, prePortfolioValue);
    assert c == BeforeCalls(rates) + OrderCalls(true, sells) + OrderCalls(false, buys) + D;
    forall p, q | 0 <= p < |c| && 0 <= q < |c| && Phase(c[p]) < Phase(c[q])
      ensures p < q
    {
      ExecutionPhaseAt(rates, sells, buys, closes, cashChange, prePortfolioValue, p);
      ExecutionPhaseAt(rates, sells, buys, closes, cashChange, prePortfolioValue, q);
    }
    forall k | 0 <= k < |closes|
      ensures c[|c| - |closes| + k] == AfterTrade(k, closes[k], cashChange, prePortfolioValue)
    {
      assert c[|c| - |closes| + k] == D[k];
    }
  }

  // ----------------------------------------------------------------------
  // Observation window

  /** The portfolio features of a day: each position's daily return then its value percent. */
  function PortfolioFeatures(ps: seq<Position>): (f: seq<real>)
    ensures |f| == 2 * |ps|
  {
    if ps == [] then []
    else PortfolioFeatures(ps[..|ps| - 1]) + [ps[|ps| - 1].dailyReturn, ps[|ps| - 1].valuePercent]
  }

  /** Instrument `i`'s two features sit at columns `2i` and `2i + 1`. */
  lemma {:induction false} PortfolioFeaturesAt(ps: seq<Position>, i: nat)
    requires i < |ps|
    ensures PortfolioFeatures(ps)[2 * i] == ps[i].dailyReturn
    ensures PortfolioFeatures(ps)[2 * i + 1] == ps[i].valuePercent
  {
    if i < |ps| - 1 {
      PortfolioFeaturesAt(ps[..|ps| - 1], i);
    }
  }

  /** The window after one day: the oldest row dropped, the new row appended last. */
  function Shift(window: seq<seq<real>>, row: seq<real>): (w: seq<seq<real>>)
    ensures |w| == if |window| > 0 then |window| else 1
    ensures w[|w| - 1] == row
    ensures forall k :: 0 <= k < |w| - 1 ==> w[k] == window[k + 1]
  {
    if window == [] then [row] else window[1..] + [row]
  }

  /** The window after a run of days, one row per day. */
  function ShiftAll(window: seq<seq<real>>, rows: seq<seq<real>>): seq<seq<real>>
  {
    if rows == [] then window
    else Shift(ShiftAll(window, rows[..|rows| - 1]), rows[|rows| - 1])
  }

  /** A non-empty window always holds the most recent rows, as many as it started with. */
  lemma {:induction false} ShiftAllKeepsLatest(window: seq<seq<real>>, rows: seq<seq<real>>)
    requires |window| > 0
    ensures ShiftAll(window, rows) == (window + rows)[|rows|..]
  {
    if rows != [] {
      var rows' := rows[..|rows| - 1];
      var last := rows[|rows| - 1];
      ShiftAllKeepsLatest(window, rows');
      var w' := (window + rows')[|rows'|..];
      assert |w'| == |window|;
      assert window + rows == (window + rows') + [last];
      assert w'[1..] + [last] == (window + rows)[|rows|..];
    } else {
      assert (window + rows)[0..] == window;
    }
  }

  /** `k` zeros. */
  function Zeros(k: nat): seq<real>
  {
    seq(k, _ => 0.0)
  }

  /**
   * The opening window: one row per date among the first `lookBackDays`
   * dates, its market features followed by `2n` zero portfolio features.
   * None when the window cannot be formed: no rows asked for, or fewer
   * dates than rows.
   */
  function InitObs(m: Market, dates: seq<Date>, lookBackDays: nat, n: nat): (w: Option<seq<seq<real>>>)
    ensures w.Some? <==> 1 <= lookBackDays <= |dates|
    ensures w.Some? ==> |w.value| == lookBackDays
    ensures w.Some? ==> forall r :: 0 <= r < lookBackDays ==>
              var info := m.info(dates[r]);
              && |w.value[r]| == |info| + 2 * n
              && w.value[r][..|info|] == info
              && forall j :: |info| <= j < |w.value[r]| ==> w.value[r][j] == 0.0
  {
    if 1 <= lookBackDays <= |dates| then
      Some(seq(lookBackDays, r requires 0 <= r < lookBackDays => m.info(dates[r]) + Zeros(2 * n)))
    else None
  }

  // ----------------------------------------------------------------------
  // Date pointer

  /** The current date index and whether the episode is over. */
  datatype Clock = Clock(timeId: nat, done: bool)

  /**
   * One step of the date pointer: the episode is marked done when the
   * current date is the final date, and the pointer moves on only while it
   * is not done.
   */
  function Tick(dates: seq<Date>, c: Clock): (r: Clock)
    requires c.timeId < |dates|
    ensures r.timeId < |dates|
  {
    var done := c.done || dates[c.timeId] == dates[|dates| - 1];
    Clock(if done then c.timeId else c.timeId + 1, done)
  }

  /** The date pointer after `k` steps from the start of an episode. */
  function Run(dates: seq<Date>, k: nat): (c: Clock)
    requires |dates| > 0
    ensures c.timeId < |dates|
  {
    if k == 0 then Clock(0, false) else Tick(dates, Run(dates, k - 1))
  }

  ghost predicate Distinct(dates: seq<Date>)
  {
    forall i, j :: 0 <= i < j < |dates| ==> dates[i] != dates[j]
  }

  /**
   * With distinct dates, the first `|dates| - 1` steps each move to the next
   * date and leave the episode running; the step that processes the final
   * date marks it done; every later step stays there.
   */
  lemma {:induction false} EpisodeRun(dates: seq<Date>, k: nat)
    requires |dates| > 0 && Distinct(dates)
    ensures k < |dates| ==> Run(dates, k) == Clock(k, false)
    ensures k >= |dates| ==> Run(dates, k) == Clock(|dates| - 1, true)
  {
    if k > 0 {
      EpisodeRun(dates, k - 1);
      if k - 1 < |dates| - 1 {
        assert dates[k - 1] != dates[|dates| - 1];
      }
    }
  }

  // ----------------------------------------------------------------------
  // Environment state and the stages of a step

  /** What an environment is built with and never changes during an episode. */
  datatype Setup = Setup(codes: seq<Code>, dates: seq<Date>, lookBackDays: nat, market: Market, ledger: Ledger)

  /** Everything an environment updates during an episode, with `figures` holding the five roll-up totals. */
  datatype Account = Account(
    portfolios: seq<Position>,
    cash: real,
    preCash: real,
    figures: Figures,
    totalPnl: real,
    dailyReturn: real,
    portfolioValue: real,
    valuePercent: real,
    portfolioValueLogs: seq<real>,
    reward: real,
    rewards: seq<real>,
    obs: seq<seq<real>>,
    currentTimeId: nat,
    currentDate: Date,
    done: bool,
    calls: seq<Call>)

  /**
   * The shape an environment keeps throughout an episode: one position and
   * one reward per instrument, a full window of equally wide rows, and the
   * current date at the current index.
   */
  ghost predicate Consistent(c: Setup, s: Account)
  {
    && |s.portfolios| == |c.codes|
    && |s.rewards| == |c.codes|
    && FixedWidth(c.market)
    && c.lookBackDays >= 1
    && |s.obs| == c.lookBackDays
    && (forall r :: 0 <= r < |s.obs| ==> |s.obs[r]| == c.market.infoSize + 2 * |c.codes|)
    && s.currentTimeId < |c.dates|
    && s.currentDate == c.dates[s.currentTimeId]
  }

  /** The episode is marked done when the current date is the final one. */
  function MarkedDone(c: Setup, s: Account): (t: Account)
    requires |c.dates| > 0
    ensures t.done == (s.done || s.currentDate == c.dates[|c.dates| - 1])
  {
    if s.currentDate == c.dates[|c.dates| - 1] then s.(done := true) else s
  }

  /** The state after the day's execution: its positions, its cash and its ledger calls. */
  function Executed(c: Setup, s: Account, prePortfolioValue: real, sells: seq<Order>, buys: seq<Order>)
    : (t: Account)
    requires |s.portfolios| == |c.codes| && Addressed(sells, |c.codes|) && Addressed(buys, |c.codes|)
    ensures |t.portfolios| == |s.portfolios|
  {
    var e := Execute(c.ledger, c.market, c.codes, s.currentDate, s.portfolios, s.cash, s.portfolioValue,
                     prePortfolioValue, sells, buys);
    s.(portfolios := e.positions, cash := e.cash, calls := s.calls + e.calls)
  }

  /**
   * The portfolio roll-up: the position totals, the running pnl, the day's
   * return on the previous portfolio value and the new, logged, portfolio value.
   */
  function RolledUp(s: Account): (t: Account)
  {
    var f := Totals(s.portfolios);
    var pv := f.marketValue + s.cash;
    s.(figures := f, totalPnl := s.totalPnl + f.pnl, dailyReturn := GuardedRatio(f.dailyPnl, s.portfolioValue),
       portfolioValue := pv, portfolioValueLogs := s.portfolioValueLogs + [pv])
  }

  /** The invested share, and every position told the portfolio value. */
  function WithValuePercents(l: Ledger, s: Account): (t: Account)
    ensures |t.portfolios| == |s.portfolios|
  {
    s.(valuePercent := GuardedRatio(s.figures.marketValue, s.portfolioValue),
       portfolios := ValuePercentAll(l, s.portfolios, s.portfolioValue),
       calls := s.calls + ValuePercentCalls(|s.portfolios|, s.portfolioValue))
  }

  /**
   * The window moved on by the day's row, the date pointer moved on unless
   * the episode is done, and the cash remembered for the next day.
   */
  function Advanced(c: Setup, s: Account): (t: Account)
    requires !s.done ==> s.currentTimeId + 1 < |c.dates|
  {
    var w := Shift(s.obs, c.market.info(s.currentDate) + PortfolioFeatures(s.portfolios));
    if s.done then s.(obs := w, preCash := s.cash)
    else s.(obs := w, currentTimeId := s.currentTimeId + 1, currentDate := c.dates[s.currentTimeId + 1],
            preCash := s.cash)
  }

  /**
   * A day up to its reward: marked done on the final date, the orders
   * executed with the morning's portfolio value, the roll-up and the value
   * percents.
   */
  function Traded(c: Setup, s: Account, sells: seq<Order>, buys: seq<Order>): (t: Account)
    requires Consistent(c, s) && Addressed(sells, |c.codes|) && Addressed(buys, |c.codes|)
    ensures |t.portfolios| == |s.portfolios| && t.rewards == s.rewards && t.obs == s.obs
    ensures t.currentTimeId == s.currentTimeId && t.currentDate == s.currentDate
    ensures t.done == (s.done || s.currentDate == c.dates[|c.dates| - 1])
  {
    WithValuePercents(c.ledger, RolledUp(Executed(c, MarkedDone(c, s), s.portfolioValue, sells, buys)))
  }

  /**
   * The accounts a trading day leaves: the cash the execution leaves, the
   * figures summed over the positions it leaves, the running pnl grown by
   * the day's pnl, the portfolio value as market value plus cash (and
   * logged), the day's return and the invested share each scaling back to
   * the amount it is a ratio of (or 0 on a zero denominator), every
   * position then told the portfolio value, and the ledger calls of the
   * execution followed by one value-percent update per position.
   */
  lemma TradedAccounts(c: Setup, s: Account, sells: seq<Order>, buys: seq<Order>)
    requires Consistent(c, s) && Addressed(sells, |c.codes|) && Addressed(buys, |c.codes|)
    ensures var t := Traded(c, s, sells, buys);
            var e := Execute(c.ledger, c.market, c.codes, s.currentDate, s.portfolios, s.cash, s.portfolioValue,
                             s.portfolioValue, sells, buys);
            && t.cash == e.cash
            && t.figures == Totals(e.positions)
            && t.totalPnl == s.totalPnl + t.figures.pnl
            && t.portfolioValue == t.figures.marketValue + t.cash
            && t.portfolioValueLogs == s.portfolioValueLogs + [t.portfolioValue]
            && (s.portfolioValue == 0.0 ==> t.dailyReturn == 0.0)
            && (s.portfolioValue != 0.0 ==> t.dailyReturn * s.portfolioValue == t.figures.dailyPnl)
            && (t.portfolioValue == 0.0 ==> t.valuePercent == 0.0)
            && (t.portfolioValue != 0.0 ==> t.valuePercent * t.portfolioValue == t.figures.marketValue)
            && t.portfolios == ValuePercentAll(c.ledger, e.positions, t.portfolioValue)
            && t.calls == s.calls + e.calls + ValuePercentCalls(|c.codes|, t.portfolioValue)
  {
    var t := Traded(c, s, sells, buys);
    if s.portfolioValue != 0.0 {
      GuardedRatioScales(t.figures.dailyPnl, s.portfolioValue);
    }
    if t.portfolioValue != 0.0 {
      GuardedRatioScales(t.figures.marketValue, t.portfolioValue);
    }
  }

  /**
   * A day with no orders (the buy-and-hold baseline) keeps the cash, and
   * its only ledger calls are the adjustments, the end-of-day updates with
   * a zero cash change and the value-percent updates.
   */
  lemma TradedWithoutOrders(c: Setup, s: Account)
    requires Consistent(c, s)
    ensures var t := Traded(c, s, [], []);
            && t.cash == s.cash
            && t.calls == s.calls + BeforeCalls(Quotes(c.market.divideRate, c.codes, s.currentDate))
                                  + AfterCalls(Quotes(c.market.close, c.codes, s.currentDate), 0.0, s.portfolioValue)
                                  + ValuePercentCalls(|c.codes|, t.portfolioValue)
  {
    var rates, closes := Quotes(c.market.divideRate, c.codes, s.currentDate), Quotes(c.market.close, c.codes, s.currentDate);
    assert OrderCalls(true, []) == [] && OrderCalls(false, []) == [];
    assert ExecutionCalls(rates, [], [], closes, 0.0, s.portfolioValue) == BeforeCalls(rates) + AfterCalls(closes, 0.0, s.portfolioValue);
  }

  /**
   * The ledger calls of a whole day run stage by stage: every adjustment,
   * then every sell, every buy, every end-of-day update and finally every
   * value-percent update.
   */
  lemma DayCallsOrdered(rates: seq<real>, sells: seq<Order>, buys: seq<Order>, closes: seq<real>,
                        cashChange: real, prePortfolioValue: real, n: nat, portfolioValue: real)
    ensures var day := ExecutionCalls(rates, sells, buys, closes, cashChange, prePortfolioValue)
                       + ValuePercentCalls(n, portfolioValue);
            forall p, q :: 0 <= p < |day| && 0 <= q < |day| && Phase(day[p]) < Phase(day[q]) ==> p < q
  {
    var ex := ExecutionCalls(rates, sells, buys, closes, cashChange, prePortfolioValue);
    var day := ex + ValuePercentCalls(n, portfolioValue);
    ExecutionOrder(rates, sells, buys, closes, cashChange, prePortfolioValue);
    forall k | 0 <= k < |ex|
      ensures day[k] == ex[k] && Phase(ex[k]) < 4
    {
      ExecutionPhaseAt(rates, sells, buys, closes, cashChange, prePortfolioValue, k);
    }
    assert forall k :: |ex| <= k < |day| ==> Phase(day[k]) == 4;
  }

  /** A trading day only appends to the call log, and what it appends runs stage by stage. */
  lemma TradedCallOrder(c: Setup, s: Account, sells: seq<Order>, buys: seq<Order>)
    requires Consistent(c, s) && Addressed(sells, |c.codes|) && Addressed(buys, |c.codes|)
    ensures var t := Traded(c, s, sells, buys);
            && |s.calls| <= |t.calls| && t.calls[..|s.calls|] == s.calls
            && var day := t.calls[|s.calls|..];
               forall p, q :: 0 <= p < |day| && 0 <= q < |day| && Phase(day[p]) < Phase(day[q]) ==> p < q
  {
    var t := Traded(c, s, sells, buys);
    var rates, closes := Quotes(c.market.divideRate, c.codes, s.currentDate), Quotes(c.market.close, c.codes, s.currentDate);
    var e := Execute(c.ledger, c.market, c.codes, s.currentDate, s.portfolios, s.cash, s.portfolioValue,
                     s.portfolioValue, sells, buys);
    var day := ExecutionCalls(rates, sells, buys, closes, e.cashChange, s.portfolioValue)
               + ValuePercentCalls(|c.codes|, t.portfolioValue);
    assert t.calls == s.calls + day;
    assert t.calls[..|s.calls|] == s.calls && t.calls[|s.calls|..] == day;
    DayCallsOrdered(rates, sells, buys, closes, e.cashChange, s.portfolioValue, |c.codes|, t.portfolioValue);
  }
}
