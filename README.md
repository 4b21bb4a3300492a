# tgym trading-step engine, modelled in Dafny

This project models the daily trading step of the two scenario environments of
tgym: `AverageEnv` (tgym/envs/average.py) and `MultiVolEnv`
(tgym/envs/multi_vol.py). Each is a small state machine over in-memory state.
Every call to `step(action, only_update)`:

- marks the episode done on the final date, which still trades;
- decodes the action vector into limit orders, each priced off the previous close;
- runs the day against the position ledger: every position adjusted for
  dividends and splits, then the sell pass, then the buy pass, then every
  position's end-of-day update with the day's total cash change;
- rolls the positions up into the environment totals, with zero-guarded
  `daily_return` and `value_percent`;
- computes the rewards;
- shifts the fixed-length observation window and moves the date pointer.

Files:

- `pricing.dfy` (module `Pricing`): rounding to cents and the limit-price decoder.
- `collaborators.dfy` (module `Collaborators`): the position ledger and the
  market data provider, given as records of total functions. Positions are
  values. `Call` is one entry of the ledger-call log.
- `engine.dfy` (module `Engine`): the pipeline the two environments share.
  It holds the specification functions (`Totals`, `RunPass`, `Execute`,
  `Shift`, `Tick`, and the stages of a step over an `Account` value), the
  loops that implement them as heap-free methods, and the lemmas about them.
- `average.dfy` (module `Average`) and `multi_vol.dfy` (module `MultiVol`):
  the decoders and the reward rule of each environment, the step of each as a
  function `Stepped` of the state before it, and the environment classes.

Each class keeps the fields a step reads or updates (the five roll-up totals
are grouped in one `figures` field). The derived constants `action_space`,
`start`, `portfolio_info_size`, `input_size` and `reward_fn_name` are not kept. `State()` reads them as one `Account` value. Every method
ensures `State() == <stage>(old(State()))`, and `Step` ensures
`State() == Stepped(Config(), old(State()), ...)`. The properties the source
promises are proved as lemmas about `Stepped` and the stages it is built
from. The ghost field `calls` records every ledger call in order.

## Model

| member | source | states |
|---|---|---|
| Pricing.RoundCents | tgym/envs/average.py:67-68 | `round(x, 2)`: the result is a whole number of cents within half a cent of `x` (halves rounded up) |
| Pricing.RoundCentsOfCents | tgym/envs/average.py:67-68 | an amount already in whole cents is unchanged by rounding |
| Pricing.RoundCentsMonotone | tgym/envs/average.py:67-68 | rounding never reverses the order of two amounts |
| Pricing.LimitPrice | tgym/envs/multi_vol.py:55-63 | a decoded limit price is a whole number of cents |
| Pricing.LimitPriceNear | tgym/envs/multi_vol.py:61-62 | the price is within half a cent of `pre_close * (1 + 0.1 * v)` |
| Pricing.LimitPriceNoMove | tgym/envs/multi_vol.py:61-62 | `v = 0` returns a cent-precise previous close unchanged |
| Pricing.LimitPriceMonotone | tgym/envs/multi_vol.py:61-62 | for a non-negative previous close, a larger scalar never gives a lower price |
| Average.GetActionPrice | tgym/envs/average.py:59-69 | both decoded prices are whole cents |
| Average.ActionPricesOrdered | tgym/envs/average.py:64-69 | on a non-negative previous close, the sell price is at most the buy price when `v_sell <= v_buy` |
| Average.SellOrders | tgym/envs/average.py:143-149 | one sell order per instrument, order `i` addressed to instrument `i` |
| Average.BuyOrders | tgym/envs/average.py:152-158 | one buy order per instrument, order `i` addressed to instrument `i` |
| Average.DayOrders | tgym/envs/average.py:140-159 | no orders with `only_update`; otherwise `n` sells and `n` buys |
| Average.DayOrdersAt | tgym/envs/average.py:143-158 | sell `i` is priced from `action[2i]` with target 0; buy `i` is priced from `action[2i+1]` with target `avg_percent` |
| Engine.Quotes | tgym/envs/average.py:136-138 | one quote per instrument, in code order |
| Engine.SumPositions | tgym/envs/average.py:72-83 | the accumulation loop yields each figure summed over the positions (`Totals`) |
| Engine.TotalsAppend | tgym/envs/average.py:78-83 | the totals over two runs of positions add up |
| Engine.TotalsUpdate | tgym/envs/average.py:78-83 | replacing one position moves every total by that position's difference |
| Engine.GuardedRatio | tgym/envs/average.py:86-90 | the day's return (and likewise the invested share) is 0 when its denominator is 0 |
| Engine.GuardedRatioScales | tgym/envs/average.py:128-129 | otherwise the ratio times its denominator is its numerator: return × previous value = day's pnl, share × portfolio value = market value |
| Engine.RunPass | tgym/envs/average.py:143-150 | a pass of orders keeps one position per instrument |
| Engine.Trade | tgym/envs/average.py:141-159 | the two passes keep one position per instrument; with no orders the positions and cash are kept and the cash change is 0 |
| Engine.BeforeTradeAll | tgym/envs/average.py:136-139 | every position is adjusted, none added or lost |
| Engine.AfterTradeAll | tgym/envs/average.py:165-171 | every position is settled, none added or lost |
| Engine.ValuePercentAll | tgym/envs/average.py:130-131 | every position is told the portfolio value, none added or lost |
| Engine.AdjustPositions | tgym/envs/average.py:136-139 | the adjustment loop equals `BeforeTradeAll` and logs one call per position, in index order |
| Engine.ExecuteOrders | tgym/envs/average.py:143-159 | a pass loop equals `RunPass`, with the cash change summed over the orders' deltas, and logs one call per order |
| Engine.SettlePositions | tgym/envs/average.py:165-171 | the end-of-day loop equals `AfterTradeAll` with one cash change for all, and logs one call per position |
| Engine.ExecuteDay | tgym/envs/average.py:133-172 | the day's loops together equal `Execute` |
| Engine.Prices | tgym/envs/average.py:147-156 | one returned price per order |
| Engine.Execute | tgym/envs/average.py:133-172 | the day keeps one position per instrument; with no orders the cash is kept and the cash change is 0 |
| Engine.ExecutionPhaseAt | tgym/envs/average.py:133-172 | the stage of each call in a day's log |
| Engine.ExecutionOrder | tgym/envs/average.py:136-171 | every adjustment precedes every order, every sell precedes every buy, every order precedes every end-of-day update; those updates close the log, one per position, all with the same cash change |
| Engine.PortfolioFeatures | tgym/envs/average.py:176-180 | the portfolio part of a row has `2n` entries |
| Engine.PortfolioFeaturesAt | tgym/envs/average.py:177-179 | instrument `i`'s daily return and value percent sit at columns `2i` and `2i+1` |
| Engine.Shift | tgym/envs/average.py:182-183 | the window keeps its length, drops its oldest row and ends with the new row |
| Engine.ShiftAllKeepsLatest | tgym/envs/average.py:182-183 | after any run of days a window holds the latest rows, as many as it started with |
| Engine.InitObs | tgym/envs/average.py:42-57 | the opening window has `look_back_days` rows, each a date's market features followed by `2n` zeros; none when it cannot be formed |
| Engine.Tick | tgym/envs/average.py:184-186 | the date pointer stays in range |
| Engine.Run | tgym/envs/average.py:184-186 | after any number of steps the date pointer stays in range |
| Engine.EpisodeRun | tgym/envs/average.py:202-203 | with distinct dates, steps advance one date at a time; the step on the final date sets done, and every later step stays there |
| Engine.MarkedDone | tgym/envs/average.py:202-203 | done is set exactly when already done or the current date is the final date |
| Engine.Executed | tgym/envs/average.py:133-172 | the day's execution keeps one position per instrument |
| Engine.WithValuePercents | tgym/envs/average.py:125-131 | value-percent updates keep one position per instrument |
| Engine.Traded | tgym/envs/average.py:202-210 | the trading part of a step changes neither the window, the rewards nor the date pointer; only done may be set |
| Engine.TradedAccounts | tgym/envs/average.py:205-210 | cash as the execution leaves it; figures summed over its positions; total pnl grows by the new pnl; portfolio value = market value + cash, appended to the log; zero-guarded return and share; positions told the value; calls = execution calls then one value-percent call per position |
| Engine.TradedWithoutOrders | tgym/envs/average.py:140-171 | with no orders the cash is kept and the only calls are the adjustments, the end-of-day updates with cash change 0 and the value-percent updates |
| Engine.DayCallsOrdered | tgym/envs/average.py:206-210 | a day's calls run stage by stage, value-percent updates last |
| Engine.TradedCallOrder | tgym/envs/average.py:206-210 | a step only appends to the call log, and what it appends runs stage by stage |
| Average.StepKeepsConsistent | tgym/envs/average.py:190-219 | a step keeps one position and one reward per instrument, a full window of equally wide rows, and the date pointer in range |
| Average.StepAccounts | tgym/envs/average.py:205-211 | a step's accounts, positions and calls are those of `Traded` on the decoded orders |
| Average.StepClock | tgym/envs/average.py:174-188 | the date pointer ticks as `Tick`; the window is shifted by market info followed by each position's daily return and value percent; `pre_cash` is the cash |
| Average.StepRewards | tgym/envs/average.py:111-123 | the reward is the reward function of the day's return, and every instrument's reward equals it |
| Average.StepHoldOnly | tgym/envs/average.py:140-171 | a hold-only step keeps the cash and issues no sell or buy; the end-of-day updates get cash change 0 |
| Average.AverageEnv.constructor | tgym/envs/average.py:25-40 | sets the episode constants, `avg_percent = 1/n` and the reward function; the start state is the one assumed for `BaseEnv` (see "Left out") |
| Average.AverageEnv.DoAction | tgym/envs/average.py:133-172 | the new state is `Executed` on the decoded orders; the returned price lists are the orders' prices, empty with `only_update` and of length `n` otherwise |
| Average.AverageEnv.UpdatePortfolio | tgym/envs/average.py:71-93 | the new state is `RolledUp` of the old one |
| Average.AverageEnv.UpdateValuePercent | tgym/envs/average.py:125-131 | the new state is `WithValuePercents` of the old one |
| Average.AverageEnv.UpdateReward | tgym/envs/average.py:111-123 | the new state is `Rewarded` of the old one |
| Average.AverageEnv.Next | tgym/envs/average.py:174-188 | the new state is `Advanced` of the old one, and the returned window is the new window; the method also stores that window in `obs`, which the source does in `step` with `self.obs = self._next()` (tgym/envs/average.py:212) |
| Average.AverageEnv.Step | tgym/envs/average.py:190-219 | the environment stays valid, the new state is `Stepped` of the old one, and the returned values are the new window, reward, done flag and rewards |
| MultiVol.GetActionTargetPct | tgym/envs/multi_vol.py:65-68 | a scalar in [-1, 1] gives a target weight in [0, 1] |
| MultiVol.TargetPctEndpoints | tgym/envs/multi_vol.py:65-68 | -1 gives 0, 0 gives 0.5 and 1 gives 1 |
| MultiVol.TargetPctMonotone | tgym/envs/multi_vol.py:65-68 | a larger scalar never gives a smaller weight, and the scalar is recovered from the weight |
| MultiVol.SellOrders | tgym/envs/multi_vol.py:128-134 | one sell order per instrument, order `i` addressed to instrument `i` |
| MultiVol.BuyOrders | tgym/envs/multi_vol.py:136-142 | one buy order per instrument, order `i` addressed to instrument `i` |
| MultiVol.DayOrders | tgym/envs/multi_vol.py:126-142 | no orders with `only_update`; otherwise `n` sells and `n` buys |
| MultiVol.DayOrdersAt | tgym/envs/multi_vol.py:128-142 | with stride 4, sell `i` reads `action[4i]` and `action[4i+1]`, buy `i` reads `action[4i+2]` and `action[4i+3]` |
| MultiVol.SignReward | tgym/envs/multi_vol.py:97-100 | the reward is -1 or +1, and +1 exactly when the pnl is positive (0 gives -1) |
| MultiVol.SignRewards | tgym/envs/multi_vol.py:102-106 | each instrument's reward is the sign reward of its own daily pnl |
| MultiVol.StepKeepsConsistent | tgym/envs/multi_vol.py:172-199 | a step keeps one position and one reward per instrument, a full window of equally wide rows, and the date pointer in range |
| MultiVol.StepAccounts | tgym/envs/multi_vol.py:187-190 | a step's accounts, positions and calls are those of `Traded` on the decoded orders |
| MultiVol.StepClock | tgym/envs/multi_vol.py:156-170 | the date pointer ticks as `Tick`; the window is shifted by the day's row; `pre_cash` is the cash |
| MultiVol.StepRewards | tgym/envs/multi_vol.py:94-106 | every reward lies in {-1, 1}; the overall one is +1 exactly when the day's pnl is positive, each instrument's exactly when its own is |
| MultiVol.StepHoldOnly | tgym/envs/multi_vol.py:120-154 | a hold-only step keeps the cash and issues no sell or buy; the end-of-day updates get cash change 0 |
| MultiVol.MultiVolEnv.constructor | tgym/envs/multi_vol.py:25-36 | sets the episode constants, for any number of instruments; the start state is the one assumed for `BaseEnv` (see "Left out") |
| MultiVol.MultiVolEnv.DoAction | tgym/envs/multi_vol.py:116-154 | the new state is `Executed` on the stride-4 orders |
| MultiVol.MultiVolEnv.UpdatePortfolio | tgym/envs/multi_vol.py:70-92 | the new state is `RolledUp` of the old one |
| MultiVol.MultiVolEnv.UpdateValuePercent | tgym/envs/multi_vol.py:108-114 | the new state is `WithValuePercents` of the old one |
| MultiVol.MultiVolEnv.UpdateReward | tgym/envs/multi_vol.py:94-106 | the new state is `Rewarded` (sign rule) of the old one |
| MultiVol.MultiVolEnv.Next | tgym/envs/multi_vol.py:156-170 | the new state is `Advanced` of the old one, and the returned window is the new window; the method also stores that window in `obs`, which the source does in `step` with `self.obs = self._next()` (tgym/envs/multi_vol.py:192) |
| MultiVol.MultiVolEnv.Step | tgym/envs/multi_vol.py:172-199 | the environment stays valid, the new state is `Stepped` of the old one, and the returned values are the new window, reward, done flag and rewards |

## Left out

- Pricing.RoundCents: rounds halves up on exact reals. Python's `round` on binary floats (round-half-even on the stored binary value) is not modelled, and neither is any other floating-point effect; money is `real` throughout.
- Average.AverageEnv.UpdateReward: only the `daily_return`/`simple` reward branch is modelled, with the reward function as an opaque `real -> real`. The other branch needs `get_hlc_prices` (tgym/envs/average.py:95-109) and the reward registry, which is not part of this model. So `update_reward`'s price-list parameters are not used.
- `get_hlc_prices` is not modelled. Its suspended-instrument branch calls `appen` instead of `append` (tgym/envs/average.py:106-108), so it would raise instead of filling in zeros.
- Average.AverageEnv.Step, MultiVol.MultiVolEnv.Step, Average.AverageEnv.DoAction and MultiVol.MultiVolEnv.DoAction: these require at least `2n` (or `4n`) action scalars unless only updating. On a shorter vector the source fails part-way through a pass with an exception.
- Average.AverageEnv.Step and MultiVol.MultiVolEnv.Step: the returned rewards are a value. The source returns its own `self.rewards` list (tgym/envs/average.py:219, tgym/envs/multi_vol.py:199) and overwrites that list in place on the next step (tgym/envs/average.py:122-123, tgym/envs/multi_vol.py:102-106). So a caller that keeps the returned list sees its entries change one step later. The model does not capture this aliasing.
- DoAction, both environments: all orders are decoded before the first one runs. The source decodes each order inside its pass loop. Decoding reads nothing the ledger changes, so the orders are the same.
- MultiVol.MultiVolEnv.UpdateReward: the rewards -1 and 1 are reals here; in the source they are integers.
- The ledger (`BaseEnv.sell`/`buy` and the positions' `update_*` hooks) and the market data provider are opaque total functions. Fill logic, transaction costs and the pnl bookkeeping are parameters of the model. A position's own bookkeeping is held as an uninterpreted `holdings` field.
- The model imposes a frame on the ledger. A `sell` or `buy` reads only the position its order addresses, the cash and the portfolio value passed to it, and changes only that position and the cash. Each `update_*` hook reads and changes only its own position. Lemmas that rest on this frame include `StepHoldOnly`'s "the cash is kept".
- The sell and buy hooks receive the portfolio value as an argument. How `BaseEnv` actually reads it is not part of this model.
- `BaseEnv` construction is not part of this model. The constructors take the codes, dates, market, ledger, initial positions and investment as parameters. The start state their contracts fix is an assumption about `BaseEnv`, not something tgym/envs/average.py:25-40 or tgym/envs/multi_vol.py:25-36 set: `currentTimeId == 0` on `dates[0]` (the source reads a separate `market.start`), `obs` is the opening window `InitObs`, `rewards` are `n` zeros, `cash == portfolioValue == investment`, every roll-up figure is 0, and `done` is false.
- Average.AverageEnv.constructor: requires at least one instrument, because `avg_percent = 1.0 / n` (tgym/envs/average.py:34) divides by `n`. `MultiVolEnv` accepts any `n`.
- Every date's market feature row is assumed to have the same width (`FixedWidth`). numpy's shape checks on ragged rows are not modelled.
- `step`'s `info` dictionary (including its `round(..., 1)` values), `info["orders"]`, `self.action`, the logger calls and `get_random_action` (randomness) are not modelled.
- tgym/scenario.py is not modelled. It only dispatches to the constructors, with arguments they do not accept.
- The five roll-up fields `market_value`, `daily_pnl`, `pnl`, `transaction_cost` and `all_transaction_cost` are grouped in one `figures` field. `update_portfolio` sums into local accumulators and writes the group once. The source accumulates directly into the fields, and nothing reads them in between.
