# mirror-bot poll cycle, in Dafny

The mirror bot watches one wallet's balance (native coin or one token) and
copies each change it sees as a trade. A rise is mirrored as a buy and a fall
as a sell, through a swap contract, with alerts sent to Telegram. This project
models the bot's control loop in `mirror.js`:

- `monitor()` reads the starting balance and installs an interval timer.
- On every tick the timer callback queries the balance again and compares
  its decimal text with `lastBalance`. When they differ, it computes
  `diff = new - last` as big integers and calls `handleBuy` when `diff > 0`,
  `handleSell` otherwise. If nothing threw, it records the new balance.
- Each handler returns at once unless its `ENABLE_BUY` / `ENABLE_SELL`
  variable is exactly `"true"`. Past that gate it sizes the trade, sends a
  "Mirroring ..." alert, submits the swap and waits for the receipt.
- Anything thrown in a tick lands in one `catch`. That path sends a single
  "Bot error" alert and leaves `lastBalance` as it was.
- `sendTelegram` does nothing unless both the bot token and the chat id are
  set and non-empty.

Files:

- `decimal.dfy` (module `Decimal`) models `toString()` and `BigInt(...)` on
  non-negative integers. It proves that comparing the balance texts, as the
  source does with `!==`, is the same as comparing the numbers.
- `telegram.dfy` (module `Telegram`) holds the environment settings, the
  alert kinds and the delivery guard.
- `cycle.dfy` (module `Cycle`) gives one tick as a pure transition, `Step`,
  on the last known balance. It also defines runs of ticks (`RunFrom`) and
  proves the multi-tick properties about them.
- `monitor.dfy` (module `Monitor`) holds the running bot as a class,
  `Mirror`. Its field `lastBalance` is a string, as in the source. `Tick`
  is proved to take the state one `Step` forward, and `Poll` to take it to
  `RunFrom` of the state before. `OnChange`, `Dispatch`, `HandleBuy`,
  `HandleSell`, `Execute` and `SendTelegram` are proved against their own
  contracts, stated with the gate (`Enabled`), the handler's alerts
  (`HandlerSent`), the sizing quantity (`SizedFrom`) and the delivery guard
  (`Delivered`).

The chain stays outside the model. Each tick takes the outcome of the balance
query (`Balance(n)` or `QueryFailed(message)`) as an input. It also takes the
outcome of the trade: the sizing threw, or it produced an amount, which was
then confirmed, failed at submission or failed while waiting.

Points of the code's behaviour worth knowing:

- When the sizing, the swap submission or `tx.wait()` throws, the exception
  skips `lastBalance = newBalance` (mirror.js:107), so the previous balance
  is kept. The next tick diffs against that old balance, so the failed
  change is mirrored again, folded into any further change. A swap that was
  broadcast but whose wait failed may therefore be sent a second time.
- The transaction hash and the confirmation are only written to the console
  (mirror.js:62, 64, 80, 82). They are not Telegram alerts.
- Nothing in the code stops two interval callbacks from overlapping.

## Model

| member | source | states |
|---|---|---|
| `Decimal.Show` | mirror.js:86 | The text of a balance is non-empty, made only of decimal digits, and has no leading zero |
| `Decimal.Parse` | mirror.js:95-96 | `BigInt` of a digit string: the number it spells, below 10 to the power of its length; `BigInt("")` is 0. It is the inverse of `Show` by `ParseShow` |
| `Decimal.ParseShow` | mirror.js:95-96 | `BigInt` of the stored text gives back exactly the balance that was stored |
| `Decimal.ShowInjective` | mirror.js:94 | Two balance texts are equal exactly when the balances are equal, so the `!==` test on strings is a test on numbers |
| `Cycle.Classify` | mirror.js:94-105 | No change exactly when the balances are equal. Otherwise `diff = curr - prev` is non-zero, the buy branch is taken exactly when `diff > 0`, and the sell branch exactly when `diff < 0` (never zero) |
| `Cycle.Step` | mirror.js:90-115 | One tick. `lastBalance` only ever becomes the balance just observed. A failed query changes nothing and sends one error alert. An unchanged balance calls no handler and sends nothing. A changed balance reaches the handler of its sign with `diff = new - last`. A handler past its gate sizes from a positive quantity (`diff` for a buy, `last - new` for a sell). A disabled direction sends nothing, swaps nothing and still records the new balance. A changed tick records the new balance exactly when nothing threw. The tick sends one error alert when it failed and none otherwise. Past the gate, a sized trade's Mirroring notice comes first, then the alert carrying what was thrown |
| `Cycle.RunFrom` | mirror.js:90-115 | Successive ticks, each starting from the balance the previous one left. Earlier alerts, recorded balances and diffs are kept as they were, and each tick records at most one balance, with its diff |
| `Cycle.ExtendKeepsConsistent` | mirror.js:97-107 | One tick keeps the history invariant: `lastBalance` is the start-up balance or the balance observed by the most recent committing tick, and the recorded diffs sum to `lastBalance - initial` |
| `Cycle.RunKeepsConsistent` | mirror.js:86-115 | Every sequence of ticks from start-up keeps that invariant |
| `Cycle.RunAppend` | mirror.js:90-115 | Running ticks `a` and then ticks `b` is the same as running `a + b` |
| `Cycle.SteadyBalanceIsIdle` | mirror.js:94-110 | Ticks that keep seeing the recorded balance change nothing, send nothing and record nothing |
| `Cycle.CommittedBalanceIsFixedPoint` | mirror.js:94-110 | After a tick has recorded the balance it saw, further ticks seeing that balance are no-ops, so a balance is never processed twice |
| `Cycle.FailedCycleIsRetried` | mirror.js:91-114 | A tick whose query, sizing, submission or wait throws keeps `lastBalance` and sends exactly one error alert. The next tick diffs against the old balance, and the rest of the run is as if the failed tick had not happened, apart from its alerts |
| `Monitor.Mirror.constructor` | mirror.js:86 | After start-up, `lastBalance` is the text of the first balance read, with no history and no alerts |
| `Monitor.Mirror.SendTelegram` | mirror.js:6-13 | The alert reaches the channel exactly when both the bot token and the chat id are set and non-empty. Otherwise nothing is sent |
| `Monitor.Mirror.Execute` | mirror.js:55-63 | Sends the "Mirroring" alert, then reports the submission or wait failure as the thrown message, or nothing when confirmed |
| `Monitor.Mirror.HandleBuy` | mirror.js:47-65 | Unless `ENABLE_BUY` is exactly `"true"`, returns with no alert and no swap. Otherwise sizes from `diff`, sends at most the "Mirroring BUY" alert, and throws what the sizing, submission or wait threw |
| `Monitor.Mirror.HandleSell` | mirror.js:67-83 | Unless `ENABLE_SELL` is exactly `"true"`, returns with no alert and no swap. Otherwise sizes from `tokenAmount = -diff`, sends at most the "Mirroring SELL" alert, and throws what the sizing, submission or wait threw |
| `Monitor.Mirror.Dispatch` | mirror.js:99-105 | A positive `diff` goes to the buy handler and any other to the sell handler. The result is that handler's gate, action, alerts and thrown message |
| `Monitor.Mirror.Tick` | mirror.js:90-115 | The imperative callback does what `Step` says. The new history is one `Step` on top of the old, the action is `Step`'s action, and the invariant (text of `lastBalance`, delivered alerts, history) is kept |
| `Monitor.Mirror.OnChange` | mirror.js:95-107 | For a balance that differs from the recorded one: `BigInt` diff, dispatch, then either the new balance is recorded or the `catch` alert is sent. The result is one `Step` on top of the old history, and the invariant is kept |
| `Monitor.Mirror.Poll` | mirror.js:90-115 | Ticks run one after another. The state after them is `RunFrom` of the state before, and the invariant is kept |
| `Monitor.Monitor` | mirror.js:85-118 | No bot is created, and so no timer, exactly when the first balance query fails; no alert is sent then. Otherwise the bot starts from that balance |

## Left out

- `getBalance` (mirror.js:30-37), the RPC provider, and the choice between the
  native and the token balance are not modelled. Each tick instead takes the
  query's outcome as an input.
- `format` and `parse` (mirror.js:39-45) and the trade sizing (mirror.js:50-52,
  70-74) are left out: they use `ethers` unit conversion and IEEE-754 doubles.
  The sized amount is an input, as is the message of the exception `parse`
  can throw on a non-finite or exponent-form number. Proportionality,
  monotonicity and the lack of a cap check are therefore not stated.
- The swap calls and `tx.wait()` (mirror.js:57-63, 79-81) are not modelled;
  their outcome is an input. Gas limit, `amountOutMin = 1` and the token
  address are not modelled.
- The HTTPS request of `sendTelegram` (mirror.js:11-12) is not modelled. The
  model records each message handed to it, not the URL, its encoding or the
  delivery errors. Alert texts are modelled by kind and amount, not as
  formatted strings.
- Console logging and dotenv loading (mirror.js:1, and the `console` calls)
  are left out.
- The interval timer (mirror.js:90, 115) is left out: its period, and
  overlapping callbacks (concurrency). Ticks are sequential method calls.
- `Decimal.Parse` covers the digit strings that `toString()` produces.
  `BigInt` also accepts whitespace, signs and hexadecimal, but the bot never
  feeds it those.
- Balances are unbounded natural numbers; the `uint256` upper bound plays no
  role in the cycle.
