/**
 The running bot: the module-level `lastBalance` and the Telegram channel as
 the state of a `Mirror` object, `handleBuy` / `handleSell` and the interval
 callback as its methods, and `monitor()`'s start-up as `Monitor`.
 Exceptions are modelled as a returned message: a handler returns the
 message it threw, and the cycle then takes the `catch` path.
 */
module Monitor {
  import opened Telegram
  import opened Cycle
  import Decimal

  class Mirror {
    /** The environment, read but never written by the bot. */
    const cfg: Config
    /** `lastBalance`: the decimal text of the last recorded balance. */
    var lastBalance: string
    /** Every message handed to the Telegram API, oldest first. */
    var outbox: seq<Notification>

    /** The balance recorded at start-up. */
    ghost const initial: nat
    /** The number `lastBalance` spells. */
    ghost var last: nat
    /** Every message passed to `sendTelegram`, delivered or not. */
    ghost var alerts: seq<Notification>
    /** The balances recorded by committing cycles, and their diffs. */
    ghost var commits: seq<nat>
    ghost var diffs: seq<int>

    /** The bot's history as the cycle model sees it. */
    ghost function View(): Trace
      reads this
    {
      Trace(last, alerts, commits, diffs)
    }

    ghost predicate Valid()
      reads this
    {
      && lastBalance == Decimal.Show(last)
      && outbox == Delivered(cfg, alerts)
      && Consistent(initial, View())
    }

    constructor (cfg: Config, balance: nat)
      ensures Valid() && this.cfg == cfg
      ensures lastBalance == Decimal.Show(balance) && initial == balance
      ensures View() == Start(balance) && outbox == []
    {
      this.cfg := cfg;
      lastBalance := Decimal.Show(balance);
      outbox := [];
      initial := balance;
      last := balance;
      alerts := [];
      commits := [];
      diffs := [];
    }

    /** `sendTelegram`: a no-op unless both the bot token and the chat id are set. */
    method SendTelegram(msg: Notification)
      modifies this`outbox, this`alerts
      ensures alerts == old(alerts) + [msg]
      ensures outbox == old(outbox) + Delivered(cfg, [msg])
    {
      alerts := alerts + [msg];
      if !Truthy(cfg.botToken) || !Truthy(cfg.chatId) {
        return;
      }
      outbox := outbox + [msg];
    }

    /** The swap and confirmation wait shared by both handlers; returns what they threw. */
    method Execute(dir: Direction, amount: int, exec: Exec) returns (thrown: Option<string>)
      modifies this`outbox, this`alerts
      ensures alerts == old(alerts) + [Notice(dir, amount)]
      ensures outbox == old(outbox) + Delivered(cfg, [Notice(dir, amount)])
      ensures thrown == match exec
                        case Confirmed => None
                        case SubmitFailed(m) => Some(m)
                        case WaitFailed(m) => Some(m)
    {
      SendTelegram(Notice(dir, amount));
      match exec
      case SubmitFailed(m) =>
        thrown := Some(m);
      case WaitFailed(m) =>
        thrown := Some(m);
      case Confirmed =>
        thrown := None;
    }

    /** `handleBuy(diff)`: gated on ENABLE_BUY, sizes from `diff`. */
    method HandleBuy(diff: int, t: Trade) returns (action: Action, thrown: Option<string>)
      modifies this`outbox, this`alerts
      ensures !IsTrue(cfg.enableBuy) ==>
                action == Skipped(Buy, diff) && thrown == None && alerts == old(alerts) && outbox == old(outbox)
      ensures IsTrue(cfg.enableBuy) ==>
                && action == Attempted(Buy, diff, diff, t)
                && thrown == (if t.Throws() then Some(t.Thrown()) else None)
                && alerts == old(alerts) + HandlerSent(Buy, t)
                && outbox == old(outbox) + Delivered(cfg, HandlerSent(Buy, t))
    {
      if !IsTrue(cfg.enableBuy) {
        return Skipped(Buy, diff), None;
      }
      action := Attempted(Buy, diff, diff, t);
      match t
      case SizingFailed(m) =>
        thrown := Some(m);
      case Sized(ethAmount, exec) =>
        thrown := Execute(Buy, ethAmount, exec);
    }

    /** `handleSell(diff)`: gated on ENABLE_SELL, sizes from `tokenAmount = -diff`. */
    method HandleSell(diff: int, t: Trade) returns (action: Action, thrown: Option<string>)
      modifies this`outbox, this`alerts
      ensures !IsTrue(cfg.enableSell) ==>
                action == Skipped(Sell, diff) && thrown == None && alerts == old(alerts) && outbox == old(outbox)
      ensures IsTrue(cfg.enableSell) ==>
                && action == Attempted(Sell, diff, -diff, t)
                && thrown == (if t.Throws() then Some(t.Thrown()) else None)
                && alerts == old(alerts) + HandlerSent(Sell, t)
                && outbox == old(outbox) + Delivered(cfg, HandlerSent(Sell, t))
    {
      if !IsTrue(cfg.enableSell) {
        return Skipped(Sell, diff), None;
      }
      var tokenAmount := -diff;
      action := Attempted(Sell, diff, tokenAmount, t);
      match t
      case SizingFailed(m) =>
        thrown := Some(m);
      case Sized(amountToSell, exec) =>
        thrown := Execute(Sell, amountToSell, exec);
    }

    /** The branch on the sign of `diff` into one of the two handlers. */
    method Dispatch(diff: int, t: Trade) returns (action: Action, thrown: Option<string>)
      modifies this`outbox, this`alerts
      ensures var dir := if diff > 0 then Buy else Sell;
              var sent := if Enabled(cfg, dir) then HandlerSent(dir, t) else [];
              && action == (if Enabled(cfg, dir) then Attempted(dir, diff, SizedFrom(dir, diff), t)
                            else Skipped(dir, diff))
              && thrown == (if Enabled(cfg, dir) && t.Throws() then Some(t.Thrown()) else None)
              && alerts == old(alerts) + sent
              && outbox == old(outbox) + Delivered(cfg, sent)
    {
      if diff > 0 {
        action, thrown := HandleBuy(diff, t);
      } else {
        action, thrown := HandleSell(diff, t);
      }
    }

    /**
     One run of the interval callback: query, compare the texts, and hand a
     changed balance to `OnChange`; a failed query goes to the `catch` alert.
     */
    method Tick(q: Query, t: Trade) returns (action: Action)
      requires Valid()
      modifies this`lastBalance, this`outbox, this`last, this`alerts, this`commits, this`diffs
      ensures Valid()
      ensures View() == Extend(cfg, old(View()), TickInput(q, t))
      ensures action == Step(cfg, old(last), TickInput(q, t)).action
    {
      match q
      case QueryFailed(m) =>
        ExtendKeepsConsistent(cfg, initial, View(), TickInput(q, t));
        SendTelegram(BotError(m));
        action := QueryError;
      case Balance(n) =>
        var newBalance := Decimal.Show(n);
        Decimal.ShowInjective(n, last);
        if newBalance != lastBalance {
          action := OnChange(n, t);
        } else {
          action := Unchanged;
        }
    }

    /**
     The changed-balance branch of the callback: diff the two big integers,
     dispatch on the sign, and record the new balance unless the handler
     threw, in which case the single `catch` alert is sent instead.
     */
    method OnChange(n: nat, t: Trade) returns (action: Action)
      requires Valid() && n != last
      modifies this`lastBalance, this`outbox, this`last, this`alerts, this`commits, this`diffs
      ensures Valid()
      ensures View() == Extend(cfg, old(View()), TickInput(Balance(n), t))
      ensures action == Step(cfg, old(last), TickInput(Balance(n), t)).action
    {
      ExtendKeepsConsistent(cfg, initial, View(), TickInput(Balance(n), t));
      var newBalance := Decimal.Show(n);
      Decimal.ParseShow(last);
      Decimal.ParseShow(n);
      var prev: int := Decimal.Parse(lastBalance);
      var curr: int := Decimal.Parse(newBalance);
      var diff := curr - prev;
      var thrown;
      action, thrown := Dispatch(diff, t);
      if thrown.Some? {
        SendTelegram(BotError(thrown.value));
        return;
      }
      lastBalance := newBalance;
      last, commits, diffs := n, commits + [n], diffs + [diff];
    }

    /** The interval timer firing once per input, each callback finishing before the next. */
    method Poll(ticks: seq<TickInput>)
      requires Valid()
      modifies this`lastBalance, this`outbox, this`last, this`alerts, this`commits, this`diffs
      ensures Valid()
      ensures View() == RunFrom(cfg, old(View()), ticks)
    {
      ghost var start := View();
      var i := 0;
      while i < |ticks|
        invariant 0 <= i <= |ticks|
        invariant Valid()
        invariant View() == RunFrom(cfg, start, ticks[..i])
      {
        var _ := Tick(ticks[i].query, ticks[i].trade);
        assert ticks[..i + 1][..i] == ticks[..i];
        i := i + 1;
      }
      assert ticks[..i] == ticks;
    }
  }

  /**
   `monitor()`: read the starting balance, then install the timer. If that
   first query throws, the promise rejects into `console.error`: no timer,
   no alert.
   */
  method Monitor(cfg: Config, initialQuery: Query) returns (m: Mirror?)
    ensures m == null <==> initialQuery.QueryFailed?
    ensures m != null ==>
              && fresh(m) && m.Valid() && m.cfg == cfg
              && m.initial == initialQuery.amount
              && m.View() == Start(initialQuery.amount) && m.outbox == []
  {
    match initialQuery
    case QueryFailed(_) =>
      m := null;
    case Balance(n) =>
      m := new Mirror(cfg, n);
  }
}
