/**
 One poll cycle of the mirror bot as a pure transition on the last known
 balance, and runs of consecutive cycles. The chain (balance query, sizing,
 swap submission, confirmation) enters as the inputs `Query` and `Trade`;
 the cycle returns the new last known balance, the action it took and the
 alerts it handed to `sendTelegram`, in order.
 */
module Cycle {
  import opened Telegram

  /** Outcome of `getBalance()`: a raw balance, or the message of what it threw. */
  datatype Query = Balance(amount: nat) | QueryFailed(message: string)

  /** Outcome of `contract.swap...(...)` followed by `tx.wait()`. */
  datatype Exec = Confirmed | SubmitFailed(message: string) | WaitFailed(message: string)

  /**
   What happens past a handler's gate: the float sizing (`parse(...)`) either
   throws or yields an amount, which is then swapped.
   */
  datatype Trade = SizingFailed(message: string) | Sized(amount: int, exec: Exec)
  {
    predicate Throws() {
      SizingFailed? || !exec.Confirmed?
    }

    function Thrown(): string
      requires Throws()
    {
      match this
      case SizingFailed(m) => m
      case Sized(_, SubmitFailed(m)) => m
      case Sized(_, WaitFailed(m)) => m
    }
  }

  datatype TickInput = TickInput(query: Query, trade: Trade)

  datatype Direction = Buy | Sell

  /** The comparison of the new balance with the last one. */
  datatype Change = NoChange | Changed(dir: Direction, diff: int)

  /**
   What a cycle did: the query threw; the balance had not changed; a handler
   returned at its disabled gate; or a handler went on to size and swap from
   the positive quantity `sizedFrom`.
   */
  datatype Action =
    | QueryError
    | Unchanged
    | Skipped(dir: Direction, diff: int)
    | Attempted(dir: Direction, diff: int, sizedFrom: int, trade: Trade)

  datatype Outcome = Outcome(next: nat, action: Action, sent: seq<Notification>)

  /** `diff = curr - prev` and the branch on its sign, reached only when the balances differ. */
  function Classify(prev: nat, curr: nat): (c: Change)
    ensures c.NoChange? <==> curr == prev
    ensures c.Changed? ==> c.diff == curr - prev && c.diff != 0
    ensures c.Changed? ==> (c.dir == Buy <==> c.diff > 0) && (c.dir == Sell <==> c.diff < 0)
  {
    if curr == prev then NoChange
    else
      var diff := curr - prev;
      if diff > 0 then Changed(Buy, diff) else Changed(Sell, diff)
  }

  /** The gate at the top of `handleBuy` / `handleSell`. */
  predicate Enabled(cfg: Config, dir: Direction) {
    if dir == Buy then IsTrue(cfg.enableBuy) else IsTrue(cfg.enableSell)
  }

  function Notice(dir: Direction, amount: int): Notification {
    if dir == Buy then MirroringBuy(amount) else MirroringSell(amount)
  }

  /** The quantity a handler sizes from: `diff` when buying, `-diff` when selling. */
  function SizedFrom(dir: Direction, diff: int): int {
    if dir == Buy then diff else -diff
  }

  /** The alerts a handler sends past its gate, before it returns or throws. */
  function HandlerSent(dir: Direction, t: Trade): seq<Notification> {
    if t.Sized? then [Notice(dir, t.amount)] else []
  }

  function ErrorCount(s: seq<Notification>): nat {
    if s == [] then 0 else (if s[0].BotError? then 1 else 0) + ErrorCount(s[1..])
  }

  /** One run of the `setInterval` callback from last known balance `last`. */
  function Step(cfg: Config, last: nat, tk: TickInput): (r: Outcome)
    // the last known balance only ever becomes the balance just observed
    ensures r.next == last || (tk.query.Balance? && r.next == tk.query.amount)
    // a failed query changes nothing and raises exactly one alert
    ensures tk.query.QueryFailed? ==>
              r.next == last && r.action == QueryError && r.sent == [BotError(tk.query.message)]
    // an unchanged balance calls no handler and sends nothing
    ensures tk.query.Balance? && tk.query.amount == last ==>
              r == Outcome(last, Unchanged, [])
    // a changed balance reaches the handler of its sign with diff = new - last
    ensures tk.query.Balance? && tk.query.amount != last ==>
              && (r.action.Skipped? || r.action.Attempted?)
              && r.action.diff == tk.query.amount - last
              && (r.action.dir == Buy <==> r.action.diff > 0)
              && (r.action.dir == Sell <==> r.action.diff < 0)
    // a handler past its gate sizes from a strictly positive quantity: the increase or the decrease
    ensures r.action.Attempted? ==>
              && tk.query.Balance?
              && r.action.sizedFrom > 0
              && r.action.sizedFrom == if r.action.dir == Buy then tk.query.amount - last else last - tk.query.amount
    // a disabled direction sends nothing, swaps nothing and still commits
    ensures r.action.Skipped? ==> tk.query.Balance? && r.next == tk.query.amount && r.sent == [] && !Enabled(cfg, r.action.dir)
    ensures r.action.Attempted? ==> Enabled(cfg, r.action.dir) && r.action.trade == tk.trade
    // a changed cycle commits exactly when nothing threw, and then raises no error alert
    ensures tk.query.Balance? && tk.query.amount != last ==>
              (r.next == tk.query.amount <==> !(r.action.Attempted? && tk.trade.Throws()))
    ensures ErrorCount(r.sent) == (if r.next == last && r.action != Unchanged then 1 else 0)
    // past the gate, the Mirroring notice of a sized trade comes first, then the alert with what was thrown
    ensures r.action.Attempted? ==>
              r.sent == HandlerSent(r.action.dir, tk.trade)
                        + (if tk.trade.Throws() then [BotError(tk.trade.Thrown())] else [])
  {
    match tk.query
    case QueryFailed(m) => Outcome(last, QueryError, [BotError(m)])
    case Balance(n) =>
      match Classify(last, n)
      case NoChange => Outcome(last, Unchanged, [])
      case Changed(dir, diff) =>
        if !Enabled(cfg, dir) then Outcome(n, Skipped(dir, diff), [])
        else
          var action := Attempted(dir, diff, SizedFrom(dir, diff), tk.trade);
          var sent := HandlerSent(dir, tk.trade);
          if tk.trade.Throws() then
            var alert := BotError(tk.trade.Thrown());
            assert ErrorCount(sent + [alert]) == 1 by {
              assert [alert][1..] == [];
              assert ErrorCount([alert]) == 1 + ErrorCount([]);
              if tk.trade.Sized? {
                assert (sent + [alert])[1..] == [alert];
                assert !(sent + [alert])[0].BotError?;
              } else {
                assert sent + [alert] == [alert];
              }
            }
            Outcome(last, action, sent + [alert])
          else Outcome(n, action, sent)
  }

  /**
   What a sequence of cycles leaves behind: the last known balance, every
   alert handed to `sendTelegram`, and the balances and diffs of the cycles
   that reached `lastBalance = newBalance`.
   */
  datatype Trace = Trace(last: nat, sent: seq<Notification>, commits: seq<nat>, diffs: seq<int>)

  function Start(balance: nat): Trace {
    Trace(balance, [], [], [])
  }

  /** One more cycle on top of `tr`. */
  function Extend(cfg: Config, tr: Trace, tk: TickInput): Trace {
    var o := Step(cfg, tr.last, tk);
    var committed := o.next != tr.last;
    Trace(o.next,
          tr.sent + o.sent,
          tr.commits + (if committed then [tk.query.amount] else []),
          tr.diffs + (if committed then [o.action.diff] else []))
  }

  /** Consecutive cycles, as the interval timer runs them one after another. */
  function RunFrom(cfg: Config, tr: Trace, ticks: seq<TickInput>): (r: Trace)
    // the history only grows: earlier alerts, commits and diffs are kept as they were
    ensures tr.sent <= r.sent && tr.commits <= r.commits && tr.diffs <= r.diffs
    // at most one commit per tick, each with its diff
    ensures |r.commits| - |tr.commits| == |r.diffs| - |tr.diffs| <= |ticks|
    decreases |ticks|
  {
    if ticks == [] then tr
    else
      var mid := RunFrom(cfg, tr, ticks[..|ticks| - 1]);
      var r := Extend(cfg, mid, ticks[|ticks| - 1]);
      assert mid.sent <= r.sent && mid.commits <= r.commits && mid.diffs <= r.diffs;
      r
  }

  function LastOr(init: nat, s: seq<nat>): nat {
    if s == [] then init else s[|s| - 1]
  }

  function Sum(s: seq<int>): int {
    if s == [] then 0 else s[0] + Sum(s[1..])
  }

  lemma {:induction false} SumAppend(s: seq<int>, x: int)
    ensures Sum(s + [x]) == Sum(s) + x
  {
    if s != [] {
      assert (s + [x])[1..] == s[1..] + [x];
      SumAppend(s[1..], x);
    }
  }

  /**
   The history invariant of the last known balance, from start-up balance
   `init`: it is the start-up balance or the most recently committed one,
   and the committed diffs add up to its total change.
   */
  ghost predicate Consistent(init: nat, tr: Trace) {
    && tr.last == LastOr(init, tr.commits)
    && Sum(tr.diffs) == tr.last - init
    && |tr.diffs| == |tr.commits|
  }

  lemma ExtendKeepsConsistent(cfg: Config, init: nat, tr: Trace, tk: TickInput)
    requires Consistent(init, tr)
    ensures Consistent(init, Extend(cfg, tr, tk))
  {
    var o := Step(cfg, tr.last, tk);
    if o.next != tr.last {
      assert o.action.diff == o.next - tr.last;
      SumAppend(tr.diffs, o.action.diff);
    } else {
      assert tr.commits + [] == tr.commits && tr.diffs + [] == tr.diffs;
    }
  }

  /** Every run from start-up keeps the history invariant. */
  lemma {:induction false} RunKeepsConsistent(cfg: Config, init: nat, ticks: seq<TickInput>)
    ensures Consistent(init, RunFrom(cfg, Start(init), ticks))
    decreases |ticks|
  {
    if ticks != [] {
      var pre := ticks[..|ticks| - 1];
      RunKeepsConsistent(cfg, init, pre);
      ExtendKeepsConsistent(cfg, init, RunFrom(cfg, Start(init), pre), ticks[|ticks| - 1]);
    }
  }

  /** Running `a` then `b` is running `a + b`. */
  lemma {:induction false} RunAppend(cfg: Config, tr: Trace, a: seq<TickInput>, b: seq<TickInput>)
    ensures RunFrom(cfg, tr, a + b) == RunFrom(cfg, RunFrom(cfg, tr, a), b)
    decreases |b|
  {
    if b == [] {
      assert a + b == a;
    } else {
      var b' := b[..|b| - 1];
      assert (a + b)[..|a + b| - 1] == a + b';
      assert (a + b)[|a + b| - 1] == b[|b| - 1];
      RunAppend(cfg, tr, a, b');
    }
  }

  /** Polls that keep seeing the last known balance change nothing and send nothing. */
  lemma {:induction false} SteadyBalanceIsIdle(cfg: Config, tr: Trace, more: seq<TickInput>)
    requires forall i :: 0 <= i < |more| ==> more[i].query == Balance(tr.last)
    ensures RunFrom(cfg, tr, more) == tr
    decreases |more|
  {
    if more != [] {
      var pre := more[..|more| - 1];
      SteadyBalanceIsIdle(cfg, tr, pre);
      assert tr.sent + [] == tr.sent && tr.commits + [] == tr.commits && tr.diffs + [] == tr.diffs;
    }
  }

  /**
   Once a cycle has recorded the balance it saw, later polls that see the
   same balance are no-ops: a fixed point is never processed twice.
   */
  lemma CommittedBalanceIsFixedPoint(cfg: Config, tr: Trace, tk: TickInput, more: seq<TickInput>)
    requires tk.query.Balance? && Step(cfg, tr.last, tk).next == tk.query.amount
    requires forall i :: 0 <= i < |more| ==> more[i].query == tk.query
    ensures RunFrom(cfg, tr, [tk] + more) == Extend(cfg, tr, tk)
    ensures RunFrom(cfg, tr, [tk] + more).last == tk.query.amount
  {
    RunAppend(cfg, tr, [tk], more);
    assert [tk][..0] == [];
    SteadyBalanceIsIdle(cfg, Extend(cfg, tr, tk), more);
  }

  /**
   A cycle that throws leaves nothing behind but its one error alert: the
   next poll recomputes the same diff, and the rest of the run goes on
   exactly as if the failed cycle had not happened.
   */
  lemma FailedCycleIsRetried(cfg: Config, tr: Trace, tk: TickInput, rest: seq<TickInput>)
    requires tk.query.QueryFailed? || (Step(cfg, tr.last, tk).action.Attempted? && tk.trade.Throws())
    ensures var o := Step(cfg, tr.last, tk);
            && o.next == tr.last
            && ErrorCount(o.sent) == 1
            && Extend(cfg, tr, tk) == tr.(sent := tr.sent + o.sent)
            && RunFrom(cfg, tr, [tk] + rest) == RunFrom(cfg, tr.(sent := tr.sent + o.sent), rest)
    ensures forall next :: Step(cfg, Extend(cfg, tr, tk).last, next) == Step(cfg, tr.last, next)
  {
    var o := Step(cfg, tr.last, tk);
    assert tr.commits + [] == tr.commits && tr.diffs + [] == tr.diffs;
    RunAppend(cfg, tr, [tk], rest);
    assert [tk][..0] == [];
  }
}
