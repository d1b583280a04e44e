/** Conservation over every run: deposits, mints and refunds against the stored intents. */
module Accounting {
  import opened Common
  import opened Sums
  import opened Escrow
  import opened Chain
  import opened Intents
  import Ledgers

  function AmountIf(status: Status): Intent -> nat {
    (i: Intent) => if i.status == status then i.amount else 0
  }

  /** The sum of the amounts of all stored intents with this status. */
  ghost function Held(w: World, status: Status): nat {
    Total(w.escrow.intents, AmountIf(status))
  }

  function DepositOf(): Event -> nat { (e: Event) => if e.Deposited? then e.amount else 0 }
  function MintOf(): Event -> nat { (e: Event) => if e.Minted? then e.amount else 0 }
  function RefundOf(): Event -> nat { (e: Event) => if e.Repaid? then e.amount else 0 }
  function MintOnDay(day: nat): Event -> nat {
    (e: Event) => if e.Minted? && e.time / 86_400 == day then e.amount else 0
  }
  function MintsOf(id: Bytes32): Event -> nat { (e: Event) => if e.Minted? && e.id == id then 1 else 0 }

  predicate WasExecuted(w: World, id: Bytes32) {
    id in w.escrow.intents && w.escrow.intents[id].status == Executed
  }

  ghost predicate Balanced(w: World) {
    && Sum(w.log, DepositOf()) == Held(w, Pending) + Held(w, Executed) + Held(w, Refunded)
    && Sum(w.log, MintOf()) == Held(w, Executed)
    && Sum(w.log, RefundOf()) == Held(w, Refunded)
  }

  ghost predicate DailyBalanced(w: World) {
    Total(w.escrow.dailyMinted, Ledgers.Itself()) == Sum(w.log, MintOf())
  }

  ghost predicate DaysAgree(w: World) {
    forall day: nat :: Sum(w.log, MintOnDay(day)) == MintedOn(w.escrow, day) <= DAILY_MINT_LIMIT
  }

  /** An intent was minted once if it is Executed and not at all otherwise. */
  ghost predicate MintedOnce(w: World) {
    forall id: Bytes32 :: Sum(w.log, MintsOf(id)) == if WasExecuted(w, id) then 1 else 0
  }

  /** An event the accounting does not count leaves every sum as it was. */
  lemma OtherEventsCountNothing(w: World, tx: Tx, f: Event -> nat)
    requires !tx.call.OnEscrow?
    requires forall e: Event | e.TokenUsed? || e.RiskUpdated? :: f(e) == 0
    ensures Sum(w.log + OtherEvents(tx), f) == Sum(w.log, f)
  {
    if OtherEvents(tx) == [] {
      assert w.log + OtherEvents(tx) == w.log;
    } else {
      SumAppend(w.log, OtherEvents(tx)[0], f);
    }
  }

  lemma OtherBalanced(w: World, w': World, tx: Tx)
    requires Balanced(w) && !tx.call.OnEscrow? && DidOther(w, w', tx)
    ensures Balanced(w')
  {
    OtherEventsCountNothing(w, tx, DepositOf());
    OtherEventsCountNothing(w, tx, MintOf());
    OtherEventsCountNothing(w, tx, RefundOf());
  }

  lemma SubmitBalanced(w: World, w': World, sender: Address, amount: nat, countryCode: Bytes32, txRef: Bytes32)
    requires Sound(w) && Balanced(w) && WroteSubmit(w, w', sender, amount, countryCode, txRef)
    ensures Balanced(w')
  {
    var id := w.intentId(sender, amount, countryCode, txRef);
    UnusedId(w, id);
    var i := Intent(sender, amount, countryCode, txRef, w.now, Pending);
    LogSums(w, Deposited(id, sender, amount));
    TotalAdd(w.escrow.intents, id, i, AmountIf(Pending));
    TotalAdd(w.escrow.intents, id, i, AmountIf(Executed));
    TotalAdd(w.escrow.intents, id, i, AmountIf(Refunded));
  }

  lemma LogSums(w: World, e: Event)
    ensures Sum(w.log + [e], DepositOf()) == Sum(w.log, DepositOf()) + DepositOf()(e)
    ensures Sum(w.log + [e], MintOf()) == Sum(w.log, MintOf()) + MintOf()(e)
    ensures Sum(w.log + [e], RefundOf()) == Sum(w.log, RefundOf()) + RefundOf()(e)
  {
    SumAppend(w.log, e, DepositOf());
    SumAppend(w.log, e, MintOf());
    SumAppend(w.log, e, RefundOf());
  }

  /** Moving one intent from Pending to another status moves its amount between the sums. */
  lemma SettleHeld(w: World, w': World, id: Bytes32, status: Status)
    requires Settled(w, w', id, status)
    requires status == Executed || status == Refunded
    ensures var amount := w.escrow.intents[id].amount;
            && amount <= Held(w, Pending)
            && Held(w', Pending) == Held(w, Pending) - amount
            && Held(w', Executed) == Held(w, Executed) + (if status == Executed then amount else 0)
            && Held(w', Refunded) == Held(w, Refunded) + (if status == Refunded then amount else 0)
  {
    var settled := w.escrow.intents[id].(status := status);
    TotalReplace(w.escrow.intents, id, settled, AmountIf(Pending));
    TotalReplace(w.escrow.intents, id, settled, AmountIf(Executed));
    TotalReplace(w.escrow.intents, id, settled, AmountIf(Refunded));
  }

  lemma DailyAdd(daily: map<nat, nat>, day: nat, amount: nat)
    ensures Total(daily[day := (if day in daily then daily[day] else 0) + amount], Ledgers.Itself())
         == Total(daily, Ledgers.Itself()) + amount
  {
    if day in daily {
      TotalReplace<nat, nat>(daily, day, daily[day] + amount, Ledgers.Itself());
    } else {
      TotalAdd<nat, nat>(daily, day, amount, Ledgers.Itself());
    }
  }

  lemma ExecuteBalanced(w: World, w': World, id: Bytes32)
    requires Balanced(w) && WroteExecute(w, w', id)
    ensures Balanced(w')
  {
    LogSums(w, w'.log[|w.log|]);
    SettleHeld(w, w', id, Executed);
  }

  lemma RefundBalanced(w: World, w': World, id: Bytes32)
    requires Balanced(w) && WroteRefund(w, w', id)
    ensures Balanced(w')
  {
    LogSums(w, w'.log[|w.log|]);
    SettleHeld(w, w', id, Refunded);
  }

  lemma StepBalanced(w: World, w': World, tx: Tx)
    requires Sound(w) && Balanced(w) && Wrote(w, w', tx)
    ensures Balanced(w')
  {
    match tx.call {
      case OnEscrow(Submit(amount, countryCode, txRef)) => SubmitBalanced(w, w', tx.sender, amount, countryCode, txRef);
      case OnEscrow(Execute(id)) => ExecuteBalanced(w, w', id);
      case OnEscrow(Refund(id)) => RefundBalanced(w, w', id);
      case _ => OtherBalanced(w, w', tx);
    }
  }

  /** How a completed transaction changes a sum over the log. */
  lemma LogStep(w: World, w': World, tx: Tx, f: Event -> nat)
    requires Wrote(w, w', tx)
    requires forall e: Event | e.TokenUsed? || e.RiskUpdated? :: f(e) == 0
    ensures if tx.call.OnEscrow? then |w'.log| == |w.log| + 1 && Sum(w'.log, f) == Sum(w.log, f) + f(w'.log[|w.log|])
            else Sum(w'.log, f) == Sum(w.log, f)
  {
    if tx.call.OnEscrow? {
      SumAppend(w.log, w'.log[|w.log|], f);
    } else {
      OtherEventsCountNothing(w, tx, f);
    }
  }

  lemma DailyStep(w: World, w': World, tx: Tx)
    requires DailyBalanced(w) && Wrote(w, w', tx)
    ensures DailyBalanced(w')
  {
    LogStep(w, w', tx, MintOf());
    if tx.call.OnEscrow? && tx.call.guarded.Execute? {
      DailyAdd(w.escrow.dailyMinted, w.now / DAY, w.escrow.intents[tx.call.guarded.id].amount);
    }
  }

  lemma DaysStep(w: World, w': World, tx: Tx)
    requires DaysAgree(w) && Wrote(w, w', tx)
    ensures DaysAgree(w')
  {
    forall day: nat
      ensures Sum(w'.log, MintOnDay(day)) == MintedOn(w'.escrow, day) <= DAILY_MINT_LIMIT
    {
      assert Sum(w.log, MintOnDay(day)) == MintedOn(w.escrow, day) <= DAILY_MINT_LIMIT;
      LogStep(w, w', tx, MintOnDay(day));
    }
  }

  lemma OnceStep(w: World, w': World, tx: Tx)
    requires Sound(w) && MintedOnce(w) && Wrote(w, w', tx)
    ensures MintedOnce(w')
  {
    forall id: Bytes32
      ensures Sum(w'.log, MintsOf(id)) == if WasExecuted(w', id) then 1 else 0
    {
      assert Sum(w.log, MintsOf(id)) == if WasExecuted(w, id) then 1 else 0;
      LogStep(w, w', tx, MintsOf(id));
      StatusStep(w, w', tx, id);
    }
  }

  /** The only call that makes an intent Executed is its own execution. */
  lemma StatusStep(w: World, w': World, tx: Tx, id: Bytes32)
    requires Sound(w) && Wrote(w, w', tx)
    ensures if tx.call == OnEscrow(Execute(id)) then !WasExecuted(w, id) && WasExecuted(w', id)
            else WasExecuted(w', id) <==> WasExecuted(w, id)
  {
    match tx.call {
      case OnEscrow(Submit(amount, countryCode, txRef)) =>
        UnusedId(w, w.intentId(tx.sender, amount, countryCode, txRef));
      case _ =>
    }
  }

  /** In every reachable state the books balance: the log, the intents and the daily counters agree. */
  lemma {:induction false} RunBalanced(w: World, txs: seq<Tx>)
    requires Genesis(w) && GenuineRun(w, txs)
    ensures var r := Run(w, txs); Balanced(r) && DailyBalanced(r) && DaysAgree(r) && MintedOnce(r)
  {
    if txs != [] {
      var before, tx, after := Run(w, txs[..|txs| - 1]), txs[|txs| - 1], Run(w, txs);
      RunBalanced(w, txs[..|txs| - 1]);
      RunSound(w, txs[..|txs| - 1]);
      StepCases(before, tx);
      if after != before {
        StepBalanced(before, after, tx);
        DailyStep(before, after, tx);
        DaysStep(before, after, tx);
        OnceStep(before, after, tx);
      }
    }
  }

  /** What is minted is covered: it equals the Executed amounts and the daily counters, and never exceeds deposits less refunds. */
  lemma MintsCovered(w: World, txs: seq<Tx>)
    requires Genesis(w) && GenuineRun(w, txs)
    ensures var r := Run(w, txs);
            && Sum(r.log, MintOf()) == Held(r, Executed) == Total(r.escrow.dailyMinted, Ledgers.Itself())
            && Sum(r.log, DepositOf()) == Held(r, Pending) + Held(r, Executed) + Held(r, Refunded)
            && Sum(r.log, MintOf()) + Sum(r.log, RefundOf()) + Held(r, Pending) == Sum(r.log, DepositOf())
  {
    RunBalanced(w, txs);
  }
}
