/** The per-day cap, and what it implies for any stretch of time. */
module DailyCap {
  import opened Common
  import opened Sums
  import opened Escrow
  import opened Chain
  import opened Intents
  import opened Accounting

  function MintCountOnDay(day: nat): Event -> nat {
    (e: Event) => if e.Minted? && e.time / 86_400 == day then 1 else 0
  }

  /** Mints in the 86,400 seconds from t on. */
  function MintInSpan(t: nat): Event -> nat {
    (e: Event) => if e.Minted? && t <= e.time < t + 86_400 then e.amount else 0
  }

  ghost predicate AmountsInRange(w: World) {
    forall e | e in w.log && e.Minted? :: MIN_MINT_AMOUNT <= e.amount <= MAX_MINT_AMOUNT
  }

  lemma StepInRange(w: World, w': World, tx: Tx)
    requires Sound(w) && AmountsInRange(w) && Wrote(w, w', tx)
    ensures AmountsInRange(w')
  {
    if tx.call.OnEscrow? && tx.call.guarded.Execute? {
      assert IntentOk(w, tx.call.guarded.id);
    }
  }

  lemma {:induction false} RunInRange(w: World, txs: seq<Tx>)
    requires Genesis(w) && GenuineRun(w, txs)
    ensures AmountsInRange(Run(w, txs))
  {
    if txs != [] {
      var before, tx, after := Run(w, txs[..|txs| - 1]), txs[|txs| - 1], Run(w, txs);
      RunInRange(w, txs[..|txs| - 1]);
      RunSound(w, txs[..|txs| - 1]);
      StepCases(before, tx);
      if after != before {
        StepInRange(before, after, tx);
      }
    }
  }

  /** The counter of a day is what the log says was minted that day, and never exceeds the limit. */
  lemma DayWithinLimit(w: World, txs: seq<Tx>, day: nat)
    requires Genesis(w) && GenuineRun(w, txs)
    ensures Sum(Run(w, txs).log, MintOnDay(day)) == MintedOn(Run(w, txs).escrow, day) <= 10_000_000_000_000_000_000_000
  {
    RunBalanced(w, txs);
  }

  lemma SpanTouchesTwoDays(t: nat, time: nat)
    requires t <= time < t + DAY
    ensures time / DAY == t / DAY || time / DAY == t / DAY + 1
  {
  }

  lemma SpanWithinTwoDays(log: seq<Event>, t: nat)
    ensures Sum(log, MintInSpan(t)) <= Sum(log, MintOnDay(t / DAY)) + Sum(log, MintOnDay(t / DAY + 1))
  {
    forall e | e in log ensures MintInSpan(t)(e) <= MintOnDay(t / DAY)(e) + MintOnDay(t / DAY + 1)(e) {
      if e.Minted? && t <= e.time < t + DAY { SpanTouchesTwoDays(t, e.time); }
    }
    SumBoundTwo(log, MintInSpan(t), MintOnDay(t / DAY), MintOnDay(t / DAY + 1));
  }

  /** The cap is per calendar day, so a day-long span can straddle two days: at most twice the limit. */
  lemma SpanWithinTwiceLimit(w: World, txs: seq<Tx>, t: nat)
    requires Genesis(w) && GenuineRun(w, txs)
    ensures Sum(Run(w, txs).log, MintInSpan(t)) <= 20_000_000_000_000_000_000_000
  {
    SpanWithinTwoDays(Run(w, txs).log, t);
    DayWithinLimit(w, txs, t / DAY);
    DayWithinLimit(w, txs, t / DAY + 1);
  }

  /** A day admits at most 10,000 mints, each being worth at least the minimum. */
  lemma MintsPerDay(w: World, txs: seq<Tx>, day: nat)
    requires Genesis(w) && GenuineRun(w, txs)
    ensures Sum(Run(w, txs).log, MintCountOnDay(day)) <= 10_000
  {
    var log := Run(w, txs).log;
    RunInRange(w, txs);
    DayWithinLimit(w, txs, day);
    CountedAtLeast(log, day);
  }

  lemma {:induction false} CountedAtLeast(log: seq<Event>, day: nat)
    requires forall e | e in log && e.Minted? :: MIN_MINT_AMOUNT <= e.amount
    ensures MIN_MINT_AMOUNT * Sum(log, MintCountOnDay(day)) <= Sum(log, MintOnDay(day))
  {
    if log != [] {
      assert log[|log| - 1] in log;
      CountedAtLeast(log[..|log| - 1], day);
    }
  }

  lemma {:induction false} CountedAtMost(log: seq<Event>, day: nat)
    requires forall e | e in log && e.Minted? :: e.amount <= MAX_MINT_AMOUNT
    ensures Sum(log, MintOnDay(day)) <= MAX_MINT_AMOUNT * Sum(log, MintCountOnDay(day))
  {
    if log != [] {
      assert log[|log| - 1] in log;
      CountedAtMost(log[..|log| - 1], day);
    }
  }

  lemma RoomForOneMore(log: seq<Event>, s: Storage, day: nat)
    requires forall e | e in log && e.Minted? :: e.amount <= MAX_MINT_AMOUNT
    requires Sum(log, MintOnDay(day)) == MintedOn(s, day) && Sum(log, MintCountOnDay(day)) < 10
    ensures MAX_MINT_AMOUNT <= Available(s, day)
  {
    CountedAtMost(log, day);
  }

  /** With fewer than ten mints so far today the cap blocks no intent, whatever its amount. */
  lemma FirstTenNeverBlocked(w: World, txs: seq<Tx>, sender: Address, id: Bytes32)
    requires Genesis(w) && GenuineRun(w, txs)
    requires Sum(Run(w, txs).log, MintCountOnDay(Run(w, txs).now / 86_400)) < 10
    ensures Apply(Run(w, txs), Tx(sender, OnEscrow(Execute(id)))) != Err(DailyLimitExceeded)
  {
    var r := Run(w, txs);
    var day := r.now / DAY;
    RunSound(w, txs);
    RunInRange(w, txs);
    DayWithinLimit(w, txs, day);
    RoomForOneMore(r.log, r.escrow, day);
    if Stored(r.escrow, id) {
      assert IntentOk(r, id);
    }
  }
}
