/** What becomes of an intent: when it can be executed, and what deposit, mint and refund add up to. */
module Settlement {
  import opened Common
  import opened Sums
  import opened Ledgers
  import opened LedgerLaws
  import opened Escrow
  import opened Chain
  import opened Intents
  import opened Accounting
  import opened Compliance
  import opened Completion
  import Registry

  function ExecuteTx(sender: Address, id: Bytes32): Tx { Tx(sender, OnEscrow(Execute(id))) }

  /**
   * The conditions of an execution in a reachable state, with the compliance of the user and the day's total read off
   * the history: the latest update of the user in the registry in force scored at most 91, and what was minted
   * today leaves room under the limit of 10,000 tokens.
   */
  ghost predicate Executable(w: World, sender: Address, id: Bytes32) {
    && !w.escrow.paused && (ExecutorRole, sender) in w.escrow.roles
    && id in w.escrow.intents && w.escrow.intents[id].status == Pending
    && var i := w.escrow.intents[id];
    && var score := LatestScore(w.log, w.escrow.userRegistry, i.user);
    && w.escrow.userRegistry in w.registries && score.Some? && score.value <= 91
    && i.amount + Sum(w.log, MintOnDay(w.now / 86_400)) <= 10_000_000_000_000_000_000_000
    && Configured(w, i.countryCode) && Mintable(w, w.escrow.countryTokens[i.countryCode], i.amount)
  }

  lemma ExecutableIffChecks(w: World, sender: Address, id: Bytes32)
    requires Sound(w) && RegistriesAgree(w) && DaysAgree(w)
    ensures Executable(w, sender, id) <==> AllHold(ExecuteChecks(w, sender, id))
  {
    var cs := ExecuteChecks(w, sender, id);
    assert Sum(w.log, MintOnDay(w.now / DAY)) == MintedOn(w.escrow, w.now / DAY);
    if id in w.escrow.intents {
      var i := w.escrow.intents[id];
      assert IntentOk(w, id);
      if w.escrow.userRegistry in w.registries {
        assert Registry.WellFormed(Registry.Lookup(w.registries[w.escrow.userRegistry], i.user));
      }
    }
    if AllHold(cs) {
      assert cs[1].holds && cs[2].holds && cs[3].holds && cs[4].holds && cs[5].holds && cs[6].holds;
      assert cs[7].holds && cs[8].holds && cs[9].holds;
    }
  }

  /** In every reachable state an intent can be executed exactly under these conditions. */
  lemma ReachableExecuteIff(w: World, txs: seq<Tx>, sender: Address, id: Bytes32)
    requires Genesis(w) && GenuineRun(w, txs)
    ensures Apply(Run(w, txs), ExecuteTx(sender, id)).Ok? <==> Executable(Run(w, txs), sender, id)
  {
    RunSound(w, txs);
    RunCleared(w, txs);
    RunBalanced(w, txs);
    ExecutableIffChecks(Run(w, txs), sender, id);
    ExecuteCompletesIff(Run(w, txs), sender, id);
  }

  /** And once executed it is Executed, and its user, nobody else, has the amount more of the country's token. */
  lemma ExecutableBecomesExecuted(w: World, txs: seq<Tx>, sender: Address, id: Bytes32)
    requires Genesis(w) && GenuineRun(w, txs) && Executable(Run(w, txs), sender, id)
    ensures var before, after := Run(w, txs), Run(w, txs + [ExecuteTx(sender, id)]);
            var i := before.escrow.intents[id];
            && after.escrow.intents == before.escrow.intents[id := i.(status := Executed)]
            && Paid(before, after, before.escrow.countryTokens[i.countryCode], None, Some(i.user), i.amount)
            && Sum(after.log, MintsOf(id)) == 1
  {
    var r := Run(w, txs);
    RunSound(w, txs);
    RunCleared(w, txs);
    RunBalanced(w, txs);
    ExecutableIffChecks(r, sender, id);
    ExecuteEffect(r, sender, id);
    RunAppend(w, txs, ExecuteTx(sender, id));
    ExecuteCompletesIff(r, sender, id);
    StepCases(r, ExecuteTx(sender, id));
    OnceStep(r, Step(r, ExecuteTx(sender, id)), ExecuteTx(sender, id));
    assert WasExecuted(Step(r, ExecuteTx(sender, id)), id);
  }

  // ---- a deposit and what follows it ----

  /** How the two transactions together change the balance of an account in a token. */
  function Net(t: Address, a: Address, stable: Address, country: Address, user: Address, self: Address, amount: nat): int {
    (if t == stable && a == self then amount else 0) - (if t == stable && a == user then amount else 0)
    + (if t == country && a == user then amount else 0)
  }

  lemma NetOf(w: World, w1: World, w2: World, stable: Address, country: Address, user: Address, self: Address, amount: nat)
    requires Paid(w, w1, stable, Some(user), Some(self), amount) && Paid(w1, w2, country, None, Some(user), amount)
    ensures w2.tokens.Keys == w.tokens.Keys
    ensures forall t, a: Address | t in w.tokens ::
              Balance(w2.tokens[t], a) - Balance(w.tokens[t], a) == Net(t, a, stable, country, user, self, amount)
  {
    forall t, a: Address | t in w.tokens
      ensures Balance(w2.tokens[t], a) - Balance(w.tokens[t], a) == Net(t, a, stable, country, user, self, amount)
    {
      assert t in w1.tokens;
    }
  }

  /** A deposit that goes through and whose conditions for minting hold beforehand is minted one to one. */
  lemma DepositThenMint(w: World, user: Address, amount: nat, countryCode: Bytes32, txRef: Bytes32, executor: Address)
    requires AllHold(SubmitChecks(w, user, amount, countryCode, txRef))
    requires (ExecutorRole, executor) in w.escrow.roles && Fits(w, amount)
    requires w.escrow.userRegistry in w.registries && Clear(w.registries[w.escrow.userRegistry], user)
    requires Configured(w, countryCode) && Mintable(w, w.escrow.countryTokens[countryCode], amount)
    ensures var id := w.intentId(user, amount, countryCode, txRef);
            var w1 := Step(w, SubmitTx(user, amount, countryCode, txRef));
            var w2 := Step(w1, ExecuteTx(executor, id));
            && id in w1.escrow.intents && w1.escrow.intents[id].status == Pending
            && id in w2.escrow.intents && w2.escrow.intents[id].status == Executed
            && w2.tokens.Keys == w.tokens.Keys
            && forall t, a: Address | t in w.tokens ::
                 Balance(w2.tokens[t], a) - Balance(w.tokens[t], a) ==
                 Net(t, a, w.escrow.stablecoin, w.escrow.countryTokens[countryCode], user, w.self, amount)
  {
    var id := w.intentId(user, amount, countryCode, txRef);
    var w1 := Step(w, SubmitTx(user, amount, countryCode, txRef));
    SubmitEffect(w, user, amount, countryCode, txRef);
    ReadyToMint(w, w1, user, amount, countryCode, txRef, executor);
    ExecuteEffect(w1, executor, id);
    NetOf(w, w1, Step(w1, ExecuteTx(executor, id)), w.escrow.stablecoin, w.escrow.countryTokens[countryCode], user, w.self, amount);
  }

  lemma ReadyToMint(w: World, w1: World, user: Address, amount: nat, countryCode: Bytes32, txRef: Bytes32, executor: Address)
    requires AllHold(SubmitChecks(w, user, amount, countryCode, txRef))
    requires (ExecutorRole, executor) in w.escrow.roles && Fits(w, amount)
    requires w.escrow.userRegistry in w.registries && Clear(w.registries[w.escrow.userRegistry], user)
    requires Configured(w, countryCode) && Mintable(w, w.escrow.countryTokens[countryCode], amount)
    requires w1 == Step(w, SubmitTx(user, amount, countryCode, txRef))
    ensures AllHold(ExecuteChecks(w1, executor, w.intentId(user, amount, countryCode, txRef)))
  {
    SubmitEffect(w, user, amount, countryCode, txRef);
    var cs := SubmitChecks(w, user, amount, countryCode, txRef);
    assert cs[0].holds && cs[1].holds && cs[10].holds;
    assert MintedToday(w1) == MintedToday(w);
    assert Mintable(w1, w.escrow.countryTokens[countryCode], amount);
  }

  /** A refund undoes a deposit: every balance in every token is what it was; the reference stays used up. */
  lemma DepositThenRefund(w: World, user: Address, amount: nat, countryCode: Bytes32, txRef: Bytes32, executor: Address)
    requires AllHold(SubmitChecks(w, user, amount, countryCode, txRef)) && (ExecutorRole, executor) in w.escrow.roles
    ensures var id := w.intentId(user, amount, countryCode, txRef);
            var w2 := Step(Step(w, SubmitTx(user, amount, countryCode, txRef)), RefundTx(executor, id));
            && id in w2.escrow.intents && w2.escrow.intents[id].status == Refunded && txRef in w2.escrow.consumed
            && w2.tokens.Keys == w.tokens.Keys
            && forall t, a: Address | t in w.tokens :: Balance(w2.tokens[t], a) == Balance(w.tokens[t], a)
  {
    var id := w.intentId(user, amount, countryCode, txRef);
    var w1 := Step(w, SubmitTx(user, amount, countryCode, txRef));
    SubmitEffect(w, user, amount, countryCode, txRef);
    var cs := SubmitChecks(w, user, amount, countryCode, txRef);
    assert cs[0].holds && cs[10].holds;
    assert Balance(w1.tokens[w.escrow.stablecoin], w.self) >= amount;
    assert AllHold(RefundChecks(w1, executor, id));
    RefundEffect(w1, executor, id);
  }
}
