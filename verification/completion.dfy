/** When each transaction completes, which error it reverts with otherwise, and what a completed one leaves behind. */
module Completion {
  import opened Common
  import opened Ledgers
  import opened LedgerLaws
  import opened Escrow
  import opened Chain
  import Registry

  /** A condition of a call and the error when it is the first that fails. */
  datatype Check = Check(holds: bool, error: Error)

  predicate AllHold(checks: seq<Check>) { forall k | 0 <= k < |checks| :: checks[k].holds }

  /** k is the first condition that fails, or the length if none does. */
  predicate FirstToFail(checks: seq<Check>, k: nat) {
    k <= |checks| && (forall j | 0 <= j < k :: checks[j].holds) && (k < |checks| ==> !checks[k].holds)
  }

  lemma {:induction false} SomeFirst(checks: seq<Check>, n: nat) returns (k: nat)
    requires n <= |checks| && forall j | 0 <= j < n :: checks[j].holds
    ensures FirstToFail(checks, k)
    decreases |checks| - n
  {
    k := n;
    if n < |checks| && checks[n].holds { k := SomeFirst(checks, n + 1); }
  }

  /** The user has an attested record with a score of at most 91. */
  predicate Clear(s: Registry.State, user: Address) {
    user in s.users && s.users[user].exists_ && s.users[user].riskScore <= 91 && s.users[user].attestationHash != 0
  }

  predicate Known(w: World, id: Bytes32) { id in w.escrow.intents && w.escrow.intents[id].user != 0 }

  predicate Configured(w: World, code: Bytes32) { code in w.escrow.countryTokens && w.escrow.countryTokens[code] != 0 }

  function MintedToday(w: World): nat {
    if w.now / 86_400 in w.escrow.dailyMinted then w.escrow.dailyMinted[w.now / 86_400] else 0
  }

  /** Today's counter leaves room for the amount; nothing at all always fits. */
  predicate Fits(w: World, amount: nat) {
    amount == 0 || amount + MintedToday(w) <= 10_000_000_000_000_000_000_000
  }

  // ---- executeMint ----

  /** What the token that `executeMint` calls asks for. */
  predicate Mintable(w: World, token: Address, amount: nat) {
    && token in w.tokens
    && (w.tokens[token].kind.Stable? || w.self in w.tokens[token].minters)
    && w.tokens[token].totalSupply + amount <= UINT256_MAX
  }

  function ExecuteChecks(w: World, sender: Address, id: Bytes32): seq<Check> {
    var s := w.escrow;
    [Check(!s.entered, ReentrantCall),
     Check(!s.paused, EnforcedPause),
     Check((ExecutorRole, sender) in s.roles, Error.Unauthorized),
     Check(Known(w, id), IntentNotFound),
     Check(Known(w, id) && s.intents[id].status == Pending, IntentAlreadyExecuted),
     Check(s.userRegistry in w.registries, ExternalCallFailed),
     Check(Known(w, id) && s.userRegistry in w.registries && Clear(w.registries[s.userRegistry], s.intents[id].user), UserNotCompliant),
     Check(Known(w, id) && Configured(w, s.intents[id].countryCode), CountryTokenNotConfigured),
     Check(Known(w, id) && Fits(w, s.intents[id].amount), DailyLimitExceeded),
     Check(Known(w, id) && Configured(w, s.intents[id].countryCode)
           && Mintable(w, s.countryTokens[s.intents[id].countryCode], s.intents[id].amount), ExternalCallFailed)]
  }

  /** The error is that of the first condition that fails. */
  lemma ExecuteOutcome(w: World, sender: Address, id: Bytes32, k: nat)
    requires FirstToFail(ExecuteChecks(w, sender, id), k)
    ensures var r := Apply(w, Tx(sender, OnEscrow(Execute(id))));
            if k < |ExecuteChecks(w, sender, id)| then r == Err(ExecuteChecks(w, sender, id)[k].error) else r.Ok?
  {
    var cs := ExecuteChecks(w, sender, id);
    if k == 0 { assert !cs[0].holds; return; }
    assert cs[0].holds;
    if k == 1 { assert !cs[1].holds; return; }
    assert cs[1].holds;
    if k == 2 { assert !cs[2].holds; return; }
    assert cs[2].holds;
    if k == 3 { assert !cs[3].holds; return; }
    assert cs[3].holds;
    if k == 4 { assert !cs[4].holds; return; }
    assert cs[4].holds;
    if k == 5 { assert !cs[5].holds; return; }
    assert cs[5].holds;
    if k == 6 { assert !cs[6].holds; return; }
    assert cs[6].holds;
    if k == 7 { assert !cs[7].holds; return; }
    assert cs[7].holds;
    var i := w.escrow.intents[id];
    var token := w.escrow.countryTokens[i.countryCode];
    if token in w.tokens { MintExact(w.tokens[token], w.self, i.user, i.amount); }
    if k == 8 { assert !cs[8].holds; return; }
    assert cs[8].holds;
    if k == 9 { assert !cs[9].holds; return; }
    assert cs[9].holds;
  }

  /** `executeMint` completes exactly when all its conditions hold. */
  lemma ExecuteCompletesIff(w: World, sender: Address, id: Bytes32)
    ensures Apply(w, Tx(sender, OnEscrow(Execute(id)))).Ok? <==> AllHold(ExecuteChecks(w, sender, id))
  {
    var k := SomeFirst(ExecuteChecks(w, sender, id), 0);
    ExecuteOutcome(w, sender, id, k);
  }

  /** Balances move in this token only, by this amount, from and to these accounts. */
  ghost predicate Paid(w: World, w': World, token: Address, from: Option<Address>, to: Option<Address>, amount: nat) {
    && w'.tokens.Keys == w.tokens.Keys
    && forall t | t in w.tokens ::
         if t == token then Shifted(w.tokens[t], w'.tokens[t], from, to, amount) else w'.tokens[t] == w.tokens[t]
  }

  /** The state a completed `executeMint` leaves. */
  lemma ExecuteEffect(w: World, sender: Address, id: Bytes32)
    requires AllHold(ExecuteChecks(w, sender, id))
    ensures Known(w, id) && Configured(w, w.escrow.intents[id].countryCode)
    ensures var i, w' := w.escrow.intents[id], Step(w, Tx(sender, OnEscrow(Execute(id))));
            && w'.escrow == w.escrow.(intents := w.escrow.intents[id := i.(status := Executed)],
                                      dailyMinted := w.escrow.dailyMinted[w.now / 86_400 := MintedToday(w) + i.amount])
            && Paid(w, w', w.escrow.countryTokens[i.countryCode], None, Some(i.user), i.amount)
            && w'.registries == w.registries && w'.now == w.now
  {
    var cs := ExecuteChecks(w, sender, id);
    assert cs[3].holds && cs[7].holds && cs[9].holds && cs[0].holds;
    var i := w.escrow.intents[id];
    ExecuteCompletesIff(w, sender, id);
    MintExact(w.tokens[w.escrow.countryTokens[i.countryCode]], w.self, i.user, i.amount);
  }

  // ---- submitIntent ----

  /** What the stablecoin asks for before it moves a deposit to the escrow. */
  predicate Depositable(w: World, sender: Address, amount: nat) {
    && w.escrow.stablecoin in w.tokens && sender != 0 && w.self != 0
    && amount <= Balance(w.tokens[w.escrow.stablecoin], sender)
    && MaySpend(w.tokens[w.escrow.stablecoin], sender, w.self, amount)
  }

  function SubmitChecks(w: World, sender: Address, amount: nat, countryCode: Bytes32, txRef: Bytes32): seq<Check> {
    var s := w.escrow;
    [Check(!s.entered, ReentrantCall),
     Check(!s.paused, EnforcedPause),
     Check(s.stablecoin != 0, StablecoinNotSet),
     Check(s.userRegistry != 0, UserRegistryNotSet),
     Check(1_000_000_000_000_000_000 <= amount <= 1_000_000_000_000_000_000_000, InvalidAmount),
     Check(countryCode != 0, InvalidCountryCode),
     Check(Configured(w, countryCode), CountryTokenNotConfigured),
     Check(txRef != 0, InvalidTxRef),
     Check(txRef !in s.consumed, TxRefAlreadyConsumed),
     Check(!Known(w, w.intentId(sender, amount, countryCode, txRef)), IntentAlreadyExists),
     Check(Depositable(w, sender, amount), ExternalCallFailed)]
  }

  lemma SubmitOutcome(w: World, sender: Address, amount: nat, countryCode: Bytes32, txRef: Bytes32, k: nat)
    requires FirstToFail(SubmitChecks(w, sender, amount, countryCode, txRef), k)
    ensures var cs, r := SubmitChecks(w, sender, amount, countryCode, txRef), Apply(w, SubmitTx(sender, amount, countryCode, txRef));
            if k < |cs| then r == Err(cs[k].error) else r.Ok?
  {
    var cs := SubmitChecks(w, sender, amount, countryCode, txRef);
    if k == 0 { assert !cs[0].holds; return; }
    assert cs[0].holds;
    if k == 1 { assert !cs[1].holds; return; }
    assert cs[1].holds;
    if k == 2 { assert !cs[2].holds; return; }
    assert cs[2].holds;
    if k == 3 { assert !cs[3].holds; return; }
    assert cs[3].holds;
    if k == 4 { assert !cs[4].holds; return; }
    assert cs[4].holds;
    if k == 5 { assert !cs[5].holds; return; }
    assert cs[5].holds;
    if k == 6 { assert !cs[6].holds; return; }
    assert cs[6].holds;
    if k == 7 { assert !cs[7].holds; return; }
    assert cs[7].holds;
    if k == 8 { assert !cs[8].holds; return; }
    assert cs[8].holds;
    if k == 9 { assert !cs[9].holds; return; }
    assert cs[9].holds;
    if w.escrow.stablecoin in w.tokens { TransferFromExact(w.tokens[w.escrow.stablecoin], w.self, sender, w.self, amount); }
    if k == 10 { assert !cs[10].holds; return; }
    assert cs[10].holds;
  }

  /** `submitIntent` completes exactly when all its conditions hold. */
  lemma SubmitCompletesIff(w: World, sender: Address, amount: nat, countryCode: Bytes32, txRef: Bytes32)
    ensures Apply(w, SubmitTx(sender, amount, countryCode, txRef)).Ok? <==> AllHold(SubmitChecks(w, sender, amount, countryCode, txRef))
  {
    var k := SomeFirst(SubmitChecks(w, sender, amount, countryCode, txRef), 0);
    SubmitOutcome(w, sender, amount, countryCode, txRef, k);
  }

  /** The state a completed `submitIntent` leaves. */
  lemma SubmitEffect(w: World, sender: Address, amount: nat, countryCode: Bytes32, txRef: Bytes32)
    requires AllHold(SubmitChecks(w, sender, amount, countryCode, txRef))
    ensures var id, w' := w.intentId(sender, amount, countryCode, txRef), Step(w, SubmitTx(sender, amount, countryCode, txRef));
            && w'.escrow == w.escrow.(consumed := w.escrow.consumed + {txRef},
                 intents := w.escrow.intents[id := Intent(sender, amount, countryCode, txRef, w.now, Pending)])
            && Paid(w, w', w.escrow.stablecoin, Some(sender), Some(w.self), amount)
            && w.escrow.stablecoin in w.tokens
            && Spent(w.tokens[w.escrow.stablecoin], w'.tokens[w.escrow.stablecoin], sender, w.self, amount)
            && w'.tokens[w.escrow.stablecoin].totalSupply == w.tokens[w.escrow.stablecoin].totalSupply
            && SameRules(w.tokens[w.escrow.stablecoin], w'.tokens[w.escrow.stablecoin])
            && w'.registries == w.registries && w'.now == w.now && w'.self == w.self
  {
    var cs := SubmitChecks(w, sender, amount, countryCode, txRef);
    assert cs[0].holds && cs[10].holds;
    SubmitCompletesIff(w, sender, amount, countryCode, txRef);
    TransferFromExact(w.tokens[w.escrow.stablecoin], w.self, sender, w.self, amount);
  }

  // ---- refundIntent ----

  function RefundChecks(w: World, sender: Address, id: Bytes32): seq<Check> {
    var s := w.escrow;
    [Check(!s.entered, ReentrantCall),
     Check((ExecutorRole, sender) in s.roles, Error.Unauthorized),
     Check(Known(w, id), IntentNotFound),
     Check(Known(w, id) && s.intents[id].status == Pending, IntentAlreadyExecuted),
     Check(Known(w, id) && w.self != 0 && s.stablecoin in w.tokens
           && s.intents[id].amount <= Balance(w.tokens[s.stablecoin], w.self), ExternalCallFailed)]
  }

  lemma RefundOutcome(w: World, sender: Address, id: Bytes32, k: nat)
    requires FirstToFail(RefundChecks(w, sender, id), k)
    ensures var cs, r := RefundChecks(w, sender, id), Apply(w, RefundTx(sender, id));
            if k < |cs| then r == Err(cs[k].error) else r.Ok?
  {
    var cs := RefundChecks(w, sender, id);
    if k == 0 { assert !cs[0].holds; return; }
    assert cs[0].holds;
    if k == 1 { assert !cs[1].holds; return; }
    assert cs[1].holds;
    if k == 2 { assert !cs[2].holds; return; }
    assert cs[2].holds;
    if k == 3 { assert !cs[3].holds; return; }
    assert cs[3].holds;
    var i := w.escrow.intents[id];
    if w.escrow.stablecoin in w.tokens { TransferExact(w.tokens[w.escrow.stablecoin], w.self, i.user, i.amount); }
    if k == 4 { assert !cs[4].holds; return; }
    assert cs[4].holds;
  }

  /** `refundIntent` completes exactly when all its conditions hold; being paused is not one. */
  lemma RefundCompletesIff(w: World, sender: Address, id: Bytes32)
    ensures Apply(w, RefundTx(sender, id)).Ok? <==> AllHold(RefundChecks(w, sender, id))
  {
    var k := SomeFirst(RefundChecks(w, sender, id), 0);
    RefundOutcome(w, sender, id, k);
  }

  /** The state a completed `refundIntent` leaves. */
  lemma RefundEffect(w: World, sender: Address, id: Bytes32)
    requires AllHold(RefundChecks(w, sender, id))
    ensures Known(w, id)
    ensures var i, w' := w.escrow.intents[id], Step(w, RefundTx(sender, id));
            && w'.escrow == w.escrow.(intents := w.escrow.intents[id := i.(status := Refunded)])
            && Paid(w, w', w.escrow.stablecoin, Some(w.self), Some(i.user), i.amount)
            && w'.registries == w.registries && w'.now == w.now
  {
    var cs := RefundChecks(w, sender, id);
    assert cs[0].holds && cs[2].holds && cs[4].holds;
    var i := w.escrow.intents[id];
    RefundCompletesIff(w, sender, id);
    TransferExact(w.tokens[w.escrow.stablecoin], w.self, i.user, i.amount);
  }

  // ---- everything else ----

  /** A token or registry transaction completes exactly when there is such a contract and it accepts the call; waiting always does. */
  lemma OtherCompletesIff(w: World, tx: Tx)
    requires tx.call.OnToken? || tx.call.OnRegistry? || tx.call.Wait?
    ensures Apply(w, tx).Ok? <==>
      match tx.call
      case OnToken(token, op) => token in w.tokens && ApplyOp(w.tokens[token], tx.sender, op).Ok?
      case OnRegistry(registry, op) => registry in w.registries && Registry.ApplyOp(w.registries[registry], tx.sender, op, w.now).Ok?
      case _ => true
    ensures Apply(w, tx).Ok? ==>
      var w' := Step(w, tx);
      && w'.escrow == w.escrow && w'.self == w.self && w'.intentId == w.intentId
      && w'.now == w.now + (if tx.call.Wait? then tx.call.seconds else 0)
      && w'.tokens == (if tx.call.OnToken? then
           w.tokens[tx.call.token := ApplyOp(w.tokens[tx.call.token], tx.sender, tx.call.op).value] else w.tokens)
      && w'.registries == (if tx.call.OnRegistry? then
           w.registries[tx.call.registry := Registry.ApplyOp(w.registries[tx.call.registry], tx.sender, tx.call.registryOp, w.now).value]
         else w.registries)
  {
  }
}
