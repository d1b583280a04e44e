/** What the escrow owes it has: its balance over every run, and the supply of every token. */
module Solvency {
  import opened Common
  import opened Sums
  import opened Ledgers
  import opened Escrow
  import opened Chain
  import opened Intents
  import opened Accounting

  // ---- ledgers stay honest ----

  /** The escrow's token calls are ordinary ledger operations it sends itself. */
  function OpOf(self: Address, i: Interaction): TokenOp {
    match i
    case PullDeposit(_, from, amount) => OpTransferFrom(from, self, amount)
    case MintTokens(_, to, amount) => OpMint(to, amount)
    case PushRefund(_, to, amount) => OpTransfer(to, amount)
  }

  /** The token a transaction uses, if it completes. */
  function OpIn(w: World, tx: Tx): Option<(Address, Address, TokenOp)> {
    match tx.call
    case OnToken(token, op) => Some((token, tx.sender, op))
    case OnEscrow(c) =>
      if Begin(w.escrow, ContextOf(w), tx.sender, c).Err? then None
      else
        var i := Interact(w.escrow, ContextOf(w), tx.sender, c);
        Some((i.token, w.self, OpOf(w.self, i)))
    case _ => None
  }

  /** A transaction changes at most one ledger, and that by one operation. */
  lemma OneLedgerChanges(w: World, tx: Tx)
    ensures Step(w, tx).tokens == w.tokens
         || (var used := OpIn(w, tx);
             && used.Some? && used.value.0 in w.tokens
             && var r := ApplyOp(w.tokens[used.value.0], used.value.1, used.value.2);
             && r.Ok? && Step(w, tx).tokens == w.tokens[used.value.0 := r.value])
  {
    if tx.call.OnEscrow? {
      var ctx := ContextOf(w);
      if Begin(w.escrow, ctx, tx.sender, tx.call.guarded).Ok? {
        var i := Interact(w.escrow, ctx, tx.sender, tx.call.guarded);
        assert i.token in w.tokens ==>
          LedgerOp(w.tokens[i.token], w.self, i) == ApplyOp(w.tokens[i.token], w.self, OpOf(w.self, i));
      }
    } else {
      OtherCases(w, tx);
    }
  }

  ghost predicate AllHonest(w: World) {
    forall t | t in w.tokens :: Honest(w.tokens[t])
  }

  /** In every reachable state balances add up to the supply, so no balance ever overflows a word. */
  lemma {:induction false} RunHonest(w: World, txs: seq<Tx>)
    requires Genesis(w)
    ensures AllHonest(Run(w, txs)) && Run(w, txs).tokens.Keys == w.tokens.Keys
    ensures forall t, a: Address | t in w.tokens :: Balance(Run(w, txs).tokens[t], a) <= UINT256_MAX
  {
    if txs != [] {
      var before, tx := Run(w, txs[..|txs| - 1]), txs[|txs| - 1];
      RunHonest(w, txs[..|txs| - 1]);
      OneLedgerChanges(before, tx);
      var used := OpIn(before, tx);
      if Run(w, txs).tokens != before.tokens {
        ApplyOpHonest(before.tokens[used.value.0], used.value.1, used.value.2);
      }
    }
    var r := Run(w, txs);
    forall t, a: Address | t in w.tokens ensures Balance(r.tokens[t], a) <= UINT256_MAX {
      BalanceWithinSupply(r.tokens[t], a);
    }
  }

  // ---- the escrow's own balance ----

  /** Tokens sent or minted straight to the escrow, outside any deposit. */
  function GiftIn(self: Address, token: Address): Event -> nat {
    (e: Event) =>
      if e.TokenUsed? && e.token == token then
        match e.op
        case OpTransfer(to, amount) => if to == self then amount else 0
        case OpTransferFrom(_, to, amount) => if to == self then amount else 0
        case OpMint(to, amount) => if to == self then amount else 0
        case _ => 0
      else 0
  }

  ghost predicate NoAllowance(l: Ledger, owner: Address) {
    forall spender: Address :: Allowance(l, owner, spender) == 0
  }

  /** Somebody else's operation can only add to the escrow's balance, by exactly the gift it carries. */
  lemma ForeignOp(l: Ledger, self: Address, token: Address, sender: Address, op: TokenOp)
    requires NoAllowance(l, self) && sender != self && ApplyOp(l, sender, op).Ok?
    ensures var l' := ApplyOp(l, sender, op).value;
            && NoAllowance(l', self)
            && Balance(l', self) == Balance(l, self) + GiftIn(self, token)(TokenUsed(token, sender, op))
  {
    match op {
      case OpTransferFrom(from, to, amount) => SpendKeeps(l, self, from, sender, amount);
      case OpBurnFrom(from, amount) => SpendKeeps(l, self, from, sender, amount);
      case _ =>
    }
    var l' := ApplyOp(l, sender, op).value;
    forall spender: Address ensures Allowance(l', self, spender) == 0 {
      assert Allowance(l, self, spender) == 0;
      if op.OpTransferFrom? || op.OpBurnFrom? {
        assert Allowance(SpendAllowance(l, op.from, sender, op.amount).value, self, spender) == 0;
      }
    }
  }

  lemma SpendKeeps(l: Ledger, self: Address, from: Address, spender: Address, amount: nat)
    requires NoAllowance(l, self) && SpendAllowance(l, from, spender, amount).Ok?
    ensures var l' := SpendAllowance(l, from, spender, amount).value;
            && NoAllowance(l', self) && l'.balances == l.balances
    ensures from == self ==> amount == 0
  {
    assert Allowance(l, self, spender) == 0;
    var l' := SpendAllowance(l, from, spender, amount).value;
    forall a: Address ensures Allowance(l', self, a) == 0 {
      assert Allowance(l, self, a) == 0;
    }
  }

  /** What the escrow's own token calls do to its balance; it never deals with itself. */
  lemma OwnOp(l: Ledger, self: Address, i: Interaction)
    requires NoAllowance(l, self) && LedgerOp(l, self, i).Ok?
    requires i.PullDeposit? ==> i.from != self
    requires !i.PullDeposit? ==> i.to != self
    ensures var l' := LedgerOp(l, self, i).value;
            && NoAllowance(l', self)
            && Balance(l', self) == match i
                 case PullDeposit(_, _, amount) => Balance(l, self) + amount
                 case MintTokens(_, _, _) => Balance(l, self)
                 case PushRefund(_, _, amount) => Balance(l, self) - amount
  {
    if i.PullDeposit? { SpendKeeps(l, self, i.from, self, i.amount); }
    var l' := LedgerOp(l, self, i).value;
    forall a: Address ensures Allowance(l', self, a) == 0 {
      assert Allowance(l, self, a) == 0;
      if i.PullDeposit? {
        assert Allowance(SpendAllowance(l, i.from, self, i.amount).value, self, a) == 0;
      }
    }
  }

  /** The escrow's stablecoin is unset or this one. */
  predicate UsesOnly(w: World, token: Address) {
    token in w.tokens && (w.escrow.stablecoin == 0 || w.escrow.stablecoin == token)
  }

  /** At no moment of the run is the escrow pointed at another stablecoin; attempts that revert do not matter. */
  predicate StablecoinFixed(w: World, txs: seq<Tx>, token: Address) {
    token in w.tokens && UsesOnly(Run(w, txs), token) && (txs == [] || StablecoinFixed(w, txs[..|txs| - 1], token))
  }

  ghost predicate Solvent(w: World, token: Address, initial: nat) {
    && UsesOnly(w, token)
    && NoAllowance(w.tokens[token], w.self)
    && Balance(w.tokens[token], w.self) ==
         initial + Sum(w.log, GiftIn(w.self, token)) + Held(w, Pending) + Held(w, Executed)
  }

  /** A guarded call whose interaction is i, seen from the ledger of `token`. */
  lemma PerformedOn(w: World, w': World, token: Address, i: Interaction)
    requires token in w.tokens && Performed(w, w', i)
    ensures token in w'.tokens
    ensures w'.tokens[token] == if i.token == token then LedgerOp(w.tokens[token], w.self, i).value else w.tokens[token]
  {
  }

  lemma SubmitSolvent(w: World, w': World, token: Address, initial: nat, sender: Address, amount: nat, countryCode: Bytes32, txRef: Bytes32)
    requires Sound(w) && Solvent(w, token, initial) && sender != w.self
    requires DidSubmit(w, w', sender, amount, countryCode, txRef)
    ensures Solvent(w', token, initial)
  {
    var id := w.intentId(sender, amount, countryCode, txRef);
    var i := PullDeposit(token, sender, amount);
    UnusedId(w, id);
    PerformedOn(w, w', token, i);
    OwnOp(w.tokens[token], w.self, i);
    SumAppend(w.log, Deposited(id, sender, amount), GiftIn(w.self, token));
    var intent := Intent(sender, amount, countryCode, txRef, w.now, Pending);
    TotalAdd(w.escrow.intents, id, intent, AmountIf(Pending));
    TotalAdd(w.escrow.intents, id, intent, AmountIf(Executed));
  }

  lemma SettleSolvent(w: World, w': World, token: Address, initial: nat, id: Bytes32, status: Status, i: Interaction, e: Event)
    requires Sound(w) && Solvent(w, token, initial) && SameSurroundings(w, w') && Settled(w, w', id, status)
    requires Performed(w, w', i) && w'.log == w.log + [e] && !e.TokenUsed?
    requires var x := w.escrow.intents[id];
             || (status == Executed && i.MintTokens? && i.to == x.user)
             || (status == Refunded && i == PushRefund(w.escrow.stablecoin, x.user, x.amount) && i.token == token)
    ensures Solvent(w', token, initial)
  {
    assert IntentOk(w, id);
    PerformedOn(w, w', token, i);
    if i.token == token { OwnOp(w.tokens[token], w.self, i); }
    SumAppend(w.log, e, GiftIn(w.self, token));
    SettleHeld(w, w', id, status);
  }

  /** How much a call outside the escrow adds to a sum over the log. */
  function CountBy(f: Event -> nat, tx: Tx): nat {
    if tx.call.OnToken? then f(TokenUsed(tx.call.token, tx.sender, tx.call.op)) else 0
  }

  lemma CountLogged(log: seq<Event>, f: Event -> nat, tx: Tx)
    requires forall e: Event | e.RiskUpdated? :: f(e) == 0
    ensures Sum(log + OtherEvents(tx), f) == Sum(log, f) + CountBy(f, tx)
  {
    if OtherEvents(tx) == [] {
      assert log + OtherEvents(tx) == log;
    } else {
      SumAppend(log, OtherEvents(tx)[0], f);
    }
  }

  lemma GiftsReceived(w: World, w': World, token: Address, tx: Tx)
    requires token in w.tokens && NoAllowance(w.tokens[token], w.self) && tx.sender != w.self
    requires OtherEffects(w, w', tx)
    ensures token in w'.tokens && NoAllowance(w'.tokens[token], w.self)
    ensures Balance(w'.tokens[token], w.self) == Balance(w.tokens[token], w.self) + CountBy(GiftIn(w.self, token), tx)
  {
    if tx.call.OnToken? && tx.call.token == token {
      ForeignOp(w.tokens[token], w.self, token, tx.sender, tx.call.op);
    } else {
      assert w'.tokens[token] == w.tokens[token];
    }
  }

  lemma OtherSolvent(w: World, w': World, token: Address, initial: nat, tx: Tx)
    requires Solvent(w, token, initial) && tx.sender != w.self
    requires DidOther(w, w', tx) && OtherEffects(w, w', tx) && UsesOnly(w', token)
    ensures Solvent(w', token, initial)
  {
    CountLogged(w.log, GiftIn(w.self, token), tx);
    GiftsReceived(w, w', token, tx);
  }

  lemma StepSolvent(w: World, w': World, tx: Tx, token: Address, initial: nat)
    requires Sound(w) && Solvent(w, token, initial) && Genuine(w.self, tx) && UsesOnly(w', token)
    requires token != 0 && Did(w, w', tx) && (tx.call.OnEscrow? || OtherEffects(w, w', tx))
    requires 0 !in w.tokens
    ensures Solvent(w', token, initial)
  {
    match tx.call {
      case OnEscrow(Submit(amount, countryCode, txRef)) =>
        SubmitSolvent(w, w', token, initial, tx.sender, amount, countryCode, txRef);
      case OnEscrow(Execute(id)) =>
        var x := w.escrow.intents[id];
        var i := MintTokens(TokenOf(w.escrow, x.countryCode), x.user, x.amount);
        SettleSolvent(w, w', token, initial, id, Executed, i, w'.log[|w.log|]);
      case OnEscrow(Refund(id)) =>
        var x := w.escrow.intents[id];
        SettleSolvent(w, w', token, initial, id, Refunded, PushRefund(w.escrow.stablecoin, x.user, x.amount), w'.log[|w.log|]);
      case _ => OtherSolvent(w, w', token, initial, tx);
    }
  }

  /**
   * In every reachable state the escrow's balance is what it started with, plus the gifts, plus the
   * amounts of all Pending and Executed intents.
   */
  lemma {:induction false} RunSolvent(w: World, txs: seq<Tx>, token: Address)
    requires Genesis(w) && GenuineRun(w, txs) && StablecoinFixed(w, txs, token)
    ensures Solvent(Run(w, txs), token, Balance(w.tokens[token], w.self))
  {
    if txs == [] {
      assert forall a: Address :: Allowance(w.tokens[token], w.self, a) == 0;
    } else {
      var before, tx, after := Run(w, txs[..|txs| - 1]), txs[|txs| - 1], Run(w, txs);
      RunSolvent(w, txs[..|txs| - 1], token);
      RunSound(w, txs[..|txs| - 1]);
      RunHonest(w, txs[..|txs| - 1]);
      StepCases(before, tx);
      if !tx.call.OnEscrow? { OtherCases(before, tx); }
      if after != before {
        StepSolvent(before, after, tx, token, Balance(w.tokens[token], w.self));
      }
    }
  }

  // ---- the supply of every token ----

  function IssuedIn(token: Address): Event -> nat {
    (e: Event) =>
      if e.Minted? && e.token == token then e.amount
      else if e.TokenUsed? && e.token == token && e.op.OpMint? then e.op.amount
      else 0
  }

  function BurnedIn(token: Address): Event -> nat {
    (e: Event) =>
      if e.TokenUsed? && e.token == token && (e.op.OpBurn? || e.op.OpBurnFrom?) then e.op.amount else 0
  }

  ghost predicate SupplyAccounted(w: World, token: Address, initial: nat) {
    && token in w.tokens
    && w.tokens[token].totalSupply + Sum(w.log, BurnedIn(token)) == initial + Sum(w.log, IssuedIn(token))
  }

  /** A ledger operation changes the supply by what it mints or burns. */
  lemma SupplyOp(l: Ledger, sender: Address, op: TokenOp)
    requires ApplyOp(l, sender, op).Ok?
    ensures ApplyOp(l, sender, op).value.totalSupply + (if op.OpBurn? || op.OpBurnFrom? then op.amount else 0)
         == l.totalSupply + (if op.OpMint? then op.amount else 0)
  {
  }

  lemma GuardedSupply(w: World, w': World, i: Interaction, e: Event, token: Address, initial: nat)
    requires SupplyAccounted(w, token, initial) && Performed(w, w', i)
    requires w'.log == w.log + [e] && !e.TokenUsed?
    requires if i.MintTokens? then e.Minted? && e.token == i.token && e.amount == i.amount else !e.Minted?
    ensures SupplyAccounted(w', token, initial)
  {
    SumAppend(w.log, e, BurnedIn(token));
    SumAppend(w.log, e, IssuedIn(token));
    PerformedOn(w, w', token, i);
    SupplyOp(w.tokens[i.token], w.self, OpOf(w.self, i));
  }

  lemma StepSupply(w: World, w': World, tx: Tx, token: Address, initial: nat)
    requires SupplyAccounted(w, token, initial) && Did(w, w', tx) && (tx.call.OnEscrow? || OtherEffects(w, w', tx))
    ensures SupplyAccounted(w', token, initial)
  {
    match tx.call {
      case OnEscrow(Submit(amount, _, _)) =>
        GuardedSupply(w, w', PullDeposit(w.escrow.stablecoin, tx.sender, amount), w'.log[|w.log|], token, initial);
      case OnEscrow(Execute(id)) =>
        var x := w.escrow.intents[id];
        GuardedSupply(w, w', MintTokens(TokenOf(w.escrow, x.countryCode), x.user, x.amount), w'.log[|w.log|], token, initial);
      case OnEscrow(Refund(id)) =>
        var x := w.escrow.intents[id];
        GuardedSupply(w, w', PushRefund(w.escrow.stablecoin, x.user, x.amount), w'.log[|w.log|], token, initial);
      case _ => OtherSupply(w, w', tx, token, initial);
    }
  }

  lemma SupplyChanged(w: World, w': World, tx: Tx, token: Address)
    requires token in w.tokens && OtherEffects(w, w', tx)
    ensures token in w'.tokens
    ensures w'.tokens[token].totalSupply + CountBy(BurnedIn(token), tx) == w.tokens[token].totalSupply + CountBy(IssuedIn(token), tx)
  {
    if tx.call.OnToken? && tx.call.token == token {
      SupplyOp(w.tokens[token], tx.sender, tx.call.op);
    } else {
      assert w'.tokens[token] == w.tokens[token];
    }
  }

  lemma OtherSupply(w: World, w': World, tx: Tx, token: Address, initial: nat)
    requires SupplyAccounted(w, token, initial)
    requires w'.log == w.log + OtherEvents(tx) && OtherEffects(w, w', tx)
    ensures SupplyAccounted(w', token, initial)
  {
    CountLogged(w.log, BurnedIn(token), tx);
    CountLogged(w.log, IssuedIn(token), tx);
    SupplyChanged(w, w', tx, token);
  }

  /** Every token's supply is its initial supply plus what the escrow and others minted, less what was burned. */
  lemma {:induction false} RunSupply(w: World, txs: seq<Tx>, token: Address)
    requires Genesis(w) && GenuineRun(w, txs) && token in w.tokens
    ensures SupplyAccounted(Run(w, txs), token, w.tokens[token].totalSupply)
  {
    if txs != [] {
      var before, tx, after := Run(w, txs[..|txs| - 1]), txs[|txs| - 1], Run(w, txs);
      RunSupply(w, txs[..|txs| - 1], token);
      RunSound(w, txs[..|txs| - 1]);
      StepCases(before, tx);
      if !tx.call.OnEscrow? { OtherCases(before, tx); }
      if after != before {
        StepSupply(before, after, tx, token, w.tokens[token].totalSupply);
      }
    }
  }

  // ---- who pays whom ----

  /** What a guarded call moves to or from an account, in one token. */
  function Received(w: World, i: Interaction, token: Address, a: Address): int {
    if token != i.token then 0
    else match i
      case PullDeposit(_, from, amount) => (if a == w.self then amount else 0) - (if a == from then amount else 0)
      case MintTokens(_, to, amount) => if a == to then amount else 0
      case PushRefund(_, to, amount) => (if a == to then amount else 0) - (if a == w.self then amount else 0)
  }

  lemma LedgerMoves(l: Ledger, self: Address, i: Interaction, a: Address)
    requires LedgerOp(l, self, i).Ok?
    ensures Balance(LedgerOp(l, self, i).value, a) - Balance(l, a) == match i
              case PullDeposit(_, from, amount) => (if a == self then amount else 0) - (if a == from then amount else 0)
              case MintTokens(_, to, amount) => if a == to then amount else 0
              case PushRefund(_, to, amount) => (if a == to then amount else 0) - (if a == self then amount else 0)
  {
  }

  /**
   * A deposit takes exactly its amount from the sender in stablecoin, a mint gives exactly the intent's amount
   * to the intent's user in the country's token, a refund returns exactly the deposit to that user; no other
   * account and no other token is touched.
   */
  lemma WhoPaysWhom(w: World, w': World, tx: Tx, token: Address, a: Address)
    requires tx.call.OnEscrow? && Did(w, w', tx) && token in w.tokens
    ensures token in w'.tokens
    ensures Balance(w'.tokens[token], a) - Balance(w.tokens[token], a) ==
      Received(w, (match tx.call.guarded
        case Submit(amount, _, _) => PullDeposit(w.escrow.stablecoin, tx.sender, amount)
        case Execute(id) => MintTokens(TokenOf(w.escrow, w.escrow.intents[id].countryCode), w.escrow.intents[id].user, w.escrow.intents[id].amount)
        case Refund(id) => PushRefund(w.escrow.stablecoin, w.escrow.intents[id].user, w.escrow.intents[id].amount)), token, a)
  {
    var i := match tx.call.guarded
      case Submit(amount, _, _) => PullDeposit(w.escrow.stablecoin, tx.sender, amount)
      case Execute(id) => MintTokens(TokenOf(w.escrow, w.escrow.intents[id].countryCode), w.escrow.intents[id].user, w.escrow.intents[id].amount)
      case Refund(id) => PushRefund(w.escrow.stablecoin, w.escrow.intents[id].user, w.escrow.intents[id].amount);
    PerformedOn(w, w', token, i);
    LedgerMoves(w.tokens[i.token], w.self, i, a);
  }
}
