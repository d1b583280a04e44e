/**
 * MintEscrow as a contract object: its storage is written in place, in the order of the source, and
 * it calls the token and registry objects deployed next to it.
 */
module MintEscrowContract {
  import opened Common
  import opened Escrow
  import opened Chain
  import opened Contracts
  import Ledgers
  import Registry

  /** No object is deployed at two addresses. */
  ghost predicate OneEach(tokens: map<Address, TokenContract>) {
    forall a, b | a in tokens && b in tokens && tokens[a] == tokens[b] :: a == b
  }

  /** The token call succeeded and left these ledgers, or failed and left the old ones. */
  ghost predicate Served(before: map<Address, Ledgers.Ledger>, after: map<Address, Ledgers.Ledger>,
                         self: Address, i: Interaction, ok: bool)
  {
    match Perform(before, self, i)
    case Ok(ledgers) => ok && after == ledgers
    case Err(_) => !ok && after == before
  }

  /** The call completed with the state the model gives, or reverted and changed nothing. */
  ghost predicate Outcome(before: World, after: World, spec: Result<World, Error>, failure: Option<Error>) {
    match spec
    case Ok(w) => failure.None? && after == w
    case Err(e) => failure == Some(e) && after == before
  }

  /** What is left to show once the checks have passed: the writes and the token call. */
  lemma GuardedReaches(w: World, w': World, sender: Address, c: Guarded, ok: bool)
    requires Begin(w.escrow, ContextOf(w), sender, c).Ok? && !w.escrow.entered
    requires Served(w.tokens, w'.tokens, w.self, Interact(w.escrow, ContextOf(w), sender, c), ok)
    requires w'.escrow == if ok then End(Begin(w.escrow, ContextOf(w), sender, c).value, ContextOf(w), sender, c) else w.escrow
    requires w'.log == w.log + if ok then [EventOf(w, sender, c)] else []
    requires w' == w.(escrow := w'.escrow, tokens := w'.tokens, log := w'.log)
    ensures Outcome(w, w', ApplyGuarded(w, sender, c), if ok then None else Some(ExternalCallFailed))
  {
  }

  lemma SubmitReaches(w: World, w': World, sender: Address, amount: nat, countryCode: Bytes32, txRef: Bytes32, ok: bool)
    requires Begin(w.escrow, ContextOf(w), sender, Submit(amount, countryCode, txRef)) == Ok(w.escrow.(entered := true))
    requires !w.escrow.entered && w'.self == w.self && w'.intentId == w.intentId && w'.registries == w.registries && w'.now == w.now
    requires Served(w.tokens, w'.tokens, w.self, PullDeposit(w.escrow.stablecoin, sender, amount), ok)
    requires var id := w.intentId(sender, amount, countryCode, txRef);
             && w'.log == w.log + (if ok then [Deposited(id, sender, amount)] else [])
             && w'.escrow == if !ok then w.escrow else w.escrow.(consumed := w.escrow.consumed + {txRef},
                  intents := w.escrow.intents[id := Intent(sender, amount, countryCode, txRef, w.now, Pending)])
    ensures Outcome(w, w', ApplyGuarded(w, sender, Submit(amount, countryCode, txRef)), if ok then None else Some(ExternalCallFailed))
  {
    GuardedReaches(w, w', sender, Submit(amount, countryCode, txRef), ok);
  }

  lemma ExecuteReaches(w: World, w': World, sender: Address, id: Bytes32, day: nat, minted: nat, ok: bool)
    requires !w.escrow.entered && w'.self == w.self && w'.intentId == w.intentId && w'.registries == w.registries && w'.now == w.now
    requires Stored(w.escrow, id)
    requires var i := w.escrow.intents[id];
             var t := TokenOf(w.escrow, i.countryCode);
             var s := w.escrow.(intents := w.escrow.intents[id := i.(status := Executed)],
                                dailyMinted := w.escrow.dailyMinted[day := minted + i.amount]);
             && Begin(w.escrow, ContextOf(w), sender, Execute(id)) == Ok(s.(entered := true))
             && Served(w.tokens, w'.tokens, w.self, MintTokens(t, i.user, i.amount), ok)
             && w'.log == w.log + (if ok then [Minted(id, i.user, i.amount, t, w.escrow.userRegistry, w.now)] else [])
             && w'.escrow == if ok then s else w.escrow
    ensures Outcome(w, w', ApplyGuarded(w, sender, Execute(id)), if ok then None else Some(ExternalCallFailed))
  {
    GuardedReaches(w, w', sender, Execute(id), ok);
  }

  lemma RefundReaches(w: World, w': World, sender: Address, id: Bytes32, ok: bool)
    requires !w.escrow.entered && w'.self == w.self && w'.intentId == w.intentId && w'.registries == w.registries && w'.now == w.now
    requires Stored(w.escrow, id)
    requires var i := w.escrow.intents[id];
             var s := w.escrow.(intents := w.escrow.intents[id := i.(status := Refunded)]);
             && Begin(w.escrow, ContextOf(w), sender, Refund(id)) == Ok(s.(entered := true))
             && Served(w.tokens, w'.tokens, w.self, PushRefund(w.escrow.stablecoin, i.user, i.amount), ok)
             && w'.log == w.log + (if ok then [Repaid(id, i.user, i.amount)] else [])
             && w'.escrow == if ok then s else w.escrow
    ensures Outcome(w, w', ApplyGuarded(w, sender, Refund(id)), if ok then None else Some(ExternalCallFailed))
  {
    GuardedReaches(w, w', sender, Refund(id), ok);
  }

  class MintEscrow {
    const self: Address
    const intentId: Hash
    var stablecoin: Address
    var userRegistry: Address
    var intents: map<Bytes32, Intent>
    var txRefConsumed: set<Bytes32>
    var countryTokens: map<Bytes32, Address>
    var dailyMinted: map<nat, nat>
    var roles: set<(Role, Address)>
    var paused: bool
    var entered: bool

    // the contracts deployed at other addresses, the block time and the history
    const tokens: map<Address, TokenContract>
    const registries: map<Address, UserRegistry>
    var now: nat
    ghost var log: seq<Event>

    constructor (self: Address, intentId: Hash, admin: Address,
                 tokens: map<Address, TokenContract>, registries: map<Address, UserRegistry>, now: nat)
      requires admin != 0 && OneEach(tokens)
      ensures Valid() && this.tokens == tokens && this.registries == registries
      ensures var v := View();
              && v.self == self && v.intentId == intentId && v.now == now && v.log == []
              && v.escrow == Storage(0, 0, map[], {}, map[], map[], {(DefaultAdminRole, admin), (AdminRole, admin)}, false, false)
    {
      this.self, this.intentId, this.tokens, this.registries, this.now := self, intentId, tokens, registries, now;
      stablecoin, userRegistry, intents, txRefConsumed, countryTokens, dailyMinted := 0, 0, map[], {}, map[], map[];
      roles, paused, entered, log := {(DefaultAdminRole, admin), (AdminRole, admin)}, false, false, [];
    }

    ghost function StorageView(): Storage
      reads this
    {
      Storage(stablecoin, userRegistry, intents, txRefConsumed, countryTokens, dailyMinted, roles, paused, entered)
    }

    ghost function TokensView(): map<Address, Ledgers.Ledger>
      reads tokens.Values
    {
      map a | a in tokens :: tokens[a].View()
    }

    ghost function RegistriesView(): map<Address, Registry.State>
      reads registries.Values
    {
      map a | a in registries :: registries[a].View()
    }

    ghost function View(): World
      reads this, tokens.Values, registries.Values
    {
      World(self, intentId, StorageView(), TokensView(), RegistriesView(), now, log)
    }

    /** Different addresses hold different token objects; the stablecoin may well be a country's token. */
    ghost predicate Valid() { OneEach(tokens) }

    ghost predicate Became(before: World, spec: Result<World, Error>, failure: Option<Error>)
      reads this, tokens.Values, registries.Values
    {
      Outcome(before, View(), spec, failure)
    }

    /** `stablecoin.safeTransferFrom`, `ICountryToken.mint` or `stablecoin.safeTransfer`, sent by the escrow. */
    method CallToken(i: Interaction) returns (ok: bool)
      requires Valid()
      modifies tokens.Values
      ensures Served(old(TokensView()), TokensView(), self, i, ok)
      ensures RegistriesView() == old(RegistriesView())
    {
      if i.token !in tokens { return false; }
      ghost var before := TokensView();
      ok := Send(tokens[i.token], i);
      assert TokensView() == before[i.token := tokens[i.token].View()];
    }

    /** One token object serves the call as the ledger functions say, or reverts. */
    method Send(token: TokenContract, i: Interaction) returns (ok: bool)
      modifies token
      ensures match LedgerOp(old(token.View()), self, i)
              case Ok(l) => ok && token.View() == l
              case Err(_) => !ok && token.View() == old(token.View())
    {
      var r;
      match i {
        case PullDeposit(_, from, amount) => r := token.TransferFrom(self, from, self, amount);
        case MintTokens(_, to, amount) => r := token.Mint(self, to, amount);
        case PushRefund(_, to, amount) => r := token.Move(self, to, amount);
      }
      return r.Ok?;
    }

    /** Modifiers and checks of `submitIntent`, in order. */
    method CheckSubmit(sender: Address, amount: nat, countryCode: Bytes32, txRef: Bytes32) returns (failure: Option<Error>)
      ensures match Begin(StorageView(), ContextOf(View()), sender, Submit(amount, countryCode, txRef))
              case Ok(s) => failure.None? && s == StorageView().(entered := true)
              case Err(e) => failure == Some(e)
    {
      if entered { return Some(ReentrantCall); }
      if paused { return Some(EnforcedPause); }
      if stablecoin == 0 { return Some(StablecoinNotSet); }
      if userRegistry == 0 { return Some(UserRegistryNotSet); }
      if amount < MIN_MINT_AMOUNT || amount > MAX_MINT_AMOUNT { return Some(InvalidAmount); }
      if countryCode == 0 { return Some(InvalidCountryCode); }
      if countryCode !in countryTokens || countryTokens[countryCode] == 0 { return Some(CountryTokenNotConfigured); }
      if txRef == 0 { return Some(InvalidTxRef); }
      if txRef in txRefConsumed { return Some(TxRefAlreadyConsumed); }
      var id := intentId(sender, amount, countryCode, txRef);
      if id in intents && intents[id].user != 0 { return Some(IntentAlreadyExists); }
      return None;
    }

    method SubmitIntent(sender: Address, amount: nat, countryCode: Bytes32, txRef: Bytes32)
      returns (id: Bytes32, failure: Option<Error>)
      requires Valid()
      modifies this, tokens.Values
      ensures Became(old(View()), ApplyGuarded(old(View()), sender, Submit(amount, countryCode, txRef)), failure)
      ensures failure.None? ==> id == intentId(sender, amount, countryCode, txRef)
    {
      id := intentId(sender, amount, countryCode, txRef);
      failure := CheckSubmit(sender, amount, countryCode, txRef);
      if failure.Some? { return; }
      var ok := TakeDeposit(id, Intent(sender, amount, countryCode, txRef, now, Pending));
      SubmitReaches(old(View()), View(), sender, amount, countryCode, txRef, ok);
      if !ok { return id, Some(ExternalCallFailed); }
    }

    /** `submitIntent` after its checks: the deposit is pulled first, then the intent is stored. */
    method TakeDeposit(id: Bytes32, intent: Intent) returns (ok: bool)
      requires Valid() && !entered
      modifies this`entered, this`txRefConsumed, this`intents, this`dailyMinted, this`log, tokens.Values
      ensures Served(old(TokensView()), TokensView(), self, PullDeposit(stablecoin, intent.user, intent.amount), ok)
      ensures txRefConsumed == old(txRefConsumed) + (if ok then {intent.txRef} else {})
      ensures intents == (if ok then old(intents)[id := intent] else old(intents)) && dailyMinted == old(dailyMinted)
      ensures log == old(log) + (if ok then [Deposited(id, intent.user, intent.amount)] else [])
      ensures !entered && RegistriesView() == old(RegistriesView())
    {
      ok := CallUnderGuard(PullDeposit(stablecoin, intent.user, intent.amount));
      if ok {
        Write(intents[id := intent], txRefConsumed + {intent.txRef}, dailyMinted, [Deposited(id, intent.user, intent.amount)]);
      }
    }

    /** Writes the intents, the references and the daily counters, and adds to the history. */
    method Write(newIntents: map<Bytes32, Intent>, newConsumed: set<Bytes32>, newDaily: map<nat, nat>, ghost events: seq<Event>)
      modifies this`intents, this`txRefConsumed, this`dailyMinted, this`log
      ensures intents == newIntents && txRefConsumed == newConsumed && dailyMinted == newDaily && log == old(log) + events
      ensures TokensView() == old(TokensView()) && RegistriesView() == old(RegistriesView())
    {
      intents, txRefConsumed, dailyMinted := newIntents, newConsumed, newDaily;
      log := log + events;
    }

    /** The token call of a guarded entry point, with the re-entrancy guard set while it runs. */
    method CallUnderGuard(i: Interaction) returns (ok: bool)
      requires Valid() && !entered
      modifies this`entered, tokens.Values
      ensures Served(old(TokensView()), TokensView(), self, i, ok)
      ensures !entered && RegistriesView() == old(RegistriesView())
    {
      entered := true;
      ok := CallToken(i);
      entered := false;
    }

    /** Modifiers and checks of `executeMint`, in order; finds the token to mint and what the day's counter holds. */
    method CheckExecute(sender: Address, id: Bytes32)
      returns (failure: Option<Error>, tokenAddr: Address, dayBucket: nat, minted: nat)
      ensures match Begin(StorageView(), ContextOf(View()), sender, Execute(id))
              case Ok(s) =>
                && failure.None? && Stored(StorageView(), id) && tokenAddr == TokenOf(StorageView(), intents[id].countryCode)
                && s == StorageView().(
                     intents := intents[id := intents[id].(status := Executed)],
                     dailyMinted := dailyMinted[dayBucket := minted + intents[id].amount],
                     entered := true)
              case Err(e) => failure == Some(e)
    {
      tokenAddr, dayBucket, minted := 0, now / DAY, 0;
      if entered { failure := Some(ReentrantCall); return; }
      if paused { failure := Some(EnforcedPause); return; }
      if (ExecutorRole, sender) !in roles { failure := Some(Unauthorized); return; }
      if id !in intents || intents[id].user == 0 { failure := Some(IntentNotFound); return; }
      var intent := intents[id];
      if intent.status != Pending { failure := Some(IntentAlreadyExecuted); return; }
      if userRegistry !in registries { failure := Some(ExternalCallFailed); return; }
      var compliant := registries[userRegistry].IsCompliant(intent.user);
      if !compliant { failure := Some(UserNotCompliant); return; }
      tokenAddr := if intent.countryCode in countryTokens then countryTokens[intent.countryCode] else 0;
      if tokenAddr == 0 { failure := Some(CountryTokenNotConfigured); return; }
      var available := AvailableMintingCapacity(dayBucket);
      if intent.amount > available { failure := Some(DailyLimitExceeded); return; }
      minted := if dayBucket in dailyMinted then dailyMinted[dayBucket] else 0;
      failure := None;
    }

    method ExecuteMint(sender: Address, id: Bytes32) returns (failure: Option<Error>)
      requires Valid()
      modifies this, tokens.Values
      ensures Became(old(View()), ApplyGuarded(old(View()), sender, Execute(id)), failure)
    {
      var tokenAddr, dayBucket, minted;
      failure, tokenAddr, dayBucket, minted := CheckExecute(sender, id);
      if failure.Some? { return; }
      var ok := MintIntent(id, tokenAddr, dayBucket, minted);
      ExecuteReaches(old(View()), View(), sender, id, dayBucket, minted, ok);
      if !ok { return Some(ExternalCallFailed); }
    }

    /** `executeMint` after its checks: status and counter first, then the token call; a failing call undoes them. */
    method MintIntent(id: Bytes32, tokenAddr: Address, dayBucket: nat, minted: nat) returns (ok: bool)
      requires Valid() && !entered && id in intents
      modifies this`entered, this`intents, this`txRefConsumed, this`dailyMinted, this`log, tokens.Values
      ensures var intent := old(intents)[id];
              && Served(old(TokensView()), TokensView(), self, MintTokens(tokenAddr, intent.user, intent.amount), ok)
              && intents == (if ok then old(intents)[id := intent.(status := Executed)] else old(intents))
              && dailyMinted == (if ok then old(dailyMinted)[dayBucket := minted + intent.amount] else old(dailyMinted))
              && log == old(log) + (if ok then [Minted(id, intent.user, intent.amount, tokenAddr, userRegistry, now)] else [])
      ensures !entered && txRefConsumed == old(txRefConsumed) && RegistriesView() == old(RegistriesView())
    {
      var intent, intentsBefore, dailyBefore := intents[id], intents, dailyMinted;
      Write(intents[id := intent.(status := Executed)], txRefConsumed, dailyMinted[dayBucket := minted + intent.amount], []);
      ok := CallUnderGuard(MintTokens(tokenAddr, intent.user, intent.amount));
      if ok {
        Write(intents, txRefConsumed, dailyMinted, [Minted(id, intent.user, intent.amount, tokenAddr, userRegistry, now)]);
      } else {
        Write(intentsBefore, txRefConsumed, dailyBefore, []);
      }
    }

    /** Modifiers and checks of `refundIntent`, in order: no pause check. */
    method CheckRefund(sender: Address, id: Bytes32) returns (failure: Option<Error>)
      ensures match Begin(StorageView(), ContextOf(View()), sender, Refund(id))
              case Ok(s) =>
                && failure.None? && Stored(StorageView(), id)
                && s == StorageView().(intents := intents[id := intents[id].(status := Refunded)], entered := true)
              case Err(e) => failure == Some(e)
    {
      if entered { return Some(ReentrantCall); }
      if (ExecutorRole, sender) !in roles { return Some(Unauthorized); }
      if id !in intents || intents[id].user == 0 { return Some(IntentNotFound); }
      if intents[id].status != Pending { return Some(IntentAlreadyExecuted); }
      return None;
    }

    method RefundIntent(sender: Address, id: Bytes32) returns (failure: Option<Error>)
      requires Valid()
      modifies this, tokens.Values
      ensures Became(old(View()), ApplyGuarded(old(View()), sender, Refund(id)), failure)
    {
      failure := CheckRefund(sender, id);
      if failure.Some? { return; }
      var ok := PayBack(id);
      RefundReaches(old(View()), View(), sender, id, ok);
      if !ok { return Some(ExternalCallFailed); }
    }

    /** `refundIntent` after its checks: status first, then the transfer; a failing transfer undoes it. */
    method PayBack(id: Bytes32) returns (ok: bool)
      requires Valid() && !entered && id in intents
      modifies this`entered, this`intents, this`txRefConsumed, this`dailyMinted, this`log, tokens.Values
      ensures var intent := old(intents)[id];
              && Served(old(TokensView()), TokensView(), self, PushRefund(stablecoin, intent.user, intent.amount), ok)
              && intents == (if ok then old(intents)[id := intent.(status := Refunded)] else old(intents))
              && dailyMinted == old(dailyMinted)
              && log == old(log) + (if ok then [Repaid(id, intent.user, intent.amount)] else [])
      ensures !entered && txRefConsumed == old(txRefConsumed) && RegistriesView() == old(RegistriesView())
    {
      var intent, intentsBefore := intents[id], intents;
      Write(intents[id := intent.(status := Refunded)], txRefConsumed, dailyMinted, []);
      ok := CallUnderGuard(PushRefund(stablecoin, intent.user, intent.amount));
      if ok {
        Write(intents, txRefConsumed, dailyMinted, [Repaid(id, intent.user, intent.amount)]);
      } else {
        Write(intentsBefore, txRefConsumed, dailyMinted, []);
      }
    }

    /** Capacity and counter always add up to the limit unless the counter is past it. */
    method AvailableMintingCapacity(dayBucket: nat) returns (available: nat)
      ensures available == Available(StorageView(), dayBucket)
      ensures MintedOn(StorageView(), dayBucket) <= DAILY_MINT_LIMIT ==>
                available + MintedOn(StorageView(), dayBucket) == DAILY_MINT_LIMIT
    {
      var minted := if dayBucket in dailyMinted then dailyMinted[dayBucket] else 0;
      if DAILY_MINT_LIMIT <= minted { return 0; }
      return DAILY_MINT_LIMIT - minted;
    }

    // ---- administration ----

    method SetStablecoin(sender: Address, token: Address) returns (failure: Option<Error>)
      modifies this`stablecoin
      ensures Became(old(View()), Apply(old(View()), Tx(sender, OnAdmin(Escrow.SetStablecoin(token)))), failure)
    {
      if (AdminRole, sender) !in roles { return Some(Unauthorized); }
      if token == 0 { return Some(StablecoinNotSet); }
      stablecoin := token;
      return None;
    }

    method SetUserRegistry(sender: Address, registry: Address) returns (failure: Option<Error>)
      modifies this`userRegistry
      ensures Became(old(View()), Apply(old(View()), Tx(sender, OnAdmin(Escrow.SetUserRegistry(registry)))), failure)
    {
      if (AdminRole, sender) !in roles { return Some(Unauthorized); }
      if registry == 0 { return Some(UserRegistryNotSet); }
      userRegistry := registry;
      return None;
    }

    method SetCountryToken(sender: Address, countryCode: Bytes32, token: Address) returns (failure: Option<Error>)
      modifies this`countryTokens
      ensures Became(old(View()), Apply(old(View()), Tx(sender, OnAdmin(Escrow.SetCountryToken(countryCode, token)))), failure)
    {
      if (AdminRole, sender) !in roles { return Some(Unauthorized); }
      if token == 0 { return Some(CountryTokenNotConfigured); }
      countryTokens := countryTokens[countryCode := token];
      return None;
    }

    method SetExecutor(sender: Address, executor: Address, granted: bool) returns (failure: Option<Error>)
      modifies this`roles
      ensures Became(old(View()), Apply(old(View()), Tx(sender, OnAdmin(Escrow.SetExecutor(executor, granted)))), failure)
    {
      if (AdminRole, sender) !in roles { return Some(Unauthorized); }
      if granted {
        roles := roles + {(ExecutorRole, executor)};
      } else {
        roles := roles - {(ExecutorRole, executor)};
      }
      return None;
    }

    method SetPaused(sender: Address, pause: bool) returns (failure: Option<Error>)
      modifies this`paused
      ensures Became(old(View()), Apply(old(View()), Tx(sender, OnAdmin(if pause then Pause else Unpause))), failure)
    {
      if (AdminRole, sender) !in roles { return Some(Unauthorized); }
      if paused == pause { return Some(if pause then EnforcedPause else ExpectedPause); }
      paused := pause;
      return None;
    }
  }
}
