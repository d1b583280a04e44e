/**
 * MintEscrow's storage and entry points.
 *
 * The three guarded entry points are written in two phases around the one external token call
 * each of them makes: Begin runs the modifiers, the checks and the writes that precede the call,
 * End the writes that follow it.  A run with well-behaved tokens puts a ledger operation between
 * the phases; a run with hostile tokens puts arbitrary nested calls there.
 */
module Escrow {
  import opened Common

  const MIN_MINT_AMOUNT: nat := 1_000_000_000_000_000_000
  const MAX_MINT_AMOUNT: nat := 1_000 * MIN_MINT_AMOUNT
  const DAILY_MINT_LIMIT: nat := 10_000 * MIN_MINT_AMOUNT
  const DAY: nat := 86_400

  datatype Status = Pending | Executed | Refunded | Failed

  datatype Intent = Intent(
    user: Address, amount: nat, countryCode: Bytes32, txRef: Bytes32, timestamp: nat, status: Status)

  datatype Role = DefaultAdminRole | AdminRole | ExecutorRole

  datatype Storage = Storage(
    stablecoin: Address,
    userRegistry: Address,
    intents: map<Bytes32, Intent>,
    consumed: set<Bytes32>,
    countryTokens: map<Bytes32, Address>,
    dailyMinted: map<nat, nat>,
    roles: set<(Role, Address)>,
    paused: bool,
    entered: bool)

  datatype Error =
    | ReentrantCall | EnforcedPause | ExpectedPause | Unauthorized | BadConfirmation
    | StablecoinNotSet | UserRegistryNotSet | InvalidAmount | InvalidCountryCode
    | CountryTokenNotConfigured | InvalidTxRef | TxRefAlreadyConsumed | IntentAlreadyExists
    | IntentNotFound | IntentAlreadyExecuted | UserNotCompliant | DailyLimitExceeded
    | ExternalCallFailed

  /** How an intent id is computed from sender, amount, country code and reference. */
  type Hash = (Address, nat, Bytes32, Bytes32) -> Bytes32

  /** What a call can see of its surroundings; `oracle` is None when the registry call itself reverts. */
  datatype Context = Context(
    intentId: Hash,
    oracle: (Address, Address) -> Option<bool>,
    self: Address,
    now: nat)

  function TokenOf(s: Storage, countryCode: Bytes32): Address {
    if countryCode in s.countryTokens then s.countryTokens[countryCode] else 0
  }

  function MintedOn(s: Storage, day: nat): nat {
    if day in s.dailyMinted then s.dailyMinted[day] else 0
  }

  function Available(s: Storage, day: nat): nat {
    if DAILY_MINT_LIMIT <= MintedOn(s, day) then 0 else DAILY_MINT_LIMIT - MintedOn(s, day)
  }

  predicate Stored(s: Storage, id: Bytes32) {
    id in s.intents && s.intents[id].user != 0
  }

  // ---- guarded entry points ----

  datatype Guarded =
    | Submit(amount: nat, countryCode: Bytes32, txRef: Bytes32)
    | Execute(id: Bytes32)
    | Refund(refundId: Bytes32)

  /** The token call made between the two phases. */
  datatype Interaction =
    | PullDeposit(token: Address, from: Address, amount: nat)
    | MintTokens(token: Address, to: Address, amount: nat)
    | PushRefund(token: Address, to: Address, amount: nat)

  function Begin(s: Storage, ctx: Context, sender: Address, c: Guarded): Result<Storage, Error> {
    if s.entered then Err(ReentrantCall)
    else match c
      case Submit(amount, countryCode, txRef) => BeginSubmit(s, ctx, sender, amount, countryCode, txRef)
      case Execute(id) => BeginExecute(s, ctx, sender, id)
      case Refund(id) => BeginRefund(s, sender, id)
  }

  function BeginSubmit(s: Storage, ctx: Context, sender: Address, amount: nat, countryCode: Bytes32, txRef: Bytes32)
    : Result<Storage, Error>
  {
    if s.paused then Err(EnforcedPause)
    else if s.stablecoin == 0 then Err(StablecoinNotSet)
    else if s.userRegistry == 0 then Err(UserRegistryNotSet)
    else if amount < MIN_MINT_AMOUNT || amount > MAX_MINT_AMOUNT then Err(InvalidAmount)
    else if countryCode == 0 then Err(InvalidCountryCode)
    else if TokenOf(s, countryCode) == 0 then Err(CountryTokenNotConfigured)
    else if txRef == 0 then Err(InvalidTxRef)
    else if txRef in s.consumed then Err(TxRefAlreadyConsumed)
    else if Stored(s, ctx.intentId(sender, amount, countryCode, txRef)) then Err(IntentAlreadyExists)
    else Ok(s.(entered := true))
  }

  function BeginExecute(s: Storage, ctx: Context, sender: Address, id: Bytes32): Result<Storage, Error> {
    if s.paused then Err(EnforcedPause)
    else if (ExecutorRole, sender) !in s.roles then Err(Unauthorized)
    else if !Stored(s, id) then Err(IntentNotFound)
    else
      var i := s.intents[id];
      if i.status != Pending then Err(IntentAlreadyExecuted)
      else if ctx.oracle(s.userRegistry, i.user).None? then Err(ExternalCallFailed)
      else if !ctx.oracle(s.userRegistry, i.user).value then Err(UserNotCompliant)
      else if TokenOf(s, i.countryCode) == 0 then Err(CountryTokenNotConfigured)
      else if i.amount > Available(s, ctx.now / DAY) then Err(DailyLimitExceeded)
      else Ok(s.(
        intents := s.intents[id := i.(status := Executed)],
        dailyMinted := s.dailyMinted[ctx.now / DAY := MintedOn(s, ctx.now / DAY) + i.amount],
        entered := true))
  }

  function BeginRefund(s: Storage, sender: Address, id: Bytes32): Result<Storage, Error> {
    if (ExecutorRole, sender) !in s.roles then Err(Unauthorized)
    else if !Stored(s, id) then Err(IntentNotFound)
    else
      var i := s.intents[id];
      if i.status != Pending then Err(IntentAlreadyExecuted)
      else Ok(s.(intents := s.intents[id := i.(status := Refunded)], entered := true))
  }

  function Interact(s: Storage, ctx: Context, sender: Address, c: Guarded): Interaction
    requires Begin(s, ctx, sender, c).Ok?
  {
    match c
    case Submit(amount, _, _) => PullDeposit(s.stablecoin, sender, amount)
    case Execute(id) => MintTokens(TokenOf(s, s.intents[id].countryCode), s.intents[id].user, s.intents[id].amount)
    case Refund(id) => PushRefund(s.stablecoin, s.intents[id].user, s.intents[id].amount)
  }

  function End(s: Storage, ctx: Context, sender: Address, c: Guarded): Storage {
    match c
    case Submit(amount, countryCode, txRef) =>
      s.(consumed := s.consumed + {txRef},
         intents := s.intents[ctx.intentId(sender, amount, countryCode, txRef) :=
           Intent(sender, amount, countryCode, txRef, ctx.now, Pending)],
         entered := false)
    case _ => s.(entered := false)
  }

  // ---- administration: no external call, no guard ----

  datatype Admin =
    | SetStablecoin(stablecoin: Address)
    | SetUserRegistry(registry: Address)
    | SetCountryToken(countryCode: Bytes32, token: Address)
    | SetExecutor(executor: Address, granted: bool)
    | Pause
    | Unpause
    | GrantRole(role: Role, account: Address)
    | RevokeRole(role: Role, account: Address)
    | RenounceRole(role: Role, confirmation: Address)

  function Administer(s: Storage, sender: Address, a: Admin): Result<Storage, Error> {
    match a
    case GrantRole(role, account) =>
      if (DefaultAdminRole, sender) !in s.roles then Err(Unauthorized)
      else Ok(s.(roles := s.roles + {(role, account)}))
    case RevokeRole(role, account) =>
      if (DefaultAdminRole, sender) !in s.roles then Err(Unauthorized)
      else Ok(s.(roles := s.roles - {(role, account)}))
    case RenounceRole(role, confirmation) =>
      if confirmation != sender then Err(BadConfirmation)
      else Ok(s.(roles := s.roles - {(role, sender)}))
    case _ =>
      if (AdminRole, sender) !in s.roles then Err(Unauthorized)
      else match a
        case SetStablecoin(token) =>
          if token == 0 then Err(StablecoinNotSet) else Ok(s.(stablecoin := token))
        case SetUserRegistry(registry) =>
          if registry == 0 then Err(UserRegistryNotSet) else Ok(s.(userRegistry := registry))
        case SetCountryToken(countryCode, token) =>
          if token == 0 then Err(CountryTokenNotConfigured)
          else Ok(s.(countryTokens := s.countryTokens[countryCode := token]))
        case SetExecutor(executor, granted) =>
          Ok(s.(roles := if granted then s.roles + {(ExecutorRole, executor)} else s.roles - {(ExecutorRole, executor)}))
        case Pause => if s.paused then Err(EnforcedPause) else Ok(s.(paused := true))
        case _ => if !s.paused then Err(ExpectedPause) else Ok(s.(paused := false))
  }

  /** The part of the storage that only the guarded entry points write. */
  predicate SameIntents(s: Storage, t: Storage) {
    && s.intents == t.intents && s.consumed == t.consumed && s.dailyMinted == t.dailyMinted && s.entered == t.entered
  }

  lemma AdminKeepsIntents(s: Storage, sender: Address, a: Admin)
    requires Administer(s, sender, a).Ok?
    ensures SameIntents(s, Administer(s, sender, a).value)
  {
  }
}
