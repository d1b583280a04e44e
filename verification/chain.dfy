/**
 * The whole chain: the escrow among honest token ledgers and compliance registries.
 *
 * A transaction either completes or reverts and then changes nothing.  The log is the history of
 * completed transactions that the accounting statements are about.
 */
module Chain {
  import opened Common
  import opened Escrow
  import Ledgers
  import Registry

  datatype Event =
    | Deposited(id: Bytes32, user: Address, amount: nat)
    | Minted(id: Bytes32, user: Address, amount: nat, token: Address, registry: Address, time: nat)
    | Repaid(id: Bytes32, user: Address, amount: nat)
    | TokenUsed(token: Address, sender: Address, op: Ledgers.TokenOp)
    | RiskUpdated(registry: Address, user: Address, score: nat)

  datatype World = World(
    self: Address,
    intentId: Hash,
    escrow: Storage,
    tokens: map<Address, Ledgers.Ledger>,
    registries: map<Address, Registry.State>,
    now: nat,
    log: seq<Event>)

  datatype Call =
    | OnEscrow(guarded: Guarded)
    | OnAdmin(admin: Admin)
    | OnToken(token: Address, op: Ledgers.TokenOp)
    | OnRegistry(registry: Address, registryOp: Registry.Op)
    | Wait(seconds: nat)

  datatype Tx = Tx(sender: Address, call: Call)

  /** The escrow starts no transaction of its own, and nobody holds the key of the zero address. */
  predicate Genuine(self: Address, tx: Tx) {
    tx.sender != 0 && tx.sender != self
  }

  function ContextOf(w: World): Context {
    Context(w.intentId,
            (r: Address, u: Address) =>
              if r in w.registries then Some(Registry.IsCompliant(w.registries[r], u)) else None,
            w.self, w.now)
  }

  /** The ledger operation behind an interaction; the escrow is the caller. */
  function LedgerOp(l: Ledgers.Ledger, self: Address, i: Interaction): Ledgers.LedgerResult {
    match i
    case PullDeposit(_, from, amount) => Ledgers.TransferFrom(l, self, from, self, amount)
    case MintTokens(_, to, amount) => Ledgers.Mint(l, self, to, amount)
    case PushRefund(_, to, amount) => Ledgers.Transfer(l, self, to, amount)
  }

  function Perform(tokens: map<Address, Ledgers.Ledger>, self: Address, i: Interaction)
    : Result<map<Address, Ledgers.Ledger>, Error>
  {
    if i.token !in tokens then Err(ExternalCallFailed)
    else match LedgerOp(tokens[i.token], self, i)
      case Err(_) => Err(ExternalCallFailed)
      case Ok(l) => Ok(tokens[i.token := l])
  }

  function EventOf(w: World, sender: Address, c: Guarded): Event
    requires Begin(w.escrow, ContextOf(w), sender, c).Ok?
  {
    match c
    case Submit(amount, countryCode, txRef) =>
      Deposited(w.intentId(sender, amount, countryCode, txRef), sender, amount)
    case Execute(id) =>
      var i := w.escrow.intents[id];
      Minted(id, i.user, i.amount, TokenOf(w.escrow, i.countryCode), w.escrow.userRegistry, w.now)
    case Refund(id) => Repaid(id, w.escrow.intents[id].user, w.escrow.intents[id].amount)
  }

  function ApplyGuarded(w: World, sender: Address, c: Guarded): Result<World, Error> {
    var ctx := ContextOf(w);
    match Begin(w.escrow, ctx, sender, c)
    case Err(e) => Err(e)
    case Ok(s) =>
      match Perform(w.tokens, w.self, Interact(w.escrow, ctx, sender, c))
      case Err(e) => Err(e)
      case Ok(tokens) =>
        Ok(w.(escrow := End(s, ctx, sender, c), tokens := tokens, log := w.log + [EventOf(w, sender, c)]))
  }

  /** What a completed call that is not to a guarded entry point adds to the log. */
  function OtherEvents(tx: Tx): seq<Event> {
    match tx.call
    case OnToken(token, op) => [TokenUsed(token, tx.sender, op)]
    case OnRegistry(registry, OpUpdate(u)) => [RiskUpdated(registry, u.user, u.riskScore)]
    case _ => []
  }

  function Apply(w: World, tx: Tx): Result<World, Error> {
    match tx.call
    case OnEscrow(c) => ApplyGuarded(w, tx.sender, c)
    case OnAdmin(a) =>
      (match Administer(w.escrow, tx.sender, a)
       case Err(e) => Err(e)
       case Ok(s) => Ok(w.(escrow := s)))
    case OnToken(token, op) =>
      if token !in w.tokens then Err(ExternalCallFailed)
      else (match Ledgers.ApplyOp(w.tokens[token], tx.sender, op)
            case Err(_) => Err(ExternalCallFailed)
            case Ok(l) => Ok(w.(tokens := w.tokens[token := l], log := w.log + [TokenUsed(token, tx.sender, op)])))
    case OnRegistry(registry, op) =>
      if registry !in w.registries then Err(ExternalCallFailed)
      else (match Registry.ApplyOp(w.registries[registry], tx.sender, op, w.now)
            case Err(_) => Err(ExternalCallFailed)
            case Ok(r) => Ok(w.(registries := w.registries[registry := r], log := w.log + OtherEvents(tx))))
    case Wait(seconds) => Ok(w.(now := w.now + seconds))
  }

  function Step(w: World, tx: Tx): World {
    match Apply(w, tx)
    case Ok(w') => w'
    case Err(_) => w
  }

  function Run(w: World, txs: seq<Tx>): World {
    if txs == [] then w else Step(Run(w, txs[..|txs| - 1]), txs[|txs| - 1])
  }

  /** Every transaction of the run completes. */
  predicate NoReverts(w: World, txs: seq<Tx>) {
    txs == [] || (NoReverts(w, txs[..|txs| - 1]) && Apply(Run(w, txs[..|txs| - 1]), txs[|txs| - 1]).Ok?)
  }

  lemma RunAppend(w: World, txs: seq<Tx>, tx: Tx)
    ensures Run(w, txs + [tx]) == Step(Run(w, txs), tx)
    ensures NoReverts(w, txs + [tx]) <==> NoReverts(w, txs) && Apply(Run(w, txs), tx).Ok?
  {
    assert (txs + [tx])[..|txs|] == txs;
  }

  /** A freshly deployed escrow, in any configuration, among honest tokens and empty registries. */
  ghost predicate Genesis(w: World) {
    && w.self != 0 && 0 !in w.tokens
    && w.escrow.intents == map[] && w.escrow.consumed == {} && w.escrow.dailyMinted == map[]
    && !w.escrow.entered
    && (forall t | t in w.tokens :: Ledgers.Honest(w.tokens[t]))
    && (forall t, a: Address | t in w.tokens :: Ledgers.Allowance(w.tokens[t], w.self, a) == 0)
    && (forall r | r in w.registries :: w.registries[r].users == map[])
    && w.log == []
  }

  predicate GenuineRun(w: World, txs: seq<Tx>) {
    forall tx | tx in txs :: Genuine(w.self, tx)
  }

  // ---- what a completed transaction did, kind by kind ----

  /** Everything a guarded call leaves alone. */
  ghost predicate SameSurroundings(w: World, w': World) {
    && w'.self == w.self && w'.intentId == w.intentId && w'.registries == w.registries && w'.now == w.now
    && w'.escrow.stablecoin == w.escrow.stablecoin && w'.escrow.userRegistry == w.escrow.userRegistry
    && w'.escrow.roles == w.escrow.roles && w'.escrow.entered == w.escrow.entered
  }

  /** The token call of a guarded entry point went through on an existing ledger. */
  ghost predicate Performed(w: World, w': World, i: Interaction) {
    && i.token in w.tokens
    && LedgerOp(w.tokens[i.token], w.self, i).Ok?
    && w'.tokens == w.tokens[i.token := LedgerOp(w.tokens[i.token], w.self, i).value]
  }

  ghost predicate WroteSubmit(w: World, w': World, sender: Address, amount: nat, countryCode: Bytes32, txRef: Bytes32) {
    var id := w.intentId(sender, amount, countryCode, txRef);
    && SameSurroundings(w, w')
    && MIN_MINT_AMOUNT <= amount <= MAX_MINT_AMOUNT
    && w.escrow.stablecoin != 0
    && txRef !in w.escrow.consumed && !Stored(w.escrow, id)
    && w'.escrow.intents == w.escrow.intents[id := Intent(sender, amount, countryCode, txRef, w.now, Pending)]
    && w'.escrow.consumed == w.escrow.consumed + {txRef}
    && w'.escrow.dailyMinted == w.escrow.dailyMinted
    && w'.log == w.log + [Deposited(id, sender, amount)]
  }

  /** The intent is Pending and this is how it looks once settled. */
  ghost predicate Settled(w: World, w': World, id: Bytes32, status: Status) {
    && Stored(w.escrow, id)
    && w.escrow.intents[id].status == Pending
    && w'.escrow.intents == w.escrow.intents[id := w.escrow.intents[id].(status := status)]
    && w'.escrow.consumed == w.escrow.consumed
  }

  ghost predicate WroteExecute(w: World, w': World, id: Bytes32) {
    && SameSurroundings(w, w')
    && Settled(w, w', id, Executed)
    && var i := w.escrow.intents[id];
    && var day := w.now / DAY;
    && i.amount <= Available(w.escrow, day)
    && w.escrow.userRegistry in w.registries
    && Registry.IsCompliant(w.registries[w.escrow.userRegistry], i.user)
    && w'.escrow.dailyMinted == w.escrow.dailyMinted[day := MintedOn(w.escrow, day) + i.amount]
    && w'.log == w.log + [Minted(id, i.user, i.amount, TokenOf(w.escrow, i.countryCode), w.escrow.userRegistry, w.now)]
  }

  ghost predicate WroteRefund(w: World, w': World, id: Bytes32) {
    && SameSurroundings(w, w')
    && Settled(w, w', id, Refunded)
    && w'.escrow.dailyMinted == w.escrow.dailyMinted
    && w'.log == w.log + [Repaid(id, w.escrow.intents[id].user, w.escrow.intents[id].amount)]
  }

  /** Calls that are not to the guarded entry points leave the intents alone. */
  ghost predicate DidOther(w: World, w': World, tx: Tx) {
    && w'.self == w.self && w'.intentId == w.intentId
    && SameIntents(w.escrow, w'.escrow)
    && w'.log == w.log + OtherEvents(tx)
  }

  /** What a completed transaction wrote to the escrow and to the log, whatever the token did. */
  ghost predicate Wrote(w: World, w': World, tx: Tx) {
    match tx.call
    case OnEscrow(Submit(amount, countryCode, txRef)) => WroteSubmit(w, w', tx.sender, amount, countryCode, txRef)
    case OnEscrow(Execute(id)) => WroteExecute(w, w', id)
    case OnEscrow(Refund(id)) => WroteRefund(w, w', id)
    case _ => DidOther(w, w', tx)
  }

  ghost predicate DidSubmit(w: World, w': World, sender: Address, amount: nat, countryCode: Bytes32, txRef: Bytes32) {
    && WroteSubmit(w, w', sender, amount, countryCode, txRef)
    && Performed(w, w', PullDeposit(w.escrow.stablecoin, sender, amount))
  }

  ghost predicate DidExecute(w: World, w': World, id: Bytes32) {
    && WroteExecute(w, w', id)
    && var i := w.escrow.intents[id];
    && Performed(w, w', MintTokens(TokenOf(w.escrow, i.countryCode), i.user, i.amount))
  }

  ghost predicate DidRefund(w: World, w': World, id: Bytes32) {
    && WroteRefund(w, w', id)
    && var i := w.escrow.intents[id];
    && Performed(w, w', PushRefund(w.escrow.stablecoin, i.user, i.amount))
  }

  /** The same with an honest ledger, which did what it was asked to. */
  ghost predicate Did(w: World, w': World, tx: Tx) {
    match tx.call
    case OnEscrow(Submit(amount, countryCode, txRef)) => DidSubmit(w, w', tx.sender, amount, countryCode, txRef)
    case OnEscrow(Execute(id)) => DidExecute(w, w', id)
    case OnEscrow(Refund(id)) => DidRefund(w, w', id)
    case _ => DidOther(w, w', tx)
  }

  /** A transaction either reverted without a trace or did what its kind does. */
  lemma StepCases(w: World, tx: Tx)
    requires !w.escrow.entered
    ensures Step(w, tx) == w || Did(w, Step(w, tx), tx)
  {
    match tx.call {
      case OnEscrow(c) => GuardedCases(w, tx.sender, c);
      case OnAdmin(a) =>
        if Administer(w.escrow, tx.sender, a).Ok? { AdminKeepsIntents(w.escrow, tx.sender, a); }
        assert w.log + [] == w.log;
      case _ => assert w.log + [] == w.log;
    }
  }

  lemma GuardedCases(w: World, sender: Address, c: Guarded)
    requires !w.escrow.entered
    ensures var tx := Tx(sender, OnEscrow(c)); Step(w, tx) == w || Did(w, Step(w, tx), tx)
  {
    match c {
      case Submit(_, _, _) =>
      case Execute(_) =>
      case Refund(_) =>
    }
  }

  /** What calls other than the guarded ones do to the ledgers, the registries and the stablecoin setting. */
  ghost predicate OtherEffects(w: World, w': World, tx: Tx) {
    && (if tx.call.OnToken? then
          var token, op := tx.call.token, tx.call.op;
          && token in w.tokens && Ledgers.ApplyOp(w.tokens[token], tx.sender, op).Ok?
          && w'.tokens == w.tokens[token := Ledgers.ApplyOp(w.tokens[token], tx.sender, op).value]
        else w'.tokens == w.tokens)
    && (if tx.call.OnRegistry? then
          var r, op := tx.call.registry, tx.call.registryOp;
          && r in w.registries && Registry.ApplyOp(w.registries[r], tx.sender, op, w.now).Ok?
          && w'.registries == w.registries[r := Registry.ApplyOp(w.registries[r], tx.sender, op, w.now).value]
        else w'.registries == w.registries)
    && (if tx.call.OnAdmin? && tx.call.admin.SetStablecoin? then w'.escrow.stablecoin == tx.call.admin.stablecoin != 0
        else w'.escrow.stablecoin == w.escrow.stablecoin)
  }

  lemma OtherCases(w: World, tx: Tx)
    requires !tx.call.OnEscrow?
    ensures Step(w, tx) == w || OtherEffects(w, Step(w, tx), tx)
  {
    match tx.call {
      case OnAdmin(a) =>
      case OnToken(_, _) =>
      case OnRegistry(_, _) =>
      case Wait(_) =>
    }
  }

  function SubmitTx(sender: Address, amount: nat, countryCode: Bytes32, txRef: Bytes32): Tx {
    Tx(sender, OnEscrow(Submit(amount, countryCode, txRef)))
  }

  function RefundTx(sender: Address, id: Bytes32): Tx { Tx(sender, OnEscrow(Refund(id))) }

  /** Only executors settle intents, and nothing is deposited or minted while the escrow is paused. */
  lemma SettlingIsAuthorised(w: World, tx: Tx)
    requires tx.call.OnEscrow? && Step(w, tx) != w
    ensures !tx.call.guarded.Submit? ==> (ExecutorRole, tx.sender) in w.escrow.roles
    ensures !tx.call.guarded.Refund? ==> !w.escrow.paused
    ensures !w.escrow.entered
  {
  }
}
