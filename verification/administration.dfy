/** Roles, pause and settings over every run: they are what the last completed administrative call made them. */
module Administration {
  import opened Common
  import opened Escrow
  import opened Chain

  function Or<T>(o: Option<T>, default: T): T { if o.Some? then o.value else default }

  /** The value given by the last transaction of the run that completed and sets one. */
  function LastSet<T>(w: World, txs: seq<Tx>, sets: Tx -> Option<T>): Option<T> {
    if txs == [] then None
    else
      var n := |txs| - 1;
      if Apply(Run(w, txs[..n]), txs[n]).Ok? && sets(txs[n]).Some? then sets(txs[n]) else LastSet(w, txs[..n], sets)
  }

  /** Grants, revocations and renunciations of a role of an account. */
  function SetsRole(role: Role, account: Address): Tx -> Option<bool> {
    (tx: Tx) =>
      match tx.call
      case OnAdmin(SetExecutor(executor, granted)) => if role == ExecutorRole && executor == account then Some(granted) else None
      case OnAdmin(GrantRole(r, a)) => if r == role && a == account then Some(true) else None
      case OnAdmin(RevokeRole(r, a)) => if r == role && a == account then Some(false) else None
      case OnAdmin(RenounceRole(r, _)) => if r == role && tx.sender == account then Some(false) else None
      case _ => None
  }

  function SetsPause(): Tx -> Option<bool> {
    (tx: Tx) => match tx.call case OnAdmin(Pause) => Some(true) case OnAdmin(Unpause) => Some(false) case _ => None
  }

  function SetsRegistry(): Tx -> Option<Address> {
    (tx: Tx) => match tx.call case OnAdmin(SetUserRegistry(registry)) => Some(registry) case _ => None
  }

  function SetsStablecoin(): Tx -> Option<Address> {
    (tx: Tx) => match tx.call case OnAdmin(SetStablecoin(token)) => Some(token) case _ => None
  }

  function SetsCountryToken(code: Bytes32): Tx -> Option<Address> {
    (tx: Tx) =>
      match tx.call case OnAdmin(SetCountryToken(c, token)) => (if c == code then Some(token) else None) case _ => None
  }

  function CountryToken(s: Storage, code: Bytes32): Option<Address> {
    if code in s.countryTokens then Some(s.countryTokens[code]) else None
  }

  // ---- which administrative calls complete ----

  /** Each call asks for a role of the sender, and some for more. */
  predicate Permitted(s: Storage, sender: Address, a: Admin) {
    match a
    case GrantRole(_, _) => (DefaultAdminRole, sender) in s.roles
    case RevokeRole(_, _) => (DefaultAdminRole, sender) in s.roles
    case RenounceRole(_, confirmation) => confirmation == sender
    case _ => (AdminRole, sender) in s.roles
  }

  predicate Sensible(s: Storage, a: Admin) {
    match a
    case SetStablecoin(token) => token != 0
    case SetUserRegistry(registry) => registry != 0
    case SetCountryToken(_, token) => token != 0
    case Pause => !s.paused
    case Unpause => s.paused
    case _ => true
  }

  /** An administrative call completes exactly when sender and arguments are in order; the sender is looked at first. */
  lemma AdminCompletesIff(w: World, sender: Address, a: Admin)
    ensures Apply(w, Tx(sender, OnAdmin(a))).Ok? <==> Permitted(w.escrow, sender, a) && Sensible(w.escrow, a)
    ensures !Permitted(w.escrow, sender, a) ==>
              Apply(w, Tx(sender, OnAdmin(a))) == Err(if a.RenounceRole? then BadConfirmation else Unauthorized)
    ensures Permitted(w.escrow, sender, a) && !Sensible(w.escrow, a) ==>
              Apply(w, Tx(sender, OnAdmin(a))) == Err(match a
                case SetStablecoin(_) => StablecoinNotSet
                case SetUserRegistry(_) => UserRegistryNotSet
                case SetCountryToken(_, _) => CountryTokenNotConfigured
                case Pause => EnforcedPause
                case _ => ExpectedPause)
  {
  }

  // ---- one transaction ----

  predicate SameSettings(s: Storage, s': Storage) {
    && s'.roles == s.roles && s'.paused == s.paused && s'.userRegistry == s.userRegistry
    && s'.stablecoin == s.stablecoin && s'.countryTokens == s.countryTokens
  }

  lemma GuardedKeepsSettings(w: World, sender: Address, c: Guarded)
    ensures SameSettings(w.escrow, Step(w, Tx(sender, OnEscrow(c))).escrow)
  {
  }

  /** Only administrative calls touch the settings. */
  lemma OthersKeepSettings(w: World, tx: Tx)
    requires !tx.call.OnAdmin?
    ensures SameSettings(w.escrow, Step(w, tx).escrow)
  {
    if tx.call.OnEscrow? { GuardedKeepsSettings(w, tx.sender, tx.call.guarded); }
  }

  lemma AdminSets(w: World, sender: Address, a: Admin)
    ensures var tx := Tx(sender, OnAdmin(a));
            var ok, s, s' := Apply(w, tx).Ok?, w.escrow, Step(w, tx).escrow;
            && s'.paused == (if ok then Or(SetsPause()(tx), s.paused) else s.paused)
            && s'.userRegistry == (if ok then Or(SetsRegistry()(tx), s.userRegistry) else s.userRegistry)
            && s'.stablecoin == (if ok then Or(SetsStablecoin()(tx), s.stablecoin) else s.stablecoin)
  {
  }

  /** A transaction that does not complete, or sets nothing, leaves a setting alone. */
  lemma StepSets(w: World, tx: Tx)
    ensures var ok, s, s' := Apply(w, tx).Ok?, w.escrow, Step(w, tx).escrow;
            && s'.paused == (if ok then Or(SetsPause()(tx), s.paused) else s.paused)
            && s'.userRegistry == (if ok then Or(SetsRegistry()(tx), s.userRegistry) else s.userRegistry)
            && s'.stablecoin == (if ok then Or(SetsStablecoin()(tx), s.stablecoin) else s.stablecoin)
  {
    match tx.call {
      case OnAdmin(a) => AdminSets(w, tx.sender, a);
      case _ => OthersKeepSettings(w, tx);
    }
  }

  lemma AdminSetsRole(w: World, sender: Address, a: Admin, role: Role, account: Address)
    ensures var tx := Tx(sender, OnAdmin(a));
            ((role, account) in Step(w, tx).escrow.roles) ==
            (if Apply(w, tx).Ok? then Or(SetsRole(role, account)(tx), (role, account) in w.escrow.roles)
             else (role, account) in w.escrow.roles)
  {
  }

  lemma StepSetsRole(w: World, tx: Tx, role: Role, account: Address)
    ensures ((role, account) in Step(w, tx).escrow.roles) ==
            (if Apply(w, tx).Ok? then Or(SetsRole(role, account)(tx), (role, account) in w.escrow.roles)
             else (role, account) in w.escrow.roles)
  {
    match tx.call {
      case OnAdmin(a) => AdminSetsRole(w, tx.sender, a, role, account);
      case _ => OthersKeepSettings(w, tx);
    }
  }

  lemma AdminSetsToken(w: World, sender: Address, a: Admin, code: Bytes32)
    ensures var tx := Tx(sender, OnAdmin(a));
            CountryToken(Step(w, tx).escrow, code) ==
            (if Apply(w, tx).Ok? && SetsCountryToken(code)(tx).Some? then SetsCountryToken(code)(tx)
             else CountryToken(w.escrow, code))
  {
  }

  lemma StepSetsToken(w: World, tx: Tx, code: Bytes32)
    ensures CountryToken(Step(w, tx).escrow, code) ==
            (if Apply(w, tx).Ok? && SetsCountryToken(code)(tx).Some? then SetsCountryToken(code)(tx)
             else CountryToken(w.escrow, code))
  {
    match tx.call {
      case OnAdmin(a) => AdminSetsToken(w, tx.sender, a, code);
      case _ => OthersKeepSettings(w, tx);
    }
  }

  // ---- every run ----

  /** An account has a role exactly when the last completed grant, revocation or renunciation left it with it. */
  lemma {:induction false} RoleIsLastSet(w: World, txs: seq<Tx>, role: Role, account: Address)
    ensures (role, account) in Run(w, txs).escrow.roles <==>
            Or(LastSet(w, txs, SetsRole(role, account)), (role, account) in w.escrow.roles)
  {
    if txs != [] {
      RoleIsLastSet(w, txs[..|txs| - 1], role, account);
      StepSetsRole(Run(w, txs[..|txs| - 1]), txs[|txs| - 1], role, account);
    }
  }

  /** The pause flag, the registry and the stablecoin are what the last completed setter made them. */
  lemma {:induction false} SettingsAreLastSet(w: World, txs: seq<Tx>)
    ensures Run(w, txs).escrow.paused == Or(LastSet(w, txs, SetsPause()), w.escrow.paused)
    ensures Run(w, txs).escrow.userRegistry == Or(LastSet(w, txs, SetsRegistry()), w.escrow.userRegistry)
    ensures Run(w, txs).escrow.stablecoin == Or(LastSet(w, txs, SetsStablecoin()), w.escrow.stablecoin)
  {
    if txs != [] {
      SettingsAreLastSet(w, txs[..|txs| - 1]);
      StepSets(Run(w, txs[..|txs| - 1]), txs[|txs| - 1]);
    }
  }

  /** And so is the token of each country. */
  lemma {:induction false} CountryTokenIsLastSet(w: World, txs: seq<Tx>, code: Bytes32)
    ensures var last := LastSet(w, txs, SetsCountryToken(code));
            CountryToken(Run(w, txs).escrow, code) == if last.Some? then last else CountryToken(w.escrow, code)
  {
    if txs != [] {
      CountryTokenIsLastSet(w, txs[..|txs| - 1], code);
      StepSetsToken(Run(w, txs[..|txs| - 1]), txs[|txs| - 1], code);
    }
  }

  // ---- who may ----

  /** Roles change only at the hands of the holders of the administrative roles, or by giving up one's own. */
  lemma RoleChangeIsAuthorised(w: World, tx: Tx, role: Role, account: Address)
    requires ((role, account) in w.escrow.roles) != ((role, account) in Step(w, tx).escrow.roles)
    ensures || (DefaultAdminRole, tx.sender) in w.escrow.roles
            || (role == ExecutorRole && (AdminRole, tx.sender) in w.escrow.roles)
            || (account == tx.sender && (role, account) in w.escrow.roles)
  {
    StepSetsRole(w, tx, role, account);
    if tx.call.OnAdmin? { AdminCompletesIff(w, tx.sender, tx.call.admin); }
  }

  lemma SettingChangeIsAuthorised(w: World, tx: Tx)
    requires var s, s' := w.escrow, Step(w, tx).escrow;
             s'.paused != s.paused || s'.userRegistry != s.userRegistry || s'.stablecoin != s.stablecoin || s'.countryTokens != s.countryTokens
    ensures (AdminRole, tx.sender) in w.escrow.roles
  {
    StepSets(w, tx);
    match tx.call {
      case OnAdmin(a) => AdminCompletesIff(w, tx.sender, a);
      case _ => OthersKeepSettings(w, tx);
    }
  }
}
