/** The EIP-20 ledgers the escrow moves deposits through and mints into. */
module Ledgers {
  import opened Common
  import opened Sums

  /** USDStablecoin lets anyone mint; CountryToken restricts minting and can be burned. */
  datatype Kind = Stable | Country

  datatype Ledger = Ledger(
    kind: Kind,
    balances: map<Address, nat>,
    allowances: map<(Address, Address), nat>,
    totalSupply: nat,
    minters: set<Address>,
    admins: set<Address>)

  datatype LedgerError =
    | InvalidSender | InvalidReceiver | InvalidSpender
    | InsufficientBalance | InsufficientAllowance
    | Unauthorized | SupplyOverflow | NoSuchFunction

  type LedgerResult = Result<Ledger, LedgerError>

  function Balance(l: Ledger, a: Address): nat {
    if a in l.balances then l.balances[a] else 0
  }

  function Allowance(l: Ledger, owner: Address, spender: Address): nat {
    if (owner, spender) in l.allowances then l.allowances[(owner, spender)] else 0
  }

  function Credit(l: Ledger, to: Address, amount: nat): Ledger {
    l.(balances := l.balances[to := Balance(l, to) + amount])
  }

  function Debit(l: Ledger, from: Address, amount: nat): Ledger
    requires amount <= Balance(l, from)
  {
    l.(balances := l.balances[from := Balance(l, from) - amount])
  }

  function Transfer(l: Ledger, from: Address, to: Address, amount: nat): LedgerResult {
    if from == 0 then Err(InvalidSender)
    else if to == 0 then Err(InvalidReceiver)
    else if Balance(l, from) < amount then Err(InsufficientBalance)
    else Ok(Credit(Debit(l, from, amount), to, amount))
  }

  function Approve(l: Ledger, owner: Address, spender: Address, amount: nat): LedgerResult {
    if owner == 0 then Err(InvalidSender)
    else if spender == 0 then Err(InvalidSpender)
    else Ok(l.(allowances := l.allowances[(owner, spender) := amount]))
  }

  /** The largest allowance stands for "unlimited" and is not used up. */
  function SpendAllowance(l: Ledger, owner: Address, spender: Address, amount: nat): LedgerResult {
    var current := Allowance(l, owner, spender);
    if current >= UINT256_MAX then Ok(l)
    else if current < amount then Err(InsufficientAllowance)
    else Approve(l, owner, spender, current - amount)
  }

  function TransferFrom(l: Ledger, spender: Address, from: Address, to: Address, amount: nat): LedgerResult {
    match SpendAllowance(l, from, spender, amount)
    case Err(e) => Err(e)
    case Ok(l') => Transfer(l', from, to, amount)
  }

  function Mint(l: Ledger, sender: Address, to: Address, amount: nat): LedgerResult {
    if l.kind.Country? && sender !in l.minters then Err(Unauthorized)
    else if to == 0 then Err(InvalidReceiver)
    else if l.totalSupply + amount > UINT256_MAX then Err(SupplyOverflow)
    else Ok(Credit(l.(totalSupply := l.totalSupply + amount), to, amount))
  }

  function Burn(l: Ledger, from: Address, amount: nat): LedgerResult {
    if l.kind.Stable? then Err(NoSuchFunction)
    else if from == 0 then Err(InvalidSender)
    else if Balance(l, from) < amount || l.totalSupply < amount then Err(InsufficientBalance)
    else Ok(Debit(l, from, amount).(totalSupply := l.totalSupply - amount))
  }

  function BurnFrom(l: Ledger, spender: Address, from: Address, amount: nat): LedgerResult {
    match SpendAllowance(l, from, spender, amount)
    case Err(e) => Err(e)
    case Ok(l') => Burn(l', from, amount)
  }

  function SetMinter(l: Ledger, sender: Address, who: Address, granted: bool): LedgerResult {
    if l.kind.Stable? then Err(NoSuchFunction)
    else if sender !in l.admins then Err(Unauthorized)
    else Ok(l.(minters := if granted then l.minters + {who} else l.minters - {who}))
  }

  /** Everything an account may ask of a token. */
  datatype TokenOp =
    | OpTransfer(to: Address, amount: nat)
    | OpApprove(spender: Address, amount: nat)
    | OpTransferFrom(from: Address, to: Address, amount: nat)
    | OpMint(to: Address, amount: nat)
    | OpBurn(amount: nat)
    | OpBurnFrom(from: Address, amount: nat)
    | OpSetMinter(who: Address, granted: bool)

  function ApplyOp(l: Ledger, sender: Address, op: TokenOp): LedgerResult {
    match op
    case OpTransfer(to, amount) => Transfer(l, sender, to, amount)
    case OpApprove(spender, amount) => Approve(l, sender, spender, amount)
    case OpTransferFrom(from, to, amount) => TransferFrom(l, sender, from, to, amount)
    case OpMint(to, amount) => Mint(l, sender, to, amount)
    case OpBurn(amount) => Burn(l, sender, amount)
    case OpBurnFrom(from, amount) => BurnFrom(l, sender, from, amount)
    case OpSetMinter(who, granted) => SetMinter(l, sender, who, granted)
  }

  function Itself(): nat -> nat { x => x }

  /** Balances add up to the total supply, which fits a `uint256`: no balance can overflow. */
  ghost predicate Honest(l: Ledger) {
    Total(l.balances, Itself()) == l.totalSupply <= UINT256_MAX
  }

  lemma CreditTotal(l: Ledger, to: Address, amount: nat)
    ensures Total(Credit(l, to, amount).balances, Itself()) == Total(l.balances, Itself()) + amount
  {
    if to in l.balances {
      TotalReplace<Address, nat>(l.balances, to, Balance(l, to) + amount, Itself());
    } else {
      TotalAdd<Address, nat>(l.balances, to, amount, Itself());
    }
  }

  lemma DebitTotal(l: Ledger, from: Address, amount: nat)
    requires amount <= Balance(l, from)
    ensures Total(Debit(l, from, amount).balances, Itself()) == Total(l.balances, Itself()) - amount
  {
    if from in l.balances {
      TotalReplace<Address, nat>(l.balances, from, Balance(l, from) - amount, Itself());
    } else {
      TotalAdd<Address, nat>(l.balances, from, 0, Itself());
    }
  }

  lemma TransferHonest(l: Ledger, from: Address, to: Address, amount: nat)
    requires Honest(l) && Transfer(l, from, to, amount).Ok?
    ensures Honest(Transfer(l, from, to, amount).value)
  {
    DebitTotal(l, from, amount);
    CreditTotal(Debit(l, from, amount), to, amount);
  }

  /** No operation breaks the supply equation, and every balance stays within a word. */
  lemma ApplyOpHonest(l: Ledger, sender: Address, op: TokenOp)
    requires Honest(l) && ApplyOp(l, sender, op).Ok?
    ensures Honest(ApplyOp(l, sender, op).value)
    ensures forall a: Address :: Balance(ApplyOp(l, sender, op).value, a) <= UINT256_MAX
  {
    var l' := ApplyOp(l, sender, op).value;
    match op {
      case OpTransfer(to, amount) => TransferHonest(l, sender, to, amount);
      case OpTransferFrom(from, to, amount) =>
        TransferHonest(SpendAllowance(l, from, sender, amount).value, from, to, amount);
      case OpMint(to, amount) => CreditTotal(l.(totalSupply := l.totalSupply + amount), to, amount);
      case OpBurn(amount) => DebitTotal(l, sender, amount);
      case OpBurnFrom(from, amount) => DebitTotal(SpendAllowance(l, from, sender, amount).value, from, amount);
      case _ =>
    }
    forall a: Address ensures Balance(l', a) <= UINT256_MAX {
      BalanceWithinSupply(l', a);
    }
  }

  lemma BalanceWithinSupply(l: Ledger, a: Address)
    requires Honest(l)
    ensures Balance(l, a) <= l.totalSupply
  {
    if a in l.balances {
      TotalRemove<Address, nat>(l.balances, a, Itself());
    }
  }
}
