/** The deployed contracts as objects whose storage is updated in place. */
module Contracts {
  import opened Common
  import opened Ledgers
  import Registry

  /** A token contract whose storage is updated in place. */
  class TokenContract {
    const kind: Kind
    var balances: map<Address, nat>
    var allowances: map<(Address, Address), nat>
    var totalSupply: nat
    var minters: set<Address>
    const admins: set<Address>

    constructor (kind: Kind, deployer: Address)
      ensures View() == Ledgers.Ledger(kind, map[], map[], 0, {}, {deployer})
    {
      this.kind := kind;
      balances, allowances, totalSupply, minters := map[], map[], 0, {};
      admins := {deployer};
    }

    function View(): Ledgers.Ledger
      reads this
    {
      Ledgers.Ledger(kind, balances, allowances, totalSupply, minters, admins)
    }

    /** The call did what the ledger function says, or reverted and changed nothing. */
    ghost predicate Became(before: Ledgers.Ledger, spec: LedgerResult, r: Result<(), LedgerError>)
      reads this
    {
      match spec
      case Ok(l) => r == Ok(()) && View() == l
      case Err(e) => r == Err(e) && View() == before
    }

    method Move(from: Address, to: Address, amount: nat) returns (r: Result<(), LedgerError>)
      modifies this
      ensures Became(old(View()), Ledgers.Transfer(old(View()), from, to, amount), r)
    {
      if from == 0 { return Err(InvalidSender); }
      if to == 0 { return Err(InvalidReceiver); }
      var fromBalance := if from in balances then balances[from] else 0;
      if fromBalance < amount { return Err(InsufficientBalance); }
      balances := balances[from := fromBalance - amount];
      var toBalance := if to in balances then balances[to] else 0;
      balances := balances[to := toBalance + amount];
      return Ok(());
    }

    method TransferFrom(spender: Address, from: Address, to: Address, amount: nat)
      returns (r: Result<(), LedgerError>)
      modifies this
      ensures Became(old(View()), Ledgers.TransferFrom(old(View()), spender, from, to, amount), r)
    {
      var before := allowances;
      var current := if (from, spender) in allowances then allowances[(from, spender)] else 0;
      if current < UINT256_MAX {
        if current < amount { return Err(InsufficientAllowance); }
        if from == 0 { return Err(InvalidSender); }
        if spender == 0 { return Err(InvalidSpender); }
        allowances := allowances[(from, spender) := current - amount];
      }
      r := Move(from, to, amount);
      if r.Err? {
        allowances := before;
      }
    }

    method Mint(sender: Address, to: Address, amount: nat) returns (r: Result<(), LedgerError>)
      modifies this
      ensures Became(old(View()), Ledgers.Mint(old(View()), sender, to, amount), r)
    {
      if kind.Country? && sender !in minters { return Err(Unauthorized); }
      if to == 0 { return Err(InvalidReceiver); }
      if totalSupply + amount > UINT256_MAX { return Err(SupplyOverflow); }
      totalSupply := totalSupply + amount;
      var toBalance := if to in balances then balances[to] else 0;
      balances := balances[to := toBalance + amount];
      return Ok(());
    }
  }

  /** The registry contract, updated in place. */
  class UserRegistry {
    var users: map<Address, Registry.UserData>
    var managers: set<Address>
    const admins: set<Address>

    constructor (initialAdmin: Address)
      requires initialAdmin != 0
      ensures View() == Registry.State(map[], {}, {initialAdmin})
    {
      users, managers, admins := map[], {}, {initialAdmin};
    }

    function View(): Registry.State
      reads this
    {
      Registry.State(users, managers, admins)
    }

    method UpdateUser(sender: Address, u: Registry.Update, now: nat) returns (r: Result<(), Registry.RegistryError>)
      modifies this`users
      ensures match Registry.UpdateUser(old(View()), sender, u, now)
              case Ok(s) => r == Ok(()) && View() == s
              case Err(e) => r == Err(e) && View() == old(View())
    {
      if sender !in managers { return Err(Registry.Unauthorized); }
      if u.user == 0 || u.actor == 0 {
        return Err(Registry.InvalidAccount(if u.user == 0 then u.user else u.actor));
      }
      if u.riskScore > 100 { return Err(Registry.RiskScoreOutOfRange); }
      if u.attestationHash == 0 { return Err(Registry.AttestationRequired); }
      var stamp := now % Registry.TWO_64;
      var data := if u.user in users then users[u.user] else Registry.NoUser();
      data := data.(riskScore := u.riskScore, riskUpdatedAt := stamp, exists_ := true);
      if u.attestationHash != 0 {
        data := data.(attestationHash := u.attestationHash, attestationType := u.attestationType, attestedAt := stamp);
      }
      users := users[u.user := data];
      return Ok(());
    }

    method IsCompliant(user: Address) returns (r: bool)
      ensures r <==> Registry.IsCompliant(View(), user)
    {
      var data := if user in users then users[user] else Registry.NoUser();
      if !data.exists_ { return false; }
      if data.riskScore > Registry.MAX_RISK_SCORE { return false; }
      if data.attestationHash == 0 { return false; }
      return true;
    }
  }
}
