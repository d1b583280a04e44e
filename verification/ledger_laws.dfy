/** When each ledger operation completes, and exactly what it then changes. */
module LedgerLaws {
  import opened Common
  import opened Ledgers

  /** l' is l with these amounts taken from and given to single accounts. */
  ghost predicate Shifted(l: Ledger, l': Ledger, from: Option<Address>, to: Option<Address>, amount: nat) {
    forall a: Address ::
      Balance(l', a) == Balance(l, a) - (if from == Some(a) then amount else 0) + (if to == Some(a) then amount else 0)
  }

  /** An allowance of 2^256 - 1 or more is unlimited and stays as it is; any other is lowered by what is spent. */
  ghost predicate Spent(l: Ledger, l': Ledger, owner: Address, spender: Address, amount: nat) {
    forall o: Address, s: Address ::
      Allowance(l', o, s) == Allowance(l, o, s) -
        (if o == owner && s == spender && Allowance(l, o, s) < UINT256_MAX then amount else 0)
  }

  predicate SameRules(l: Ledger, l': Ledger) { l'.kind == l.kind && l'.minters == l.minters && l'.admins == l.admins }

  predicate MaySpend(l: Ledger, owner: Address, spender: Address, amount: nat) {
    Allowance(l, owner, spender) >= UINT256_MAX || (amount <= Allowance(l, owner, spender) && owner != 0 && spender != 0)
  }

  lemma TransferExact(l: Ledger, from: Address, to: Address, amount: nat)
    ensures Transfer(l, from, to, amount).Ok? <==> from != 0 && to != 0 && amount <= Balance(l, from)
    ensures Transfer(l, from, to, amount).Ok? ==>
              var l' := Transfer(l, from, to, amount).value;
              && Shifted(l, l', Some(from), Some(to), amount)
              && l'.allowances == l.allowances && l'.totalSupply == l.totalSupply && SameRules(l, l')
  {
  }

  lemma SpendExact(l: Ledger, owner: Address, spender: Address, amount: nat)
    ensures SpendAllowance(l, owner, spender, amount).Ok? <==> MaySpend(l, owner, spender, amount)
    ensures SpendAllowance(l, owner, spender, amount).Ok? ==>
              var l' := SpendAllowance(l, owner, spender, amount).value;
              Spent(l, l', owner, spender, amount) && l'.(allowances := l.allowances) == l
  {
  }

  /** A completed `transferFrom` moves the amount and lowers a finite allowance by exactly that. */
  lemma TransferFromExact(l: Ledger, spender: Address, from: Address, to: Address, amount: nat)
    ensures TransferFrom(l, spender, from, to, amount).Ok? <==>
              from != 0 && to != 0 && amount <= Balance(l, from) && MaySpend(l, from, spender, amount)
    ensures TransferFrom(l, spender, from, to, amount).Ok? ==>
              var l' := TransferFrom(l, spender, from, to, amount).value;
              && Shifted(l, l', Some(from), Some(to), amount) && Spent(l, l', from, spender, amount)
              && l'.totalSupply == l.totalSupply && SameRules(l, l')
  {
    SpendExact(l, from, spender, amount);
    if SpendAllowance(l, from, spender, amount).Ok? {
      var m := SpendAllowance(l, from, spender, amount).value;
      assert forall a: Address :: Balance(m, a) == Balance(l, a);
      TransferExact(m, from, to, amount);
    }
  }

  lemma ApproveExact(l: Ledger, owner: Address, spender: Address, amount: nat)
    ensures Approve(l, owner, spender, amount).Ok? <==> owner != 0 && spender != 0
    ensures Approve(l, owner, spender, amount).Ok? ==>
              var l' := Approve(l, owner, spender, amount).value;
              && l'.(allowances := l.allowances) == l
              && forall o: Address, s: Address ::
                   Allowance(l', o, s) == if o == owner && s == spender then amount else Allowance(l, o, s)
  {
  }

  /** Anybody mints the stablecoin; only minters mint a country token. */
  lemma MintExact(l: Ledger, sender: Address, to: Address, amount: nat)
    ensures Mint(l, sender, to, amount).Ok? <==>
              (l.kind.Stable? || sender in l.minters) && to != 0 && l.totalSupply + amount <= UINT256_MAX
    ensures Mint(l, sender, to, amount).Ok? ==>
              var l' := Mint(l, sender, to, amount).value;
              && Shifted(l, l', None, Some(to), amount) && l'.totalSupply == l.totalSupply + amount
              && l'.allowances == l.allowances && SameRules(l, l')
  {
  }

  lemma BurnExact(l: Ledger, from: Address, amount: nat)
    ensures Burn(l, from, amount).Ok? <==>
              l.kind.Country? && from != 0 && amount <= Balance(l, from) && amount <= l.totalSupply
    ensures Burn(l, from, amount).Ok? ==>
              var l' := Burn(l, from, amount).value;
              && Shifted(l, l', Some(from), None, amount) && l'.totalSupply == l.totalSupply - amount
              && l'.allowances == l.allowances && SameRules(l, l')
  {
  }

  lemma BurnFromExact(l: Ledger, spender: Address, from: Address, amount: nat)
    ensures BurnFrom(l, spender, from, amount).Ok? <==>
              l.kind.Country? && from != 0 && amount <= Balance(l, from) && amount <= l.totalSupply && MaySpend(l, from, spender, amount)
    ensures BurnFrom(l, spender, from, amount).Ok? ==>
              var l' := BurnFrom(l, spender, from, amount).value;
              && Shifted(l, l', Some(from), None, amount) && Spent(l, l', from, spender, amount)
              && l'.totalSupply == l.totalSupply - amount && SameRules(l, l')
  {
    SpendExact(l, from, spender, amount);
    if SpendAllowance(l, from, spender, amount).Ok? {
      var m := SpendAllowance(l, from, spender, amount).value;
      assert forall a: Address :: Balance(m, a) == Balance(l, a);
      BurnExact(m, from, amount);
    }
  }

  lemma SetMinterExact(l: Ledger, sender: Address, who: Address, granted: bool)
    ensures SetMinter(l, sender, who, granted).Ok? <==> l.kind.Country? && sender in l.admins
    ensures SetMinter(l, sender, who, granted).Ok? ==>
              var l' := SetMinter(l, sender, who, granted).value;
              && l'.(minters := l.minters) == l
              && forall a: Address :: a in l'.minters <==> if a == who then granted else a in l.minters
  {
  }

  /** Which of these an account's request is. */
  lemma OpExact(l: Ledger, sender: Address, op: TokenOp)
    ensures ApplyOp(l, sender, op).Ok? <==>
      match op
      case OpTransfer(to, amount) => sender != 0 && to != 0 && amount <= Balance(l, sender)
      case OpApprove(spender, amount) => sender != 0 && spender != 0
      case OpTransferFrom(from, to, amount) =>
        from != 0 && to != 0 && amount <= Balance(l, from) && MaySpend(l, from, sender, amount)
      case OpMint(to, amount) => (l.kind.Stable? || sender in l.minters) && to != 0 && l.totalSupply + amount <= UINT256_MAX
      case OpBurn(amount) => l.kind.Country? && sender != 0 && amount <= Balance(l, sender) && amount <= l.totalSupply
      case OpBurnFrom(from, amount) =>
        l.kind.Country? && from != 0 && amount <= Balance(l, from) && amount <= l.totalSupply && MaySpend(l, from, sender, amount)
      case OpSetMinter(who, granted) => l.kind.Country? && sender in l.admins
    ensures ApplyOp(l, sender, op).Ok? ==>
      var l' := ApplyOp(l, sender, op).value;
      match op
      case OpTransfer(to, amount) => Shifted(l, l', Some(sender), Some(to), amount) && l'.allowances == l.allowances
      case OpApprove(spender, amount) => l'.balances == l.balances && Allowance(l', sender, spender) == amount
      case OpTransferFrom(from, to, amount) => Shifted(l, l', Some(from), Some(to), amount) && Spent(l, l', from, sender, amount)
      case OpMint(to, amount) => Shifted(l, l', None, Some(to), amount) && l'.allowances == l.allowances
      case OpBurn(amount) => Shifted(l, l', Some(sender), None, amount) && l'.allowances == l.allowances
      case OpBurnFrom(from, amount) => Shifted(l, l', Some(from), None, amount) && Spent(l, l', from, sender, amount)
      case OpSetMinter(who, granted) => l'.(minters := l.minters) == l && (who in l'.minters <==> granted)
  {
    match op {
      case OpTransfer(to, amount) => TransferExact(l, sender, to, amount);
      case OpApprove(spender, amount) => ApproveExact(l, sender, spender, amount);
      case OpTransferFrom(from, to, amount) => TransferFromExact(l, sender, from, to, amount);
      case OpMint(to, amount) => MintExact(l, sender, to, amount);
      case OpBurn(amount) => BurnExact(l, sender, amount);
      case OpBurnFrom(from, amount) => BurnFromExact(l, sender, from, amount);
      case OpSetMinter(who, granted) => SetMinterExact(l, sender, who, granted);
    }
  }
}
