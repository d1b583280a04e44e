/** UserRegistry: the compliance oracle every mint consults. */
module Registry {
  import opened Common

  const MAX_RISK_SCORE: nat := 91
  const TWO_64: nat := 0x1_0000000000000000

  datatype UserData = UserData(
    riskScore: nat,
    attestationHash: Bytes32,
    attestationType: Bytes32,
    riskUpdatedAt: nat,
    attestedAt: nat,
    exists_: bool)

  function NoUser(): UserData { UserData(0, 0, 0, 0, 0, false) }

  datatype State = State(users: map<Address, UserData>, managers: set<Address>, admins: set<Address>)

  datatype Update = Update(
    user: Address, riskScore: nat, attestationHash: Bytes32, attestationType: Bytes32, actor: Address)

  datatype RegistryError = Unauthorized | InvalidAccount(account: Address) | RiskScoreOutOfRange | AttestationRequired

  function Lookup(s: State, user: Address): UserData {
    if user in s.users then s.users[user] else NoUser()
  }

  /** `updateUser`; timestamps are truncated to 64 bits. */
  function UpdateUser(s: State, sender: Address, u: Update, now: nat): Result<State, RegistryError> {
    if sender !in s.managers then Err(Unauthorized)
    else if u.user == 0 || u.actor == 0 then Err(InvalidAccount(if u.user == 0 then u.user else u.actor))
    else if u.riskScore > 100 then Err(RiskScoreOutOfRange)
    else if u.attestationHash == 0 then Err(AttestationRequired)
    else
      var stamp := now % TWO_64;
      Ok(s.(users := s.users[u.user :=
        UserData(u.riskScore, u.attestationHash, u.attestationType, stamp, stamp, true)]))
  }

  /** `isCompliant` with the seed's settings: attestation required, no minimum age. */
  predicate IsCompliant(s: State, user: Address) {
    var data := Lookup(s, user);
    data.exists_ && data.riskScore <= MAX_RISK_SCORE && data.attestationHash != 0
  }

  datatype Op = OpUpdate(update: Update) | OpSetManager(account: Address, granted: bool)

  function ApplyOp(s: State, sender: Address, op: Op, now: nat): Result<State, RegistryError> {
    match op
    case OpUpdate(u) => UpdateUser(s, sender, u, now)
    case OpSetManager(account, granted) =>
      if sender !in s.admins then Err(Unauthorized)
      else Ok(s.(managers := if granted then s.managers + {account} else s.managers - {account}))
  }

  /** `updateUser` completes exactly for managers with sensible arguments, and then writes that one record. */
  lemma UpdateCompletesIff(s: State, sender: Address, u: Update, now: nat)
    ensures UpdateUser(s, sender, u, now).Ok? <==>
              sender in s.managers && u.user != 0 && u.actor != 0 && u.riskScore <= 100 && u.attestationHash != 0
    ensures sender !in s.managers ==> UpdateUser(s, sender, u, now) == Err(Unauthorized)
    ensures sender in s.managers && (u.user == 0 || u.actor == 0) ==> UpdateUser(s, sender, u, now) == Err(InvalidAccount(0))
    ensures sender in s.managers && u.user != 0 && u.actor != 0 && u.riskScore > 100 ==>
              UpdateUser(s, sender, u, now) == Err(RiskScoreOutOfRange)
    ensures sender in s.managers && u.user != 0 && u.actor != 0 && u.riskScore <= 100 && u.attestationHash == 0 ==>
              UpdateUser(s, sender, u, now) == Err(AttestationRequired)
    ensures UpdateUser(s, sender, u, now).Ok? ==>
              var s' := UpdateUser(s, sender, u, now).value;
              && s'.managers == s.managers && s'.admins == s.admins
              && (forall v: Address | v != u.user :: Lookup(s', v) == Lookup(s, v))
              && var d := Lookup(s', u.user);
              && d.riskScore == u.riskScore && d.attestationHash == u.attestationHash && d.attestationType == u.attestationType
              && d.exists_ && d.riskUpdatedAt == d.attestedAt == now % 0x1_0000_0000_0000_0000
  {
  }

  datatype Call = Call(sender: Address, op: Op, time: nat)

  /** One transaction: a reverted call leaves the registry as it was. */
  function Step(s: State, c: Call): State {
    match ApplyOp(s, c.sender, c.op, c.time)
    case Ok(s') => s'
    case Err(_) => s
  }

  function Run(s: State, calls: seq<Call>): State {
    if calls == [] then s else Step(Run(s, calls[..|calls| - 1]), calls[|calls| - 1])
  }

  /** The score given by the last update of `user` that went through. */
  function LastScore(s: State, calls: seq<Call>, user: Address): Option<nat> {
    if calls == [] then None
    else
      var n := |calls| - 1;
      var c := calls[n];
      if c.op.OpUpdate? && c.op.update.user == user && ApplyOp(Run(s, calls[..n]), c.sender, c.op, c.time).Ok?
      then Some(c.op.update.riskScore)
      else LastScore(s, calls[..n], user)
  }

  predicate WellFormed(d: UserData) {
    && d.riskScore <= 100
    && (d.exists_ ==> d.attestationHash != 0 && d.riskUpdatedAt == d.attestedAt)
    && (!d.exists_ ==> d == NoUser())
  }

  /** In every reachable registry the records are well formed and agree with the last successful update. */
  lemma {:induction false} ReachableRecords(s: State, calls: seq<Call>, user: Address)
    requires s.users == map[]
    ensures var d := Lookup(Run(s, calls), user);
            && WellFormed(d)
            && LastScore(s, calls, user) == (if d.exists_ then Some(d.riskScore) else None)
  {
    if calls != [] {
      ReachableRecords(s, calls[..|calls| - 1], user);
    }
  }

  /** A user is compliant exactly when the last successful update scored at most 91. */
  lemma CompliantIffLastScore(s: State, calls: seq<Call>, user: Address)
    requires s.users == map[]
    ensures IsCompliant(Run(s, calls), user) <==>
            (var last := LastScore(s, calls, user); last.Some? && last.value <= 91)
  {
    ReachableRecords(s, calls, user);
  }

  /** A record changes only by a manager's update of that user. */
  lemma RecordChangeIsAuthorised(s: State, c: Call, user: Address)
    requires Lookup(Step(s, c), user) != Lookup(s, user)
    ensures c.sender in s.managers && c.op.OpUpdate? && c.op.update.user == user
  {
  }

  /** The last completed appointment or dismissal of an account. */
  function LastAppointed(s: State, calls: seq<Call>, account: Address): Option<bool> {
    if calls == [] then None
    else
      var n := |calls| - 1;
      var c := calls[n];
      if c.op.OpSetManager? && c.op.account == account && c.sender in s.admins then Some(c.op.granted)
      else LastAppointed(s, calls[..n], account)
  }

  /** An account is a manager exactly when the admins' last word on it made it one. */
  lemma {:induction false} ManagerIsLastAppointed(s: State, calls: seq<Call>, account: Address)
    ensures Run(s, calls).admins == s.admins
    ensures account in Run(s, calls).managers <==>
            (match LastAppointed(s, calls, account) case Some(granted) => granted case None => account in s.managers)
  {
    if calls != [] {
      ManagerIsLastAppointed(s, calls[..|calls| - 1], account);
    }
  }
}
