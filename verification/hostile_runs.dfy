/** Whole runs with token code that calls back and keeps no honest ledger: what the escrow itself still guarantees. */
module HostileRuns {
  import opened Common
  import opened Escrow
  import opened Chain
  import opened Intents
  import opened Accounting
  import opened Compliance
  import opened Reentrancy
  import Ledgers

  datatype Round =
    /** A message to the escrow, whatever callbacks it carries; the ledgers are afterwards what the token code likes. */
    | Send(message: Message, ledgers: map<Address, Ledgers.Ledger>)
    /** Any transaction of the chain. */
    | Plain(tx: Tx)

  predicate GenuineRound(self: Address, r: Round) {
    match r
    case Send(Call(sender, _, _, _), _) => sender != 0 && sender != self
    case Send(AdminCall(_, _), _) => true
    case Plain(tx) => Genuine(self, tx)
  }

  function Logged(w: World, m: Message): seq<Event>
    requires Deliver(w.escrow, ContextOf(w), m).Some?
  {
    if m.Call? then [EventOf(w, m.sender, m.call)] else []
  }

  function Next(w: World, r: Round): World {
    match r
    case Plain(tx) => Step(w, tx)
    case Send(m, ledgers) =>
      match Deliver(w.escrow, ContextOf(w), m)
      case None => w.(tokens := ledgers)
      case Some(s) => w.(escrow := s, log := w.log + Logged(w, m), tokens := ledgers)
  }

  function HostileRun(w: World, rounds: seq<Round>): World {
    if rounds == [] then w else Next(HostileRun(w, rounds[..|rounds| - 1]), rounds[|rounds| - 1])
  }

  /** What holds of the escrow, its counters and its history whatever the tokens do. */
  ghost predicate Safe(w: World) {
    && Sound(w) && Balanced(w) && DailyBalanced(w) && DaysAgree(w) && MintedOnce(w)
    && RegistriesAgree(w) && MintsCleared(w.log)
  }

  /** The guarded call alone, with a silent token. */
  function FlatWorld(w: World, sender: Address, c: Guarded): World
    requires Begin(w.escrow, ContextOf(w), sender, c).Ok?
  {
    w.(escrow := End(Begin(w.escrow, ContextOf(w), sender, c).value, ContextOf(w), sender, c),
       log := w.log + [EventOf(w, sender, c)])
  }

  lemma FlatWrote(w: World, sender: Address, c: Guarded)
    requires !w.escrow.entered && Begin(w.escrow, ContextOf(w), sender, c).Ok?
    ensures Wrote(w, FlatWorld(w, sender, c), Tx(sender, OnEscrow(c)))
  {
    match c {
      case Submit(_, _, _) =>
      case Execute(_) =>
      case Refund(_) =>
    }
  }

  lemma WroteSafe(w: World, w': World, tx: Tx)
    requires Safe(w) && Genuine(w.self, tx) && tx.call.OnEscrow? && Wrote(w, w', tx)
    ensures Safe(w') && Evolves(w.escrow, w'.escrow)
  {
    WroteSound(w, w', tx);
    StepBalanced(w, w', tx);
    DailyStep(w, w', tx);
    DaysStep(w, w', tx);
    OnceStep(w, w', tx);
    StepCleared(w, w', tx);
  }

  /** Ledgers and the escrow's configuration do not matter to any of it. */
  lemma SurroundingsDoNotMatter(w: World, w': World)
    requires Safe(w) && SameIntents(w.escrow, w'.escrow)
    requires w'.self == w.self && w'.intentId == w.intentId && w'.log == w.log && w'.registries == w.registries
    ensures Safe(w') && Evolves(w.escrow, w'.escrow)
  {
    assert forall x | x in w.escrow.intents :: IntentOk(w, x);
  }

  lemma CallSafe(w: World, sender: Address, c: Guarded, callbacks: seq<Message>, returns_: bool, ledgers: map<Address, Ledgers.Ledger>)
    requires Safe(w) && sender != 0 && sender != w.self
    ensures var w' := Next(w, Send(Call(sender, c, callbacks, returns_), ledgers)); Safe(w') && Evolves(w.escrow, w'.escrow)
  {
    var ctx := ContextOf(w);
    var w' := Next(w, Send(Call(sender, c, callbacks, returns_), ledgers));
    ReentrantRunIsFlat(w.escrow, ctx, sender, c, callbacks);
    if returns_ && Begin(w.escrow, ctx, sender, c).Ok? {
      var flat := FlatWorld(w, sender, c);
      FlatWrote(w, sender, c);
      WroteSafe(w, flat, Tx(sender, OnEscrow(c)));
      AdminsOfAreAdmins(callbacks);
      AdminsKeepIntents(flat.escrow, ctx, AdminsOf(callbacks));
      assert DeliverAll(Begin(w.escrow, ctx, sender, c).value, ctx, []) == Begin(w.escrow, ctx, sender, c).value;
      SurroundingsDoNotMatter(flat, w');
    } else {
      SurroundingsDoNotMatter(w, w');
    }
  }

  lemma AdminSafe(w: World, sender: Address, a: Admin, ledgers: map<Address, Ledgers.Ledger>)
    requires Safe(w)
    ensures var w' := Next(w, Send(AdminCall(sender, a), ledgers)); Safe(w') && Evolves(w.escrow, w'.escrow)
  {
    if Administer(w.escrow, sender, a).Ok? { AdminKeepsIntents(w.escrow, sender, a); }
    assert w.log + [] == w.log;
    SurroundingsDoNotMatter(w, Next(w, Send(AdminCall(sender, a), ledgers)));
  }

  lemma PlainSafe(w: World, tx: Tx)
    requires Safe(w) && Genuine(w.self, tx)
    ensures Safe(Step(w, tx)) && Evolves(w.escrow, Step(w, tx).escrow)
  {
    StepCases(w, tx);
    StepSound(w, tx);
    if !tx.call.OnEscrow? { OtherCases(w, tx); }
    var w' := Step(w, tx);
    if w' != w {
      StepBalanced(w, w', tx);
      DailyStep(w, w', tx);
      DaysStep(w, w', tx);
      OnceStep(w, w', tx);
      StepCleared(w, w', tx);
    }
  }

  lemma NextSafe(w: World, r: Round)
    requires Safe(w) && GenuineRound(w.self, r)
    ensures Safe(Next(w, r)) && Evolves(w.escrow, Next(w, r).escrow) && Next(w, r).self == w.self
  {
    match r {
      case Plain(tx) =>
        PlainSafe(w, tx);
        StepCases(w, tx);
      case Send(Call(sender, c, callbacks, returns_), ledgers) => CallSafe(w, sender, c, callbacks, returns_, ledgers);
      case Send(AdminCall(sender, a), ledgers) => AdminSafe(w, sender, a, ledgers);
    }
  }

  /**
   * However token code calls back, and whatever it does to its own ledger, over every run: intents stay sound, each
   * is minted at most once and only for a cleared user, the books balance, and no day exceeds its limit.
   */
  lemma {:induction false} HostileRunSafe(w: World, rounds: seq<Round>)
    requires Genesis(w) && forall r | r in rounds :: GenuineRound(w.self, r)
    ensures Safe(HostileRun(w, rounds)) && HostileRun(w, rounds).self == w.self
  {
    if rounds != [] {
      var n := |rounds| - 1;
      HostileRunSafe(w, rounds[..n]);
      assert rounds[n] in rounds;
      NextSafe(HostileRun(w, rounds[..n]), rounds[n]);
    }
  }

  lemma RoundEvolves(w: World, rounds: seq<Round>)
    requires Genesis(w) && rounds != [] && forall r | r in rounds :: GenuineRound(w.self, r)
    ensures Evolves(HostileRun(w, rounds[..|rounds| - 1]).escrow, HostileRun(w, rounds).escrow)
  {
    var n := |rounds| - 1;
    HostileRunSafe(w, rounds[..n]);
    assert rounds[n] in rounds;
    NextSafe(HostileRun(w, rounds[..n]), rounds[n]);
  }

  /** And settled intents stay settled. */
  lemma {:induction false} HostileRunEvolves(w: World, past: seq<Round>, future: seq<Round>)
    requires Genesis(w) && forall r | r in past + future :: GenuineRound(w.self, r)
    ensures Evolves(HostileRun(w, past).escrow, HostileRun(w, past + future).escrow)
    decreases |future|
  {
    if future == [] {
      assert past + future == past;
    } else {
      var all := past + future;
      assert all[..|all| - 1] == past + future[..|future| - 1];
      HostileRunEvolves(w, past, future[..|future| - 1]);
      RoundEvolves(w, all);
      EvolvesFurther(HostileRun(w, past).escrow, HostileRun(w, all[..|all| - 1]).escrow, HostileRun(w, all).escrow);
    }
  }

  /** Such runs include the honest ones: a silent token that does as it is told makes a round a transaction of the chain. */
  lemma HonestRound(w: World, sender: Address, c: Guarded)
    requires ApplyGuarded(w, sender, c).Ok?
    ensures Next(w, Send(Call(sender, c, [], true), Step(w, Tx(sender, OnEscrow(c))).tokens)) == Step(w, Tx(sender, OnEscrow(c)))
  {
    SilentTokenIsChainStep(w, sender, c);
  }
}
