/**
 * Token code that calls back.
 *
 * A message to the escrow is a tree: while the escrow waits for the token, the token's code may
 * send it any number of further messages, each with its own callbacks, before it returns or reverts.
 */
module Reentrancy {
  import opened Common
  import opened Escrow
  import Chain

  datatype Message =
    /** A guarded call, the messages sent while its token call runs, and whether that call returns. */
    | Call(sender: Address, call: Guarded, callbacks: seq<Message>, returns_: bool)
    | AdminCall(admin: Address, action: Admin)

  /** Executes one message; None when it reverts, and then none of its callbacks has had an effect. */
  function Deliver(s: Storage, ctx: Context, m: Message): Option<Storage>
    decreases m
  {
    match m
    case AdminCall(sender, a) =>
      (match Administer(s, sender, a) case Ok(s') => Some(s') case Err(_) => None)
    case Call(sender, c, callbacks, returns_) =>
      match Begin(s, ctx, sender, c)
      case Err(_) => None
      case Ok(s1) =>
        var s2 := DeliverAll(s1, ctx, callbacks);
        if returns_ then Some(End(s2, ctx, sender, c)) else None
  }

  /** Callbacks in order; the token ignores those that revert. */
  function DeliverAll(s: Storage, ctx: Context, ms: seq<Message>): Storage
    decreases ms
  {
    if ms == [] then s
    else
      var s' := match Deliver(s, ctx, ms[0]) case Some(t) => t case None => s;
      DeliverAll(s', ctx, ms[1..])
  }

  /** The administrative messages among the direct callbacks; what the guarded ones carry is dropped. */
  function AdminsOf(ms: seq<Message>): seq<Message> {
    if ms == [] then []
    else (if ms[0].AdminCall? then [ms[0]] else []) + AdminsOf(ms[1..])
  }

  /** While the guard is set, only the administrative callbacks have an effect, and they leave the intents alone. */
  lemma {:induction false} NestedAreAdmins(s: Storage, ctx: Context, ms: seq<Message>)
    requires s.entered
    ensures DeliverAll(s, ctx, ms) == DeliverAll(s, ctx, AdminsOf(ms))
    ensures SameIntents(s, DeliverAll(s, ctx, ms))
    decreases ms
  {
    if ms != [] {
      match ms[0] {
        case Call(_, _, _, _) =>
          NestedAreAdmins(s, ctx, ms[1..]);
          assert AdminsOf(ms) == AdminsOf(ms[1..]);
        case AdminCall(sender, a) =>
          var s' := match Deliver(s, ctx, ms[0]) case Some(t) => t case None => s;
          if Administer(s, sender, a).Ok? { AdminKeepsIntents(s, sender, a); }
          NestedAreAdmins(s', ctx, ms[1..]);
          assert AdminsOf(ms) == [ms[0]] + AdminsOf(ms[1..]);
          assert AdminsOf(ms)[1..] == AdminsOf(ms[1..]);
      }
    }
  }

  /** While the guard is set, every guarded callback reverts in the very state it meets, however deep its own callbacks go. */
  lemma NestedCallsRevert(s: Storage, ctx: Context, ms: seq<Message>)
    requires s.entered
    ensures forall k | 0 <= k < |ms| && ms[k].Call? :: Deliver(DeliverAll(s, ctx, ms[..k]), ctx, ms[k]).None?
    ensures SameIntents(s, DeliverAll(s, ctx, ms))
  {
    NestedAreAdmins(s, ctx, ms);
    forall k | 0 <= k < |ms| && ms[k].Call? ensures Deliver(DeliverAll(s, ctx, ms[..k]), ctx, ms[k]).None? {
      NestedAreAdmins(s, ctx, ms[..k]);
    }
  }

  /** s with the intents part of `core`: the two halves of the storage evolve independently. */
  function WithIntents(s: Storage, core: Storage): Storage {
    s.(intents := core.intents, consumed := core.consumed, dailyMinted := core.dailyMinted, entered := core.entered)
  }

  lemma AdminCommutes(s: Storage, core: Storage, sender: Address, a: Admin)
    ensures Administer(WithIntents(s, core), sender, a) ==
            (match Administer(s, sender, a) case Ok(s') => Ok(WithIntents(s', core)) case Err(e) => Err(e))
  {
  }

  /** Administrative calls act alike on any intents part. */
  lemma {:induction false} AdminsCommute(s: Storage, core: Storage, ctx: Context, ms: seq<Message>)
    requires forall m | m in ms :: m.AdminCall?
    ensures DeliverAll(WithIntents(s, core), ctx, ms) == WithIntents(DeliverAll(s, ctx, ms), core)
    decreases ms
  {
    if ms != [] {
      AdminCommutes(s, core, ms[0].admin, ms[0].action);
      var s' := match Deliver(s, ctx, ms[0]) case Some(t) => t case None => s;
      AdminsCommute(s', core, ctx, ms[1..]);
    }
  }

  lemma {:induction false} AdminsOfAreAdmins(ms: seq<Message>)
    ensures forall m | m in AdminsOf(ms) :: m.AdminCall?
  {
    if ms != [] { AdminsOfAreAdmins(ms[1..]); }
  }

  /**
   * A guarded call that completes leaves exactly the state of the flat run: the call with a silent
   * token, then its direct administrative callbacks in order.  One that reverts leaves nothing.
   */
  lemma ReentrantRunIsFlat(s: Storage, ctx: Context, sender: Address, c: Guarded, callbacks: seq<Message>)
    ensures Deliver(s, ctx, Call(sender, c, callbacks, false)).None?
    ensures Begin(s, ctx, sender, c).Err? ==> Deliver(s, ctx, Call(sender, c, callbacks, true)).None?
    ensures Begin(s, ctx, sender, c).Ok? ==>
      && (forall k | 0 <= k < |callbacks| && callbacks[k].Call? ::
            Deliver(DeliverAll(Begin(s, ctx, sender, c).value, ctx, callbacks[..k]), ctx, callbacks[k]).None?)
      && Deliver(s, ctx, Call(sender, c, [], true)).Some?
      && Deliver(s, ctx, Call(sender, c, callbacks, true)) ==
           Some(DeliverAll(Deliver(s, ctx, Call(sender, c, [], true)).value, ctx, AdminsOf(callbacks)))
  {
    if Begin(s, ctx, sender, c).Ok? {
      var s1 := Begin(s, ctx, sender, c).value;
      var admins := AdminsOf(callbacks);
      NestedAreAdmins(s1, ctx, callbacks);
      NestedCallsRevert(s1, ctx, callbacks);
      AdminsOfAreAdmins(callbacks);
      var flat := End(s1, ctx, sender, c);
      assert Deliver(s, ctx, Call(sender, c, [], true)) == Some(flat);
      AdminsCommute(s1, flat, ctx, admins);
      assert WithIntents(s1, flat) == flat;
      var nested := DeliverAll(s1, ctx, admins);
      assert End(nested, ctx, sender, c) == WithIntents(nested, flat);
    }
  }

  /** Administrative calls leave the intents alone. */
  lemma {:induction false} AdminsKeepIntents(s: Storage, ctx: Context, ms: seq<Message>)
    requires forall m | m in ms :: m.AdminCall?
    ensures SameIntents(s, DeliverAll(s, ctx, ms))
    decreases ms
  {
    if ms != [] {
      if Administer(s, ms[0].admin, ms[0].action).Ok? { AdminKeepsIntents(s, ms[0].admin, ms[0].action); }
      var s' := match Deliver(s, ctx, ms[0]) case Some(t) => t case None => s;
      AdminsKeepIntents(s', ctx, ms[1..]);
    }
  }

  /** With a silent token this is the chain's own step: a completed guarded transaction leaves the same storage. */
  lemma SilentTokenIsChainStep(w: Chain.World, sender: Address, c: Guarded)
    requires Chain.ApplyGuarded(w, sender, c).Ok?
    ensures Deliver(w.escrow, Chain.ContextOf(w), Call(sender, c, [], true)) == Some(Chain.ApplyGuarded(w, sender, c).value.escrow)
  {
    var s1 := Begin(w.escrow, Chain.ContextOf(w), sender, c).value;
    assert DeliverAll(s1, Chain.ContextOf(w), []) == s1;
  }

  // ---- as a run of the chain ----

  lemma {:induction false} RunFromFront(w: Chain.World, tx: Chain.Tx, txs: seq<Chain.Tx>)
    ensures Chain.Run(w, [tx] + txs) == Chain.Run(Chain.Step(w, tx), txs)
    decreases |txs|
  {
    var all := [tx] + txs;
    if txs == [] {
      assert all == [] + [tx];
      Chain.RunAppend(w, [], tx);
    } else {
      assert all[..|all| - 1] == [tx] + txs[..|txs| - 1];
      RunFromFront(w, tx, txs[..|txs| - 1]);
    }
  }

  /** The direct administrative callbacks as transactions of their own. */
  function AdminTxs(ms: seq<Message>): seq<Chain.Tx> {
    if ms == [] then []
    else (if ms[0].AdminCall? then [Chain.Tx(ms[0].admin, Chain.OnAdmin(ms[0].action))] else []) + AdminTxs(ms[1..])
  }

  lemma {:induction false} AdminsAreTxs(w: Chain.World, ctx: Context, ms: seq<Message>)
    ensures DeliverAll(w.escrow, ctx, AdminsOf(ms)) == Chain.Run(w, AdminTxs(ms)).escrow
    decreases |ms|
  {
    if ms != [] {
      if ms[0].AdminCall? {
        var tx := Chain.Tx(ms[0].admin, Chain.OnAdmin(ms[0].action));
        RunFromFront(w, tx, AdminTxs(ms[1..]));
        AdminsAreTxs(Chain.Step(w, tx), ctx, ms[1..]);
        assert AdminsOf(ms)[1..] == AdminsOf(ms[1..]);
      } else {
        assert AdminsOf(ms) == AdminsOf(ms[1..]) && AdminTxs(ms) == AdminTxs(ms[1..]);
        AdminsAreTxs(w, ctx, ms[1..]);
      }
    }
  }

  /**
   * A transaction whose token calls back leaves the storage of an ordinary run of the chain: the same transaction with a
   * token that does not, followed by the administrative callbacks as transactions of their own.
   */
  lemma ReentrantIsChainRun(w: Chain.World, sender: Address, c: Guarded, callbacks: seq<Message>)
    requires Chain.ApplyGuarded(w, sender, c).Ok?
    ensures Deliver(w.escrow, Chain.ContextOf(w), Call(sender, c, callbacks, true)) ==
            Some(Chain.Run(w, [Chain.Tx(sender, Chain.OnEscrow(c))] + AdminTxs(callbacks)).escrow)
  {
    var ctx, tx := Chain.ContextOf(w), Chain.Tx(sender, Chain.OnEscrow(c));
    SilentTokenIsChainStep(w, sender, c);
    ReentrantRunIsFlat(w.escrow, ctx, sender, c, callbacks);
    AdminsAreTxs(Chain.Step(w, tx), ctx, callbacks);
    RunFromFront(w, tx, AdminTxs(callbacks));
  }
}
