/** What the API's client calls put on the chain. */
module Broadcasts {
  import opened Common
  import opened Stores
  import opened Callbacks
  import opened CallbackSafety
  import Retry
  import Chain
  import Escrow
  import Completion
  import Settlement
  import Replay

  // ---- keys ----

  lemma {:induction false} PrefixCancels(prefix: string, x: string, y: string)
    requires prefix + x == prefix + y
    ensures x == y
  {
    assert (prefix + x)[|prefix|..] == x && (prefix + y)[|prefix|..] == y;
  }

  /** Callbacks share a key exactly when their references are equal; a mint request meets one with the prefix in its key. */
  lemma CallbackKeys(p: Payload, q: Payload, key: string, submit: Option<SubmitArgs>)
    ensures Key(Callback(p)) == Key(Callback(q)) <==> p.txRef == q.txRef
    ensures Key(MintRequest(key, submit)) == Key(Callback(p)) <==> key == "mpesa:" + p.txRef
  {
    if Key(Callback(p)) == Key(Callback(q)) { PrefixCancels("mpesa:", p.txRef, q.txRef); }
  }

  // ---- broadcasts ----

  /** The executor's account sends executeMint for the callback's own intent, or submitIntent with the request's arguments. */
  predicate RightTx(c: Settings, b: Broadcast) {
    && b.tx.sender == c.executor
    && match b.request
       case Callback(p) =>
         && |p.intentId| == 66 && p.intentId[..2] == "0x"
         && b.tx.call == Chain.OnEscrow(Escrow.Execute(c.hexToHash(p.intentId)))
       case MintRequest(_, submit) =>
         && submit.Some?
         && b.tx.call == Chain.OnEscrow(Escrow.Submit(submit.value.amount, submit.value.countryCode, submit.value.txRef))
  }

  /** The client broadcasts for this handler and request. */
  ghost predicate WasSent(n: Network, h: nat, r: Request) {
    exists k :: 0 <= k < |n.sent| && n.sent[k].handler == h && n.sent[k].request == r
  }

  ghost predicate Broadcasting(c: Settings, s: System) {
    && (forall k | 0 <= k < |s.network.sent| :: RightTx(c, s.network.sent[k]))
    && (forall tx | tx in s.network.pool :: exists k :: 0 <= k < |s.network.sent| && s.network.sent[k].tx == tx)
    && (forall k | 0 <= k < |s.api.calls| && s.api.calls[k].reply.Sent? ::
          WasSent(s.network, s.api.calls[k].handler, s.api.calls[k].request))
  }

  /** A call that reaches the node adds one transaction to the pool; nothing else adds any. */
  lemma PoolStep(c: Settings, a: Api, n: Network, action: Action)
    ensures var m := NetworkNext(c, a, n, action);
            if action.Call? && action.h in a.handlers && a.handlers[action.h].pc.Attempt?
               && (action.reply.Sent? || action.broadcast) && TxOf(c, a.handlers[action.h].request).Some?
            then
              && |m.sent| == |n.sent| + 1 && m.sent[..|n.sent|] == n.sent && RightTx(c, m.sent[|n.sent|])
              && m.sent[|n.sent|].handler == action.h && m.sent[|n.sent|].request == a.handlers[action.h].request
              && m.pool == n.pool + [m.sent[|n.sent|].tx]
            else
              m.sent == n.sent && forall tx | tx in m.pool :: tx in n.pool
  {
  }

  lemma SentStays(n: Network, m: Network, h: nat, r: Request)
    requires |n.sent| <= |m.sent| && m.sent[..|n.sent|] == n.sent && WasSent(n, h, r)
    ensures WasSent(m, h, r)
  {
    var k :| 0 <= k < |n.sent| && n.sent[k].handler == h && n.sent[k].request == r;
    assert m.sent[k] == m.sent[..|n.sent|][k];
  }

  lemma PoolWasSent(c: Settings, s: System, action: Action, tx: Chain.Tx)
    requires Broadcasting(c, s) && tx in Next(c, s, action).network.pool
    ensures var sent := Next(c, s, action).network.sent; exists k :: 0 <= k < |sent| && sent[k].tx == tx
  {
    PoolStep(c, s.api, s.network, action);
    var m := Next(c, s, action).network;
    if tx in s.network.pool {
      var k :| 0 <= k < |s.network.sent| && s.network.sent[k].tx == tx;
      assert |m.sent| > |s.network.sent| ==> m.sent[k] == m.sent[..|s.network.sent|][k];
      assert m.sent[k].tx == tx;
    } else {
      assert m.sent[|s.network.sent|].tx == tx;
    }
  }

  /** What a step adds to the record of calls. */
  lemma CallStep(c: Settings, a: Api, action: Action)
    ensures var b := ApiNext(c, a, action);
            || b.calls == a.calls
            || (action.Call? && action.h in a.handlers && a.handlers[action.h].pc.Attempt?
                && b.calls == a.calls + [ClientCall(action.h, a.handlers[action.h].request, a.handlers[action.h].pc.i,
                                                    ReplyTo(c, a.handlers[action.h].request, action.reply))])
  {
    if !action.Call? && Subject(action).Some? && Subject(action).value in a.handlers {
      SubjectMoves(c, a, action, Subject(action).value);
    }
  }

  lemma StepBroadcasting(c: Settings, s: System, action: Action)
    requires Broadcasting(c, s)
    ensures Broadcasting(c, Next(c, s, action))
  {
    var n, m, b := s.network, Next(c, s, action).network, Next(c, s, action).api;
    PoolStep(c, s.api, n, action);
    CallStep(c, s.api, action);
    forall k | 0 <= k < |m.sent| ensures RightTx(c, m.sent[k]) {
      if k < |n.sent| { assert |m.sent| > |n.sent| ==> m.sent[k] == m.sent[..|n.sent|][k]; }
    }
    forall tx | tx in m.pool ensures exists k :: 0 <= k < |m.sent| && m.sent[k].tx == tx {
      PoolWasSent(c, s, action, tx);
    }
    forall k | 0 <= k < |b.calls| && b.calls[k].reply.Sent?
      ensures WasSent(m, b.calls[k].handler, b.calls[k].request)
    {
      if k < |s.api.calls| {
        assert m.sent[..|n.sent|] == n.sent;
        SentStays(n, m, b.calls[k].handler, b.calls[k].request);
      } else {
        assert m.sent[|n.sent|].handler == b.calls[k].handler;
      }
    }
  }

  /**
   * Over every run: whatever the API broadcasts is executeMint for the intent of a callback, or submitIntent for a mint
   * request, from the executor's account, so it never refunds; only such transactions wait in the pool; and
   * every call that returned without error had broadcast its own.
   */
  lemma {:induction false} RunBroadcasting(c: Settings, world: Chain.World, clock: int, actions: seq<Action>)
    ensures Broadcasting(c, Run(c, Start(world, clock), actions))
  {
    if actions != [] {
      RunBroadcasting(c, world, clock, actions[..|actions| - 1]);
      StepBroadcasting(c, Run(c, Start(world, clock), actions[..|actions| - 1]), actions[|actions| - 1]);
    }
  }

  /** A stored "processed" response implies that executeMint was broadcast for that very intent. */
  lemma ProcessedWasBroadcast(c: Settings, world: Chain.World, clock: int, actions: seq<Action>, key: string)
    requires var a := Run(c, Start(world, clock), actions).api; key in a.store && a.store[key].response.Processed?
    ensures var s := Run(c, Start(world, clock), actions);
            var id := s.api.store[key].response.intentId;
            exists k :: 0 <= k < |s.network.sent|
                        && s.network.sent[k].tx == Chain.Tx(c.executor, Chain.OnEscrow(Escrow.Execute(c.hexToHash(id))))
  {
    var s := Run(c, Start(world, clock), actions);
    RunBroadcasting(c, world, clock, actions);
    StoredOnlyIfCalled(c, world, clock, actions);
    assert Justified(c, s.api.calls, key, s.api.store[key]);
    var j :| 0 <= j < |s.api.calls| && Backs(c, s.api.calls[j], key, s.api.store[key]);
    var call := s.api.calls[j];
    assert WasSent(s.network, call.handler, call.request);
    var k :| 0 <= k < |s.network.sent| && s.network.sent[k].handler == call.handler && s.network.sent[k].request == call.request;
    assert RightTx(c, s.network.sent[k]);
  }

  // ---- mining ----

  /** The intent is executed and its user credited, by exactly its amount in its country's token. */
  ghost predicate Fulfils(w: Chain.World, w': Chain.World, id: Bytes32)
    requires id in w.escrow.intents && w.escrow.intents[id].countryCode in w.escrow.countryTokens
  {
    var i := w.escrow.intents[id];
    && w'.escrow.intents == w.escrow.intents[id := i.(status := Escrow.Executed)]
    && Completion.Paid(w, w', w.escrow.countryTokens[i.countryCode], None, Some(i.user), i.amount)
  }

  lemma ExecutingFulfils(c: Settings, world: Chain.World, clock: int, actions: seq<Action>, id: Bytes32)
    requires Chain.Genesis(world) && c.executor != 0 && c.executor != world.self
    requires Settlement.Executable(Run(c, Start(world, clock), actions).network.world, c.executor, id)
    ensures var w := Run(c, Start(world, clock), actions).network.world;
            Fulfils(w, Chain.Step(w, Settlement.ExecuteTx(c.executor, id)), id)
  {
    var n := Run(c, Start(world, clock), actions).network;
    RunOnChain(c, world, clock, actions);
    Settlement.ExecutableBecomesExecuted(world, n.mined, c.executor, id);
    Chain.RunAppend(world, n.mined, Settlement.ExecuteTx(c.executor, id));
  }

  /** Mining executeMint for an executable intent leaves it Executed and its user credited. */
  lemma MiningFulfils(c: Settings, world: Chain.World, clock: int, actions: seq<Action>, index: nat, id: Bytes32)
    requires Chain.Genesis(world) && c.executor != 0 && c.executor != world.self
    requires var n := Run(c, Start(world, clock), actions).network;
             && index < |n.pool| && n.pool[index] == Settlement.ExecuteTx(c.executor, id)
             && Settlement.Executable(n.world, c.executor, id)
    ensures var s := Run(c, Start(world, clock), actions);
            Fulfils(s.network.world, Next(c, s, Mine(index)).network.world, id)
  {
    ExecutingFulfils(c, world, clock, actions, id);
  }

  // ---- a payment from callback to mint ----

  /** A callback arrives, finds nothing stored, its call succeeds, its response is saved, its transaction is mined. */
  function Payment(h: nat, p: Payload, timestamp: int, txHash: string, index: nat): seq<Action> {
    [Arrive(h, Callback(p), timestamp), Get(h, true), Call(h, Retry.Sent(txHash), true), Save(h, true), Mine(index)]
  }

  /** A fresh callback with a well-formed id and no live record under its key. */
  predicate Unanswered(c: Settings, a: Api, h: nat, p: Payload, timestamp: int) {
    && h !in a.handlers && timestamp - c.maxSkew <= a.clock <= timestamp + c.maxSkew
    && |p.intentId| == 66 && p.intentId[..2] == "0x"
    && ("mpesa:" + p.txRef !in a.store || a.store["mpesa:" + p.txRef].expiresAt < a.clock)
  }

  lemma PaymentApi(c: Settings, a: Api, h: nat, p: Payload, timestamp: int, txHash: string)
    requires Unanswered(c, a, h, p, timestamp)
    ensures var a1 := ApiNext(c, a, Arrive(h, Callback(p), timestamp));
            var a2 := ApiNext(c, a1, Get(h, true));
            var a3 := ApiNext(c, a2, Call(h, Retry.Sent(txHash), true));
            var a4 := ApiNext(c, a3, Save(h, true));
            && h in a2.handlers && a2.handlers[h].pc.Attempt? && a2.handlers[h].request == Callback(p)
            && a4.store == a.store["mpesa:" + p.txRef := Record(200, Processed(p.intentId, txHash), a.clock, a.clock + c.window)]
  {
    var r := Callback(p);
    var a1 := ApiNext(c, a, Arrive(h, r, timestamp));
    assert Replay.Looks(a1, a.clock, a.store, a.handlers[h := Handler(r, timestamp, a.clock, Lookup)]);
    var a2 := ApiNext(c, a1, Get(h, true));
    assert Replay.Looks(a2, a.clock, a.store, a.handlers[h := Handler(r, timestamp, a.clock, Attempt(1))]);
    var a3 := ApiNext(c, a2, Call(h, Retry.Sent(txHash), true));
    var record := RecordFor(c, r, txHash, a.clock);
    assert Replay.Looks(a3, a.clock, a.store, a.handlers[h := Handler(r, timestamp, a.clock, Saving(record))]);
    Replay.SaveNow(c, a3, h, record);
  }

  /** The intent is executed, its user credited, and the response stored for the window. */
  ghost predicate PaidOut(c: Settings, s: System, s': System, p: Payload, txHash: string) {
    var id := c.hexToHash(p.intentId);
    && id in s.network.world.escrow.intents
    && s.network.world.escrow.intents[id].countryCode in s.network.world.escrow.countryTokens
    && Fulfils(s.network.world, s'.network.world, id)
    && s'.network.pool == s.network.pool
    && s'.api.store == s.api.store["mpesa:" + p.txRef :=
         Record(200, Processed(p.intentId, txHash), s.api.clock, s.api.clock + c.window)]
  }

  /**
   * From every reachable state: a fresh callback for an executable intent, without a live record under its key, whose call
   * reaches the node and whose transaction is mined next, is paid out.
   */
  lemma PaymentIsMinted(c: Settings, world: Chain.World, clock: int, actions: seq<Action>, h: nat, p: Payload, timestamp: int, txHash: string)
    requires Chain.Genesis(world) && c.executor != 0 && c.executor != world.self
    requires var s := Run(c, Start(world, clock), actions);
             && Unanswered(c, s.api, h, p, timestamp)
             && Settlement.Executable(s.network.world, c.executor, c.hexToHash(p.intentId))
    ensures var s := Run(c, Start(world, clock), actions);
            PaidOut(c, s, Run(c, s, Payment(h, p, timestamp, txHash, |s.network.pool|)), p, txHash)
  {
    ExecutingFulfils(c, world, clock, actions, c.hexToHash(p.intentId));
    PaymentFulfils(c, Run(c, Start(world, clock), actions), h, p, timestamp, txHash);
  }

  lemma PaymentFulfils(c: Settings, s: System, h: nat, p: Payload, timestamp: int, txHash: string)
    requires Unanswered(c, s.api, h, p, timestamp)
    requires var w, id := s.network.world, c.hexToHash(p.intentId);
             && id in w.escrow.intents && w.escrow.intents[id].countryCode in w.escrow.countryTokens
             && Fulfils(w, Chain.Step(w, Settlement.ExecuteTx(c.executor, id)), id)
    ensures PaidOut(c, s, Run(c, s, Payment(h, p, timestamp, txHash, |s.network.pool|)), p, txHash)
  {
    PaymentRun(c, s, h, p, timestamp, txHash);
    PaymentSteps(c, s, h, p, timestamp, txHash);
  }

  lemma PaymentNetwork(c: Settings, a2: Api, a3: Api, a4: Api, n: Network, h: nat, p: Payload, txHash: string)
    requires h in a2.handlers && a2.handlers[h].pc.Attempt? && a2.handlers[h].request == Callback(p) && DecodeId(c, p.intentId).Some?
    ensures var n3 := NetworkNext(c, a2, n, Call(h, Retry.Sent(txHash), true));
            var n5 := NetworkNext(c, a4, NetworkNext(c, a3, n3, Save(h, true)), Mine(|n.pool|));
            && n5.world == Chain.Step(n.world, Settlement.ExecuteTx(c.executor, c.hexToHash(p.intentId)))
            && n5.pool == n.pool
  {
  }

  function AfterPayment(c: Settings, s: System, h: nat, p: Payload, timestamp: int, txHash: string): System {
    var s2 := Next(c, Next(c, s, Arrive(h, Callback(p), timestamp)), Get(h, true));
    Next(c, Next(c, Next(c, s2, Call(h, Retry.Sent(txHash), true)), Save(h, true)), Mine(|s.network.pool|))
  }

  lemma PaymentSteps(c: Settings, s: System, h: nat, p: Payload, timestamp: int, txHash: string)
    requires Unanswered(c, s.api, h, p, timestamp)
    ensures var s' := AfterPayment(c, s, h, p, timestamp, txHash);
            && s'.network.world == Chain.Step(s.network.world, Settlement.ExecuteTx(c.executor, c.hexToHash(p.intentId)))
            && s'.network.pool == s.network.pool
            && s'.api.store == s.api.store["mpesa:" + p.txRef :=
                 Record(200, Processed(p.intentId, txHash), s.api.clock, s.api.clock + c.window)]
  {
    PaymentApi(c, s.api, h, p, timestamp, txHash);
    var s2 := Next(c, Next(c, s, Arrive(h, Callback(p), timestamp)), Get(h, true));
    var s3 := Next(c, s2, Call(h, Retry.Sent(txHash), true));
    var s4 := Next(c, s3, Save(h, true));
    assert s2.network == s.network;
    PaymentNetwork(c, s2.api, s3.api, s4.api, s.network, h, p, txHash);
  }

  lemma PaymentRun(c: Settings, s: System, h: nat, p: Payload, timestamp: int, txHash: string)
    ensures Run(c, s, Payment(h, p, timestamp, txHash, |s.network.pool|)) == AfterPayment(c, s, h, p, timestamp, txHash)
  {
    var acts := Payment(h, p, timestamp, txHash, |s.network.pool|);
    var s1 := Next(c, s, acts[0]);
    var s2 := Next(c, s1, acts[1]);
    var s3 := Next(c, s2, acts[2]);
    var s4 := Next(c, s3, acts[3]);
    FiveSteps(c, s, acts, s1, s2, s3, s4, Next(c, s4, acts[4]));
  }

  lemma FiveSteps(c: Settings, s: System, acts: seq<Action>, s1: System, s2: System, s3: System, s4: System, s5: System)
    requires |acts| == 5
    requires s1 == Next(c, s, acts[0]) && s2 == Next(c, s1, acts[1]) && s3 == Next(c, s2, acts[2])
    requires s4 == Next(c, s3, acts[3]) && s5 == Next(c, s4, acts[4])
    ensures Run(c, s, acts) == s5
  {
    assert acts[..1][..0] == [] && acts[..2][..1] == acts[..1] && acts[..3][..2] == acts[..2];
    assert acts[..4][..3] == acts[..3] && acts[..5] == acts;
    assert Run(c, s, acts[..1]) == s1;
    assert Run(c, s, acts[..2]) == s2;
    assert Run(c, s, acts[..3]) == s3;
    assert Run(c, s, acts[..4]) == s4;
  }
}
