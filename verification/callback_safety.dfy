/** Safety of the callback protocol over every interleaving. */
module CallbackSafety {
  import opened Common
  import opened Sums
  import opened Callbacks
  import Retry
  import Chain
  import Intents
  import Accounting

  // ---- the chain side ----

  lemma MinedOnChain(c: Settings, world: Chain.World, n: Network, tx: Chain.Tx, pool: seq<Chain.Tx>)
    requires OnChain(c, world, n) && Chain.Genuine(world.self, tx)
    requires forall t | t in pool :: Chain.Genuine(world.self, t)
    ensures OnChain(c, world, n.(world := Chain.Step(n.world, tx), pool := pool, mined := n.mined + [tx]))
  {
    Chain.RunAppend(world, n.mined, tx);
  }

  lemma WithoutOne(pool: seq<Chain.Tx>, index: nat, self: Address)
    requires index < |pool| && forall t | t in pool :: Chain.Genuine(self, t)
    ensures forall t | t in pool[..index] + pool[index + 1..] :: Chain.Genuine(self, t)
  {
  }

  lemma StepOnChain(c: Settings, world: Chain.World, a: Api, n: Network, action: Action)
    requires OnChain(c, world, n) && n.world.self == world.self
    requires c.executor != 0 && c.executor != world.self
    ensures OnChain(c, world, NetworkNext(c, a, n, action))
  {
    match action {
      case Mine(index) =>
        if index < |n.pool| {
          WithoutOne(n.pool, index, world.self);
          MinedOnChain(c, world, n, n.pool[index], n.pool[..index] + n.pool[index + 1..]);
        }
      case Drop(index) => if index < |n.pool| { WithoutOne(n.pool, index, world.self); }
      case Outside(tx) => if Chain.Genuine(n.world.self, tx) { MinedOnChain(c, world, n, tx, n.pool); }
      case _ =>
    }
  }

  lemma {:induction false} RunOnChain(c: Settings, world: Chain.World, clock: int, actions: seq<Action>)
    requires Chain.Genesis(world) && c.executor != 0 && c.executor != world.self
    ensures OnChain(c, world, Run(c, Start(world, clock), actions).network)
  {
    if actions != [] {
      var before := Run(c, Start(world, clock), actions[..|actions| - 1]);
      RunOnChain(c, world, clock, actions[..|actions| - 1]);
      Intents.RunSound(world, before.network.mined);
      StepOnChain(c, world, before.api, before.network, actions[|actions| - 1]);
    }
  }

  /** However handlers interleave, retry and lose replies, every intent is minted at most once. */
  lemma MintedAtMostOnce(c: Settings, world: Chain.World, clock: int, actions: seq<Action>, id: Bytes32)
    requires Chain.Genesis(world) && c.executor != 0 && c.executor != world.self
    ensures var w := Run(c, Start(world, clock), actions).network.world;
            && Sum(w.log, Accounting.MintsOf(id)) <= 1
            && (Sum(w.log, Accounting.MintsOf(id)) == 1 <==> Accounting.WasExecuted(w, id))
  {
    RunOnChain(c, world, clock, actions);
    Accounting.RunBalanced(world, Run(c, Start(world, clock), actions).network.mined);
  }

  // ---- stored records ----

  /** The call was made for this key and returned this response; the record is kept for the window. */
  predicate Backs(c: Settings, call: ClientCall, key: string, record: Rec) {
    && Key(call.request) == key && call.reply == Retry.Sent(record.response.txHash)
    && record.expiresAt == record.createdAt + c.window
    && match record.response
       case Processed(intentId, _) => call.request.Callback? && call.request.payload.intentId == intentId && record.statusCode == 200
       case Submitted(_) => call.request.MintRequest? && record.statusCode == 201
  }

  /** Some client call on behalf of this key returned without error, with this response. */
  ghost predicate Justified(c: Settings, calls: seq<ClientCall>, key: string, record: Rec) {
    exists k :: 0 <= k < |calls| && Backs(c, calls[k], key, record)
  }

  ghost predicate RecordsJustified(c: Settings, a: Api) {
    && (forall key | key in a.store :: Justified(c, a.calls, key, a.store[key]))
    && (forall h | h in a.handlers && a.handlers[h].pc.Saving? ::
          Justified(c, a.calls, Key(a.handlers[h].request), a.handlers[h].pc.record))
  }

  lemma JustifiedLater(c: Settings, calls: seq<ClientCall>, more: ClientCall, key: string, record: Rec)
    requires Justified(c, calls, key, record)
    ensures Justified(c, calls + [more], key, record)
  {
    var k :| 0 <= k < |calls| && Backs(c, calls[k], key, record);
    assert (calls + [more])[k] == calls[k];
  }

  /** One more call on record takes nothing away. */
  lemma StillJustified(c: Settings, a: Api, calls: seq<ClientCall>, call: ClientCall)
    requires RecordsJustified(c, a) && calls == a.calls + [call]
    ensures RecordsJustified(c, a.(calls := calls))
  {
    forall key | key in a.store ensures Justified(c, calls, key, a.store[key]) {
      JustifiedLater(c, a.calls, call, key, a.store[key]);
    }
    forall g | g in a.handlers && a.handlers[g].pc.Saving?
      ensures Justified(c, calls, Key(a.handlers[g].request), a.handlers[g].pc.record)
    {
      JustifiedLater(c, a.calls, call, Key(a.handlers[g].request), a.handlers[g].pc.record);
    }
  }

  lemma CallJustified(c: Settings, a: Api, h: nat, i: nat, reply: Retry.Reply)
    requires RecordsJustified(c, a) && h in a.handlers
    ensures RecordsJustified(c, AfterCall(c, a, h, i, reply))
  {
    var call := ClientCall(h, a.handlers[h].request, i, reply);
    StillJustified(c, a, a.calls + [call], call);
    assert (a.calls + [call])[|a.calls|] == call;
  }

  lemma StepJustified(c: Settings, a: Api, action: Action)
    requires RecordsJustified(c, a)
    ensures RecordsJustified(c, ApiNext(c, a, action))
  {
    match action {
      case Call(h, reply, broadcast) =>
        if h in a.handlers && a.handlers[h].pc.Attempt? {
          CallJustified(c, a, h, a.handlers[h].pc.i, ReplyTo(c, a.handlers[h].request, reply));
        }
      case _ =>
    }
  }

  /** A stored response exists only if a client call in a handler for its key returned it without error. */
  lemma {:induction false} StoredOnlyIfCalled(c: Settings, world: Chain.World, clock: int, actions: seq<Action>)
    ensures RecordsJustified(c, Run(c, Start(world, clock), actions).api)
  {
    if actions != [] {
      StoredOnlyIfCalled(c, world, clock, actions[..|actions| - 1]);
      StepJustified(c, Run(c, Start(world, clock), actions[..|actions| - 1]).api, actions[|actions| - 1]);
    }
  }
}
