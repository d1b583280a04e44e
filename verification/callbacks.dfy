/**
 * The API server as interleaved request handlers over a shared expiring store and the chain.
 *
 * Every action is one atomic step of one handler or of the environment.  An escrow-client call may
 * fail before or after its transaction was broadcast; broadcast transactions are mined in any order,
 * or never; store operations may fail; records may vanish at any time.
 */
module Callbacks {
  import opened Common
  import opened Stores
  import Retry
  import Chain
  import Escrow

  datatype Payload = Payload(intentId: string, txRef: string, userAddress: string, amount: string)

  datatype Request =
    /** POST /callbacks/mpesa, decoded and validated. */
    | Callback(payload: Payload)
    /** POST /mint-intents under an idempotency key; `submit` is None when the body is rejected. */
    | MintRequest(key: string, submit: Option<SubmitArgs>)

  datatype SubmitArgs = SubmitArgs(amount: nat, countryCode: Bytes32, txRef: Bytes32)

  /** The two response bodies that are ever stored. */
  datatype Body = Submitted(txHash: string) | Processed(intentId: string, txHash: string)

  type Rec = Record<Body>

  datatype Result_ = Replayed(record: Rec) | Fulfilled(record: Rec) | Refused(message: string)

  datatype Pc =
    | Lookup
    | Attempt(i: nat)                // about to make the i-th client call
    | Sleeping(i: nat)               // the i-th call failed, another will follow
    | Saving(record: Rec)            // the client call succeeded
    | DeadLetter(message: string)    // given up, entry still to be written
    | Done(result: Result_)

  /** `timestamp` is the signed request time and `verifiedAt` the moment it passed the freshness check. */
  datatype Handler = Handler(request: Request, timestamp: int, verifiedAt: int, pc: Pc)

  /** The handler's `attempt`-th client call and its reply. */
  datatype ClientCall = ClientCall(handler: nat, request: Request, attempt: nat, reply: Retry.Reply)

  /** fiatrails_retry_attempts_total and fiatrails_callbacks_total. */
  datatype Tally = Tally(success: nat, gaveUp: nat, retried: nat, cached: nat, processed: nat, failed: nat)

  datatype Settings = Settings(
    retry: Retry.Config, window: int, maxSkew: int, dlqEnabled: bool,
    executor: Address, hexToHash: string -> Bytes32)

  /** The client takes 66 characters starting with 0x for an id. */
  function DecodeId(c: Settings, id: string): Option<Bytes32> {
    if |id| != 66 || id[..2] != "0x" then None else Some(c.hexToHash(id))
  }

  datatype Api = Api(
    store: map<string, Rec>,
    clock: int,
    handlers: map<nat, Handler>,
    calls: seq<ClientCall>,
    tally: Tally,
    dlq: map<(int, string), Letter>,
    lost: nat)                       // dead letters that added no entry

  /** A dead-letter entry. */
  datatype Letter = Letter(payload: Payload, error: string)

  /** A transaction the client broadcast, and for whom. */
  datatype Broadcast = Broadcast(handler: nat, request: Request, tx: Chain.Tx)

  /** `sent` is the history of all broadcasts of the API, `mined` that of the chain. */
  datatype Network = Network(world: Chain.World, pool: seq<Chain.Tx>, mined: seq<Chain.Tx>, sent: seq<Broadcast>)

  datatype Action =
    | Arrive(h: nat, request: Request, timestamp: int)
    | Get(h: nat, works: bool)
    | Call(h: nat, reply: Retry.Reply, broadcast: bool)  // a failed call may have broadcast or not
    | Wake(h: nat, cancelled: bool)
    | Save(h: nat, works: bool)
    | WriteDeadLetter(h: nat, nanos: int, works: bool)
    | Evict(key: string)
    | Tick(duration: nat)
    | Mine(index: nat)
    | Drop(index: nat)
    | Outside(tx: Chain.Tx)

  const MPESA_PREFIX: string := "mpesa:"

  function Key(r: Request): string {
    match r
    case Callback(p) => MPESA_PREFIX + p.txRef
    case MintRequest(key, _) => key
  }

  /** `verify`: neither too old nor too far ahead. */
  predicate FreshRequest(timestamp: int, now: int, maxSkew: int) {
    now - timestamp <= maxSkew && timestamp - now <= maxSkew
  }

  /** The transaction a client call broadcasts, if the arguments get that far. */
  function TxOf(c: Settings, r: Request): Option<Chain.Tx> {
    match r
    case Callback(p) =>
      (match DecodeId(c, p.intentId)
       case Some(id) => Some(Chain.Tx(c.executor, Chain.OnEscrow(Escrow.Execute(id))))
       case None => None)
    case MintRequest(_, submit) =>
      match submit
      case Some(args) => Some(Chain.Tx(c.executor, Chain.OnEscrow(Escrow.Submit(args.amount, args.countryCode, args.txRef))))
      case None => None
  }

  function MoveTo(a: Api, h: nat, pc: Pc): Api
    requires h in a.handlers
  {
    a.(handlers := a.handlers[h := a.handlers[h].(pc := pc)])
  }

  function RecordFor(c: Settings, r: Request, txHash: string, now: int): Rec {
    match r
    case Callback(p) => Record(200, Processed(p.intentId, txHash), now, now + c.window)
    case MintRequest(_, _) => Record(201, Submitted(txHash), now, now + c.window)
  }

  function AfterGet(a: Api, h: nat, works: bool): Api
    requires h in a.handlers
  {
    var r := a.handlers[h].request;
    var found := Read(a.store, Key(r), a.clock);
    if works && found.Some? then
      MoveTo(a, h, Done(Replayed(found.value)))
        .(tally := if r.Callback? then a.tally.(cached := a.tally.cached + 1) else a.tally)
    else if r.MintRequest? && r.submit.None? then MoveTo(a, h, Done(Refused("invalid json payload")))
    else MoveTo(a, h, Attempt(1))
  }

  /** The reply as the handler sees it; a malformed id is refused before anything is sent. */
  function ReplyTo(c: Settings, r: Request, reply: Retry.Reply): Retry.Reply {
    if TxOf(c, r).None? then Retry.Failed("invalid intent id") else reply
  }

  function AfterCall(c: Settings, a: Api, h: nat, i: nat, reply: Retry.Reply): Api
    requires h in a.handlers
  {
    var r := a.handlers[h].request;
    var b := a.(calls := a.calls + [ClientCall(h, r, i, reply)]);
    match reply
    case Sent(txHash) =>
      MoveTo(b, h, Saving(RecordFor(c, r, txHash, a.clock)))
        .(tally := if r.Callback? then a.tally.(success := a.tally.success + 1) else a.tally)
    case Failed(message) =>
      if r.MintRequest? then MoveTo(b, h, Done(Refused(message)))
      else if !Retry.Retryable(message) || i >= c.retry.Attempts() then
        MoveTo(b, h, DeadLetter(message)).(tally := a.tally.(gaveUp := a.tally.gaveUp + 1, failed := a.tally.failed + 1))
      else
        MoveTo(b, h, Sleeping(i)).(tally := a.tally.(retried := a.tally.retried + 1))
  }

  function AfterWake(a: Api, h: nat, i: nat, cancelled: bool): Api
    requires h in a.handlers
  {
    if cancelled then
      MoveTo(a, h, DeadLetter("context canceled")).(tally := a.tally.(failed := a.tally.failed + 1))
    else MoveTo(a, h, Attempt(i + 1))
  }

  function AfterSave(a: Api, h: nat, record: Rec, works: bool): Api
    requires h in a.handlers
  {
    var r := a.handlers[h].request;
    MoveTo(a, h, Done(Fulfilled(record)))
      .(store := if works then a.store[Key(r) := record] else a.store,
        tally := if r.Callback? then a.tally.(processed := a.tally.processed + 1) else a.tally)
  }

  /** A dead letter is a file named by the time and the reference; an existing name is overwritten. */
  function AfterDeadLetter(c: Settings, a: Api, h: nat, message: string, nanos: int, works: bool): Api
    requires h in a.handlers && a.handlers[h].request.Callback?
  {
    var p := a.handlers[h].request.payload;
    var name := (nanos, p.txRef);
    MoveTo(a, h, Done(Refused(message)))
      .(dlq := if c.dlqEnabled && works then a.dlq[name := Letter(p, message)] else a.dlq,
        lost := if c.dlqEnabled && works && name !in a.dlq then a.lost else a.lost + 1)
  }

  /** One step of the server; an action that is not enabled does nothing. */
  function ApiNext(c: Settings, a: Api, action: Action): Api {
    match action
    case Arrive(h, request, timestamp) =>
      if h in a.handlers || !FreshRequest(timestamp, a.clock, c.maxSkew) then a
      else a.(handlers := a.handlers[h := Handler(request, timestamp, a.clock, Lookup)])
    case Get(h, works) =>
      if h in a.handlers && a.handlers[h].pc.Lookup? then AfterGet(a, h, works) else a
    case Call(h, reply, broadcast) =>
      if h in a.handlers && a.handlers[h].pc.Attempt? then
        AfterCall(c, a, h, a.handlers[h].pc.i, ReplyTo(c, a.handlers[h].request, reply))
      else a
    case Wake(h, cancelled) =>
      if h in a.handlers && a.handlers[h].pc.Sleeping? then AfterWake(a, h, a.handlers[h].pc.i, cancelled) else a
    case Save(h, works) =>
      if h in a.handlers && a.handlers[h].pc.Saving? then AfterSave(a, h, a.handlers[h].pc.record, works) else a
    case WriteDeadLetter(h, nanos, works) =>
      if h in a.handlers && a.handlers[h].pc.DeadLetter? && a.handlers[h].request.Callback? then
        AfterDeadLetter(c, a, h, a.handlers[h].pc.message, nanos, works)
      else a
    case Evict(key) => a.(store := a.store - {key})
    case Tick(duration) => a.(clock := a.clock + duration)
    case _ => a
  }

  /** The handler an action is about. */
  function Subject(action: Action): Option<nat> {
    match action
    case Arrive(h, _, _) => Some(h)
    case Get(h, _) => Some(h)
    case Call(h, _, _) => Some(h)
    case Wake(h, _) => Some(h)
    case Save(h, _) => Some(h)
    case WriteDeadLetter(h, _, _) => Some(h)
    case _ => None
  }

  /** It touches no other, and time does not run backwards. */
  lemma OthersStay(c: Settings, a: Api, action: Action, g: nat)
    requires Subject(action) != Some(g)
    ensures g in ApiNext(c, a, action).handlers <==> g in a.handlers
    ensures g in a.handlers ==> ApiNext(c, a, action).handlers[g] == a.handlers[g]
    ensures a.clock <= ApiNext(c, a, action).clock
  {
    if Subject(action).Some? && Subject(action).value in a.handlers { SubjectMoves(c, a, action, Subject(action).value); }
  }

  /** How one step moves a handler: the edges of its control flow. */
  predicate PcNext(c: Settings, a: Api, h: Handler, next: Pc) {
    match h.pc
    case Lookup =>
      || next == Attempt(1)
      || (next.Done? && next.result.Refused?)
      || (next.Done? && next.result.Replayed? && Read(a.store, Key(h.request), a.clock) == Some(next.result.record))
    case Attempt(i) =>
      || next.Saving? || next.DeadLetter? || (next.Done? && next.result.Refused?)
      || (next == Sleeping(i) && i < c.retry.Attempts())
    case Sleeping(i) => next == Attempt(i + 1) || next.DeadLetter?
    case Saving(record) => next == Done(Fulfilled(record))
    case DeadLetter(_) => next.Done? && next.result.Refused?
    case Done(_) => false
  }

  /** The action leaves all handlers alone, or moves its own along an edge. */
  ghost predicate MovesOwn(c: Settings, a: Api, b: Api, h: nat)
    requires h in a.handlers
  {
    && b.clock == a.clock && h in b.handlers
    && (b.handlers == a.handlers
        || (b.handlers == a.handlers[h := a.handlers[h].(pc := b.handlers[h].pc)] && PcNext(c, a, a.handlers[h], b.handlers[h].pc)))
  }

  lemma CallMovesOwn(c: Settings, a: Api, h: nat, i: nat, reply: Retry.Reply)
    requires h in a.handlers && a.handlers[h].pc == Attempt(i)
    ensures MovesOwn(c, a, AfterCall(c, a, h, i, reply), h)
  {
  }

  lemma SubjectMoves(c: Settings, a: Api, action: Action, h: nat)
    requires Subject(action) == Some(h) && h in a.handlers
    ensures MovesOwn(c, a, ApiNext(c, a, action), h)
    ensures !action.Call? ==> ApiNext(c, a, action).calls == a.calls
  {
    match action {
      case Call(_, reply, _) =>
        if a.handlers[h].pc.Attempt? {
          CallMovesOwn(c, a, h, a.handlers[h].pc.i, ReplyTo(c, a.handlers[h].request, reply));
        }
      case _ =>
    }
  }

  function NetworkNext(c: Settings, a: Api, n: Network, action: Action): Network {
    match action
    case Call(h, reply, broadcast) =>
      if h in a.handlers && a.handlers[h].pc.Attempt? && (reply.Sent? || broadcast) && TxOf(c, a.handlers[h].request).Some? then
        var tx := TxOf(c, a.handlers[h].request).value;
        n.(pool := n.pool + [tx], sent := n.sent + [Broadcast(h, a.handlers[h].request, tx)])
      else n
    case Mine(index) =>
      if index < |n.pool| then
        n.(world := Chain.Step(n.world, n.pool[index]), pool := n.pool[..index] + n.pool[index + 1..], mined := n.mined + [n.pool[index]])
      else n
    case Drop(index) => if index < |n.pool| then n.(pool := n.pool[..index] + n.pool[index + 1..]) else n
    case Outside(tx) =>
      if Chain.Genuine(n.world.self, tx) then n.(world := Chain.Step(n.world, tx), mined := n.mined + [tx]) else n
    case _ => n
  }

  datatype System = System(api: Api, network: Network)

  function Next(c: Settings, s: System, action: Action): System {
    System(ApiNext(c, s.api, action), NetworkNext(c, s.api, s.network, action))
  }

  function Run(c: Settings, s: System, actions: seq<Action>): System {
    if actions == [] then s else Next(c, Run(c, s, actions[..|actions| - 1]), actions[|actions| - 1])
  }

  function Start(world: Chain.World, clock: int): System {
    System(Api(map[], clock, map[], [], Tally(0, 0, 0, 0, 0, 0), map[], 0), Network(world, [], [], []))
  }

  /** Only the API's own broadcasts and genuine outside transactions reach the chain. */
  ghost predicate OnChain(c: Settings, world: Chain.World, n: Network) {
    && n.world == Chain.Run(world, n.mined) && Chain.GenuineRun(world, n.mined)
    && (forall tx | tx in n.pool :: Chain.Genuine(world.self, tx))
  }
}
