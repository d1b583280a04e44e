/** Every client call and every callback is counted exactly once; dead letters match failures. */
module CallbackAccounting {
  import opened Common
  import opened Sums
  import opened Callbacks
  import Retry
  import Chain

  function One(b: bool): nat { if b then 1 else 0 }

  predicate CachedPc(pc: Pc) { pc.Done? && pc.result.Replayed? }
  predicate ProcessedPc(pc: Pc) { pc.Done? && pc.result.Fulfilled? }
  predicate FailedPc(pc: Pc) { pc.DeadLetter? || (pc.Done? && pc.result.Refused?) }

  function IsCached(): Handler -> nat { (h: Handler) => One(h.request.Callback? && CachedPc(h.pc)) }
  function IsProcessed(): Handler -> nat { (h: Handler) => One(h.request.Callback? && ProcessedPc(h.pc)) }
  function IsFailed(): Handler -> nat { (h: Handler) => One(h.request.Callback? && FailedPc(h.pc)) }

  /** A callback whose outcome is settled: answered from the store, processed, or given up. */
  function IsSettled(): Handler -> nat { (h: Handler) => One(h.request.Callback? && (h.pc.Done? || h.pc.DeadLetter?)) }

  /** A failed callback whose dead letter has been dealt with. */
  function IsBuried(): Handler -> nat { (h: Handler) => One(h.request.Callback? && h.pc.Done? && h.pc.result.Refused?) }

  function ForCallback(): ClientCall -> nat { (c: ClientCall) => One(c.request.Callback?) }

  /** A callback's call that succeeded, that was the last of its loop, that was to be followed by another. */
  function IsSent(): ClientCall -> nat { (c: ClientCall) => One(c.request.Callback? && c.reply.Sent?) }
  predicate WorthRetrying(c: Settings, call: ClientCall) {
    call.reply.Failed? && Retry.Retryable(call.reply.message) && call.attempt < c.retry.Attempts()
  }
  function IsGivenUp(c: Settings): ClientCall -> nat {
    (call: ClientCall) => One(call.request.Callback? && call.reply.Failed? && !WorthRetrying(c, call))
  }
  function IsRetried(c: Settings): ClientCall -> nat {
    (call: ClientCall) => One(call.request.Callback? && WorthRetrying(c, call))
  }

  /** Each counter is the number of calls of its kind, and the kinds make up all calls for callbacks. */
  ghost predicate CallsCounted(c: Settings, a: Api) {
    && a.tally.success == Sum(a.calls, IsSent())
    && a.tally.gaveUp == Sum(a.calls, IsGivenUp(c))
    && a.tally.retried == Sum(a.calls, IsRetried(c))
    && a.tally.success + a.tally.gaveUp + a.tally.retried == Sum(a.calls, ForCallback())
  }

  ghost predicate OutcomesCounted(a: Api) {
    && a.tally.cached == Total(a.handlers, IsCached())
    && a.tally.processed == Total(a.handlers, IsProcessed())
    && a.tally.failed == Total(a.handlers, IsFailed())
    && a.tally.cached + a.tally.processed + a.tally.failed == Total(a.handlers, IsSettled())
  }

  ghost predicate LettersCounted(a: Api) {
    |a.dlq| + a.lost == Total(a.handlers, IsBuried())
  }

  lemma CallCounted(c: Settings, a: Api, h: nat, i: nat, reply: Retry.Reply)
    requires CallsCounted(c, a) && h in a.handlers
    ensures CallsCounted(c, AfterCall(c, a, h, i, reply))
  {
    var call := ClientCall(h, a.handlers[h].request, i, reply);
    SumAppend(a.calls, call, IsSent());
    SumAppend(a.calls, call, IsGivenUp(c));
    SumAppend(a.calls, call, IsRetried(c));
    SumAppend(a.calls, call, ForCallback());
  }

  lemma StepCalls(c: Settings, a: Api, action: Action)
    requires CallsCounted(c, a)
    ensures CallsCounted(c, ApiNext(c, a, action))
  {
    if action.Call? && action.h in a.handlers && a.handlers[action.h].pc.Attempt? {
      var h := a.handlers[action.h];
      CallCounted(c, a, action.h, h.pc.i, ReplyTo(c, h.request, action.reply));
    }
  }

  /** A counter that follows a moved handler still agrees with its class. */
  lemma CountMoved(m: map<nat, Handler>, h: nat, x: Handler, f: Handler -> nat, before: nat, after: nat)
    requires h in m && before == Total(m, f) && after - before == f(x) - f(m[h])
    ensures after == Total(m[h := x], f)
  {
    TotalReplace(m, h, x, f);
  }

  lemma Arrived(a: Api, h: nat, x: Handler)
    requires h !in a.handlers && x.pc.Lookup?
    ensures Total(a.handlers[h := x], IsCached()) == Total(a.handlers, IsCached())
    ensures Total(a.handlers[h := x], IsProcessed()) == Total(a.handlers, IsProcessed())
    ensures Total(a.handlers[h := x], IsFailed()) == Total(a.handlers, IsFailed())
    ensures Total(a.handlers[h := x], IsSettled()) == Total(a.handlers, IsSettled())
    ensures Total(a.handlers[h := x], IsBuried()) == Total(a.handlers, IsBuried())
  {
    TotalAdd(a.handlers, h, x, IsCached());
    TotalAdd(a.handlers, h, x, IsProcessed());
    TotalAdd(a.handlers, h, x, IsFailed());
    TotalAdd(a.handlers, h, x, IsSettled());
    TotalAdd(a.handlers, h, x, IsBuried());
  }

  /** The handler an action moves. */
  function Mover(action: Action): Option<nat> { if action.Arrive? then None else Subject(action) }

  ghost predicate Counted(a: Api) { OutcomesCounted(a) && LettersCounted(a) }

  /** Counters follow the move of one handler. */
  ghost predicate Follows(a: Api, b: Api, x: Handler, y: Handler) {
    && b.tally.cached - a.tally.cached == IsCached()(y) - IsCached()(x)
    && b.tally.processed - a.tally.processed == IsProcessed()(y) - IsProcessed()(x)
    && b.tally.failed - a.tally.failed == IsFailed()(y) - IsFailed()(x)
    && IsSettled()(y) - IsSettled()(x) ==
         IsCached()(y) - IsCached()(x) + IsProcessed()(y) - IsProcessed()(x) + IsFailed()(y) - IsFailed()(x)
    && |b.dlq| + b.lost - (|a.dlq| + a.lost) == IsBuried()(y) - IsBuried()(x)
  }

  /** b is a with handler h replaced, and the counters followed. */
  ghost predicate MovedWell(a: Api, b: Api, h: nat) {
    && h in a.handlers && h in b.handlers && b.handlers == a.handlers[h := b.handlers[h]]
    && Follows(a, b, a.handlers[h], b.handlers[h])
  }

  lemma GetMoves(a: Api, h: nat, works: bool)
    requires h in a.handlers && a.handlers[h].pc.Lookup?
    ensures MovedWell(a, AfterGet(a, h, works), h)
  {
  }

  lemma CallMoves(c: Settings, a: Api, h: nat, i: nat, reply: Retry.Reply)
    requires h in a.handlers && a.handlers[h].pc.Attempt?
    ensures MovedWell(a, AfterCall(c, a, h, i, reply), h)
  {
  }

  lemma WakeMoves(a: Api, h: nat, i: nat, cancelled: bool)
    requires h in a.handlers && a.handlers[h].pc.Sleeping? && a.handlers[h].request.Callback?
    ensures MovedWell(a, AfterWake(a, h, i, cancelled), h)
  {
  }

  lemma SaveMoves(a: Api, h: nat, record: Rec, works: bool)
    requires h in a.handlers && a.handlers[h].pc.Saving?
    ensures MovedWell(a, AfterSave(a, h, record, works), h)
  {
  }

  lemma LetterMoves(c: Settings, a: Api, h: nat, message: string, nanos: int, works: bool)
    requires h in a.handlers && a.handlers[h].pc.DeadLetter? && a.handlers[h].request.Callback?
    ensures MovedWell(a, AfterDeadLetter(c, a, h, message, nanos, works), h)
  {
    var name := (nanos, a.handlers[h].request.payload.txRef);
    assert a.dlq[name := Letter(a.handlers[h].request.payload, message)].Keys == a.dlq.Keys + {name};
  }

  /** Only callbacks are retried. */
  ghost predicate OnlyCallbacksSleep(a: Api) {
    forall h | h in a.handlers && a.handlers[h].pc.Sleeping? :: a.handlers[h].request.Callback?
  }

  lemma StepSleep(c: Settings, a: Api, action: Action)
    requires OnlyCallbacksSleep(a)
    ensures OnlyCallbacksSleep(ApiNext(c, a, action))
  {
  }

  lemma MoveFollows(c: Settings, a: Api, action: Action, h: nat)
    requires OnlyCallbacksSleep(a) && Mover(action) == Some(h)
    ensures ApiNext(c, a, action) == a || MovedWell(a, ApiNext(c, a, action), h)
  {
    if h in a.handlers {
      match action {
        case Get(_, works) => if a.handlers[h].pc.Lookup? { GetMoves(a, h, works); }
        case Call(_, reply, _) =>
          if a.handlers[h].pc.Attempt? {
            CallMoves(c, a, h, a.handlers[h].pc.i, ReplyTo(c, a.handlers[h].request, reply));
          }
        case Wake(_, cancelled) => if a.handlers[h].pc.Sleeping? { WakeMoves(a, h, a.handlers[h].pc.i, cancelled); }
        case Save(_, works) => if a.handlers[h].pc.Saving? { SaveMoves(a, h, a.handlers[h].pc.record, works); }
        case WriteDeadLetter(_, nanos, works) =>
          if a.handlers[h].pc.DeadLetter? && a.handlers[h].request.Callback? {
            LetterMoves(c, a, h, a.handlers[h].pc.message, nanos, works);
          }
        case _ =>
      }
    }
  }

  lemma MovedCounted(a: Api, b: Api, h: nat)
    requires Counted(a) && MovedWell(a, b, h)
    ensures Counted(b)
  {
    var m, x, t, t' := a.handlers, b.handlers[h], a.tally, b.tally;
    CountMoved(m, h, x, IsCached(), t.cached, t'.cached);
    CountMoved(m, h, x, IsProcessed(), t.processed, t'.processed);
    CountMoved(m, h, x, IsFailed(), t.failed, t'.failed);
    CountMoved(m, h, x, IsSettled(), t.cached + t.processed + t.failed, t'.cached + t'.processed + t'.failed);
    CountMoved(m, h, x, IsBuried(), |a.dlq| + a.lost, |b.dlq| + b.lost);
  }

  lemma ArrivedCounted(a: Api, h: nat, x: Handler)
    requires Counted(a) && h !in a.handlers && x.pc.Lookup?
    ensures Counted(a.(handlers := a.handlers[h := x]))
  {
    Arrived(a, h, x);
  }

  lemma StepCounted(c: Settings, a: Api, action: Action)
    requires Counted(a) && OnlyCallbacksSleep(a)
    ensures Counted(ApiNext(c, a, action))
  {
    var b := ApiNext(c, a, action);
    match Mover(action) {
      case Some(h) =>
        MoveFollows(c, a, action, h);
        if b != a { MovedCounted(a, b, h); }
      case None =>
        if action.Arrive? && b != a {
          ArrivedCounted(a, action.h, Handler(action.request, action.timestamp, a.clock, Lookup));
        } else {
          assert b.handlers == a.handlers && b.tally == a.tally && b.dlq == a.dlq && b.lost == a.lost;
        }
    }
  }

  /** Over every run: calls split into success, failed and retry; callbacks into cached, processed and failed. */
  lemma {:induction false} EverythingCountedOnce(c: Settings, world: Chain.World, clock: int, actions: seq<Action>)
    ensures var a := Run(c, Start(world, clock), actions).api;
            CallsCounted(c, a) && OutcomesCounted(a) && LettersCounted(a) && OnlyCallbacksSleep(a)
  {
    if actions != [] {
      var before := Run(c, Start(world, clock), actions[..|actions| - 1]);
      EverythingCountedOnce(c, world, clock, actions[..|actions| - 1]);
      StepCalls(c, before.api, actions[|actions| - 1]);
      StepCounted(c, before.api, actions[|actions| - 1]);
      StepSleep(c, before.api, actions[|actions| - 1]);
    }
  }

  // ---- dead letters ----

  /** The action writes a dead letter that adds no entry: no directory, a failed write, or a name already taken. */
  predicate LosesLetter(c: Settings, a: Api, action: Action) {
    && action.WriteDeadLetter? && action.h in a.handlers && a.handlers[action.h].pc.DeadLetter?
    && a.handlers[action.h].request.Callback?
    && !(c.dlqEnabled && action.works && (action.nanos, a.handlers[action.h].request.payload.txRef) !in a.dlq)
  }

  predicate NoLetterLost(c: Settings, s: System, actions: seq<Action>) {
    actions == []
    || (var n := |actions| - 1;
        NoLetterLost(c, s, actions[..n]) && !LosesLetter(c, Run(c, s, actions[..n]).api, actions[n]))
  }

  lemma StepLost(c: Settings, a: Api, action: Action)
    ensures ApiNext(c, a, action).lost == a.lost + One(LosesLetter(c, a, action))
  {
  }

  lemma {:induction false} LostIff(c: Settings, world: Chain.World, clock: int, actions: seq<Action>)
    ensures Run(c, Start(world, clock), actions).api.lost == 0 <==> NoLetterLost(c, Start(world, clock), actions)
  {
    if actions != [] {
      LostIff(c, world, clock, actions[..|actions| - 1]);
      StepLost(c, Run(c, Start(world, clock), actions[..|actions| - 1]).api, actions[|actions| - 1]);
    }
  }

  /** The directory holds one entry per buried failure exactly when no write failed and no name repeated. */
  lemma OneLetterPerFailureIff(c: Settings, world: Chain.World, clock: int, actions: seq<Action>)
    ensures var a := Run(c, Start(world, clock), actions).api;
            |a.dlq| == Total(a.handlers, IsBuried()) <==> NoLetterLost(c, Start(world, clock), actions)
  {
    EverythingCountedOnce(c, world, clock, actions);
    LostIff(c, world, clock, actions);
  }

  // ---- the bound on calls, under interleaving ----

  function CallsBy(h: nat): ClientCall -> nat { (c: ClientCall) => One(c.handler == h) }

  predicate Within(c: Settings, pc: Pc, made: nat) {
    match pc
    case Lookup => made == 0
    case Attempt(i) => 1 <= i <= c.retry.Attempts() && made == i - 1
    case Sleeping(i) => 1 <= i < c.retry.Attempts() && made == i
    case _ => made <= c.retry.Attempts()
  }

  /** A call's number is one more than the calls its handler made before. */
  ghost predicate Numbered(calls: seq<ClientCall>) {
    forall j | 0 <= j < |calls| :: calls[j].attempt == Sum(calls[..j], CallsBy(calls[j].handler)) + 1
  }

  lemma NumberedAppend(calls: seq<ClientCall>, call: ClientCall)
    requires Numbered(calls) && call.attempt == Sum(calls, CallsBy(call.handler)) + 1
    ensures Numbered(calls + [call])
  {
    var all := calls + [call];
    forall j | 0 <= j < |all| ensures all[j].attempt == Sum(all[..j], CallsBy(all[j].handler)) + 1 {
      assert all[..j] == calls[..j];
      if j == |calls| { assert calls[..j] == calls; }
    }
  }

  ghost predicate CallsBounded(c: Settings, a: Api) {
    && (forall h: nat | h in a.handlers :: Within(c, a.handlers[h].pc, Sum(a.calls, CallsBy(h))))
    && (forall h: nat | h !in a.handlers :: Sum(a.calls, CallsBy(h)) == 0)
  }

  /** A handler that moved without a call stays within its bound if its new state allows the calls it made. */
  lemma MovedBounded(c: Settings, a: Api, b: Api, h: nat)
    requires CallsBounded(c, a) && b.calls == a.calls
    requires h in b.handlers && b.handlers == a.handlers[h := b.handlers[h]]
    requires Within(c, b.handlers[h].pc, Sum(a.calls, CallsBy(h)))
    ensures CallsBounded(c, b)
  {
  }

  lemma CallBounded(c: Settings, a: Api, b: Api, h: nat, call: ClientCall)
    requires CallsBounded(c, a) && b.calls == a.calls + [call] && call.handler == h
    requires h in b.handlers && b.handlers == a.handlers[h := b.handlers[h]]
    requires Within(c, b.handlers[h].pc, Sum(a.calls, CallsBy(h)) + 1)
    ensures CallsBounded(c, b)
  {
    forall g: nat ensures Sum(b.calls, CallsBy(g)) == Sum(a.calls, CallsBy(g)) + One(g == h) {
      SumAppend(a.calls, call, CallsBy(g));
    }
  }

  /** A move without a call leads to a state that allows the calls made so far. */
  lemma QuietMoveWithin(c: Settings, a: Api, action: Action, h: nat)
    requires CallsBounded(c, a) && Mover(action) == Some(h) && h in a.handlers && !action.Call?
    ensures var b := ApiNext(c, a, action);
            && b.calls == a.calls && h in b.handlers && b.handlers == a.handlers[h := b.handlers[h]]
            && Within(c, b.handlers[h].pc, Sum(a.calls, CallsBy(h)))
  {
    assert Within(c, a.handlers[h].pc, Sum(a.calls, CallsBy(h)));
    SubjectMoves(c, a, action, h);
    assert a.handlers == a.handlers[h := a.handlers[h]];
  }

  lemma CallWithin(c: Settings, a: Api, h: nat, reply: Retry.Reply)
    requires CallsBounded(c, a) && h in a.handlers && a.handlers[h].pc.Attempt?
    ensures CallsBounded(c, AfterCall(c, a, h, a.handlers[h].pc.i, reply))
  {
    assert Within(c, a.handlers[h].pc, Sum(a.calls, CallsBy(h)));
    var b := AfterCall(c, a, h, a.handlers[h].pc.i, reply);
    CallBounded(c, a, b, h, ClientCall(h, a.handlers[h].request, a.handlers[h].pc.i, reply));
  }

  lemma StepBounded(c: Settings, a: Api, action: Action)
    requires CallsBounded(c, a)
    ensures CallsBounded(c, ApiNext(c, a, action))
  {
    var b := ApiNext(c, a, action);
    if action.Call? {
      if action.h in a.handlers && a.handlers[action.h].pc.Attempt? {
        CallWithin(c, a, action.h, ReplyTo(c, a.handlers[action.h].request, action.reply));
      }
    } else if Mover(action).Some? && Mover(action).value in a.handlers {
      QuietMoveWithin(c, a, action, Mover(action).value);
      MovedBounded(c, a, b, Mover(action).value);
    } else if action.Arrive? && b != a {
      MovedBounded(c, a, b, action.h);
    }
  }

  lemma StepNumbered(c: Settings, a: Api, action: Action)
    requires CallsBounded(c, a) && Numbered(a.calls)
    ensures Numbered(ApiNext(c, a, action).calls)
  {
    if action.Call? {
      if action.h in a.handlers && a.handlers[action.h].pc.Attempt? {
        var h := a.handlers[action.h];
        assert Within(c, h.pc, Sum(a.calls, CallsBy(action.h)));
        NumberedAppend(a.calls, ClientCall(action.h, h.request, h.pc.i, ReplyTo(c, h.request, action.reply)));
      }
    } else if Subject(action).Some? && Subject(action).value in a.handlers {
      SubjectMoves(c, a, action, Subject(action).value);
    }
  }

  /** No handler ever makes more than max(1, MaxAttempts) client calls, and they are numbered from 1. */
  lemma {:induction false} RunBounded(c: Settings, world: Chain.World, clock: int, actions: seq<Action>)
    ensures CallsBounded(c, Run(c, Start(world, clock), actions).api)
    ensures Numbered(Run(c, Start(world, clock), actions).api.calls)
  {
    if actions != [] {
      RunBounded(c, world, clock, actions[..|actions| - 1]);
      StepBounded(c, Run(c, Start(world, clock), actions[..|actions| - 1]).api, actions[|actions| - 1]);
      StepNumbered(c, Run(c, Start(world, clock), actions[..|actions| - 1]).api, actions[|actions| - 1]);
    }
  }
}
