/** The interleaved handlers against the retry loop: lookups, attempts and dead letters. */
module HandlerLoop {
  import opened Common
  import opened Stores
  import opened Callbacks
  import Broadcasts
  import Retry
  import Chain

  function MaxCalls(c: Settings): nat { if c.retry.maxAttempts > 1 then c.retry.maxAttempts else 1 }

  // ---- the lookup ----

  /** A handler is answered from the store exactly when the lookup works and finds a record that has not expired. */
  lemma LookupAnswersIff(c: Settings, a: Api, h: nat, works: bool)
    requires h in a.handlers && a.handlers[h].pc.Lookup?
    ensures var x, b, key := a.handlers[h], ApiNext(c, a, Get(h, works)), Key(a.handlers[h].request);
            && h in b.handlers && b.store == a.store
            && b.handlers[h].pc ==
                 (if works && key in a.store && a.clock <= a.store[key].expiresAt then Done(Replayed(a.store[key]))
                  else if x.request.MintRequest? && x.request.submit.None? then Done(Refused("invalid json payload"))
                  else Attempt(1))
  {
  }

  // ---- attempts ----

  /** A callback's call that another one may follow: it failed, not for good, and was not the last allowed. */
  ghost predicate Again(c: Settings, call: ClientCall) {
    call.request.Callback? && call.reply.Failed? && !Retry.FinalMessage(call.reply.message) && call.attempt < MaxCalls(c)
  }

  predicate Stopped(pc: Pc) { pc.Saving? || pc.DeadLetter? || pc.Done? }

  ghost predicate CallKnown(c: Settings, a: Api, call: ClientCall) {
    && call.handler in a.handlers && a.handlers[call.handler].request == call.request
    && (!Again(c, call) ==> Stopped(a.handlers[call.handler].pc))
  }

  /** Whatever is called again had a reason to be. */
  ghost predicate LoopLike(c: Settings, a: Api) {
    && (forall k | 0 <= k < |a.calls| :: CallKnown(c, a, a.calls[k]))
    && (forall j, k | 0 <= j < k < |a.calls| && a.calls[j].handler == a.calls[k].handler :: Again(c, a.calls[j]))
  }

  lemma CallerKnown(c: Settings, a: Api, h: nat, i: nat, reply: Retry.Reply)
    requires h in a.handlers
    ensures CallKnown(c, AfterCall(c, a, h, i, reply), ClientCall(h, a.handlers[h].request, i, reply))
  {
    if reply.Failed? { Retry.RetryableIff(reply.message); }
  }

  lemma StillKnown(c: Settings, a: Api, action: Action, call: ClientCall)
    requires CallKnown(c, a, call)
    ensures CallKnown(c, ApiNext(c, a, action), call)
  {
    if Subject(action) == Some(call.handler) {
      SubjectMoves(c, a, action, call.handler);
    } else {
      OthersStay(c, a, action, call.handler);
    }
  }

  lemma StepLoopLike(c: Settings, a: Api, action: Action)
    requires LoopLike(c, a)
    ensures LoopLike(c, ApiNext(c, a, action))
  {
    var b := ApiNext(c, a, action);
    Broadcasts.CallStep(c, a, action);
    forall k | 0 <= k < |b.calls| ensures CallKnown(c, b, b.calls[k]) {
      if k < |a.calls| {
        StillKnown(c, a, action, a.calls[k]);
      } else {
        CallerKnown(c, a, action.h, a.handlers[action.h].pc.i, ReplyTo(c, a.handlers[action.h].request, action.reply));
      }
    }
    forall j, k | 0 <= j < k < |b.calls| && b.calls[j].handler == b.calls[k].handler ensures Again(c, b.calls[j]) {
      assert CallKnown(c, a, a.calls[j]);
    }
  }

  /**
   * Over every run, however handlers interleave, each makes its calls like the loop: a second call follows only a failure
   * that does not name the user as not compliant or anything as invalid, and only below max(1, MaxAttempts).
   */
  lemma {:induction false} CallsFollowLoop(c: Settings, world: Chain.World, clock: int, actions: seq<Action>)
    ensures LoopLike(c, Run(c, Start(world, clock), actions).api)
  {
    if actions != [] {
      CallsFollowLoop(c, world, clock, actions[..|actions| - 1]);
      StepLoopLike(c, Run(c, Start(world, clock), actions[..|actions| - 1]).api, actions[|actions| - 1]);
    }
  }

  // ---- progress ----

  /** What one reply does to a callback about to make its i-th call with a well-formed id. */
  lemma ReplyMoves(c: Settings, a: Api, h: nat, i: nat, reply: Retry.Reply, broadcast: bool)
    requires h in a.handlers && a.handlers[h].pc == Attempt(i) && a.handlers[h].request.Callback?
    requires DecodeId(c, a.handlers[h].request.payload.intentId).Some?
    ensures var p, b := a.handlers[h].request.payload, ApiNext(c, a, Call(h, reply, broadcast));
            && h in b.handlers && b.store == a.store && b.clock == a.clock
            && b.handlers[h] == a.handlers[h].(pc := b.handlers[h].pc)
            && match reply
               case Sent(txHash) => b.handlers[h].pc == Saving(Record(200, Processed(p.intentId, txHash), a.clock, a.clock + c.window))
               case Failed(m) =>
                 b.handlers[h].pc == if !Retry.FinalMessage(m) && i < MaxCalls(c) then Sleeping(i) else DeadLetter(m)
  {
    if reply.Failed? { Retry.RetryableIff(reply.message); }
  }

  lemma MalformedIsFinal()
    ensures Retry.FinalMessage("invalid intent id")
  {
    var message := "invalid intent id";
    assert message[0] == 'i' && message[1] == 'n' && message[2] == 'v' && message[3] == 'a';
    assert message[4] == 'l' && message[5] == 'i' && message[6] == 'd';
    assert message == "" + message[..7] + message[7..];
    assert Retry.SaysInvalid(message[..7]) && Retry.Around(message, "", message[..7], message[7..]);
  }

  /** A malformed id is given up at the first attempt, whatever the node would have said, and nothing is broadcast. */
  lemma MalformedGivesUp(c: Settings, s: System, h: nat, i: nat, reply: Retry.Reply, broadcast: bool)
    requires h in s.api.handlers && s.api.handlers[h].pc == Attempt(i) && s.api.handlers[h].request.Callback?
    requires var id := s.api.handlers[h].request.payload.intentId; |id| != 66 || id[..2] != "0x"
    ensures var t := Next(c, s, Call(h, reply, broadcast));
            && h in t.api.handlers && t.api.handlers[h].pc == DeadLetter("invalid intent id")
            && t.network == s.network
  {
    MalformedIsFinal();
    Retry.RetryableIff("invalid intent id");
  }

  /** A mint request makes one call: its response is kept with status 201, or its error returned. */
  lemma MintReplyMoves(c: Settings, a: Api, h: nat, i: nat, reply: Retry.Reply, broadcast: bool)
    requires h in a.handlers && a.handlers[h].pc == Attempt(i) && a.handlers[h].request.MintRequest?
    requires a.handlers[h].request.submit.Some?
    ensures var b := ApiNext(c, a, Call(h, reply, broadcast));
            && h in b.handlers
            && b.handlers[h].pc == match reply
                 case Sent(txHash) => Saving(Record(201, Submitted(txHash), a.clock, a.clock + c.window))
                 case Failed(message) => Done(Refused(message))
  {
  }

  /** After a sleep the next call follows, unless the request was cancelled. */
  lemma WakeMoves(c: Settings, a: Api, h: nat, i: nat, cancelled: bool)
    requires h in a.handlers && a.handlers[h].pc == Sleeping(i)
    ensures var b := ApiNext(c, a, Wake(h, cancelled));
            && b.store == a.store && b.clock == a.clock && h in b.handlers
            && b.handlers[h] == a.handlers[h].(pc := if cancelled then DeadLetter("context canceled") else Attempt(i + 1))
  {
  }

  /** Failed calls with these messages, each followed by a sleep. */
  function Tries(h: nat, messages: seq<string>): seq<Action> {
    if messages == [] then []
    else Tries(h, messages[..|messages| - 1]) + [Call(h, Retry.Failed(messages[|messages| - 1]), false), Wake(h, false)]
  }

  lemma TwoMore(c: Settings, s: System, actions: seq<Action>, x: Action, y: Action)
    ensures Run(c, s, actions + [x, y]) == Next(c, Next(c, Run(c, s, actions), x), y)
  {
    var all := actions + [x, y];
    assert all[..|all| - 1] == actions + [x];
    assert (actions + [x])[..|actions|] == actions;
  }

  /** Transient failures, fewer than max(1, MaxAttempts), bring the handler to its next attempt and nothing else. */
  lemma {:induction false} TriesGoOn(c: Settings, s: System, h: nat, messages: seq<string>)
    requires h in s.api.handlers && s.api.handlers[h].pc == Attempt(1) && s.api.handlers[h].request.Callback?
    requires DecodeId(c, s.api.handlers[h].request.payload.intentId).Some?
    requires |messages| < MaxCalls(c) && forall k | 0 <= k < |messages| :: !Retry.FinalMessage(messages[k])
    ensures var b := Run(c, s, Tries(h, messages)).api;
            && h in b.handlers && b.handlers[h] == s.api.handlers[h].(pc := Attempt(|messages| + 1))
            && b.store == s.api.store && b.clock == s.api.clock
  {
    if messages != [] {
      var n := |messages| - 1;
      var rest, message := messages[..n], messages[n];
      TriesGoOn(c, s, h, rest);
      var t := Run(c, s, Tries(h, rest));
      ReplyMoves(c, t.api, h, n + 1, Retry.Failed(message), false);
      var t1 := Next(c, t, Call(h, Retry.Failed(message), false));
      WakeMoves(c, t1.api, h, n + 1, false);
      TwoMore(c, s, Tries(h, rest), Call(h, Retry.Failed(message), false), Wake(h, false));
    }
  }

  // ---- dead letters ----

  /** Handler h is a callback that was refused with this error. */
  predicate RefusedWith(a: Api, h: nat, letter: Letter) {
    && h in a.handlers && a.handlers[h].request == Callback(letter.payload) && a.handlers[h].pc == Done(Refused(letter.error))
  }

  /** Every entry is the payload and the error of a failed callback, filed under its reference. */
  ghost predicate LettersTrue(a: Api) {
    forall name | name in a.dlq :: name.1 == a.dlq[name].payload.txRef && exists h :: RefusedWith(a, h, a.dlq[name])
  }

  /** The directory changes only when a handler that gave up files its own payload and error. */
  lemma LetterStep(c: Settings, a: Api, action: Action)
    ensures var b := ApiNext(c, a, action);
            if action.WriteDeadLetter? && action.h in a.handlers && a.handlers[action.h].pc.DeadLetter?
               && a.handlers[action.h].request.Callback? && c.dlqEnabled && action.works
            then
              var letter := Letter(a.handlers[action.h].request.payload, a.handlers[action.h].pc.message);
              b.dlq == a.dlq[(action.nanos, letter.payload.txRef) := letter] && RefusedWith(b, action.h, letter)
            else b.dlq == a.dlq
  {
  }

  lemma RefusedStays(c: Settings, a: Api, action: Action, h: nat, letter: Letter)
    requires RefusedWith(a, h, letter)
    ensures RefusedWith(ApiNext(c, a, action), h, letter)
  {
    if Subject(action) == Some(h) { SubjectMoves(c, a, action, h); } else { OthersStay(c, a, action, h); }
  }

  lemma StepLetters(c: Settings, a: Api, action: Action)
    requires LettersTrue(a)
    ensures LettersTrue(ApiNext(c, a, action))
  {
    var b := ApiNext(c, a, action);
    LetterStep(c, a, action);
    forall name | name in b.dlq
      ensures name.1 == b.dlq[name].payload.txRef && exists h :: RefusedWith(b, h, b.dlq[name])
    {
      if name in a.dlq && b.dlq[name] == a.dlq[name] {
        var h :| RefusedWith(a, h, a.dlq[name]);
        RefusedStays(c, a, action, h, a.dlq[name]);
      } else {
        assert RefusedWith(b, action.h, b.dlq[name]);
      }
    }
  }

  /** Over every run the dead letters are true: what they say happened to a callback did. */
  lemma {:induction false} LettersAreTrue(c: Settings, world: Chain.World, clock: int, actions: seq<Action>)
    ensures LettersTrue(Run(c, Start(world, clock), actions).api)
  {
    if actions != [] {
      LettersAreTrue(c, world, clock, actions[..|actions| - 1]);
      StepLetters(c, Run(c, Start(world, clock), actions[..|actions| - 1]).api, actions[|actions| - 1]);
    }
  }
}
