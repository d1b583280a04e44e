/** A callback answered from the store: was it answered for its own intent? */
module OwnIntent {
  import opened Common
  import opened Stores
  import opened Callbacks
  import opened CallbackSafety
  import Retry
  import Chain
  import Replay

  predicate Own(p: Payload, record: Rec) {
    record.response.Processed? && record.response.intentId == p.intentId
  }

  predicate AnsweredOwn(h: Handler) {
    h.request.Callback? && h.pc.Done? && h.pc.result.Replayed? ==> Own(h.request.payload, h.pc.result.record)
  }

  /** Every callback answered from the store got the response of its own intent. */
  ghost predicate OwnAnswers(a: Api) { forall h | h in a.handlers :: AnsweredOwn(a.handlers[h]) }

  /** Only requests of this kind arrive. */
  ghost predicate Only(actions: seq<Action>, sent: Request -> bool) {
    forall x | x in actions && x.Arrive? :: sent(x.request)
  }

  /**
   * Whatever can be stored under a callback's key is a callback for the same intent: no mint request uses a key with the
   * callbacks' prefix, and no two callbacks share a reference but not the intent.
   */
  ghost predicate Unambiguous(c: Settings, sent: Request -> bool) {
    forall r, other | sent(r) && sent(other) && r.Callback? && Key(other) == Key(r) && TxOf(c, other).Some? ::
      other.Callback? && other.payload.intentId == r.payload.intentId
  }

  // ---- when it holds ----

  /** All requests are of the kind, and a call that succeeded had something to send. */
  ghost predicate From(c: Settings, a: Api, sent: Request -> bool) {
    && (forall h | h in a.handlers :: sent(a.handlers[h].request))
    && (forall k | 0 <= k < |a.calls| :: sent(a.calls[k].request) && (a.calls[k].reply.Sent? ==> TxOf(c, a.calls[k].request).Some?))
  }

  lemma HandlersFrom(c: Settings, a: Api, action: Action, sent: Request -> bool, g: nat)
    requires From(c, a, sent) && (action.Arrive? ==> sent(action.request)) && g in ApiNext(c, a, action).handlers
    ensures sent(ApiNext(c, a, action).handlers[g].request)
  {
    if Subject(action) != Some(g) {
      OthersStay(c, a, action, g);
    } else if g in a.handlers {
      SubjectMoves(c, a, action, g);
    }
  }

  /** At most one call is added, on behalf of the handler that makes it. */
  lemma CallsStep(c: Settings, a: Api, action: Action)
    ensures var calls := ApiNext(c, a, action).calls;
            || calls == a.calls
            || (action.Call? && action.h in a.handlers && |calls| == |a.calls| + 1 && calls[..|a.calls|] == a.calls
                && calls[|a.calls|].request == a.handlers[action.h].request
                && calls[|a.calls|].reply == ReplyTo(c, a.handlers[action.h].request, action.reply))
  {
    if Subject(action).Some? && Subject(action).value in a.handlers && !action.Call? {
      SubjectMoves(c, a, action, Subject(action).value);
    }
  }

  lemma StepFrom(c: Settings, a: Api, action: Action, sent: Request -> bool)
    requires From(c, a, sent) && (action.Arrive? ==> sent(action.request))
    ensures From(c, ApiNext(c, a, action), sent)
  {
    var b := ApiNext(c, a, action);
    forall g | g in b.handlers ensures sent(b.handlers[g].request) {
      HandlersFrom(c, a, action, sent, g);
    }
    CallsStep(c, a, action);
    forall k | 0 <= k < |b.calls| ensures sent(b.calls[k].request) && (b.calls[k].reply.Sent? ==> TxOf(c, b.calls[k].request).Some?) {
      if k < |a.calls| { assert b.calls[k] == b.calls[..|a.calls|][k]; }
    }
  }

  /** Records live for the window, counted from a moment already past. */
  ghost predicate BoundedLives(c: Settings, a: Api) {
    && (forall key | key in a.store :: a.store[key].expiresAt <= a.clock + c.window)
    && (forall h | h in a.handlers && a.handlers[h].pc.Saving? :: a.handlers[h].pc.record.expiresAt <= a.clock + c.window)
  }

  lemma StepBoundedLives(c: Settings, a: Api, action: Action)
    requires BoundedLives(c, a)
    ensures BoundedLives(c, ApiNext(c, a, action))
  {
  }

  /** A live record under a callback's key is its own. */
  lemma HitIsOwn(c: Settings, a: Api, h: nat, sent: Request -> bool)
    requires From(c, a, sent) && RecordsJustified(c, a) && BoundedLives(c, a)
    requires Unambiguous(c, sent) || c.window < 0
    requires h in a.handlers && a.handlers[h].request.Callback?
    ensures var found := Read(a.store, Key(a.handlers[h].request), a.clock);
            found.Some? ==> Own(a.handlers[h].request.payload, found.value)
  {
    var r := a.handlers[h].request;
    var found := Read(a.store, Key(r), a.clock);
    if found.Some? {
      var k :| 0 <= k < |a.calls| && Backs(c, a.calls[k], Key(r), found.value);
      assert sent(a.calls[k].request) && sent(r);
    }
  }

  /** A stored answer is the one given before, or the record found now. */
  lemma AnswerStep(c: Settings, a: Api, action: Action, g: nat)
    requires g in ApiNext(c, a, action).handlers
    requires var h := ApiNext(c, a, action).handlers[g]; h.pc.Done? && h.pc.result.Replayed?
    ensures var h := ApiNext(c, a, action).handlers[g];
            && g in a.handlers && h.request == a.handlers[g].request
            && (h == a.handlers[g] || Read(a.store, Key(h.request), a.clock) == Some(h.pc.result.record))
  {
    if Subject(action) != Some(g) {
      OthersStay(c, a, action, g);
    } else if g in a.handlers {
      SubjectMoves(c, a, action, g);
    }
  }

  lemma StepOwn(c: Settings, a: Api, action: Action, sent: Request -> bool)
    requires OwnAnswers(a) && From(c, a, sent) && RecordsJustified(c, a) && BoundedLives(c, a)
    requires Unambiguous(c, sent) || c.window < 0
    ensures OwnAnswers(ApiNext(c, a, action))
  {
    var b := ApiNext(c, a, action);
    forall g | g in b.handlers ensures AnsweredOwn(b.handlers[g]) {
      if b.handlers[g].request.Callback? && b.handlers[g].pc.Done? && b.handlers[g].pc.result.Replayed? {
        AnswerStep(c, a, action, g);
        assert AnsweredOwn(a.handlers[g]);
        HitIsOwn(c, a, g, sent);
      }
    }
  }

  lemma NobodyArrives(c: Settings, a: Api, action: Action)
    requires c.maxSkew < 0 && a.handlers == map[]
    ensures ApiNext(c, a, action).handlers == map[]
  {
  }

  lemma {:induction false} RunOwn(c: Settings, world: Chain.World, clock: int, actions: seq<Action>, sent: Request -> bool)
    requires Only(actions, sent) && (Unambiguous(c, sent) || c.window < 0 || c.maxSkew < 0)
    ensures var a := Run(c, Start(world, clock), actions).api;
            OwnAnswers(a) && From(c, a, sent) && BoundedLives(c, a) && (c.maxSkew < 0 ==> a.handlers == map[])
  {
    if actions != [] {
      var n := |actions| - 1;
      var before := Run(c, Start(world, clock), actions[..n]).api;
      assert actions[n] in actions;
      RunOwn(c, world, clock, actions[..n], sent);
      StoredOnlyIfCalled(c, world, clock, actions[..n]);
      StepFrom(c, before, actions[n], sent);
      StepBoundedLives(c, before, actions[n]);
      if c.maxSkew < 0 {
        NobodyArrives(c, before, actions[n]);
      } else {
        StepOwn(c, before, actions[n], sent);
      }
    }
  }

  // ---- when it fails ----

  /** One request is served and stored; then a callback with the same key arrives. */
  function MixUp(other: Request, r: Request, clock: int): seq<Action> {
    [Arrive(0, other, clock), Get(0, true), Call(0, Retry.Sent("tx"), true), Save(0, true), Arrive(1, r, clock), Get(1, true)]
  }

  lemma MixedUp(c: Settings, world: Chain.World, clock: int, other: Request, r: Request)
    requires c.window >= 0 && c.maxSkew >= 0 && r.Callback? && Key(other) == Key(r) && TxOf(c, other).Some?
    ensures var a := Run(c, Start(world, clock), MixUp(other, r, clock)).api;
            1 in a.handlers && a.handlers[1].request == r && a.handlers[1].pc == Done(Replayed(RecordFor(c, other, "tx", clock)))
  {
    var acts, a := MixUp(other, r, clock), Start(world, clock).api;
    var record := RecordFor(c, other, "tx", clock);
    var a1 := Replay.After(c, a, acts, 1);
    var a2 := Replay.After(c, a, acts, 2);
    var a3 := Replay.After(c, a, acts, 3);
    var a4 := Replay.After(c, a, acts, 4);
    var a5 := Replay.After(c, a, acts, 5);
    assert Replay.After(c, a, acts, 0) == a;
    assert a1 == ApiNext(c, a, acts[0]);
    assert a2 == ApiNext(c, a1, acts[1]);
    assert a3 == ApiNext(c, a2, acts[2]);
    Replay.MissAndSend(c, a, 0, other, clock, "tx");
    assert a4 == ApiNext(c, a3, acts[3]);
    Replay.SaveNow(c, a3, 0, record);
    assert a5 == ApiNext(c, a4, acts[4]);
    assert Replay.Looks(a5, clock, map[Key(r) := record], a4.handlers[1 := Handler(r, clock, clock, Lookup)]);
    assert Replay.After(c, a, acts, 6) == ApiNext(c, a5, acts[5]);
    assert acts[..6] == acts;
    Replay.AfterIsRun(c, Start(world, clock), acts, 6);
  }

  /**
   * For any kind of requests: in every run of such requests each callback answered from the store is answered for its own
   * intent exactly when their keys are unambiguous (or nothing is ever accepted, or nothing stored is ever found).
   */
  lemma OwnAnswersIff(c: Settings, world: Chain.World, clock: int, sent: Request -> bool)
    ensures (forall actions: seq<Action> | Only(actions, sent) :: OwnAnswers(Run(c, Start(world, clock), actions).api)) <==>
            (Unambiguous(c, sent) || c.window < 0 || c.maxSkew < 0)
  {
    if Unambiguous(c, sent) || c.window < 0 || c.maxSkew < 0 {
      forall actions: seq<Action> | Only(actions, sent) ensures OwnAnswers(Run(c, Start(world, clock), actions).api) {
        RunOwn(c, world, clock, actions, sent);
      }
    } else {
      var r, other :| sent(r) && sent(other) && r.Callback? && Key(other) == Key(r) && TxOf(c, other).Some?
                      && !(other.Callback? && other.payload.intentId == r.payload.intentId);
      MixedUp(c, world, clock, other, r);
      var a := Run(c, Start(world, clock), MixUp(other, r, clock)).api;
      assert !AnsweredOwn(a.handlers[1]);
      assert Only(MixUp(other, r, clock), sent);
    }
  }
}
