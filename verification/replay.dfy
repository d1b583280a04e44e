/** Replays of a completed request while its signature is still fresh. */
module Replay {
  import opened Common
  import opened Sums
  import opened Stores
  import opened Callbacks
  import opened CallbackAccounting
  import Retry
  import Chain

  /** A request whose body was not rejected, so that a miss leads to a client call. */
  predicate Callable(r: Request) { r.Callback? || r.submit.Some? }

  // ---- what every run keeps about its handlers ----

  predicate WellVerified(c: Settings, a: Api, h: Handler) {
    && h.verifiedAt <= a.clock && FreshRequest(h.timestamp, h.verifiedAt, c.maxSkew)
    && match h.pc
       case Lookup => true
       case Saving(record) => Callable(h.request) && h.verifiedAt + c.window <= record.expiresAt
       case Done(_) => true
       case _ => Callable(h.request)
  }

  ghost predicate AllVerified(c: Settings, a: Api) {
    forall h | h in a.handlers :: WellVerified(c, a, a.handlers[h])
  }

  lemma CallerVerified(c: Settings, a: Api, h: nat, i: nat, reply: Retry.Reply)
    requires h in a.handlers && a.handlers[h].pc.Attempt? && WellVerified(c, a, a.handlers[h])
    ensures WellVerified(c, AfterCall(c, a, h, i, reply), AfterCall(c, a, h, i, reply).handlers[h])
  {
  }

  /** The handler an action is about stays well verified. */
  lemma SubjectVerified(c: Settings, a: Api, action: Action, h: nat)
    requires Subject(action) == Some(h) && (h in a.handlers ==> WellVerified(c, a, a.handlers[h]))
    requires h in ApiNext(c, a, action).handlers
    ensures WellVerified(c, ApiNext(c, a, action), ApiNext(c, a, action).handlers[h])
  {
    match action {
      case Call(_, reply, _) =>
        if h in a.handlers && a.handlers[h].pc.Attempt? {
          CallerVerified(c, a, h, a.handlers[h].pc.i, ReplyTo(c, a.handlers[h].request, reply));
        }
      case _ =>
    }
  }

  lemma StepVerified(c: Settings, a: Api, action: Action)
    requires AllVerified(c, a)
    ensures AllVerified(c, ApiNext(c, a, action))
  {
    var b := ApiNext(c, a, action);
    forall g | g in b.handlers ensures WellVerified(c, b, b.handlers[g]) {
      if Subject(action) == Some(g) {
        SubjectVerified(c, a, action, g);
      } else {
        OthersStay(c, a, action, g);
        assert WellVerified(c, a, a.handlers[g]);
      }
    }
  }

  lemma {:induction false} RunVerified(c: Settings, world: Chain.World, clock: int, actions: seq<Action>)
    ensures AllVerified(c, Run(c, Start(world, clock), actions).api)
  {
    if actions != [] {
      RunVerified(c, world, clock, actions[..|actions| - 1]);
      StepVerified(c, Run(c, Start(world, clock), actions[..|actions| - 1]).api, actions[|actions| - 1]);
    }
  }

  // ---- one request and its replays ----

  /** A signed request, and how long after its verification a lookup takes place at the latest. */
  datatype Signed = Signed(request: Request, timestamp: int, delay: nat)

  /** g repeats the request, was verified at most `delay` ago, and is still to be looked up. */
  predicate Awaiting(a: Api, q: Signed, g: nat) {
    && g in a.handlers && a.handlers[g].pc.Lookup? && a.clock <= a.handlers[g].verifiedAt + q.delay
    && a.handlers[g].request == q.request && a.handlers[g].timestamp == q.timestamp
  }

  /** The signature is fresh enough for another replay to be accepted. */
  predicate CanArrive(c: Settings, a: Api, q: Signed) { a.clock <= q.timestamp + c.maxSkew }

  /** A record with this expiry outlives every timely lookup that can still take place. */
  predicate Covers(c: Settings, a: Api, q: Signed, expiresAt: int) {
    && (CanArrive(c, a, q) ==> q.timestamp + c.maxSkew + q.delay <= expiresAt)
    && (forall g | g in a.handlers && Awaiting(a, q, g) :: a.handlers[g].verifiedAt + q.delay <= expiresAt)
  }

  predicate NoneDue(c: Settings, a: Api, q: Signed) {
    !CanArrive(c, a, q) && forall g | g in a.handlers :: !Awaiting(a, q, g)
  }

  /** Every timely lookup that can still take place finds the record now in the store. */
  predicate Covered(c: Settings, a: Api, q: Signed) {
    NoneDue(c, a, q) || (Key(q.request) in a.store && Covers(c, a, q, a.store[Key(q.request)].expiresAt))
  }

  /**
   * The only actions that matter: a save under the request's own key must not shorten the record below the
   * last timely lookup, and the record must not be evicted while a lookup is due.
   */
  predicate KeepsFor(c: Settings, a: Api, q: Signed, action: Action) {
    match action
    case Save(h, works) =>
      works && h in a.handlers && a.handlers[h].pc.Saving? && Key(a.handlers[h].request) == Key(q.request) ==>
        Covers(c, a, q, a.handlers[h].pc.record.expiresAt)
    case Evict(key) => key == Key(q.request) ==> NoneDue(c, a, q)
    case _ => true
  }

  predicate KeepingRun(c: Settings, s: System, q: Signed, actions: seq<Action>) {
    actions == []
    || (var n := |actions| - 1;
        KeepingRun(c, s, q, actions[..n]) && KeepsFor(c, Run(c, s, actions[..n]).api, q, actions[n]))
  }

  /** Time passes, lookups are made, requests arrive: as long as the store is left alone nothing is lost. */
  lemma QuietCovered(c: Settings, a: Api, b: Api, q: Signed)
    requires Covered(c, a, q) && a.clock <= b.clock && b.store == a.store
    requires forall g | g in b.handlers && Awaiting(b, q, g) ::
               || (g in a.handlers && b.handlers[g] == a.handlers[g])
               || (CanArrive(c, a, q) && b.handlers[g].verifiedAt <= q.timestamp + c.maxSkew)
    ensures Covered(c, b, q)
  {
    forall g | g in b.handlers && Awaiting(b, q, g)
      ensures CanArrive(c, a, q) || Awaiting(a, q, g)
    {
    }
  }

  /** What moves a handler past its lookup leaves the waiting ones as they were. */
  lemma OthersAwait(c: Settings, a: Api, action: Action, q: Signed, g: nat)
    requires g in ApiNext(c, a, action).handlers && Awaiting(ApiNext(c, a, action), q, g)
    ensures || (g in a.handlers && ApiNext(c, a, action).handlers[g] == a.handlers[g])
            || (CanArrive(c, a, q) && ApiNext(c, a, action).handlers[g].verifiedAt <= q.timestamp + c.maxSkew)
  {
    if Subject(action) != Some(g) {
      OthersStay(c, a, action, g);
    } else if g in a.handlers {
      SubjectMoves(c, a, action, g);
    }
  }

  lemma SaveCoveredIff(c: Settings, a: Api, q: Signed, h: nat, works: bool)
    requires Covered(c, a, q) && h in a.handlers && a.handlers[h].pc.Saving?
    ensures Covered(c, AfterSave(a, h, a.handlers[h].pc.record, works), q) <==> KeepsFor(c, a, q, Save(h, works))
  {
    var b := AfterSave(a, h, a.handlers[h].pc.record, works);
    assert forall g | g in a.handlers :: Awaiting(b, q, g) <==> Awaiting(a, q, g);
    assert forall g | g in a.handlers && Awaiting(a, q, g) :: b.handlers[g] == a.handlers[g];
  }

  lemma StoreStays(c: Settings, a: Api, action: Action)
    requires !action.Save? && !action.Evict?
    ensures ApiNext(c, a, action).store == a.store && a.clock <= ApiNext(c, a, action).clock
  {
  }

  lemma StepCoveredIff(c: Settings, a: Api, q: Signed, action: Action)
    requires Covered(c, a, q)
    ensures Covered(c, ApiNext(c, a, action), q) <==> KeepsFor(c, a, q, action)
  {
    match action {
      case Save(h, works) => if h in a.handlers && a.handlers[h].pc.Saving? { SaveCoveredIff(c, a, q, h, works); }
      case Evict(_) =>
      case _ =>
        var b := ApiNext(c, a, action);
        forall g | g in b.handlers && Awaiting(b, q, g)
          ensures || (g in a.handlers && b.handlers[g] == a.handlers[g])
                  || (CanArrive(c, a, q) && b.handlers[g].verifiedAt <= q.timestamp + c.maxSkew)
        {
          OthersAwait(c, a, action, q, g);
        }
        StoreStays(c, a, action);
        QuietCovered(c, a, b, q);
    }
  }

  // ---- a lookup that misses ----

  predicate Quiet(actions: seq<Action>) { forall x | x in actions :: !x.Save? && !x.Evict? }

  /** After these actions a timely lookup of a replay, by g, finds nothing and goes on to call the escrow. */
  ghost predicate Misses(c: Settings, s: System, q: Signed, actions: seq<Action>, g: nat) {
    var b := Run(c, s, actions).api;
    Awaiting(b, q, g) && ApiNext(c, b, Get(g, true)).handlers[g].pc == Attempt(1)
  }

  /** As long as nothing is saved or evicted, no timely replay can miss from here on. */
  ghost predicate Answering(c: Settings, s: System, q: Signed) {
    forall actions: seq<Action>, g: nat | Quiet(actions) :: !Misses(c, s, q, actions, g)
  }

  lemma CoveredHits(c: Settings, a: Api, q: Signed, g: nat)
    requires Covered(c, a, q) && Awaiting(a, q, g)
    ensures Key(q.request) in a.store && Read(a.store, Key(q.request), a.clock) == Some(a.store[Key(q.request)])
    ensures ApiNext(c, a, Get(g, true)).handlers[g].pc == Done(Replayed(a.store[Key(q.request)]))
  {
  }

  lemma {:induction false} QuietRunCovered(c: Settings, s: System, q: Signed, actions: seq<Action>)
    requires Covered(c, s.api, q) && Quiet(actions)
    ensures Covered(c, Run(c, s, actions).api, q)
  {
    if actions != [] {
      var n := |actions| - 1;
      QuietRunCovered(c, s, q, actions[..n]);
      assert actions[n] in actions;
      StepCoveredIff(c, Run(c, s, actions[..n]).api, q, actions[n]);
    }
  }

  lemma {:induction false} AboveAll(keys: set<nat>) returns (h: nat)
    ensures forall k | k in keys :: k < h
    decreases |keys|
  {
    h := 0;
    if keys != {} {
      var k :| k in keys;
      h := AboveAll(keys - {k});
      assert forall x | x in keys :: x == k || x in keys - {k};
      if h <= k { h := k + 1; }
    }
  }

  lemma RunOne(c: Settings, s: System, x: Action)
    ensures Run(c, s, [x]) == Next(c, s, x)
  {
    assert [x][..0] == [];
    assert Run(c, s, []) == s;
  }

  /** A waiting replay whose last timely moment the record does not reach misses at that moment. */
  lemma WaitingMisses(c: Settings, s: System, q: Signed, g: nat) returns (actions: seq<Action>)
    requires Awaiting(s.api, q, g) && Callable(q.request)
    requires Read(s.api.store, Key(q.request), s.api.handlers[g].verifiedAt + q.delay) == None
    ensures Quiet(actions) && Misses(c, s, q, actions, g)
  {
    var wait := s.api.handlers[g].verifiedAt + q.delay - s.api.clock;
    actions := [Tick(wait)];
    RunOne(c, s, Tick(wait));
  }

  /** One that arrives at the last moment, and is looked up as late as can be, misses if the record does not last. */
  lemma LateReplayMisses(c: Settings, s: System, q: Signed) returns (actions: seq<Action>, g: nat)
    requires CanArrive(c, s.api, q) && Callable(q.request) && c.maxSkew >= 0
    requires Read(s.api.store, Key(q.request), q.timestamp + c.maxSkew + q.delay) == None
    ensures Quiet(actions) && Misses(c, s, q, actions, g)
  {
    g := AboveAll(s.api.handlers.Keys);
    var wait := Tick(q.timestamp + c.maxSkew - s.api.clock);
    var arrive := Arrive(g, q.request, q.timestamp);
    actions := [wait, arrive, Tick(q.delay)];
    RunOne(c, s, wait);
    assert [wait, arrive][..1] == [wait] && actions[..2] == [wait, arrive];
    var b := Run(c, s, [wait, arrive]).api;
    assert b == ApiNext(c, ApiNext(c, s.api, wait), arrive);
    assert Run(c, s, actions).api == ApiNext(c, b, Tick(q.delay));
  }

  /** Covered means just that: no timely replay can miss. */
  lemma AnsweringIffCovered(c: Settings, s: System, q: Signed)
    requires Callable(q.request) && c.maxSkew >= 0
    ensures Answering(c, s, q) <==> Covered(c, s.api, q)
  {
    if Covered(c, s.api, q) {
      forall actions: seq<Action>, g: nat | Quiet(actions) ensures !Misses(c, s, q, actions, g) {
        QuietRunCovered(c, s, q, actions);
        var b := Run(c, s, actions).api;
        if Awaiting(b, q, g) { CoveredHits(c, b, q, g); }
      }
    } else if CanArrive(c, s.api, q) && Read(s.api.store, Key(q.request), q.timestamp + c.maxSkew + q.delay) == None {
      var actions, g := LateReplayMisses(c, s, q);
    } else {
      var g :| g in s.api.handlers && Awaiting(s.api, q, g)
               && Read(s.api.store, Key(q.request), s.api.handlers[g].verifiedAt + q.delay) == None;
      var actions := WaitingMisses(c, s, q, g);
    }
  }

  // ---- over every run after the response was saved ----

  /** The request of handler h. */
  function SignedBy(a: Api, h: nat, delay: nat): Signed
    requires h in a.handlers
  {
    Signed(a.handlers[h].request, a.handlers[h].timestamp, delay)
  }

  /** Handler `first` holds its response and is about to save it; the window is long enough for its replays. */
  ghost predicate AboutToSave(c: Settings, s: System, first: nat, delay: nat) {
    && AllVerified(c, s.api) && first in s.api.handlers && s.api.handlers[first].pc.Saving?
    && c.window >= 2 * c.maxSkew + delay
  }

  lemma SavedIsCovered(c: Settings, s: System, first: nat, delay: nat)
    requires AboutToSave(c, s, first, delay)
    ensures Covered(c, Next(c, s, Save(first, true)).api, SignedBy(s.api, first, delay))
    ensures Callable(s.api.handlers[first].request) && c.maxSkew >= 0
  {
    var a, b, q := s.api, Next(c, s, Save(first, true)).api, SignedBy(s.api, first, delay);
    assert WellVerified(c, a, a.handlers[first]);
    forall g | g in b.handlers && Awaiting(b, q, g)
      ensures b.handlers[g].verifiedAt + delay <= b.store[Key(q.request)].expiresAt
    {
      assert WellVerified(c, a, a.handlers[g]);
    }
  }

  /** No timely replay can miss now, nor could it at any earlier moment of the run. */
  ghost predicate AlwaysAnswering(c: Settings, s: System, q: Signed, actions: seq<Action>) {
    && Answering(c, Run(c, s, actions), q)
    && (actions == [] || AlwaysAnswering(c, s, q, actions[..|actions| - 1]))
  }

  lemma {:induction false} AlwaysAnsweringIff(c: Settings, s: System, q: Signed, actions: seq<Action>)
    requires Covered(c, s.api, q) && Callable(q.request) && c.maxSkew >= 0
    ensures AlwaysAnswering(c, s, q, actions) <==> KeepingRun(c, s, q, actions)
  {
    AnsweringIffCovered(c, Run(c, s, actions), q);
    if actions != [] {
      var n := |actions| - 1;
      AlwaysAnsweringIff(c, s, q, actions[..n]);
      AnsweringIffCovered(c, Run(c, s, actions[..n]), q);
      if Covered(c, Run(c, s, actions[..n]).api, q) {
        StepCoveredIff(c, Run(c, s, actions[..n]).api, q, actions[n]);
      } else {
        NotAnswering(c, s, q, actions[..n]);
      }
    }
  }

  lemma NotAnswering(c: Settings, s: System, q: Signed, actions: seq<Action>)
    requires !Answering(c, Run(c, s, actions), q)
    ensures !AlwaysAnswering(c, s, q, actions)
  {
  }

  /**
   * From the moment a response is saved, and over every further run, fresh replays of its request can never miss
   * exactly when no save under its key and no eviction of it cuts the record short.  Other keys play no part.
   */
  lemma NoReplayMissesIff(c: Settings, world: Chain.World, clock: int, actions: seq<Action>, first: nat, delay: nat, more: seq<Action>)
    requires var s := Run(c, Start(world, clock), actions);
             first in s.api.handlers && s.api.handlers[first].pc.Saving? && c.window >= 2 * c.maxSkew + delay
    ensures var s := Run(c, Start(world, clock), actions);
            var q, saved := SignedBy(s.api, first, delay), Next(c, s, Save(first, true));
            AlwaysAnswering(c, saved, q, more) <==> KeepingRun(c, saved, q, more)
  {
    var s := Run(c, Start(world, clock), actions);
    RunVerified(c, world, clock, actions);
    SavedIsCovered(c, s, first, delay);
    AlwaysAnsweringIff(c, Next(c, s, Save(first, true)), SignedBy(s.api, first, delay), more);
  }

  // ---- what a replay is answered with ----

  /** A finished handler never moves again. */
  lemma DoneStays(c: Settings, a: Api, action: Action, h: nat)
    requires h in a.handlers && a.handlers[h].pc.Done?
    ensures var b := ApiNext(c, a, action); h in b.handlers && b.handlers[h] == a.handlers[h]
  {
    if Subject(action) == Some(h) { SubjectMoves(c, a, action, h); } else { OthersStay(c, a, action, h); }
  }

  /** Nor does it make another call: only a handler about to call does. */
  lemma NoMoreCalls(c: Settings, a: Api, action: Action, h: nat)
    requires h in a.handlers && a.handlers[h].pc.Done?
    ensures Sum(ApiNext(c, a, action).calls, CallsBy(h)) == Sum(a.calls, CallsBy(h))
  {
    match action {
      case Call(g, reply, _) =>
        if g in a.handlers && a.handlers[g].pc.Attempt? {
          var r := a.handlers[g].request;
          SumAppend(a.calls, ClientCall(g, r, a.handlers[g].pc.i, ReplyTo(c, r, reply)), CallsBy(h));
        }
      case _ => assert ApiNext(c, a, action).calls == a.calls;
    }
  }

  lemma {:induction false} DoneForever(c: Settings, s: System, h: nat, more: seq<Action>)
    requires h in s.api.handlers && s.api.handlers[h].pc.Done?
    ensures var b := Run(c, s, more).api;
            && h in b.handlers && b.handlers[h] == s.api.handlers[h]
            && Sum(b.calls, CallsBy(h)) == Sum(s.api.calls, CallsBy(h))
  {
    if more != [] {
      DoneForever(c, s, h, more[..|more| - 1]);
      DoneStays(c, Run(c, s, more[..|more| - 1]).api, more[|more| - 1], h);
      NoMoreCalls(c, Run(c, s, more[..|more| - 1]).api, more[|more| - 1], h);
    }
  }

  /** Handler h completed under this key with this response. */
  predicate Answered(a: Api, h: nat, key: string, record: Rec) {
    h in a.handlers && Key(a.handlers[h].request) == key && a.handlers[h].pc == Done(Fulfilled(record))
  }

  predicate SavesUnder(a: Api, key: string, action: Action) {
    && action.Save? && action.works && action.h in a.handlers && a.handlers[action.h].pc.Saving?
    && Key(a.handlers[action.h].request) == key
  }

  /** The last handler of the run whose save under the key worked. */
  function LastSaver(c: Settings, s: System, key: string, actions: seq<Action>): Option<nat> {
    if actions == [] then None
    else
      var n := |actions| - 1;
      if SavesUnder(Run(c, s, actions[..n]).api, key, actions[n]) then Some(actions[n].h)
      else LastSaver(c, s, key, actions[..n])
  }

  /** A record enters the store only by a save that works. */
  lemma StoreStep(c: Settings, a: Api, action: Action, key: string)
    requires key in ApiNext(c, a, action).store
    ensures var b := ApiNext(c, a, action);
            if SavesUnder(a, key, action) then Answered(b, action.h, key, b.store[key])
            else key in a.store && b.store[key] == a.store[key]
  {
  }

  /** Over every run, what is stored under a key is the response of the last handler whose save under it worked. */
  lemma {:induction false} StoredIsLastSaved(c: Settings, world: Chain.World, clock: int, actions: seq<Action>, key: string)
    requires key in Run(c, Start(world, clock), actions).api.store
    ensures var h := LastSaver(c, Start(world, clock), key, actions);
            var a := Run(c, Start(world, clock), actions).api;
            h.Some? && Answered(a, h.value, key, a.store[key])
  {
    if actions != [] {
      var n := |actions| - 1;
      var before := Run(c, Start(world, clock), actions[..n]).api;
      StoreStep(c, before, actions[n], key);
      if !SavesUnder(before, key, actions[n]) {
        StoredIsLastSaved(c, world, clock, actions[..n], key);
        DoneStays(c, before, actions[n], LastSaver(c, Start(world, clock), key, actions[..n]).value);
      }
    }
  }

  lemma {:induction false} RunConcat(c: Settings, s: System, actions: seq<Action>, more: seq<Action>)
    ensures Run(c, s, actions + more) == Run(c, Run(c, s, actions), more)
  {
    if more == [] {
      assert actions + more == actions;
    } else {
      var all := actions + more;
      assert all[..|all| - 1] == actions + more[..|more| - 1];
      RunConcat(c, s, actions, more[..|more| - 1]);
    }
  }

  /**
   * Let `first` save its response after `actions`, let `more` be any further run that does not cut the record short, and
   * let `again` repeat the request and be looked up in time.  It is answered with the response of the last handler that
   * saved under the key, and neither then nor in any future does it make a client call.
   */
  lemma ReplayGetsStoredResponse(c: Settings, world: Chain.World, clock: int, actions: seq<Action>, first: nat, delay: nat,
                                 more: seq<Action>, again: nat, future: seq<Action>)
    requires var s := Run(c, Start(world, clock), actions);
             && first in s.api.handlers && s.api.handlers[first].pc.Saving? && c.window >= 2 * c.maxSkew + delay
             && KeepingRun(c, Next(c, s, Save(first, true)), SignedBy(s.api, first, delay), more)
             && Awaiting(Run(c, Next(c, s, Save(first, true)), more).api, SignedBy(s.api, first, delay), again)
    ensures var key := Key(Run(c, Start(world, clock), actions).api.handlers[first].request);
            var all := actions + [Save(first, true)] + more;
            var t := Run(c, Start(world, clock), all);
            var saver := LastSaver(c, Start(world, clock), key, all);
            var t' := Next(c, t, Get(again, true));
            && saver.Some? && saver.value in t.api.handlers
            && t.api.handlers[saver.value].pc.Done? && t.api.handlers[saver.value].pc.result.Fulfilled?
            && again in t'.api.handlers
            && t'.api.handlers[again].pc == Done(Replayed(t.api.handlers[saver.value].pc.result.record))
            && t'.network == t.network && t'.api.calls == t.api.calls
            && Sum(Run(c, t', future).api.calls, CallsBy(again)) == 0
  {
    var start := Start(world, clock);
    var s := Run(c, start, actions);
    var q, saved := SignedBy(s.api, first, delay), Next(c, s, Save(first, true));
    var all := actions + [Save(first, true)] + more;
    var t := Run(c, start, all);
    RunOne(c, s, Save(first, true));
    RunConcat(c, start, actions, [Save(first, true)]);
    RunConcat(c, start, actions + [Save(first, true)], more);
    assert t == Run(c, saved, more);
    RunVerified(c, world, clock, actions);
    SavedIsCovered(c, s, first, delay);
    AlwaysAnsweringIff(c, saved, q, more);
    AnsweringIffCovered(c, t, q);
    CoveredHits(c, t.api, q, again);
    StoredIsLastSaved(c, world, clock, all, Key(q.request));
    RunBounded(c, world, clock, all);
    assert Within(c, t.api.handlers[again].pc, Sum(t.api.calls, CallsBy(again)));
    DoneForever(c, Next(c, t, Get(again, true)), again, future);
  }

  /**
   * While `first` is the last handler that saved under its key, a replay repeats its response byte for byte,
   * whatever other handlers completed under that key before.
   */
  lemma ReplayIsIdentical(c: Settings, world: Chain.World, clock: int, actions: seq<Action>, first: nat, more: seq<Action>)
    requires var s := Run(c, Start(world, clock), actions);
             first in s.api.handlers && s.api.handlers[first].pc.Saving?
    requires var key := Key(Run(c, Start(world, clock), actions).api.handlers[first].request);
             var all := actions + [Save(first, true)] + more;
             key in Run(c, Start(world, clock), all).api.store && LastSaver(c, Start(world, clock), key, all) == Some(first)
    ensures var a := Run(c, Start(world, clock), actions).api;
            var all := actions + [Save(first, true)] + more;
            Run(c, Start(world, clock), all).api.store[Key(a.handlers[first].request)] == a.handlers[first].pc.record
  {
    var s := Run(c, Start(world, clock), actions);
    var all := actions + [Save(first, true)] + more;
    RunOne(c, s, Save(first, true));
    RunConcat(c, Start(world, clock), actions, [Save(first, true)]);
    RunConcat(c, Start(world, clock), actions + [Save(first, true)], more);
    StoredIsLastSaved(c, world, clock, all, Key(s.api.handlers[first].request));
    DoneForever(c, Next(c, s, Save(first, true)), first, more);
  }

  // ---- a window that is broken ----

  /** Two callbacks for one payment: both miss, both send, and the older record is saved last. */
  function CrossedSaves(r: Request): seq<Action> {
    [Arrive(0, r, 0), Get(0, true), Call(0, Retry.Sent("a"), true), Tick(60),
     Arrive(1, r, 120), Get(1, true), Call(1, Retry.Sent("b"), true), Save(1, true), Save(0, true),
     Tick(61), Arrive(2, r, 120), Get(2, true)]
  }

  /** The server's state after the first n actions; the network plays no part in it. */
  function After(c: Settings, a: Api, actions: seq<Action>, n: nat): Api
    requires n <= |actions|
  {
    if n == 0 then a else ApiNext(c, After(c, a, actions, n - 1), actions[n - 1])
  }

  lemma {:induction false} AfterIsRun(c: Settings, s: System, actions: seq<Action>, n: nat)
    requires n <= |actions|
    ensures Run(c, s, actions[..n]).api == After(c, s.api, actions, n)
  {
    if n > 0 {
      AfterIsRun(c, s, actions, n - 1);
      assert actions[..n][..n - 1] == actions[..n - 1];
    }
  }

  predicate Looks(a: Api, clock: int, store: map<string, Rec>, handlers: map<nat, Handler>) {
    a.clock == clock && a.store == store && a.handlers == handlers
  }

  /** A request that finds nothing stored and whose first call succeeds is left holding a record. */
  lemma MissAndSend(c: Settings, a: Api, h: nat, r: Request, timestamp: int, txHash: string)
    requires h !in a.handlers && TxOf(c, r).Some? && a.store == map[]
    requires FreshRequest(timestamp, a.clock, c.maxSkew)
    ensures var a1 := ApiNext(c, a, Arrive(h, r, timestamp));
            var a2 := ApiNext(c, a1, Get(h, true));
            var a3 := ApiNext(c, a2, Call(h, Retry.Sent(txHash), true));
            Looks(a3, a.clock, a.store, a.handlers[h := Handler(r, timestamp, a.clock, Saving(RecordFor(c, r, txHash, a.clock)))])
  {
    var a1 := ApiNext(c, a, Arrive(h, r, timestamp));
    assert Looks(a1, a.clock, a.store, a.handlers[h := Handler(r, timestamp, a.clock, Lookup)]);
    var a2 := ApiNext(c, a1, Get(h, true));
    assert Looks(a2, a.clock, a.store, a.handlers[h := Handler(r, timestamp, a.clock, Attempt(1))]);
  }

  lemma SaveNow(c: Settings, a: Api, h: nat, record: Rec)
    requires h in a.handlers && a.handlers[h].pc == Saving(record)
    ensures Looks(ApiNext(c, a, Save(h, true)), a.clock, a.store[Key(a.handlers[h].request) := record],
                  a.handlers[h := a.handlers[h].(pc := Done(Fulfilled(record)))])
  {
  }

  lemma MissAgain(c: Settings, a: Api, h: nat, r: Request, timestamp: int)
    requires h !in a.handlers && r.Callback? && FreshRequest(timestamp, a.clock, c.maxSkew)
    requires Key(r) in a.store && !Live(a.store[Key(r)], a.clock)
    ensures var a1 := ApiNext(c, a, Arrive(h, r, timestamp));
            var a2 := ApiNext(c, a1, Get(h, true));
            Looks(a2, a.clock, a.store, a.handlers[h := Handler(r, timestamp, a.clock, Attempt(1))])
  {
    var a1 := ApiNext(c, a, Arrive(h, r, timestamp));
    assert Looks(a1, a.clock, a.store, a.handlers[h := Handler(r, timestamp, a.clock, Lookup)]);
  }

  /** The first handler holds its record when the second arrives. */
  lemma FirstSends(c: Settings, a: Api, r: Request)
    requires c.maxSkew == 60 && c.window == 120 && r.Callback? && TxOf(c, r).Some? && Looks(a, 0, map[], map[])
    ensures Looks(After(c, a, CrossedSaves(r), 4), 60, map[], map[0 := Handler(r, 0, 0, Saving(RecordFor(c, r, "a", 0)))])
  {
    var acts := CrossedSaves(r);
    assert After(c, a, acts, 0) == a;
    assert After(c, a, acts, 1) == ApiNext(c, a, acts[0]);
    assert After(c, a, acts, 2) == ApiNext(c, After(c, a, acts, 1), acts[1]);
    assert After(c, a, acts, 3) == ApiNext(c, After(c, a, acts, 2), acts[2]);
    MissAndSend(c, a, 0, r, 0, "a");
    assert After(c, a, acts, 4) == ApiNext(c, After(c, a, acts, 3), Tick(60));
  }

  lemma SecondSends(c: Settings, a: Api, r: Request)
    requires c.maxSkew == 60 && c.window == 120 && r.Callback? && TxOf(c, r).Some? && Looks(a, 0, map[], map[])
    ensures Looks(After(c, a, CrossedSaves(r), 7), 60, map[],
                  map[0 := Handler(r, 0, 0, Saving(RecordFor(c, r, "a", 0))), 1 := Handler(r, 120, 60, Saving(RecordFor(c, r, "b", 60)))])
  {
    var acts := CrossedSaves(r);
    FirstSends(c, a, r);
    var a4 := After(c, a, acts, 4);
    assert After(c, a, acts, 5) == ApiNext(c, a4, acts[4]);
    assert After(c, a, acts, 6) == ApiNext(c, After(c, a, acts, 5), acts[5]);
    assert After(c, a, acts, 7) == ApiNext(c, After(c, a, acts, 6), acts[6]);
    MissAndSend(c, a4, 1, r, 120, "b");
  }

  lemma BothSave(c: Settings, a: Api, r: Request)
    requires c.maxSkew == 60 && c.window == 120 && r.Callback? && TxOf(c, r).Some? && Looks(a, 0, map[], map[])
    ensures Looks(After(c, a, CrossedSaves(r), 10), 121, map[Key(r) := RecordFor(c, r, "a", 0)],
                  map[0 := Handler(r, 0, 0, Done(Fulfilled(RecordFor(c, r, "a", 0)))),
                      1 := Handler(r, 120, 60, Done(Fulfilled(RecordFor(c, r, "b", 60))))])
  {
    var acts := CrossedSaves(r);
    SecondSends(c, a, r);
    var a7 := After(c, a, acts, 7);
    var a8 := After(c, a, acts, 8);
    assert a8 == ApiNext(c, a7, Save(1, true));
    SaveNow(c, a7, 1, RecordFor(c, r, "b", 60));
    var a9 := After(c, a, acts, 9);
    assert a9 == ApiNext(c, a8, Save(0, true));
    SaveNow(c, a8, 0, RecordFor(c, r, "a", 0));
    assert After(c, a, acts, 10) == ApiNext(c, a9, Tick(61));
  }

  /**
   * With a skew of 60 and a window of 120 the replay of the second callback is still fresh at 121, every store
   * operation works, and yet the lookup misses and the replay goes on to call the escrow.
   */
  lemma CrossedSavesBreakReplay(c: Settings, world: Chain.World, r: Request)
    requires c.maxSkew == 60 && c.window == 120 && r.Callback? && TxOf(c, r).Some?
    ensures var a := Run(c, Start(world, 0), CrossedSaves(r)).api;
            && 1 in a.handlers && a.handlers[1].pc.Done? && a.handlers[1].pc.result.Fulfilled?
            && 2 in a.handlers && a.handlers[2].timestamp == a.handlers[1].timestamp && a.handlers[2].request == a.handlers[1].request
            && a.handlers[2].verifiedAt == a.clock && a.handlers[2].pc == Attempt(1)
  {
    var acts, a := CrossedSaves(r), Start(world, 0).api;
    BothSave(c, a, r);
    var a10 := After(c, a, acts, 10);
    assert After(c, a, acts, 11) == ApiNext(c, a10, acts[10]);
    assert After(c, a, acts, 12) == ApiNext(c, After(c, a, acts, 11), acts[11]);
    MissAgain(c, a10, 2, r, 120);
    assert acts[..12] == acts;
    AfterIsRun(c, Start(world, 0), acts, 12);
  }
}
