/** Every mint went to a user whose latest update in the registry in force scored at most 91. */
module Compliance {
  import opened Common
  import opened Chain
  import opened Intents
  import Registry

  /** The score of the latest update of a user in a registry, read off the log. */
  function LatestScore(log: seq<Event>, registry: Address, user: Address): Option<nat> {
    if log == [] then None
    else
      var e := log[|log| - 1];
      if e.RiskUpdated? && e.registry == registry && e.user == user then Some(e.score)
      else LatestScore(log[..|log| - 1], registry, user)
  }

  /** The registries hold exactly what the log says. */
  ghost predicate RegistriesAgree(w: World) {
    forall r, u: Address | r in w.registries ::
      var d := Registry.Lookup(w.registries[r], u);
      && Registry.WellFormed(d)
      && LatestScore(w.log, r, u) == if d.exists_ then Some(d.riskScore) else None
  }

  predicate Cleared(score: Option<nat>) {
    score.Some? && score.value <= 91
  }

  /** At the moment of each mint the user's latest update in the registry consulted was good enough. */
  ghost predicate MintsCleared(log: seq<Event>) {
    forall k | 0 <= k < |log| && log[k].Minted? :: Cleared(LatestScore(log[..k], log[k].registry, log[k].user))
  }

  lemma LatestScoreAppend(log: seq<Event>, e: Event, r: Address, u: Address)
    ensures LatestScore(log + [e], r, u) ==
            if e.RiskUpdated? && e.registry == r && e.user == u then Some(e.score) else LatestScore(log, r, u)
  {
    assert (log + [e])[..|log|] == log;
  }

  lemma ClearedAppend(log: seq<Event>, e: Event)
    requires MintsCleared(log)
    requires e.Minted? ==> Cleared(LatestScore(log, e.registry, e.user))
    ensures MintsCleared(log + [e])
  {
    var all := log + [e];
    forall k | 0 <= k < |all| && all[k].Minted?
      ensures Cleared(LatestScore(all[..k], all[k].registry, all[k].user))
    {
      assert all[..k] == log[..k];
      assert log[..|log|] == log;
    }
  }

  lemma GuardedAgrees(w: World, w': World, e: Event)
    requires RegistriesAgree(w) && w'.registries == w.registries && w'.log == w.log + [e] && !e.RiskUpdated?
    ensures RegistriesAgree(w')
  {
    forall r, u: Address | r in w'.registries
      ensures var d := Registry.Lookup(w'.registries[r], u);
              && Registry.WellFormed(d)
              && LatestScore(w'.log, r, u) == if d.exists_ then Some(d.riskScore) else None
    {
      LatestScoreAppend(w.log, e, r, u);
      assert Registry.WellFormed(Registry.Lookup(w.registries[r], u));
    }
  }

  lemma UpdateAgrees(w: World, w': World, tx: Tx)
    requires RegistriesAgree(w) && tx.call.OnRegistry? && tx.call.registryOp.OpUpdate?
    requires OtherEffects(w, w', tx) && w'.log == w.log + OtherEvents(tx)
    ensures RegistriesAgree(w')
  {
    forall r, u: Address | r in w'.registries
      ensures var d := Registry.Lookup(w'.registries[r], u);
              && Registry.WellFormed(d)
              && LatestScore(w'.log, r, u) == if d.exists_ then Some(d.riskScore) else None
    {
      LatestScoreAppend(w.log, OtherEvents(tx)[0], r, u);
      assert Registry.WellFormed(Registry.Lookup(w.registries[r], u));
    }
  }

  lemma ManagerAgrees(w: World, w': World, tx: Tx)
    requires RegistriesAgree(w) && tx.call.OnRegistry? && tx.call.registryOp.OpSetManager?
    requires OtherEffects(w, w', tx) && w'.log == w.log
    ensures RegistriesAgree(w')
  {
    forall r, u: Address | r in w'.registries
      ensures var d := Registry.Lookup(w'.registries[r], u);
              && Registry.WellFormed(d)
              && LatestScore(w'.log, r, u) == if d.exists_ then Some(d.riskScore) else None
    {
      assert Registry.WellFormed(Registry.Lookup(w.registries[r], u));
    }
  }

  lemma StepCleared(w: World, w': World, tx: Tx)
    requires RegistriesAgree(w) && MintsCleared(w.log)
    requires Wrote(w, w', tx) && (tx.call.OnEscrow? || OtherEffects(w, w', tx))
    ensures RegistriesAgree(w') && MintsCleared(w'.log)
  {
    if tx.call.OnEscrow? {
      var e := w'.log[|w.log|];
      if e.Minted? {
        assert Registry.WellFormed(Registry.Lookup(w.registries[e.registry], e.user));
      }
      ClearedAppend(w.log, e);
      GuardedAgrees(w, w', e);
    } else if tx.call.OnRegistry? && tx.call.registryOp.OpUpdate? {
      ClearedAppend(w.log, OtherEvents(tx)[0]);
      UpdateAgrees(w, w', tx);
    } else if tx.call.OnRegistry? {
      assert w.log + OtherEvents(tx) == w.log;
      ManagerAgrees(w, w', tx);
    } else if tx.call.OnToken? {
      ClearedAppend(w.log, OtherEvents(tx)[0]);
      GuardedAgrees(w, w', OtherEvents(tx)[0]);
    } else {
      assert w.log + OtherEvents(tx) == w.log;
    }
  }

  /** Over every run, with any changes of registry and of scores. */
  lemma {:induction false} RunCleared(w: World, txs: seq<Tx>)
    requires Genesis(w) && GenuineRun(w, txs)
    ensures RegistriesAgree(Run(w, txs)) && MintsCleared(Run(w, txs).log)
  {
    if txs != [] {
      var before, tx, after := Run(w, txs[..|txs| - 1]), txs[|txs| - 1], Run(w, txs);
      RunCleared(w, txs[..|txs| - 1]);
      RunSound(w, txs[..|txs| - 1]);
      StepCases(before, tx);
      if !tx.call.OnEscrow? { OtherCases(before, tx); }
      if after != before {
        StepCleared(before, after, tx);
      }
    }
  }
}
