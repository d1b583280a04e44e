/** The life of an intent over every run: identity, immutability, terminal states. */
module Intents {
  import opened Common
  import opened Escrow
  import opened Chain

  ghost predicate IntentOk(w: World, id: Bytes32)
    requires id in w.escrow.intents
  {
    var i := w.escrow.intents[id];
    && i.user != 0 && i.user != w.self
    && 1_000_000_000_000_000_000 <= i.amount <= 1_000_000_000_000_000_000_000
    && i.txRef in w.escrow.consumed
    && i.status != Failed
    && id == w.intentId(i.user, i.amount, i.countryCode, i.txRef)
  }

  /** Every consumed reference belongs to exactly one stored intent. */
  ghost predicate Bijection(s: Storage) {
    && (forall r | r in s.consumed :: exists id :: id in s.intents && s.intents[id].txRef == r)
    && (forall x, y | x in s.intents && y in s.intents && s.intents[x].txRef == s.intents[y].txRef :: x == y)
  }

  ghost predicate Sound(w: World) {
    && w.self != 0 && !w.escrow.entered
    && (forall id | id in w.escrow.intents :: IntentOk(w, id))
    && Bijection(w.escrow)
  }

  lemma UnusedId(w: World, id: Bytes32)
    requires Sound(w) && !Stored(w.escrow, id)
    ensures id !in w.escrow.intents
  {
    assert forall x | x in w.escrow.intents :: IntentOk(w, x);
  }

  /** Adding an intent with a fresh reference under a fresh id keeps the correspondence. */
  lemma AddBijection(s: Storage, t: Storage, id: Bytes32, i: Intent)
    requires Bijection(s) && id !in s.intents && i.txRef !in s.consumed
    requires forall x | x in s.intents :: s.intents[x].txRef in s.consumed
    requires t.intents == s.intents[id := i] && t.consumed == s.consumed + {i.txRef}
    ensures Bijection(t)
  {
    forall r | r in t.consumed
      ensures exists x :: x in t.intents && t.intents[x].txRef == r
    {
      if r == i.txRef {
        assert t.intents[id].txRef == r;
      } else {
        var x :| x in s.intents && s.intents[x].txRef == r;
        assert t.intents[x].txRef == r;
      }
    }
  }

  lemma SubmitSound(w: World, w': World, sender: Address, amount: nat, countryCode: Bytes32, txRef: Bytes32)
    requires Sound(w) && sender != 0 && sender != w.self
    requires WroteSubmit(w, w', sender, amount, countryCode, txRef)
    ensures Sound(w') && Evolves(w.escrow, w'.escrow)
  {
    var id := w.intentId(sender, amount, countryCode, txRef);
    UnusedId(w, id);
    forall x | x in w'.escrow.intents ensures IntentOk(w', x) {
      if x != id { assert IntentOk(w, x); }
    }
    forall x | x in w.escrow.intents ensures w.escrow.intents[x].txRef in w.escrow.consumed {
      assert IntentOk(w, x);
    }
    AddBijection(w.escrow, w'.escrow, id, w'.escrow.intents[id]);
  }

  lemma StatusBijection(s: Storage, t: Storage, id: Bytes32, status: Status)
    requires Bijection(s) && id in s.intents
    requires t.intents == s.intents[id := s.intents[id].(status := status)] && t.consumed == s.consumed
    ensures Bijection(t)
  {
    forall r | r in t.consumed
      ensures exists x :: x in t.intents && t.intents[x].txRef == r
    {
      var x :| x in s.intents && s.intents[x].txRef == r;
      assert t.intents[x].txRef == r;
    }
    forall x, y | x in t.intents && y in t.intents && t.intents[x].txRef == t.intents[y].txRef
      ensures x == y
    {
      assert s.intents[x].txRef == s.intents[y].txRef;
    }
  }

  /** Settling an intent changes its status and nothing else about the intents. */
  lemma SettleSound(w: World, w': World, id: Bytes32, status: Status)
    requires Sound(w) && SameSurroundings(w, w') && Settled(w, w', id, status)
    requires status == Executed || status == Refunded
    ensures Sound(w') && Evolves(w.escrow, w'.escrow)
  {
    StatusBijection(w.escrow, w'.escrow, id, status);
    forall x | x in w'.escrow.intents ensures IntentOk(w', x) {
      assert IntentOk(w, x);
    }
  }

  lemma WroteSound(w: World, w': World, tx: Tx)
    requires Sound(w) && Genuine(w.self, tx) && Wrote(w, w', tx)
    ensures Sound(w') && Evolves(w.escrow, w'.escrow)
  {
    match tx.call {
      case OnEscrow(Submit(amount, countryCode, txRef)) => SubmitSound(w, w', tx.sender, amount, countryCode, txRef);
      case OnEscrow(Execute(id)) => SettleSound(w, w', id, Executed);
      case OnEscrow(Refund(id)) => SettleSound(w, w', id, Refunded);
      case _ => OtherSound(w, w', tx);
    }
  }

  lemma StepSound(w: World, tx: Tx)
    requires Sound(w) && Genuine(w.self, tx)
    ensures Sound(Step(w, tx)) && Evolves(w.escrow, Step(w, tx).escrow)
  {
    StepCases(w, tx);
    if Step(w, tx) != w { WroteSound(w, Step(w, tx), tx); }
  }

  lemma OtherSound(w: World, w': World, tx: Tx)
    requires Sound(w) && DidOther(w, w', tx)
    ensures Sound(w') && Evolves(w.escrow, w'.escrow)
  {
    assert forall x | x in w.escrow.intents :: IntentOk(w, x);
  }

  lemma {:induction false} RunSound(w: World, txs: seq<Tx>)
    requires Genesis(w) && GenuineRun(w, txs)
    ensures Sound(Run(w, txs)) && Run(w, txs).self == w.self && Run(w, txs).intentId == w.intentId
  {
    if txs != [] {
      RunSound(w, txs[..|txs| - 1]);
      assert txs[|txs| - 1] in txs;
      StepSound(Run(w, txs[..|txs| - 1]), txs[|txs| - 1]);
    }
  }

  // ---- immutability ----

  /** Nothing stored is lost or altered but the status, and a settled status is final. */
  ghost predicate Evolves(s: Storage, t: Storage) {
    && s.consumed <= t.consumed
    && forall id | id in s.intents ::
         && id in t.intents
         && t.intents[id].(status := s.intents[id].status) == s.intents[id]
         && (s.intents[id].status != Pending ==> t.intents[id].status == s.intents[id].status)
  }

  lemma EvolvesFurther(s: Storage, t: Storage, u: Storage)
    requires Evolves(s, t) && Evolves(t, u)
    ensures Evolves(s, u)
  {
  }

  /** From any reachable state onwards intents only move from Pending to Executed or Refunded. */
  lemma {:induction false} RunEvolves(w: World, past: seq<Tx>, future: seq<Tx>)
    requires Genesis(w) && GenuineRun(w, past + future)
    ensures Evolves(Run(w, past).escrow, Run(w, past + future).escrow)
    decreases |future|
  {
    if future == [] {
      assert past + future == past;
    } else {
      var n := |future| - 1;
      var all := past + future;
      assert all[..|all| - 1] == past + future[..n];
      assert all[|all| - 1] == future[n] && future[n] in all;
      RunEvolves(w, past, future[..n]);
      RunSound(w, past + future[..n]);
      StepSound(Run(w, past + future[..n]), future[n]);
    }
  }

  /** In every reachable state references and intents correspond one to one and none has Failed. */
  lemma ReachableBijection(w: World, txs: seq<Tx>)
    requires Genesis(w) && GenuineRun(w, txs)
    ensures Bijection(Run(w, txs).escrow)
    ensures Run(w, txs).escrow.consumed == set id | id in Run(w, txs).escrow.intents :: Run(w, txs).escrow.intents[id].txRef
    ensures forall id | id in Run(w, txs).escrow.intents :: Run(w, txs).escrow.intents[id].status != Failed
  {
    RunSound(w, txs);
    var s := Run(w, txs).escrow;
    forall r | r in s.consumed
      ensures r in set id | id in s.intents :: s.intents[id].txRef
    {
      var id :| id in s.intents && s.intents[id].txRef == r;
    }
    assert forall id | id in s.intents :: IntentOk(Run(w, txs), id);
  }

  /** The fields an id is computed from. */
  type Fields = (Address, nat, Bytes32, Bytes32)

  function FieldsOf(i: Intent): Fields { (i.user, i.amount, i.countryCode, i.txRef) }

  /** The fields a submission competes with: its own and those of the stored intents. */
  ghost function InPlay(s: Storage, fields: Fields): set<Fields> {
    (set id | id in s.intents :: FieldsOf(s.intents[id])) + {fields}
  }

  /** No two of these share an id; no hash can promise this of all inputs at once. */
  ghost predicate CollisionFree(intentId: Hash, fields: set<Fields>) {
    forall x, y | x in fields && y in fields ::
      intentId(x.0, x.1, x.2, x.3) == intentId(y.0, y.1, y.2, y.3) ==> x == y
  }

  /** Unless the hash collides on those, no submission meets IntentAlreadyExists: TxRefAlreadyConsumed comes first. */
  lemma AlreadyExistsUnreachable(w: World, txs: seq<Tx>, sender: Address, amount: nat, countryCode: Bytes32, txRef: Bytes32)
    requires Genesis(w) && GenuineRun(w, txs)
    requires CollisionFree(w.intentId, InPlay(Run(w, txs).escrow, (sender, amount, countryCode, txRef)))
    ensures Apply(Run(w, txs), SubmitTx(sender, amount, countryCode, txRef)) != Err(IntentAlreadyExists)
  {
    RunSound(w, txs);
    var now := Run(w, txs);
    var id := now.intentId(sender, amount, countryCode, txRef);
    if Stored(now.escrow, id) {
      var fields := InPlay(now.escrow, (sender, amount, countryCode, txRef));
      assert IntentOk(now, id);
      assert FieldsOf(now.escrow.intents[id]) in fields;
      assert (sender, amount, countryCode, txRef) in fields;
      assert txRef in now.escrow.consumed;
    }
  }
}
