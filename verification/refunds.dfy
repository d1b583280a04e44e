/** Winding down: every Pending deposit can be paid back, in any order, paused or not. */
module Refunds {
  import opened Common
  import opened Sums
  import opened Ledgers
  import opened Escrow
  import opened Chain
  import opened Intents
  import opened Accounting
  import opened Solvency

  function RefundAll(executor: Address, ids: seq<Bytes32>): seq<Tx> {
    if ids == [] then [] else RefundAll(executor, ids[..|ids| - 1]) + [RefundTx(executor, ids[|ids| - 1])]
  }

  predicate IsPending(w: World, id: Bytes32) {
    id in w.escrow.intents && w.escrow.intents[id].status == Pending
  }

  /** Distinct Pending intents; a complete list names all of them. */
  predicate PendingList(w: World, ids: seq<Bytes32>) {
    ids == []
    || (var n := |ids| - 1; PendingList(w, ids[..n]) && IsPending(w, ids[n]) && ids[n] !in ids[..n])
  }

  function PendingOf(user: Address): Intent -> nat {
    (i: Intent) => if i.status == Pending && i.user == user then i.amount else 0
  }

  ghost function Owed(w: World, user: Address): nat {
    Total(w.escrow.intents, PendingOf(user))
  }

  /** The escrow is ready to pay: funds cover the Pending amounts and the executor is authorised. */
  ghost predicate Ready(w: World, token: Address, executor: Address) {
    && Sound(w)
    && token != 0 && token in w.tokens && w.escrow.stablecoin == token
    && (ExecutorRole, executor) in w.escrow.roles
    && Held(w, Pending) <= Balance(w.tokens[token], w.self)
  }

  /** One refund goes through, pays its user exactly the amount, and leaves the escrow ready for the rest. */
  lemma OneRefund(w: World, token: Address, executor: Address, id: Bytes32)
    requires Ready(w, token, executor) && IsPending(w, id)
    ensures Apply(w, RefundTx(executor, id)).Ok?
    ensures DidRefund(w, Step(w, RefundTx(executor, id)), id)
    ensures Ready(Step(w, RefundTx(executor, id)), token, executor)
  {
    assert IntentOk(w, id);
    var w' := Step(w, RefundTx(executor, id));
    TotalReplace(w.escrow.intents, id, w.escrow.intents[id], AmountIf(Pending));
    assert Apply(w, RefundTx(executor, id)).Ok?;
    GuardedCases(w, executor, Refund(id));
    RefundReady(w, w', token, executor, id);
  }

  lemma RefundReady(w: World, w': World, token: Address, executor: Address, id: Bytes32)
    requires Ready(w, token, executor) && IsPending(w, id) && DidRefund(w, w', id)
    ensures Ready(w', token, executor)
  {
    SettleSound(w, w', id, Refunded);
    SettleHeld(w, w', id, Refunded);
    assert IntentOk(w, id);
  }

  lemma OnePays(w: World, w': World, token: Address, id: Bytes32, user: Address)
    requires Sound(w) && user != w.self && token in w.tokens && w.escrow.stablecoin == token && DidRefund(w, w', id)
    ensures token in w'.tokens
    ensures Balance(w'.tokens[token], user) + Owed(w', user) == Balance(w.tokens[token], user) + Owed(w, user)
  {
    var i := w.escrow.intents[id];
    assert IntentOk(w, id);
    TotalReplace(w.escrow.intents, id, i.(status := Refunded), PendingOf(user));
  }

  /** From w to w' exactly these intents stopped being Pending, and their users were paid. */
  ghost predicate PaidBack(w: World, w': World, token: Address, ids: seq<Bytes32>)
    requires token in w.tokens
  {
    && w'.self == w.self && token in w'.tokens
    && (forall id: Bytes32 :: IsPending(w', id) <==> IsPending(w, id) && id !in ids)
    && (forall u: Address | u != w.self ::
          Balance(w'.tokens[token], u) + Owed(w', u) == Balance(w.tokens[token], u) + Owed(w, u))
  }

  lemma PaidOneMore(w: World, before: World, after: World, token: Address, ids: seq<Bytes32>, id: Bytes32)
    requires token in w.tokens && PaidBack(w, before, token, ids)
    requires Sound(before) && before.escrow.stablecoin == token && DidRefund(before, after, id)
    ensures PaidBack(w, after, token, ids + [id])
  {
    assert before.self == w.self && token in before.tokens;
    forall x: Bytes32 ensures IsPending(after, x) <==> IsPending(w, x) && x !in ids + [id] {
      assert IsPending(before, x) <==> IsPending(w, x) && x !in ids;
    }
    forall u: Address | u != w.self
      ensures Balance(after.tokens[token], u) + Owed(after, u) == Balance(w.tokens[token], u) + Owed(w, u)
    {
      OnePays(before, after, token, id, u);
      assert Balance(before.tokens[token], u) + Owed(before, u) == Balance(w.tokens[token], u) + Owed(w, u);
    }
  }

  /** After the refunds done so far the escrow is still ready and exactly these have been paid. */
  ghost predicate Wound(w: World, token: Address, executor: Address, ids: seq<Bytes32>, txs: seq<Tx>)
    requires token in w.tokens
  {
    && NoReverts(w, txs)
    && Ready(Run(w, txs), token, executor)
    && PaidBack(w, Run(w, txs), token, ids)
  }

  lemma NextRefunded(w: World, token: Address, executor: Address, ids: seq<Bytes32>, txs: seq<Tx>, id: Bytes32)
    requires token in w.tokens && Wound(w, token, executor, ids, txs)
    requires IsPending(w, id) && id !in ids
    ensures Wound(w, token, executor, ids + [id], txs + [RefundTx(executor, id)])
  {
    var before := Run(w, txs);
    assert IsPending(before, id);
    OneRefund(before, token, executor, id);
    PaidOneMore(w, before, Step(before, RefundTx(executor, id)), token, ids, id);
    RunAppend(w, txs, RefundTx(executor, id));
  }

  lemma NothingRefunded(w: World, token: Address, executor: Address)
    requires Ready(w, token, executor)
    ensures Wound(w, token, executor, [], [])
  {
  }

  lemma Snoc(executor: Address, ids: seq<Bytes32>)
    requires ids != []
    ensures var rest, id := ids[..|ids| - 1], ids[|ids| - 1];
            ids == rest + [id] && RefundAll(executor, ids) == RefundAll(executor, rest) + [RefundTx(executor, id)]
  {
  }

  /** Any list of distinct Pending intents is refunded without a failure; the others stay as they are. */
  lemma {:induction false} ListRefunded(w: World, token: Address, executor: Address, ids: seq<Bytes32>)
    requires Ready(w, token, executor) && PendingList(w, ids)
    ensures Wound(w, token, executor, ids, RefundAll(executor, ids))
  {
    if ids == [] {
      NothingRefunded(w, token, executor);
    } else {
      var rest, id := ids[..|ids| - 1], ids[|ids| - 1];
      ListRefunded(w, token, executor, rest);
      NextRefunded(w, token, executor, rest, RefundAll(executor, rest), id);
      Snoc(executor, ids);
    }
  }

  /** A state reached with the stablecoin fixed has the funds for every Pending intent. */
  lemma ReachableReady(w: World, txs: seq<Tx>, token: Address, executor: Address)
    requires Genesis(w) && GenuineRun(w, txs) && StablecoinFixed(w, txs, token)
    requires Run(w, txs).escrow.stablecoin != 0 && (ExecutorRole, executor) in Run(w, txs).escrow.roles
    ensures Ready(Run(w, txs), token, executor)
  {
    RunSound(w, txs);
    RunSolvent(w, txs, token);
  }

  /**
   * From every reachable state, paused or not, an executor can refund all Pending intents in any order:
   * no refund fails, none is Pending afterwards, and each user has received exactly what was Pending for them.
   */
  lemma EverybodyRepaid(w: World, txs: seq<Tx>, token: Address, executor: Address, ids: seq<Bytes32>)
    requires Genesis(w) && GenuineRun(w, txs) && StablecoinFixed(w, txs, token)
    requires Run(w, txs).escrow.stablecoin != 0 && (ExecutorRole, executor) in Run(w, txs).escrow.roles
    requires PendingList(Run(w, txs), ids) && forall id: Bytes32 :: IsPending(Run(w, txs), id) ==> id in ids
    ensures var r := Run(w, txs);
            var w' := Run(r, RefundAll(executor, ids));
            && NoReverts(r, RefundAll(executor, ids))
            && (forall id: Bytes32 :: !IsPending(w', id))
            && token in r.tokens && token in w'.tokens
            && (forall u: Address | u != w.self ::
                  Balance(w'.tokens[token], u) == Balance(r.tokens[token], u) + Owed(r, u))
  {
    var r := Run(w, txs);
    ReachableReady(w, txs, token, executor);
    RunSound(w, txs);
    ListRefunded(r, token, executor, ids);
    var w' := Run(r, RefundAll(executor, ids));
    forall u: Address ensures Owed(w', u) == 0 {
      forall id | id in w'.escrow.intents ensures PendingOf(u)(w'.escrow.intents[id]) == 0 {
        assert !IsPending(w', id);
      }
      TotalZero(w'.escrow.intents, PendingOf(u));
    }
  }
}
