/** Idempotency stores: one abstract expiring map and when a concrete map answers like it. */
module Stores {
  import opened Common

  datatype Record<+R> = Record(statusCode: nat, response: R, createdAt: int, expiresAt: int)

  /** `!time.Now().After(rec.ExpiresAt)`: the last instant still counts. */
  predicate Live<R>(r: Record<R>, now: int) { now <= r.expiresAt }

  type Saves<+R> = seq<(string, Record<R>)>

  function LastSaved<R>(saves: Saves<R>, key: string): Option<Record<R>> {
    if saves == [] then None
    else if saves[|saves| - 1].0 == key then Some(saves[|saves| - 1].1)
    else LastSaved(saves[..|saves| - 1], key)
  }

  /** The abstract expiring map: the last record saved under the key, until it expires. */
  function Reference<R>(saves: Saves<R>, key: string, now: int): Option<Record<R>> {
    var last := LastSaved(saves, key);
    if last.Some? && Live(last.value, now) then last else None
  }

  /** What a plain map answers when expired records are ignored. */
  function Read<R>(m: map<string, Record<R>>, key: string, now: int): Option<Record<R>> {
    if key in m && Live(m[key], now) then Some(m[key]) else None
  }

  /** From `now` on, the map answers every lookup like the abstract one. */
  ghost predicate Agrees<R(!new)>(m: map<string, Record<R>>, saves: Saves<R>, now: int) {
    forall key: string, t: int | now <= t :: Read(m, key, t) == Reference(saves, key, t)
  }

  lemma LastSavedAppend<R>(saves: Saves<R>, key: string, r: Record<R>, other: string)
    ensures LastSaved(saves + [(key, r)], other) == if other == key then Some(r) else LastSaved(saves, other)
  {
    assert (saves + [(key, r)])[..|saves|] == saves;
  }

  /** The laws of the abstract map: empty at first; a record is found under its own key up to and at its expiry. */
  lemma ReferenceLaws<R>(saves: Saves<R>, key: string, r: Record<R>, other: string, now: int)
    ensures Reference<R>([], key, now) == None
    ensures Reference(saves + [(key, r)], key, now) == if now <= r.expiresAt then Some(r) else None
    ensures other != key ==> Reference(saves + [(key, r)], other, now) == Reference(saves, other, now)
  {
    LastSavedAppend(saves, key, r, key);
    LastSavedAppend(saves, key, r, other);
  }

  lemma SaveAgrees<R(!new)>(m: map<string, Record<R>>, saves: Saves<R>, now: int, key: string, r: Record<R>)
    requires Agrees(m, saves, now)
    ensures Agrees(m[key := r], saves + [(key, r)], now)
  {
    forall k: string, t: int | now <= t
      ensures Read(m[key := r], k, t) == Reference(saves + [(key, r)], k, t)
    {
      LastSavedAppend(saves, key, r, k);
      assert Read(m, k, t) == Reference(saves, k, t);
    }
  }

  /** Deleting a row is harmless exactly when the row is gone or expired already. */
  lemma DeleteAgreesIff<R(!new)>(m: map<string, Record<R>>, saves: Saves<R>, now: int, key: string)
    requires Agrees(m, saves, now)
    ensures Agrees(m - {key}, saves, now) <==> (key in m ==> !Live(m[key], now))
  {
    if key in m && Live(m[key], now) {
      assert Read(m, key, now) == Reference(saves, key, now);
      assert Read(m - {key}, key, now) != Reference(saves, key, now);
    } else {
      forall k: string, t: int | now <= t
        ensures Read(m - {key}, k, t) == Reference(saves, k, t)
      {
        assert Read(m, k, t) == Reference(saves, k, t);
      }
    }
  }

  lemma {:induction false} LastSavedConcat<R>(saves: Saves<R>, more: Saves<R>, key: string)
    ensures LastSaved(saves + more, key) == if LastSaved(more, key).Some? then LastSaved(more, key) else LastSaved(saves, key)
  {
    if more == [] {
      assert saves + more == saves;
    } else {
      var all := saves + more;
      assert all[..|all| - 1] == saves + more[..|more| - 1];
      LastSavedConcat(saves, more[..|more| - 1], key);
    }
  }

  /** From now on the row under the key, or its absence, cannot be told from this record. */
  ghost predicate Indistinct<R>(m: map<string, Record<R>>, key: string, r: Record<R>, now: int) {
    if key in m && Live(m[key], now) then m[key] == r else !Live(r, now)
  }

  /**
   * A map that missed some saves still answers alike exactly when, under every key saved since, the last
   * record saved cannot be told from its row.
   */
  lemma MissedSavesAgreeIff<R(!new)>(m: map<string, Record<R>>, saves: Saves<R>, missed: Saves<R>, now: int)
    requires Agrees(m, saves, now)
    ensures Agrees(m, saves + missed, now) <==>
            forall key: string | LastSaved(missed, key).Some? :: Indistinct(m, key, LastSaved(missed, key).value, now)
  {
    if forall key: string | LastSaved(missed, key).Some? :: Indistinct(m, key, LastSaved(missed, key).value, now) {
      forall k: string, t: int | now <= t ensures Read(m, k, t) == Reference(saves + missed, k, t) {
        LastSavedConcat(saves, missed, k);
        assert Read(m, k, t) == Reference(saves, k, t);
      }
    } else {
      var key: string :| LastSaved(missed, key).Some? && !Indistinct(m, key, LastSaved(missed, key).value, now);
      LastSavedConcat(saves, missed, key);
      assert Read(m, key, now) != Reference(saves + missed, key, now);
    }
  }

  // ---- PostgresStore: rows and delayed deletes ----

  /** A delayed delete names the lookup, by its position in the run, that started it. */
  datatype PgOp<+R> =
    | PgGet(key: string)
    | PgSave(key: string, record: Record<R>)
    | PgDelete(key: string, origin: nat)

  datatype PgEvent<+R> = At(time: int, op: PgOp<R>)

  function PgRows<R>(run: seq<PgEvent<R>>): map<string, Record<R>> {
    if run == [] then map[]
    else
      var rows := PgRows(run[..|run| - 1]);
      match run[|run| - 1].op
      case PgGet(_) => rows
      case PgSave(key, r) => rows[key := r]
      case PgDelete(key, _) => rows - {key}
  }

  function PgSaves<R>(run: seq<PgEvent<R>>): Saves<R> {
    if run == [] then []
    else
      var saves := PgSaves(run[..|run| - 1]);
      match run[|run| - 1].op
      case PgSave(key, r) => saves + [(key, r)]
      case _ => saves
  }

  predicate Ordered<R>(run: seq<PgEvent<R>>) {
    forall i, j | 0 <= i < j < |run| :: run[i].time <= run[j].time
  }

  /** Every delete was started by an earlier lookup that found the row expired. */
  predicate Plausible<R>(run: seq<PgEvent<R>>) {
    forall j | 0 <= j < |run| && run[j].op.PgDelete? ::
      var i, key := run[j].op.origin, run[j].op.key;
      && i < j && run[i].op == PgGet(key)
      && key in PgRows(run[..i]) && !Live(PgRows(run[..i])[key], run[i].time)
  }

  /** After the first n operations the table agrees with the abstract map from that moment on. */
  ghost predicate AgreesAt<R(!new)>(run: seq<PgEvent<R>>, n: nat)
    requires 0 < n <= |run|
  {
    Agrees(PgRows(run[..n]), PgSaves(run[..n]), run[n - 1].time)
  }

  /** Each delete, when it ran, removed nothing that was still live. */
  predicate DeletesHarmless<R>(run: seq<PgEvent<R>>) {
    forall j | 0 <= j < |run| && run[j].op.PgDelete? ::
      var rows := PgRows(run[..j]);
      run[j].op.key in rows ==> !Live(rows[run[j].op.key], run[j].time)
  }

  lemma AgreesLater<R(!new)>(m: map<string, Record<R>>, saves: Saves<R>, now: int, later: int)
    requires Agrees(m, saves, now) && now <= later
    ensures Agrees(m, saves, later)
  {
  }

  lemma PgStep<R(!new)>(run: seq<PgEvent<R>>, n: nat)
    requires 0 < n <= |run| && Ordered(run)
    requires n > 1 ==> AgreesAt(run, n - 1)
    ensures var e := run[n - 1];
            var rows := PgRows(run[..n - 1]);
            AgreesAt(run, n) <==> (e.op.PgDelete? && e.op.key in rows ==> !Live(rows[e.op.key], e.time))
  {
    var e := run[n - 1];
    var rows, saves := PgRows(run[..n - 1]), PgSaves(run[..n - 1]);
    assert run[..n][..n - 1] == run[..n - 1];
    if n > 1 { AgreesLater(rows, saves, run[n - 2].time, e.time); }
    match e.op {
      case PgGet(_) =>
      case PgSave(key, r) => SaveAgrees(rows, saves, e.time, key, r);
      case PgDelete(key, _) => DeleteAgreesIff(rows, saves, e.time, key);
    }
  }

  /** The table agrees at every moment of a run exactly when no delete hit a live row. */
  lemma {:induction false} PostgresAgreesIff<R(!new)>(run: seq<PgEvent<R>>)
    requires Ordered(run)
    ensures (forall n | 0 < n <= |run| :: AgreesAt(run, n)) <==> DeletesHarmless(run)
  {
    if forall n | 0 < n <= |run| :: AgreesAt(run, n) {
      forall j | 0 <= j < |run| && run[j].op.PgDelete?
        ensures var rows := PgRows(run[..j]); run[j].op.key in rows ==> !Live(rows[run[j].op.key], run[j].time)
      {
        assert AgreesAt(run, j + 1);
        PgStep(run, j + 1);
      }
    }
    if DeletesHarmless(run) {
      PgAgreesUpTo(run, |run|);
    }
  }

  lemma {:induction false} PgAgreesUpTo<R(!new)>(run: seq<PgEvent<R>>, n: nat)
    requires Ordered(run) && DeletesHarmless(run) && n <= |run|
    ensures forall k | 0 < k <= n :: AgreesAt(run, k)
  {
    if n > 0 {
      PgAgreesUpTo(run, n - 1);
      PgStep(run, n);
    }
  }

  /** No save to the key falls between a lookup that found it expired and the delete it started. */
  predicate NoSaveInBetween<R>(run: seq<PgEvent<R>>) {
    forall i, j | 0 <= i < j < |run| && run[j].op.PgDelete? && run[j].op.origin < i ::
      run[i].op.PgSave? ==> run[i].op.key != run[j].op.key
  }

  /** Without a save in between, the row a delete meets is the expired one, or none. */
  lemma {:induction false} QuietKey<R>(run: seq<PgEvent<R>>, i: nat, j: nat, key: string)
    requires i <= j <= |run|
    requires forall k | i <= k < j && run[k].op.PgSave? :: run[k].op.key != key
    ensures key in PgRows(run[..j]) ==> key in PgRows(run[..i]) && PgRows(run[..j])[key] == PgRows(run[..i])[key]
  {
    if i < j {
      QuietKey(run, i, j - 1, key);
      assert run[..j][..j - 1] == run[..j - 1];
    }
  }

  /** On every run without such saves the store answers every lookup like the abstract map. */
  lemma PostgresAgrees<R(!new)>(run: seq<PgEvent<R>>)
    requires Ordered(run) && Plausible(run) && NoSaveInBetween(run)
    ensures forall n | 0 < n <= |run| :: AgreesAt(run, n)
  {
    forall j | 0 <= j < |run| && run[j].op.PgDelete?
      ensures var rows := PgRows(run[..j]); run[j].op.key in rows ==> !Live(rows[run[j].op.key], run[j].time)
    {
      var i := run[j].op.origin;
      assert run[i].op == PgGet(run[j].op.key);
      QuietKey(run, i, j, run[j].op.key);
    }
    PostgresAgreesIff(run);
  }

  /** A save that slips in between is lost: the delayed delete is unconditional. */
  lemma PostgresLosesASave(r: Record<string>, newer: Record<string>)
    requires r.expiresAt == 10 && newer.expiresAt == 100
    ensures var run := [At(0, PgSave("k", r)), At(11, PgGet("k")), At(12, PgSave("k", newer)), At(13, PgDelete("k", 1))];
            Ordered(run) && Plausible(run) && !AgreesAt(run, 4) && Read(PgRows(run), "k", 14) == None
  {
    var run := [At(0, PgSave("k", r)), At(11, PgGet("k")), At(12, PgSave("k", newer)), At(13, PgDelete("k", 1))];
    assert run[..1] == [At(0, PgSave("k", r))];
    assert run[..1][..0] == [];
    assert PgRows(run[..1]) == map["k" := r];
    assert run[..3][..2] == run[..2] && run[..2][..1] == run[..1] && run[..4] == run && run[..4][..3] == run[..3];
    assert PgSaves(run[..1]) == [("k", r)];
    assert PgSaves(run[..2]) == [("k", r)];
    assert PgSaves(run[..3]) == [("k", r), ("k", newer)];
    assert PgSaves(run) == [("k", r), ("k", newer)];
    assert "k" !in PgRows(run);
    assert Reference(PgSaves(run), "k", 13) == Some(newer);
    assert Read(PgRows(run), "k", 13) == None;
  }
}
