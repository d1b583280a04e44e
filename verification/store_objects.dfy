/** The store implementations as objects, each answering like the abstract expiring map. */
module StoreObjects {
  import opened Common
  import opened Stores

  /** Expired records stay in the map and are skipped on lookup. */
  class MemoryStore<R(!new)> {
    var data: map<string, Record<R>>
    ghost var saves: Saves<R>

    ghost predicate Valid()
      reads this
    {
      forall now: int :: Agrees(data, saves, now)
    }

    constructor ()
      ensures Valid() && saves == []
    {
      data, saves := map[], [];
    }

    method Get(key: string, now: int) returns (r: Option<Record<R>>)
      requires Valid()
      ensures r == Reference(saves, key, now)
    {
      assert Agrees(data, saves, now);
      assert Read(data, key, now) == Reference(saves, key, now);
      if key !in data { return None; }
      var rec := data[key];
      if now > rec.expiresAt { return None; }
      return Some(rec);
    }

    method Save(key: string, record: Record<R>)
      requires Valid()
      modifies this
      ensures Valid() && saves == old(saves) + [(key, record)]
    {
      ghost var before, savesBefore := data, saves;
      data := data[key := record];
      saves := saves + [(key, record)];
      forall now: int ensures Agrees(data, saves, now) {
        SaveAgrees(before, savesBefore, now, key, record);
      }
    }
  }

  /** A lookup that meets an expired record deletes it and rewrites the file; writes may fail. */
  class FileStore<R(!new)> {
    var data: map<string, Record<R>>
    var disk: map<string, Record<R>>
    ghost var written: Saves<R>  // the saves made up to the last write that succeeded
    ghost var missed: Saves<R>   // the saves made since
    ghost var clock: int

    ghost function Saved(): Saves<R>
      reads this
    {
      written + missed
    }

    /** Memory answers like the abstract map, and the file like the abstract map of the saves it has seen. */
    ghost predicate Valid()
      reads this
    {
      && Agrees(data, Saved(), clock)
      && Agrees(disk, written, clock)
      && (missed == [] ==> forall k | k in data :: k in disk && disk[k] == data[k])
    }

    /** Opening a file that agrees with the saves made so far. */
    constructor Open(disk: map<string, Record<R>>, ghost saves: Saves<R>, ghost now: int)
      requires Agrees(disk, saves, now)
      ensures Valid() && written == saves && missed == [] && clock == now && data == this.disk == disk
    {
      this.data, this.disk, written, missed, clock := disk, disk, saves, [], now;
      new;
      assert Saved() == saves;
    }

    /** Writes memory to the file; `writes` says whether the write succeeds. */
    method Persist(writes: bool) returns (ok: bool)
      requires Agrees(data, Saved(), clock) && Agrees(disk, written, clock)
      requires missed == [] ==> forall k | k in data :: k in disk && disk[k] == data[k]
      modifies this`disk, this`written, this`missed
      ensures Valid() && ok == writes && Saved() == old(Saved())
      ensures missed == if writes then [] else old(missed)
    {
      if writes {
        disk := data;
        written, missed := written + missed, [];
        assert Saved() == written;
      }
      return writes;
    }

    method Get(key: string, now: int, writes: bool) returns (r: Option<Record<R>>)
      requires Valid() && clock <= now
      modifies this
      ensures Valid() && r == Reference(Saved(), key, now)
      ensures Saved() == old(Saved()) && clock == now
      // a cleanup that is written makes up for all saves the file has missed
      ensures missed == if writes && key in old(data) && !Live(old(data)[key], now) then [] else old(missed)
      ensures forall k | k in data :: k in old(data) && data[k] == old(data)[k]
      ensures forall k | k in old(data) && k !in data :: !Live(old(data)[k], now)
    {
      AgreesLater(data, Saved(), clock, now);
      AgreesLater(disk, written, clock, now);
      clock := now;
      assert Read(data, key, now) == Reference(Saved(), key, now);
      if key !in data { return None; }
      var record := data[key];
      if now > record.expiresAt {
        DeleteAgreesIff(data, Saved(), now, key);
        data := data - {key};
        var _ := Persist(writes);
        return None;
      }
      return Some(record);
    }

    method Save(key: string, record: Record<R>, now: int, writes: bool) returns (ok: bool)
      requires Valid() && clock <= now
      modifies this
      ensures Valid() && ok == writes && clock == now
      ensures Saved() == old(Saved()) + [(key, record)]
      // the whole file is rewritten, so one write that succeeds makes up for all that failed
      ensures missed == if writes then [] else old(missed) + [(key, record)]
    {
      SaveAgrees(data, Saved(), clock, key, record);
      data := data[key := record];
      assert written + (missed + [(key, record)]) == Saved() + [(key, record)];
      missed := missed + [(key, record)];
      AgreesLater(data, Saved(), clock, now);
      AgreesLater(disk, written, clock, now);
      clock := now;
      ok := Persist(writes);
    }
  }

  /**
   * A store reopened from the file answers every later lookup as the running one would exactly when no save made
   * since the last successful write can be told from what the file holds; in particular if there is none.
   */
  lemma ReopenedAnswersAlikeIff<R(!new)>(f: FileStore<R>)
    requires f.Valid()
    ensures (forall key: string, t: int | f.clock <= t :: Read(f.disk, key, t) == Read(f.data, key, t)) <==>
            forall key: string | LastSaved(f.missed, key).Some? :: Indistinct(f.disk, key, LastSaved(f.missed, key).value, f.clock)
  {
    MissedSavesAgreeIff(f.disk, f.written, f.missed, f.clock);
    assert forall key: string, t: int | f.clock <= t :: Read(f.data, key, t) == Reference(f.Saved(), key, t);
  }

  /** If the last write since the last save succeeded, file and memory differ in expired records only. */
  lemma ReopenedAnswersAlike<R(!new)>(f: FileStore<R>, key: string, t: int)
    requires f.Valid() && f.missed == [] && f.clock <= t
    ensures Read(f.disk, key, t) == Read(f.data, key, t) == Reference(f.Saved(), key, t)
    ensures forall k | k in f.disk && (k !in f.data || f.data[k] != f.disk[k]) :: !Live(f.disk[k], f.clock)
  {
    assert f.Saved() == f.written;
    assert Read(f.disk, key, t) == Reference(f.written, key, t);
    assert Read(f.data, key, t) == Reference(f.Saved(), key, t);
    forall k | k in f.disk && (k !in f.data || f.data[k] != f.disk[k]) ensures !Live(f.disk[k], f.clock) {
      assert Read(f.disk, k, f.clock) == Reference(f.written, k, f.clock);
      assert Read(f.data, k, f.clock) == Reference(f.Saved(), k, f.clock);
    }
  }

  /** One failed write is enough to make a reopened store forget a live record, and one later write to remember it. */
  method FailedWriteForgets(key: string, other: string, record: Record<string>, now: int)
    returns (running: Option<Record<string>>, reopened: Option<Record<string>>, repaired: Option<Record<string>>)
    requires Live(record, now) && other != key
    ensures running == Some(record) && reopened == None && repaired == Some(record)
  {
    var store := new FileStore<string>.Open(map[], [], now);
    var _ := store.Save(key, record, now, false);
    assert LastSaved([(key, record)], key) == Some(record);
    assert store.Saved() == [(key, record)];
    running := store.Get(key, now, true);
    assert Read(store.disk, key, now) == Reference([], key, now);
    var again := new FileStore<string>.Open(store.disk, store.written, now);
    reopened := again.Get(key, now, true);
    var _ := store.Save(other, record, now, true);
    LastSavedAppend([(key, record)], other, record, key);
    var third := new FileStore<string>.Open(store.disk, store.written, now);
    repaired := third.Get(key, now, true);
  }

  /** The table; a lookup that meets an expired row leaves its deletion to the background and returns at once. */
  class PostgresStore<R(!new)> {
    var rows: map<string, Record<R>>
    ghost var run: seq<PgEvent<R>>
    ghost var scheduled: set<(string, nat)>  // keys to delete, with the lookup that found them expired

    ghost predicate Due(d: (string, nat))
      reads this
    {
      && d.1 < |run| && run[d.1].op == PgGet(d.0)
      && d.0 in PgRows(run[..d.1]) && !Live(PgRows(run[..d.1])[d.0], run[d.1].time)
    }

    ghost predicate Valid()
      reads this
    {
      rows == PgRows(run) && Plausible(run) && forall d | d in scheduled :: Due(d)
    }

    constructor ()
      ensures Valid() && run == [] && scheduled == {}
    {
      rows, run, scheduled := map[], [], {};
    }

    /** One more operation on the record of the run; what was due stays due. */
    ghost method Note(e: PgEvent<R>)
      requires Plausible(run) && forall d | d in scheduled :: Due(d)
      requires e.op.PgDelete? ==> Due((e.op.key, e.op.origin))
      modifies this`run
      ensures run == old(run) + [e] && run[..|run| - 1] == old(run)
      ensures Plausible(run) && forall d | d in scheduled :: Due(d)
    {
      var before := run;
      run := run + [e];
      forall j: nat | j <= |before| ensures run[..j] == before[..j] {}
      assert forall d: (string, nat) | d.1 < |before| :: run[d.1] == before[d.1];
    }

    method Get(key: string, now: int) returns (r: Option<Record<R>>)
      requires Valid()
      modifies this`run, this`scheduled
      ensures Valid() && run == old(run) + [At(now, PgGet(key))]
      ensures r == Read(rows, key, now)
      ensures scheduled == old(scheduled) + (if key in rows && r.None? then {(key, |old(run)|)} else {})
    {
      Note(At(now, PgGet(key)));
      if key !in rows { return None; }
      var rec := rows[key];
      if now > rec.expiresAt {
        scheduled := scheduled + {(key, |run| - 1)};
        return None;
      }
      return Some(rec);
    }

    method Save(key: string, record: Record<R>, now: int)
      requires Valid()
      modifies this`rows, this`run
      ensures Valid() && run == old(run) + [At(now, PgSave(key, record))]
    {
      rows := rows[key := record];
      Note(At(now, PgSave(key, record)));
    }

    /** The background delete: unconditional, at any later time. */
    method DeleteKey(key: string, ghost origin: nat, now: int)
      requires Valid() && (key, origin) in scheduled
      modifies this
      ensures Valid() && run == old(run) + [At(now, PgDelete(key, origin))]
      ensures scheduled == old(scheduled) - {(key, origin)}
    {
      assert Due((key, origin));
      rows := rows - {key};
      Note(At(now, PgDelete(key, origin)));
      scheduled := scheduled - {(key, origin)};
    }
  }
}
