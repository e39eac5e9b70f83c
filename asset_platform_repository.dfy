/** The asset_platforms table, whose primary key is the CoinGecko platform id itself. */
module PlatformRepo {
  import opened Wrappers
  import opened Domain
  import opened Tables

  /**
   * UpsertBatch: nothing for no platforms; otherwise one Save per platform, with no key
   * filter, inside a transaction.
   */
  function PlatformBatchResult(s: Snapshot<string, PlatformData>, platforms: seq<AssetPlatform>, now: Time, faults: DbFaults)
    : (Option<TxError<string>>, Snapshot<string, PlatformData>)
  {
    if |platforms| == 0 then (None, s) else RunTx(s, platforms, SaveStatement(now), faults)
  }

  /**
   * An UpsertBatch either stores every platform, the last one per id winning, or changes
   * nothing and names the platform whose Save failed: one the database refused, or a
   * platform with an empty id when that id was already taken.
   */
  lemma PlatformBatchMeaning(s: Snapshot<string, PlatformData>, platforms: seq<AssetPlatform>, now: Time,
                             faults: DbFaults, i: nat)
    requires i < |platforms|
    requires forall j :: i < j < |platforms| ==> platforms[j].key != platforms[i].key
    ensures var r := PlatformBatchResult(s, platforms, now, faults);
      (r.0.Some? ==> r.1 == s) &&
      (r.0.None? ==>
        platforms[i].key in r.1.rows &&
        r.1.rows[platforms[i].key].data == platforms[i].data &&
        r.1.rows[platforms[i].key].deletedAt == platforms[i].deletedAt) &&
      (r.0.Some? && r.0.value.StatementFailed? ==>
        exists j :: 0 <= j < |platforms| && platforms[j].key == r.0.value.key &&
          (j in faults.rejected || (platforms[j].key == "" && ("" in s.rows || exists m :: 0 <= m < j && platforms[m].key == ""))))
  {
    var r := PlatformBatchResult(s, platforms, now, faults);
    var e := Exec(s, platforms, SaveStatement(now), faults.rejected);
    if e.0.None? {
      ExecSaveLastWins(s, platforms, now, faults.rejected, i);
    } else {
      ExecSaveRefusal(s, platforms, now, faults.rejected);
    }
  }

  class PlatformRepository {
    const table: KeyedTable<string, PlatformData>

    constructor (table: KeyedTable<string, PlatformData>)
      ensures this.table == table
    {
      this.table := table;
    }

    /** Create(platform): one INSERT, refused when the id is taken. */
    method Create(platform: AssetPlatform, now: Time, fails: bool) returns (err: Option<DbError>)
      modifies table
      ensures old(table.Valid()) ==> table.Valid()
      ensures (err, table.Snap()) == CreateBatchResult(old(table.Snap()), [platform], now, fails)
    {
      err := table.CreateBatch([platform], now, fails);
    }

    /** CreateInBatches(platforms, 100): nothing for no platforms, otherwise all or none. */
    method CreateBatch(platforms: seq<AssetPlatform>, now: Time, fails: bool) returns (err: Option<DbError>)
      modifies table
      ensures old(table.Valid()) ==> table.Valid()
      ensures (err, table.Snap()) == CreateBatchResult(old(table.Snap()), platforms, now, fails)
    {
      err := table.CreateBatch(platforms, now, fails);
    }

    /** First(&platform, "id = ?"): a missing platform is an error. */
    method GetByID(id: string, fails: bool) returns (r: Result<AssetPlatform, DbError>)
      ensures fails ==> r == Err(QueryFailed)
      ensures !fails ==> (r.Err? <==> !(id in table.rows && table.rows[id].Live()))
      ensures r.Err? ==> r.error == QueryFailed || r.error == NotFound
      ensures r.Ok? ==> r.value == table.rows[id]
    {
      var found := table.FindLive(id, fails);
      if found.Err? {
        return Err(found.error);
      }
      if found.value.None? {
        return Err(NotFound);
      }
      r := Ok(found.value.value);
    }

    /** Find(&platforms). */
    method GetAll(fails: bool) returns (r: Result<seq<AssetPlatform>, DbError>)
      requires table.Valid()
      ensures fails <==> r.Err?
      ensures r.Ok? ==> forall i :: 0 <= i < |r.value| ==> r.value[i] in LiveRows(table.rows)
      ensures r.Ok? ==> forall k :: k in table.rows && table.rows[k].Live() ==> table.rows[k] in r.value
      ensures r.Ok? ==> forall i, j :: 0 <= i < j < |r.value| ==> r.value[i].key != r.value[j].key
    {
      r := table.All(fails);
    }

    /** Save(platform), as both Update and Upsert call it: write every column under the id. */
    method Upsert(platform: AssetPlatform, now: Time, fails: bool) returns (err: Option<DbError>)
      modifies table
      ensures old(table.Valid()) ==> table.Valid()
      ensures fails || SavedByKey(old(table.Snap()), platform, now).None? ==> err.Some? && table.Snap() == old(table.Snap())
      ensures !fails && SavedByKey(old(table.Snap()), platform, now).Some? ==>
        err.None? && table.Snap() == SavedByKey(old(table.Snap()), platform, now).value
    {
      err := table.Execute(platform, SaveStatement(now), fails);
    }

    /** Update(platform) is the same Save. */
    method Update(platform: AssetPlatform, now: Time, fails: bool) returns (err: Option<DbError>)
      modifies table
      ensures old(table.Valid()) ==> table.Valid()
      ensures fails || SavedByKey(old(table.Snap()), platform, now).None? ==> err.Some? && table.Snap() == old(table.Snap())
      ensures !fails && SavedByKey(old(table.Snap()), platform, now).Some? ==>
        err.None? && table.Snap() == SavedByKey(old(table.Snap()), platform, now).value
    {
      err := Upsert(platform, now, fails);
    }

    /** Delete(&AssetPlatform{}, "id = ?"): a soft delete. */
    method Delete(id: string, now: Time, fails: bool) returns (err: Option<DbError>)
      modifies table
      ensures old(table.Valid()) ==> table.Valid()
      ensures fails ==> err == Some(QueryFailed) && table.rows == old(table.rows)
      ensures !fails ==> err.None? && table.rows == SoftDeleted(old(table.rows), (p: AssetPlatform) => p.key == id, now)
      ensures table.nextId == old(table.nextId)
    {
      err := table.SoftDeleteWhere((p: AssetPlatform) => p.key == id, now, fails);
    }

    /** A transaction running Save on every platform in turn. */
    method UpsertBatch(platforms: seq<AssetPlatform>, now: Time, faults: DbFaults) returns (err: Option<TxError<string>>)
      modifies table
      ensures old(table.Valid()) ==> table.Valid()
      ensures (err, table.Snap()) == PlatformBatchResult(old(table.Snap()), platforms, now, faults)
    {
      if |platforms| == 0 {
        return None;
      }
      err := table.RunTransaction(platforms, SaveStatement(now), faults);
    }
  }
}
