/** The coin_categories table: a serial id, and a unique coingecko_id under which rows are filed. */
module CategoryRepo {
  import opened Wrappers
  import opened Domain
  import opened Tables

  /** A category without a CoinGecko id is skipped by UpsertBatch. */
  predicate ValidCategory(c: CoinCategory) { c.key != "" }

  /** `owner` is the key of the row whose serial id is `id`, or None when no row has it. */
  ghost predicate OwnsId(rows: map<string, CoinCategory>, id: nat, owner: Option<string>)
  {
    match owner
    case None => forall k :: k in rows ==> rows[k].id != id
    case Some(k) => k in rows && rows[k].id == id
  }

  /**
   * gorm's Save on a category, where the primary key is the serial id. A zero id makes it
   * a Create. Otherwise it UPDATEs every column, coingecko_id included, of the live row
   * with that id, setting updated_at = now; when no live row has it, an INSERT ... ON
   * CONFLICT (id) DO UPDATE of every column but id and created_at, which revives a
   * soft-deleted row. Each path is refused when the coingecko_id would collide with
   * another row.
   */
  function SavedById(s: Snapshot<string, CategoryData>, rec: CoinCategory, now: Time, owner: Option<string>)
    : (r: Option<Snapshot<string, CategoryData>>)
    ensures r.Some? ==> rec.key in r.value.rows && r.value.rows[rec.key].data == rec.data
    ensures r.Some? ==> forall k :: k in s.rows && k != rec.key && Some(k) != owner ==> k in r.value.rows && r.value.rows[k] == s.rows[k]
    ensures r.Some? && KeysMatch(s.rows) ==> KeysMatch(r.value.rows)
  {
    if rec.id == 0 then
      if rec.key in s.rows then None else Some(Inserted(s, CreateStamped(rec, now)))
    else if owner.Some? && owner.value in s.rows then
      var k := owner.value;
      if rec.key != k && rec.key in s.rows then None
      else if s.rows[k].Live() then Some(Snapshot((s.rows - {k})[rec.key := rec.(updatedAt := now)], s.nextId))
      else Some(Snapshot((s.rows - {k})[rec.key := rec.(createdAt := s.rows[k].createdAt, updatedAt := now)], s.nextId))
    else if rec.key in s.rows then None
    else Some(Snapshot(s.rows[rec.key := CreateStamped(rec.(updatedAt := now), now)], s.nextId))
  }

  /**
   * What Save promises for a category that has an id: it succeeds exactly when its
   * coingecko_id is free or already belongs to the row with that id; the row with the
   * id then sits under the new coingecko_id with the new name and updated_at = now, and
   * a soft-deleted row keeps its created_at; no other row changes.
   */
  lemma SaveByIdMeaning(s: Snapshot<string, CategoryData>, rec: CoinCategory, now: Time, owner: Option<string>)
    requires rec.id != 0 && KeysMatch(s.rows)
    requires OwnsId(s.rows, rec.id, owner)
    ensures var r := SavedById(s, rec, now, owner);
      (r.Some? <==> rec.key !in s.rows || owner == Some(rec.key)) &&
      (r.Some? ==>
        r.value.rows[rec.key].id == rec.id &&
        r.value.rows[rec.key].updatedAt == now &&
        r.value.rows[rec.key].deletedAt == rec.deletedAt &&
        (owner.Some? && !s.rows[owner.value].Live() ==> r.value.rows[rec.key].createdAt == s.rows[owner.value].createdAt) &&
        (owner.Some? && owner.value != rec.key ==> owner.value !in r.value.rows) &&
        r.value.rows.Keys - {rec.key} == s.rows.Keys - {rec.key} - (if owner.Some? then {owner.value} else {}))
  {
  }

  /** A new category (id 0) is created only under a coingecko_id no row holds, with a fresh id. */
  lemma SaveNewCategory(s: Snapshot<string, CategoryData>, rec: CoinCategory, now: Time, owner: Option<string>)
    requires rec.id == 0
    ensures var r := SavedById(s, rec, now, owner);
      (r.Some? <==> rec.key !in s.rows) &&
      (r.Some? ==> r.value.rows[rec.key].id == s.nextId && r.value.nextId == s.nextId + 1 &&
                   r.value.rows.Keys == s.rows.Keys + {rec.key})
  {
  }

  class CategoryRepository {
    const table: KeyedTable<string, CategoryData>

    constructor (table: KeyedTable<string, CategoryData>)
      ensures this.table == table
    {
      this.table := table;
    }

    /** Create(category): one INSERT, refused when the coingecko_id is taken. */
    method Create(category: CoinCategory, now: Time, fails: bool) returns (err: Option<DbError>)
      modifies table
      ensures old(table.Valid()) ==> table.Valid()
      ensures (err, table.Snap()) == CreateBatchResult(old(table.Snap()), [category], now, fails)
    {
      err := table.CreateBatch([category], now, fails);
    }

    /** CreateInBatches(categories, 100): nothing for no categories, otherwise all or none. */
    method CreateBatch(categories: seq<CoinCategory>, now: Time, fails: bool) returns (err: Option<DbError>)
      modifies table
      ensures old(table.Valid()) ==> table.Valid()
      ensures (err, table.Snap()) == CreateBatchResult(old(table.Snap()), categories, now, fails)
    {
      err := table.CreateBatch(categories, now, fails);
    }

    /** First(&category, "id = ?"): a missing category is an error. */
    method GetByID(id: nat, fails: bool) returns (r: Result<CoinCategory, DbError>)
      ensures fails ==> r == Err(QueryFailed)
      ensures !fails ==> (r.Err? <==> forall k :: k in table.rows ==> !(table.rows[k].Live() && table.rows[k].id == id))
      ensures r.Err? ==> r.error == QueryFailed || r.error == NotFound
      ensures r.Ok? ==> r.value in LiveRows(table.rows) && r.value.id == id
    {
      var found := table.FirstLiveWhere((c: CoinCategory) => c.id == id, fails);
      if found.Err? {
        return Err(found.error);
      }
      if found.value.None? {
        return Err(NotFound);
      }
      r := Ok(found.value.value);
    }

    /** First(&category, "coingecko_id = ?"): a missing category is an error. */
    method GetByCoingeckoID(coingeckoId: string, fails: bool) returns (r: Result<CoinCategory, DbError>)
      ensures fails ==> r == Err(QueryFailed)
      ensures !fails ==> (r.Err? <==> !(coingeckoId in table.rows && table.rows[coingeckoId].Live()))
      ensures r.Err? ==> r.error == QueryFailed || r.error == NotFound
      ensures r.Ok? ==> r.value == table.rows[coingeckoId]
    {
      var found := table.FindLive(coingeckoId, fails);
      if found.Err? {
        return Err(found.error);
      }
      if found.value.None? {
        return Err(NotFound);
      }
      r := Ok(found.value.value);
    }

    /** Find(&categories). */
    method GetAll(fails: bool) returns (r: Result<seq<CoinCategory>, DbError>)
      requires table.Valid()
      ensures fails <==> r.Err?
      ensures r.Ok? ==> forall i :: 0 <= i < |r.value| ==> r.value[i] in LiveRows(table.rows)
      ensures r.Ok? ==> forall k :: k in table.rows && table.rows[k].Live() ==> table.rows[k] in r.value
      ensures r.Ok? ==> forall i, j :: 0 <= i < j < |r.value| ==> r.value[i].key != r.value[j].key
    {
      r := table.All(fails);
    }

    /** Save(category): locate the row holding the id, then run the Save statement. */
    method Upsert(category: CoinCategory, now: Time, fails: bool) returns (err: Option<DbError>)
      modifies table
      ensures old(table.Valid()) ==> table.Valid()
      ensures exists owner: Option<string> ::
        && OwnsId(old(table.rows), category.id, owner)
        && var r := SavedById(old(table.Snap()), category, now, owner);
           (!fails && r.Some? ==> err.None? && table.Snap() == r.value) &&
           (fails || r.None? ==> err.Some? && table.Snap() == old(table.Snap()))
    {
      var owner := table.IdOwner(category.id);
      assert OwnsId(table.rows, category.id, owner);
      var save := (s, c) => SavedById(s, c, now, owner);
      assert save(table.Snap(), category) == SavedById(table.Snap(), category, now, owner);
      err := table.Execute(category, save, fails);
    }

    /** Update(category) is the same Save as Upsert. */
    method Update(category: CoinCategory, now: Time, fails: bool) returns (err: Option<DbError>)
      modifies table
      ensures old(table.Valid()) ==> table.Valid()
      ensures exists owner: Option<string> ::
        && OwnsId(old(table.rows), category.id, owner)
        && var r := SavedById(old(table.Snap()), category, now, owner);
           (!fails && r.Some? ==> err.None? && table.Snap() == r.value) &&
           (fails || r.None? ==> err.Some? && table.Snap() == old(table.Snap()))
    {
      err := Upsert(category, now, fails);
    }

    /** Delete(&CoinCategory{}, "id = ?"): a soft delete of the row with that id. */
    method Delete(id: nat, now: Time, fails: bool) returns (err: Option<DbError>)
      modifies table
      ensures old(table.Valid()) ==> table.Valid()
      ensures fails ==> err == Some(QueryFailed) && table.rows == old(table.rows)
      ensures !fails ==> err.None? && table.rows == SoftDeleted(old(table.rows), (c: CoinCategory) => c.id == id, now)
      ensures table.nextId == old(table.nextId)
    {
      err := table.SoftDeleteWhere((c: CoinCategory) => c.id == id, now, fails);
    }

    /** Skip categories without an id, then one ON CONFLICT (coingecko_id) statement each in a transaction. */
    method UpsertBatch(categories: seq<CoinCategory>, faults: DbFaults) returns (err: Option<TxError<string>>)
      modifies table
      ensures old(table.Valid()) ==> table.Valid()
      ensures (err, table.Snap()) == UpsertBatchResult(old(table.Snap()), categories, ValidCategory, faults)
    {
      err := table.UpsertBatch(categories, ValidCategory, faults);
    }
  }
}
