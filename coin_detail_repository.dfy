/** The coin_details table, keyed by coingecko_id, one raw document per coin. */
module DetailRepo {
  import opened Wrappers
  import opened Domain
  import opened Tables

  /** The columns a found detail takes from the Assign of a single Upsert. */
  function AssignDetailData(stored: DetailData, incoming: DetailData): DetailData
  {
    DetailData(
      if incoming.coinId != 0 then incoming.coinId else stored.coinId,
      PickText(stored.rawJson, incoming.rawJson),
      Pick(stored.genesisDate, incoming.genesisDate),
      Pick(stored.hashingAlgo, incoming.hashingAlgo),
      Pick(stored.categories, incoming.categories),
      Pick(stored.homepage, incoming.homepage),
      Pick(stored.lastUpdatedAt, incoming.lastUpdatedAt))
  }

  /**
   * Upserting a fetched detail (which names its coin and carries its document) leaves
   * one live row under its coingecko_id holding that coin and document, whether the row
   * was new or already there. It fails when the detail carries an id that another row
   * holds, or when the lookup skips the row holding the coingecko_id: a soft-deleted row,
   * or a live one whose id is not the detail's non-zero id.
   */
  lemma UpsertStoresDocument(s: Snapshot<string, DetailData>, detail: CoinDetail, now: Time, found: Option<string>)
    requires now != ZeroTime && KeysMatch(s.rows)
    requires detail.key != "" && detail.data.coinId != 0 && detail.data.rawJson != "" && detail.deletedAt.None?
    requires LookupFinds(s.rows, detail, false, found)
    ensures var r := AssignUpsertResult(s, detail, now, AssignDetailData, true, false, found);
      r.Ok? <==> !(detail.key in s.rows && !(s.rows[detail.key].Live() && MatchesId(s.rows[detail.key], detail.id))) &&
                 !IdTaken(s.rows, detail.id, found)
    ensures var r := AssignUpsertResult(s, detail, now, AssignDetailData, true, false, found);
      r.Ok? ==>
        r.value.rows[detail.key].Live() &&
        r.value.rows[detail.key].data.coinId == detail.data.coinId &&
        r.value.rows[detail.key].data.rawJson == detail.data.rawJson
  {
    AssignUpsertMeaning(s, detail, now, AssignDetailData, true, false, found);
  }

  /**
   * `after` is the coin_details table once `before` has taken the single Upsert of
   * `detail`, assigned to the row its lookup finds; a failed Upsert leaves the table as it was.
   */
  ghost predicate DetailWritten(before: Snapshot<string, DetailData>, after: Snapshot<string, DetailData>, detail: CoinDetail,
                                now: Time, fails: bool)
  {
    exists found: Option<string> ::
      && (found.Some? ==> found.value in before.rows)
      && LookupFinds(before.rows, detail, detail.key == "", found)
      && var r := AssignUpsertResult(before, detail, now, AssignDetailData, true, fails, found);
         after == (if r.Ok? then r.value else before)
  }

  /**
   * A written detail that names its coin and carries its document: a failing query
   * changes nothing, no other coin's row changes, and the coingecko_id then holds one
   * live row with that coin and document unless the write was refused. A detail without
   * an explicit id is refused only when a soft-deleted row holds its coingecko_id.
   */
  lemma DetailWrittenMeaning(before: Snapshot<string, DetailData>, after: Snapshot<string, DetailData>, detail: CoinDetail,
                             now: Time, fails: bool)
    requires DetailWritten(before, after, detail, now, fails)
    requires now != ZeroTime && KeysMatch(before.rows)
    requires detail.key != "" && detail.data.coinId != 0 && detail.data.rawJson != "" && detail.deletedAt.None?
    ensures fails ==> after == before
    ensures forall k :: k in before.rows && k != detail.key ==> k in after.rows && after.rows[k] == before.rows[k]
    ensures after == before || StoresDocument(after, detail)
    ensures !fails && detail.id == 0 && !(detail.key in before.rows && !before.rows[detail.key].Live()) ==>
      StoresDocument(after, detail)
  {
    var found: Option<string> :|
      && (found.Some? ==> found.value in before.rows)
      && LookupFinds(before.rows, detail, false, found)
      && var r := AssignUpsertResult(before, detail, now, AssignDetailData, true, fails, found);
         after == (if r.Ok? then r.value else before);
    AssignUpsertMeaning(before, detail, now, AssignDetailData, true, fails, found);
    UpsertStoresDocument(before, detail, now, found);
  }

  /** The table holds one live row under the detail's coingecko_id with its coin and document. */
  ghost predicate StoresDocument(s: Snapshot<string, DetailData>, detail: CoinDetail)
  {
    detail.key in s.rows && s.rows[detail.key].Live() &&
    s.rows[detail.key].data.coinId == detail.data.coinId && s.rows[detail.key].data.rawJson == detail.data.rawJson
  }

  class DetailRepository {
    const table: KeyedTable<string, DetailData>

    constructor (table: KeyedTable<string, DetailData>)
      ensures this.table == table
    {
      this.table := table;
    }

    /** Stamp, then find-or-create by coingecko_id (a struct condition) and assign. */
    method Upsert(detail: CoinDetail, now: Time, fails: bool) returns (err: Option<DbError>)
      modifies table
      ensures old(table.Valid()) ==> table.Valid()
      ensures exists found: Option<string> ::
        && (found.Some? ==> found.value in old(table.rows))
        && LookupFinds(old(table.rows), detail, detail.key == "", found)
        && var r := AssignUpsertResult(old(table.Snap()), detail, now, AssignDetailData, true, fails, found);
           (r.Ok? ==> err.None? && table.Snap() == r.value) && (r.Err? ==> err == Some(r.error) && table.Snap() == old(table.Snap()))
    {
      err := table.AssignUpsert(detail, now, AssignDetailData, true, detail.key == "", fails);
    }

    /** Where("coin_id = ?").First: the coin's detail with the smallest id, or none and no error. */
    method GetByCoinID(coinId: nat, fails: bool) returns (r: Result<Option<CoinDetail>, DbError>)
      ensures fails <==> r.Err?
      ensures r.Ok? && r.value.Some? ==> r.value.value in LiveRows(table.rows) && r.value.value.data.coinId == coinId
      ensures r.Ok? && r.value.Some? ==>
        forall k :: k in table.rows && table.rows[k].Live() && table.rows[k].data.coinId == coinId ==>
          r.value.value.id <= table.rows[k].id
      ensures r.Ok? && r.value.None? ==>
        forall k :: k in table.rows ==> !(table.rows[k].Live() && table.rows[k].data.coinId == coinId)
    {
      r := table.FirstLiveWhere((d: CoinDetail) => d.data.coinId == coinId, fails);
    }
  }
}
