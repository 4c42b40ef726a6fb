/** Season lookup, the simple row-by-row assignment, and primary-key batches. */
module Seasons {
  import opened Domain

  datatype Season = Season(id: SeasonId, startDate: Option<int>, endDate: Option<int>, commodities: set<CommodityId>)

  const SECONDS_PER_DAY := 86400

  /** The calendar day of a timestamp. */
  function DateOf(t: Time): int {
    t / SECONDS_PER_DAY
  }

  predicate Matches(season: Season, date: int, commodity: CommodityId) {
    && (season.startDate.None? || season.startDate.value <= date)
    && (season.endDate.None? || date <= season.endDate.value)
    && commodity in season.commodities
  }

  /** The query's order: by start date, open-started seasons last, then by id. */
  predicate Before(a: Season, b: Season) {
    if a.startDate == b.startDate then a.id < b.id
    else a.startDate.Some? && (b.startDate.None? || a.startDate.value < b.startDate.value)
  }

  function FirstMatch(seasons: seq<Season>, date: int, commodity: CommodityId): (first: Option<Season>)
    ensures first == None <==>
              !exists z :: z in seasons && commodity in z.commodities
                && (z.startDate == None || z.startDate.value <= date) && (z.endDate == None || date <= z.endDate.value)
    ensures first != None ==>
              && first.value in seasons && commodity in first.value.commodities
              && (first.value.startDate == None || first.value.startDate.value <= date)
              && (first.value.endDate == None || date <= first.value.endDate.value)
    ensures first != None ==>
              forall z :: (z in seasons && commodity in z.commodities
                           && (z.startDate == None || z.startDate.value <= date) && (z.endDate == None || date <= z.endDate.value)) ==>
                && (first.value.startDate == None ==> z.startDate == None)
                && (first.value.startDate != None && z.startDate != None ==> first.value.startDate.value <= z.startDate.value)
                && (first.value.startDate == z.startDate ==> first.value.id <= z.id)
  {
    if seasons == [] then None
    else
      var rest := FirstMatch(seasons[1..], date, commodity);
      if !Matches(seasons[0], date, commodity) || (rest.Some? && Before(rest.value, seasons[0])) then rest
      else Some(seasons[0])
  }

  function FindMatchingSeason(seasons: seq<Season>, createdAt: Time, commodity: CommodityId): Option<SeasonId> {
    match FirstMatch(seasons, DateOf(createdAt), commodity)
    case None => None
    case Some(season) => Some(season.id)
  }

  /** The season found does not depend on the order in which the table lists its rows. */
  lemma SeasonIgnoresRowOrder(seasons: seq<Season>, permuted: seq<Season>, createdAt: Time, commodity: CommodityId)
    requires forall season :: season in seasons <==> season in permuted
    ensures FindMatchingSeason(seasons, createdAt, commodity) == FindMatchingSeason(permuted, createdAt, commodity)
  {
    var first := FirstMatch(seasons, DateOf(createdAt), commodity);
    var first' := FirstMatch(permuted, DateOf(createdAt), commodity);
    if first.Some? && first'.Some? {
      assert first.value.startDate == first'.value.startDate;
    }
  }

  function WithSeason(t: Transaction, seasons: seq<Season>): Transaction {
    t.(season := FindMatchingSeason(seasons, t.createdAt, t.commodity))
  }

  /** The simple map: every season-null row gets its own match, the others stay. */
  function AssignSeasons(txs: Table, seasons: seq<Season>): Table {
    map i | i in txs :: if txs[i].season.None? then WithSeason(txs[i], seasons) else txs[i]
  }

  /** What the job does, on columns. A row that has a season keeps it. Any other row gets the id of a
      season of its commodity that encloses the day of its creation, both end days included: the one
      that starts first, open starts last, and among equal starts the one with the smallest id. It
      stays without a season exactly when there is none. Nothing but the season changes. */
  lemma SeasonsOnColumns(txs: Table, seasons: seq<Season>, i: TransactionId, t: Transaction, t': Transaction)
    requires i in txs && t == txs[i] && i in AssignSeasons(txs, seasons) && t' == AssignSeasons(txs, seasons)[i]
    ensures AssignSeasons(txs, seasons).Keys == txs.Keys && t' == t.(season := t'.season)
    ensures t.season != None ==> t'.season == t.season
    ensures t.season == None ==>
              (t'.season == None <==>
                 !exists z :: z in seasons && t.commodity in z.commodities
                   && (z.startDate == None || 86400 * z.startDate.value <= t.createdAt)
                   && (z.endDate == None || t.createdAt < 86400 * (z.endDate.value + 1)))
    ensures t.season == None && t'.season != None ==>
              exists z :: z in seasons && z.id == t'.season.value && t.commodity in z.commodities
                && (z.startDate == None || 86400 * z.startDate.value <= t.createdAt)
                && (z.endDate == None || t.createdAt < 86400 * (z.endDate.value + 1))
                && forall y :: (y in seasons && t.commodity in y.commodities
                                && (y.startDate == None || 86400 * y.startDate.value <= t.createdAt)
                                && (y.endDate == None || t.createdAt < 86400 * (y.endDate.value + 1))) ==>
                     && (z.startDate == None ==> y.startDate == None)
                     && (z.startDate != None && y.startDate != None ==> z.startDate.value <= y.startDate.value)
                     && (z.startDate == y.startDate ==> z.id <= y.id)
  {
    forall z: Season
      ensures z.startDate != None ==> (z.startDate.value <= DateOf(t.createdAt) <==> 86400 * z.startDate.value <= t.createdAt)
      ensures z.endDate != None ==> (DateOf(t.createdAt) <= z.endDate.value <==> t.createdAt < 86400 * (z.endDate.value + 1))
    {
      if z.startDate != None {
        DaysOnSeconds(z.startDate.value, t.createdAt);
      }
      if z.endDate != None {
        DaysOnSeconds(z.endDate.value + 1, t.createdAt);
      }
    }
    var first := FirstMatch(seasons, DateOf(t.createdAt), t.commodity);
    if t.season == None && first != None {
      assert first.value in seasons && first.value.id == t'.season.value;
    }
  }

  lemma DaysOnSeconds(day: int, t: Time)
    ensures day <= DateOf(t) <==> 86400 * day <= t
  {
  }

  /** Assigning twice is assigning once, although unmatched rows stay null. */
  lemma AssignSeasonsIsIdempotent(txs: Table, seasons: seq<Season>)
    ensures AssignSeasons(AssignSeasons(txs, seasons), seasons) == AssignSeasons(txs, seasons)
  {
    var once := AssignSeasons(txs, seasons);
    var twice := AssignSeasons(once, seasons);
    forall i | i in once ensures twice[i] == once[i] {
      assert i in txs;
    }
  }

  predicate Increasing(ids: seq<TransactionId>) {
    forall j, k :: 0 <= j < k < |ids| ==> ids[j] < ids[k]
  }

  predicate IsLeast(ids: set<TransactionId>, least: TransactionId) {
    least in ids && forall i :: i in ids ==> least <= i
  }

  lemma {:induction false} HasLeast(ids: set<TransactionId>) returns (least: TransactionId)
    requires ids != {}
    ensures IsLeast(ids, least)
    decreases |ids|
  {
    least :| least in ids;
    var rest := ids - {least};
    if rest == {} {
      assert ids == {least};
    } else {
      var other := HasLeast(rest);
      forall i | i in ids && i != least ensures other <= i {
        assert i in rest;
      }
      if other < least {
        least := other;
      }
    }
  }

  function Least(ids: set<TransactionId>): (least: TransactionId)
    requires ids != {}
    ensures least in ids && forall i :: i in ids ==> least <= i
  {
    assert exists least :: IsLeast(ids, least) by {
      var least := HasLeast(ids);
    }
    var least :| IsLeast(ids, least);
    least
  }

  /** `order_by("pk")`. */
  function Sorted(ids: set<TransactionId>): (sorted: seq<TransactionId>)
    ensures Increasing(sorted)
    ensures forall i :: i in sorted <==> i in ids
    decreases |ids|
  {
    if ids == {} then []
    else
      var least := Least(ids);
      [least] + Sorted(ids - {least})
  }

  /** Ascending lists are determined by what they hold. */
  lemma {:induction false} IncreasingIsUnique(a: seq<TransactionId>, b: seq<TransactionId>)
    requires Increasing(a) && Increasing(b)
    requires forall i :: i in a <==> i in b
    ensures a == b
  {
    assert a != [] ==> a[0] in b;
    assert b != [] ==> b[0] in a;
    if a != [] {
      assert a[0] in b && b[0] in a;
      assert a[0] == b[0];
      assert forall i :: i in a[1..] <==> i in a && i != a[0];
      assert forall i :: i in b[1..] <==> i in b && i != b[0];
      IncreasingIsUnique(a[1..], b[1..]);
    }
  }

  /** The rows still to be looked at: season-null and after the cursor. */
  function Unassigned(txs: Table, after: Option<TransactionId>): set<TransactionId> {
    set i | i in txs && txs[i].season.None? && (after.Some? ==> after.value < i)
  }

  function After(ids: set<TransactionId>, cursor: TransactionId): set<TransactionId> {
    set i | i in ids && cursor < i
  }

  /** The page is the ascending list of the `size` smallest ids, or of all of them. */
  ghost predicate IsPage(ids: set<TransactionId>, page: seq<TransactionId>, size: nat) {
    && Increasing(page) && |page| <= size
    && (forall i :: i in page ==> i in ids)
    && (forall i :: i in ids && i !in page ==> |page| == size && forall j :: j in page ==> j < i)
  }

  /** `list(query.filter(pk__gt=cursor)[:batch_size])`. */
  method FetchBatch(txs: Table, cursor: Option<TransactionId>, batchSize: nat) returns (batch: seq<TransactionId>)
    ensures IsPage(Unassigned(txs, cursor), batch, batchSize)
  {
    var sorted := Sorted(Unassigned(txs, cursor));
    if |sorted| <= batchSize {
      batch := sorted;
    } else {
      batch := sorted[..batchSize];
      forall i | i in sorted && i !in batch ensures forall j :: j in batch ==> j < i {
        var k :| 0 <= k < |sorted| && sorted[k] == i;
        assert forall m :: 0 <= m < batchSize ==> sorted[m] in batch;
      }
    }
  }
}
