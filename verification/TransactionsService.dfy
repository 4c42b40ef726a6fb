/** The services and scheduled jobs that write the ledger, each proved to take its step. */
module TransactionsService {
  import opened Domain
  import opened Mappers
  import opened Seasons
  import opened Ledgers
  import opened Conversions

  /** The two tables the services write. Every method is one database transaction: what it
      reads is what it found when it started. */
  class LedgerService {
    var txs: Table
    var balances: Balances
    ghost var acceptedAt: map<TransactionId, nat>
    ghost var clock: nat

    /** How the decimal columns round, and how long a sale stays pending. */
    const round: Rounding
    const lifetime: Time

    ghost function State(): Ledger
      reads this
    {
      Ledger(txs, balances, acceptedAt, clock)
    }

    constructor (round: Rounding, lifetime: Time)
      ensures State() == EMPTY_LEDGER && this.round == round && this.lifetime == lifetime
    {
      txs, balances := map[], map[];
      acceptedAt, clock := map[], 0;
      this.round, this.lifetime := round, lifetime;
    }

    /** The balance and the row are committed before the file upload and the recipient lookup,
        so a failure of either is reported on a ledger that has already moved. */
    method CreateProducer(user: UserId, request: ProducerRequest, commodityExists: bool, uploadSucceeds: bool,
                          recipientFound: bool, id: TransactionId, now: Time) returns (r: Result<TransactionId>)
      requires id !in txs
      modifies this
      ensures State() == Apply(round, old(State()), Event.CreateProducer(user, request, commodityExists, id, now))
      ensures r == if !commodityExists then Failure(NotFound)
                   else if !uploadSucceeds then Failure(LocationFileUpload)
                   else if !recipientFound then Failure(NotFound)
                   else Success(id)
      ensures commodityExists ==> id in txs
    {
      if !commodityExists {
        return Failure(NotFound);
      }
      var a := Account(user, request.commodity);
      if a !in balances {
        balances := balances[a := 0];
      }
      balances := balances[a := round(ToReal(balances[a]) + request.volume)];
      txs := txs[id := FromProducerRequest(round, user, request, now)];
      acceptedAt, clock := Stamp(acceptedAt, {id}, clock), clock + 1;

      if !uploadSucceeds {
        return Failure(LocationFileUpload);
      }
      if !recipientFound {
        return Failure(NotFound);
      }
      r := Success(id);
    }

    method CreateDownstream(user: UserId, request: DownstreamRequest, commodityExists: bool, recipient: Recipient,
                            id: TransactionId, now: Time) returns (r: Result<TransactionId>)
      requires id !in txs
      modifies this
      ensures State() == Apply(round, old(State()),
                               Event.CreateDownstream(user, request, commodityExists, recipient, id, now, lifetime))
      ensures r == if !commodityExists || recipient == Unknown then Failure(NotFound)
                   else if recipient == Known(Some(user)) then Failure(RecipientConflict)
                   else Success(id)
      ensures r.Success? ==> id in txs
      ensures r.Failure? ==> State() == old(State())
    {
      if !commodityExists {
        return Failure(NotFound);
      }
      if recipient.Unknown? {
        return Failure(NotFound);
      }
      if recipient.user == Some(user) {
        return Failure(RecipientConflict);
      }
      txs := txs[id := FromDownstreamRequest(round, user, recipient.user, request, now, lifetime)];
      r := Success(id);
    }

    method Accept(user: UserId, id: TransactionId, automaticId: TransactionId, now: Time) returns (r: Result<()>)
      requires automaticId !in txs
      modifies this
      ensures State() == Apply(round, old(State()), Event.Accept(user, id, automaticId, now))
      ensures r != Failure(NotFound) <==>
                && id in old(txs) && old(txs)[id].kind == Downstream && old(txs)[id].status == Pending
                && (old(txs)[id].buyer == Some(user) || old(txs)[id].seller == Some(user)) && old(txs)[id].createdBy != user
                && (old(txs)[id].expiresAt == None || now <= old(txs)[id].expiresAt.value)
      ensures r.Failure? ==> State() == old(State())
    {
      if !IsIncoming(txs, user, id, now, false) {
        return Failure(NotFound);
      }
      r := Settle(id, automaticId, now);
    }

    /** The database transaction of accept. A failing minimum rolls it back. */
    method Settle(id: TransactionId, automaticId: TransactionId, now: Time) returns (r: Result<()>)
      requires id in txs && automaticId !in txs
      modifies this
      ensures State() == Settled(old(State()), id, automaticId, now)
      ensures r.Failure? ==> r.error == MinimumOfNothing && State() == old(State())
    {
      var t := txs[id];
      var rows, saved := MoveVolume(txs, balances, t, automaticId, now);
      var level := DownstreamTraceability(rows, t.seller, t.commodity);
      if level.None? {
        return Failure(MinimumOfNothing);
      }
      ghost var funded := Funded(State(), t, automaticId, now);
      txs := rows[id := t.(status := Accepted, expiresAt := None, traceability := level)];
      balances := saved;
      acceptedAt, clock := Stamp(funded.acceptedAt, {id}, funded.clock), funded.clock + 1;
      r := Success(());
    }

    /** Both balances are read, a shortfall is produced automatically, then the seller's balance
        is written and last the buyer's. */
    static method MoveVolume(txs: Table, balances: Balances, t: Transaction, automaticId: TransactionId, now: Time)
      returns (rows: Table, saved: Balances)
      ensures rows == Funded(Ledger(txs, balances, map[], 0), t, automaticId, now).txs
      ensures saved == Traded(balances, t)
    {
      rows, saved := txs, balances;
      var buyerVolume, sellerVolume := 0, 0;
      if t.buyer.Some? {
        buyerVolume := Balance(balances, Account(t.buyer.value, t.commodity));
      }
      if t.seller.Some? {
        sellerVolume := Balance(balances, Account(t.seller.value, t.commodity));
        if sellerVolume - t.volume < 0 {
          var automatic := ToAutomaticTransaction(t.seller.value, t.commodity, sellerVolume - t.volume, now);
          sellerVolume := sellerVolume + automatic.volume;
          rows := rows[automaticId := automatic];
        }
        sellerVolume := sellerVolume - t.volume;
        saved := saved[Account(t.seller.value, t.commodity) := sellerVolume];
      }
      if t.buyer.Some? {
        buyerVolume := buyerVolume + t.volume;
        saved := saved[Account(t.buyer.value, t.commodity) := buyerVolume];
      }
    }

    method Reject(user: UserId, id: TransactionId, now: Time) returns (r: Result<()>)
      modifies this
      ensures State() == Apply(round, old(State()), Event.Reject(user, id, now))
      ensures r.Success? <==>
                && id in old(txs) && old(txs)[id].kind == Downstream && old(txs)[id].status == Pending
                && (old(txs)[id].buyer == Some(user) || old(txs)[id].seller == Some(user))
                && (old(txs)[id].expiresAt == None || now <= old(txs)[id].expiresAt.value)
      ensures r.Failure? ==> r.error == NotFound && State() == old(State())
    {
      if !IsIncoming(txs, user, id, now, true) {
        return Failure(NotFound);
      }
      txs := txs[id := txs[id].(status := Rejected, expiresAt := None)];
      r := Success(());
    }

    /** Converts by a recipe. A refused conversion changes nothing and says why. */
    method CreateConversion(user: UserId, request: ConversionRequest, group: GroupId,
                            inputIds: map<TransactionId, CommodityId>, outputIds: map<TransactionId, CommodityId>, now: Time)
      returns (r: Result<Table>)
      requires Fresh(State(), Event.CreateConversion(user, request, group, inputIds, outputIds, now))
      modifies this
      ensures State() == Apply(round, old(State()), Event.CreateConversion(user, request, group, inputIds, outputIds, now))
      ensures r.Failure? ==> State() == old(State()) && PlanConversion(old(balances), user, request) == Refused(r.error)
      ensures r.Success? ==> txs == old(txs) + r.value && r.value.Keys == inputIds.Keys + outputIds.Keys
    {
      var plan := CheckConversion(balances, user, request);
      ConversionStep(round, State(), Event.CreateConversion(user, request, group, inputIds, outputIds, now));
      if plan.Refused? {
        return Failure(plan.error);
      }
      var saved, legs := PrepareConversion(round, txs, balances, user, plan.inputs, plan.outputs, group, inputIds, outputIds, now);
      balances := saved;
      txs := txs + legs;
      acceptedAt, clock := Stamp(acceptedAt, inputIds.Keys + outputIds.Keys, clock), clock + 1;
      assert State() == Converted(round, old(State()), user, plan.inputs, plan.outputs, group, inputIds, outputIds, now);
      r := Success(legs);
    }

    method UpdateGeodata(user: UserId, id: TransactionId, location: Location, uploadSucceeds: bool) returns (r: Result<()>)
      modifies this
      ensures State() == Apply(round, old(State()), Event.UpdateGeodata(user, id, location, uploadSucceeds))
      ensures r == if id !in old(txs) || (old(txs)[id].buyer != Some(user) && old(txs)[id].seller != Some(user)) then Failure(NotFound)
                   else if !uploadSucceeds then Failure(LocationFileUpload) else Success(())
      ensures r.Success? ==> txs == old(txs)[id := old(txs)[id].(location := Some(location))]
    {
      if !TakesPart(txs, user, id) {
        return Failure(NotFound);
      }
      if !uploadSucceeds {
        return Failure(LocationFileUpload);
      }
      txs := txs[id := txs[id].(location := Some(location))];
      r := Success(());
    }

    /** The expiry job: one save per due row. */
    method ExpireTransactions(now: Time)
      modifies this
      ensures State() == Apply(round, old(State()), Event.Expire(now))
    {
      var due := set i | i in txs && IsDue(txs[i], now);
      while due != {}
        invariant due <= txs.Keys == old(txs).Keys
        invariant unchanged(`balances) && unchanged(`acceptedAt) && unchanged(`clock)
        invariant forall i :: i in due ==> txs[i] == old(txs)[i]
        invariant forall i :: i in txs && i !in due ==> txs[i] == ExpiredRow(old(txs)[i], now)
        decreases due
      {
        var i :| i in due;
        due := due - {i};
        txs := txs[i := txs[i].(status := NoResponse, expiresAt := None)];
      }
      assert txs == Expired(old(txs), now);
    }

    /** The season job. Every season-null row is treated exactly once, in primary-key order,
        whatever the batch size; an empty batch size treats none. */
    method DistributeOverSeasons(seasons: seq<Season>, batchSize: nat) returns (treated: seq<TransactionId>)
      modifies `txs
      ensures State() == Apply(round, old(State()), Event.DistributeSeasons(seasons, batchSize))
      ensures treated == if batchSize == 0 then [] else Sorted(Unassigned(old(txs), None))
    {
      if batchSize == 0 {
        return [];
      }
      treated := DistributeBatches(seasons, batchSize);
    }

    /** Batches in primary-key order behind a moving cursor. */
    method DistributeBatches(seasons: seq<Season>, batchSize: nat) returns (treated: seq<TransactionId>)
      requires batchSize > 0
      modifies `txs
      ensures txs == AssignSeasons(old(txs), seasons)
      ensures treated == Sorted(Unassigned(old(txs), None))
    {
      ghost var all := Unassigned(txs, None);
      ghost var rest := all;
      treated := [];
      var cursor: Option<TransactionId> := None;
      var batch := FetchBatch(txs, cursor, batchSize);
      while batch != []
        invariant BatchState(old(txs), seasons, rest, cursor, txs)
        invariant TreatedInOrder(all, rest, treated)
        invariant IsPage(rest, batch, batchSize)
        decreases |rest|
      {
        var last := batch[|batch| - 1];
        PageIsFront(rest, batch, batchSize);
        var updates := AssignBatch(txs, seasons, batch);
        BatchAdvances(old(txs), seasons, rest, cursor, txs, updates, last);
        TreatsBatch(all, rest, treated, batch, last);
        txs := txs + updates;
        treated := treated + batch;
        cursor := Some(last);
        rest := After(rest, last);
        batch := FetchBatch(txs, cursor, batchSize);
      }
      assert rest == {};
      AllAssigned(old(txs), seasons, cursor, txs);
      IncreasingIsUnique(treated, Sorted(all));
    }

    /** The inner loop: a season, possibly none, for each row of the batch. */
    static method AssignBatch(txs: Table, seasons: seq<Season>, batch: seq<TransactionId>) returns (updates: Table)
      requires forall i :: i in batch ==> i in txs
      ensures forall i :: i in updates <==> i in batch
      ensures forall i :: i in updates ==> updates[i] == WithSeason(txs[i], seasons)
    {
      updates := map[];
      for k := 0 to |batch|
        invariant forall i :: i in updates <==> i in batch[..k]
        invariant forall i :: i in updates ==> updates[i] == WithSeason(txs[i], seasons)
      {
        updates := updates[batch[k] := WithSeason(txs[batch[k]], seasons)];
        assert batch[..k + 1] == batch[..k] + [batch[k]];
      }
      assert batch[..|batch|] == batch;
    }
  }

  /** Between batches: the rows in `rest` are as they were and lie after the cursor, the other
      season-null rows have been treated. */
  ghost predicate BatchState(before: Table, seasons: seq<Season>, rest: set<TransactionId>, cursor: Option<TransactionId>, txs: Table) {
    && txs.Keys == before.Keys
    && (forall i :: i in before ==>
          txs[i] == if i in rest || before[i].season.Some? then before[i] else WithSeason(before[i], seasons))
    && rest <= Unassigned(before, None)
    && Unassigned(txs, cursor) == rest
  }

  lemma Shrinks(smaller: set<TransactionId>, larger: set<TransactionId>, x: TransactionId)
    requires smaller <= larger && x in larger && x !in smaller
    ensures |smaller| < |larger|
  {
    assert larger == smaller + (larger - smaller);
    assert x in larger - smaller;
  }

  /** A page is everything up to its last id. */
  lemma PageIsFront(rest: set<TransactionId>, batch: seq<TransactionId>, batchSize: nat)
    requires IsPage(rest, batch, batchSize) && batch != []
    ensures var last := batch[|batch| - 1];
            && last in rest
            && (forall i :: i in batch <==> i in rest && i <= last)
            && |After(rest, last)| < |rest|
  {
    var last := batch[|batch| - 1];
    assert last in batch;
    forall i | i in batch ensures i <= last {
      var k :| 0 <= k < |batch| && batch[k] == i;
    }
    Shrinks(After(rest, last), rest, last);
  }

  /** The rows treated so far, in order, are those no longer to come. */
  ghost predicate TreatedInOrder(all: set<TransactionId>, rest: set<TransactionId>, treated: seq<TransactionId>) {
    && Increasing(treated)
    && rest <= all
    && (forall i :: i in treated <==> i in all && i !in rest)
    && (forall i, j :: i in treated && j in rest ==> i < j)
  }

  lemma TreatsBatch(all: set<TransactionId>, rest: set<TransactionId>, treated: seq<TransactionId>, batch: seq<TransactionId>,
                    last: TransactionId)
    requires TreatedInOrder(all, rest, treated) && Increasing(batch)
    requires forall i :: i in batch <==> i in rest && i <= last
    ensures TreatedInOrder(all, After(rest, last), treated + batch)
  {
    assert forall i :: i in treated + batch <==> i in treated || i in batch;
    forall j, k | 0 <= j < k < |treated + batch| ensures (treated + batch)[j] < (treated + batch)[k] {
      if j < |treated| && k >= |treated| {
        assert treated[j] in treated && batch[k - |treated|] in batch;
      }
    }
  }

  /** One round of the season job. */
  lemma BatchAdvances(before: Table, seasons: seq<Season>, rest: set<TransactionId>, cursor: Option<TransactionId>,
                      txs: Table, updates: Table, last: TransactionId)
    requires BatchState(before, seasons, rest, cursor, txs) && last in rest
    requires forall i :: i in updates <==> i in rest && i <= last
    requires forall i :: i in updates ==> i in txs && updates[i] == WithSeason(txs[i], seasons)
    ensures BatchState(before, seasons, After(rest, last), Some(last), txs + updates)
  {
    assert cursor.Some? ==> cursor.value < last;
  }

  lemma AllAssigned(before: Table, seasons: seq<Season>, cursor: Option<TransactionId>, txs: Table)
    requires BatchState(before, seasons, {}, cursor, txs)
    ensures txs == AssignSeasons(before, seasons)
  {
  }
}
