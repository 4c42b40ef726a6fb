/** Who is asked for the geodata of what the ledger steps store. */
module GeodataRequests {
  import opened Domain
  import opened Mappers
  import opened Ledgers
  import opened Lifecycle
  import opened ChainGraph
  import opened ChainSearch
  import opened Decisions
  import opened FirstChains
  import opened Columns
  import opened Notifications

  /** The buyer of goods just entered is asked for their location exactly if the request gave none. */
  lemma ProductionIsAskedIff(round: Rounding, s: Ledger, e: Event, s': Ledger)
    requires e.CreateProducer? && e.commodityExists && Fresh(s, e) && s' == Apply(round, s, e)
    ensures e.id in Unlocated(s'.txs, e.id) <==> e.producer.location == None
    ensures Plots(s'.txs, {e.id}) ==
              if e.producer.farmLatitude != None && e.producer.farmLongitude != None
              then {(e.producer.farmLatitude.value, e.producer.farmLongitude.value)} else {}
  {
    ProductionOnColumns(round, s, e, s');
    ChainHasRoot(Storage, s'.txs, e.id);
    assert HasPlot(s'.txs[e.id]) ==> e.id in {e.id};
  }

  /** Goods that enter the ledger through a shortfall have no location, and a request on the sale
      leaves exactly one open request for them, to the seller. */
  lemma ShortfallIsAsked(s: Ledger, user: UserId, id: TransactionId, automaticId: TransactionId, now: Time, s': Ledger,
                         rows: seq<Notification>, rows': seq<Notification>)
    requires Consistent(s) && automaticId !in s.txs && IsIncoming(s.txs, user, id, now, false)
    requires s' == Settled(s, id, automaticId, now) && Shortfall(s.balances, s.txs[id]) > 0
    requires AtMostOne(rows) && Requested(rows, s'.txs, Unlocated(s'.txs, id), rows')
    ensures automaticId in Unlocated(s'.txs, id)
    ensures s.txs[id].seller != None && OpenRequests(rows', s.txs[id].seller.value, automaticId) == 1
  {
    AcceptKeepsConsistent(s, user, id, automaticId, now);
    AcceptCreatesOnlyShortfall(s, user, id, automaticId, now, s');
    BehindShortSale(s, user, id, automaticId, now, s');
    assert IsShortfall(s'.txs[automaticId], s.txs[id], Shortfall(s.balances, s.txs[id]), now);
    EverybodyIsAskedOnce(s', id, rows, rows', automaticId);
  }
}
