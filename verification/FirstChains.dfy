/** What is behind an accepted transaction: exactly when first chains are not empty, and exactly
    when they hold a producer with the level stored. */
module FirstChains {
  import opened Domain
  import opened Mappers
  import opened Ledgers
  import opened Lifecycle
  import opened ChainGraph
  import opened ChainSearch
  import opened Provenance
  import opened Decisions
  import opened SupplyChain
  import opened Exactness

  /** Accepted purchases, of any commodity. */
  function Bought(txs: Table, user: Option<UserId>): set<TransactionId> {
    set p | p in txs && txs[p].status.Accepted? && txs[p].buyer == user
  }

  /** The first chains of everything a user bought. */
  ghost function BehindStock(txs: Table, user: Option<UserId>): set<TransactionId> {
    set p, w | p in Bought(txs, user) && w in FirstChain(txs, p) :: w
  }

  lemma FirstChainIsProducers(s: Ledger, i: TransactionId)
    requires Consistent(s) && i in s.acceptedAt
    ensures forall w :: w in FirstChain(s.txs, i) ==> w in s.txs && w in s.acceptedAt && s.txs[w].kind.Producer?
  {
    assert forall j :: j in s.txs && IsInputLeg(s.txs[j]) ==> RowOk(s.txs[j]) && s.txs[j].status.Accepted?;
    forall w | w in FirstChain(s.txs, i) ensures w in s.acceptedAt && s.txs[w].kind.Producer? {
      ChainIsAccepted(Storage, s.txs, i, w);
      assert RowOk(s.txs[w]);
    }
  }

  lemma FirstChainsGrow(s: Ledger, s': Ledger, i: TransactionId)
    requires Extends(s, s')
    ensures FirstChain(s.txs, i) <= FirstChain(s'.txs, i)
  {
    ChainsAreMonotone(s, s', i);
    forall w | w in FirstChain(s.txs, i) ensures w in FirstChain(s'.txs, i) {
      assert Preserved(s.txs[w], s'.txs[w]);
    }
  }

  // ---- what a step puts behind the rows it accepts ----

  /** `s'` differs from `s` in the rows `added`, none of which can be first in a chain, and their
      edges lead to each other and to what `user` had bought. */
  ghost predicate AddsBuyer(s: Ledger, s': Ledger, added: set<TransactionId>, user: Option<UserId>) {
    && s'.txs.Keys == s.txs.Keys + added
    && (forall i :: i in s.txs && i !in added ==> s'.txs[i] == s.txs[i])
    && (forall i :: i in added ==> s'.txs[i].seller.Some? || s'.txs[i].kind.Conversion?)
    && (forall i, j :: i in added && Edge(Storage, s'.txs, i, i, j) ==> j in added || j in Bought(s.txs, user))
    && (forall i :: i in added ==> i !in s.acceptedAt)
  }

  /** Everything such a row can reach. */
  ghost function Reach(s: Ledger, added: set<TransactionId>, user: Option<UserId>): set<TransactionId> {
    added + set p, x | p in Bought(s.txs, user) && x in Chain(Storage, s.txs, p) :: x
  }

  lemma OldEdge(s: Ledger, s': Ledger, added: set<TransactionId>, user: Option<UserId>, root: TransactionId,
                p: TransactionId, i: TransactionId, j: TransactionId)
    requires Consistent(s) && AddsBuyer(s, s', added, user) && p in Bought(s.txs, user) && i in Chain(Storage, s.txs, p)
    requires i !in added && Edge(Storage, s'.txs, root, i, j) && j !in added
    ensures j in Chain(Storage, s.txs, p)
  {
    assert forall k :: k in s.txs && IsInputLeg(s.txs[k]) ==> RowOk(s.txs[k]) && s.txs[k].status.Accepted?;
    ChainIsAccepted(Storage, s.txs, p, i);
    ChainStep(Storage, s.txs, p, i, j);
  }

  lemma ReachIsClosed(s: Ledger, s': Ledger, added: set<TransactionId>, user: Option<UserId>, root: TransactionId)
    requires Consistent(s) && AddsBuyer(s, s', added, user) && root in added
    requires forall i :: i in added ==> s'.txs[i].status.Accepted?
    ensures ClosedUnderEdges(Storage, s'.txs, root, Reach(s, added, user))
  {
    forall i, j | i in Reach(s, added, user) && Edge(Storage, s'.txs, root, i, j) ensures j in Reach(s, added, user) {
      if i in added {
        assert Edge(Storage, s'.txs, i, i, j);
        if j !in added {
          ChainHasRoot(Storage, s.txs, j);
        }
      } else if j !in added {
        var p :| p in Bought(s.txs, user) && i in Chain(Storage, s.txs, p);
        OldEdge(s, s', added, user, root, p, i, j);
      }
    }
  }

  lemma OnlyStockBehind(s: Ledger, s': Ledger, added: set<TransactionId>, user: Option<UserId>, root: TransactionId, w: TransactionId)
    requires Consistent(s) && AddsBuyer(s, s', added, user) && root in added
    requires forall i :: i in added ==> s'.txs[i].status.Accepted?
    requires w in FirstChain(s'.txs, root)
    ensures w in BehindStock(s.txs, user)
  {
    ReachIsClosed(s, s', added, user, root);
    ChainIsLeastClosedSet(Storage, s'.txs, root);
    var p :| p in Bought(s.txs, user) && w in Chain(Storage, s.txs, p);
    assert w in FirstChain(s.txs, p);
  }

  lemma StockIsBehind(s: Ledger, s': Ledger, user: Option<UserId>, root: TransactionId, w: TransactionId)
    requires Extends(s, s')
    requires forall p :: p in Bought(s.txs, user) ==> p in Chain(Storage, s'.txs, root)
    requires w in BehindStock(s.txs, user)
    ensures w in FirstChain(s'.txs, root)
  {
    var p :| p in Bought(s.txs, user) && w in FirstChain(s.txs, p);
    FirstChainsGrow(s, s', p);
    assert Preserved(s.txs[p], s'.txs[p]);
    ChainIsTransitive(s'.txs, root, p);
  }

  /** Behind such a row is what is behind the stock of its user, and nothing else. */
  lemma BehindAddedRow(s: Ledger, s': Ledger, added: set<TransactionId>, user: Option<UserId>, root: TransactionId)
    requires Consistent(s) && Extends(s, s') && AddsBuyer(s, s', added, user) && root in added
    requires forall i :: i in added ==> s'.txs[i].status.Accepted?
    requires forall p :: p in Bought(s.txs, user) ==> p in Chain(Storage, s'.txs, root)
    ensures FirstChain(s'.txs, root) == BehindStock(s.txs, user)
  {
    forall w ensures w in FirstChain(s'.txs, root) <==> w in BehindStock(s.txs, user) {
      if w in FirstChain(s'.txs, root) {
        OnlyStockBehind(s, s', added, user, root, w);
      }
      if w in BehindStock(s.txs, user) {
        StockIsBehind(s, s', user, root, w);
      }
    }
  }

  // ---- accepting a sale ----

  lemma SaleAddsBuyer(s: Ledger, id: TransactionId, s': Ledger)
    requires Consistent(s) && id in s.txs && s.txs[id].kind.Downstream? && s.txs[id].status.Pending? && s.txs[id].seller.Some?
    requires s.txs[id].seller != s.txs[id].buyer
    requires exists level :: s'.txs == s.txs[id := AcceptedRow(s.txs[id], level)]
    ensures AddsBuyer(s, s', {id}, s.txs[id].seller) && s'.txs[id].status.Accepted?
    ensures forall p :: p in Bought(s.txs, s.txs[id].seller) ==> p in Chain(Storage, s'.txs, id)
  {
    var user := s.txs[id].seller;
    ChainHasRoot(Storage, s'.txs, id);
    forall p | p in Bought(s.txs, user) ensures p in Chain(Storage, s'.txs, id) {
      ChainStep(Storage, s'.txs, id, id, p);
    }
  }

  lemma BehindCoveredSale(s: Ledger, user: UserId, id: TransactionId, automaticId: TransactionId, now: Time, s': Ledger)
    requires Consistent(s) && Extends(s, s') && automaticId !in s.txs && IsIncoming(s.txs, user, id, now, false)
    requires s' == Settled(s, id, automaticId, now) && Shortfall(s.balances, s.txs[id]) == 0
    ensures FirstChain(s'.txs, id) == BehindStock(s.txs, s.txs[id].seller)
  {
    AcceptedByTheOtherParty(s.txs, user, id, now);
    AcceptStoresALevel(s, user, id, automaticId, now);
    assert RowOk(s.txs[id]);
    SaleAddsBuyer(s, id, s');
    BehindAddedRow(s, s', {id}, s.txs[id].seller, id);
  }

  lemma BehindShortSale(s: Ledger, user: UserId, id: TransactionId, automaticId: TransactionId, now: Time, s': Ledger)
    requires Consistent(s) && automaticId !in s.txs && IsIncoming(s.txs, user, id, now, false)
    requires s' == Settled(s, id, automaticId, now) && Shortfall(s.balances, s.txs[id]) > 0
    ensures id in s'.txs && s'.txs[id].traceability == Some(Incomplete)
    ensures automaticId in FirstChain(s'.txs, id) && s'.txs[automaticId].traceability == Some(Incomplete)
  {
    AcceptCreatesOnlyShortfall(s, user, id, automaticId, now, s');
    ChainHasRoot(Storage, s'.txs, id);
    ChainStep(Storage, s'.txs, id, id, automaticId);
  }

  /** Behind an accepted sale is what is behind its seller's stock, and the automatic producer
      transaction if there is one. */
  lemma BehindAcceptedSale(s: Ledger, user: UserId, id: TransactionId, automaticId: TransactionId, now: Time, s': Ledger)
    requires Consistent(s) && automaticId !in s.txs && IsIncoming(s.txs, user, id, now, false)
    requires s' == Settled(s, id, automaticId, now)
    ensures id in s'.txs && s'.txs[id].status.Accepted? && id !in s.acceptedAt
    ensures Shortfall(s.balances, s.txs[id]) == 0 ==> FirstChain(s'.txs, id) == BehindStock(s.txs, s.txs[id].seller)
    ensures Shortfall(s.balances, s.txs[id]) > 0 ==>
              automaticId in FirstChain(s'.txs, id) && s'.txs[automaticId].traceability == Some(Incomplete)
              && s'.txs[id].traceability == Some(Incomplete)
  {
    AcceptKeepsConsistent(s, user, id, automaticId, now);
    AcceptCreatesOnlyShortfall(s, user, id, automaticId, now, s');
    if Shortfall(s.balances, s.txs[id]) == 0 {
      BehindCoveredSale(s, user, id, automaticId, now, s');
    } else {
      BehindShortSale(s, user, id, automaticId, now, s');
    }
  }

  // ---- converting ----

  lemma InputLegsComeFrom(legs: Table, user: UserId, from: set<CommodityId>, to: set<CommodityId>, group: GroupId, level: Traceability)
    requires ConversionLegs(legs, user, from, to, group, level)
    ensures forall j :: j in legs && IsInputLeg(legs[j]) ==> legs[j].commodity in from
  {
    assert forall j :: j in legs ==> LegOk(legs[j], group, user, level);
  }

  /** A conversion leg without input legs behind it is alone in its chain. */
  lemma LonelyLeg(s: Ledger, user: UserId, from: set<CommodityId>, to: set<CommodityId>, group: GroupId,
                  level: Traceability, legs: Table, s': Ledger, i: TransactionId)
    requires AddsConversion(s, user, from, to, group, level, legs, s') && from == {} && i in legs
    ensures i in s'.txs && s'.txs[i].status.Accepted? && FirstChain(s'.txs, i) == {}
  {
    assert LegOk(legs[i], group, user, level) && s'.txs[i] == legs[i];
    InputLegsComeFrom(legs, user, from, to, group, level);
    assert forall j :: !Edge(Storage, s'.txs, i, i, j);
    ChainHasRoot(Storage, s'.txs, i);
    ChainFromClosure(Storage, s'.txs, i, {i});
  }

  lemma LegEdge(s: Ledger, user: UserId, from: set<CommodityId>, to: set<CommodityId>, group: GroupId,
                level: Traceability, legs: Table, s': Ledger, i: TransactionId, j: TransactionId)
    requires AddsConversion(s, user, from, to, group, level, legs, s') && i in legs && Edge(Storage, s'.txs, i, i, j)
    ensures j in legs || j in Bought(s.txs, Some(user))
  {
    assert LegOk(legs[i], group, user, level) && s'.txs[i] == legs[i];
  }

  lemma LegsAddBuyer(s: Ledger, user: UserId, from: set<CommodityId>, to: set<CommodityId>, group: GroupId,
                     level: Traceability, legs: Table, s': Ledger)
    requires Consistent(s) && AddsConversion(s, user, from, to, group, level, legs, s')
    ensures AddsBuyer(s, s', legs.Keys, Some(user))
    ensures forall i :: i in legs ==> s'.txs[i].status.Accepted?
  {
    forall i | i in legs ensures s'.txs[i].kind.Conversion? && s'.txs[i].status.Accepted? {
      assert LegOk(legs[i], group, user, level) && s'.txs[i] == legs[i];
    }
    forall i, j | i in legs && Edge(Storage, s'.txs, i, i, j) ensures j in legs || j in Bought(s.txs, Some(user)) {
      LegEdge(s, user, from, to, group, level, legs, s', i, j);
    }
  }

  lemma LegsReachStock(s: Ledger, user: UserId, from: set<CommodityId>, to: set<CommodityId>, group: GroupId,
                       level: Traceability, legs: Table, s': Ledger, i: TransactionId, p: TransactionId)
    requires AddsConversion(s, user, from, to, group, level, legs, s') && from != {} && i in legs
    requires p in Bought(s.txs, Some(user))
    ensures p in Chain(Storage, s'.txs, i)
  {
    assert forall j :: j in legs ==> LegOk(legs[j], group, user, level) && s'.txs[j] == legs[j];
    ChainHasRoot(Storage, s'.txs, i);
    if IsInputLeg(legs[i]) {
      ChainStep(Storage, s'.txs, i, i, p);
    } else {
      var c :| c in from;
      var j :| j in legs && IsInputLeg(legs[j]) && legs[j].group == Some(group) && legs[j].commodity == c;
      ChainStep(Storage, s'.txs, i, i, j);
      ChainStep(Storage, s'.txs, i, j, p);
    }
  }

  /** Behind a conversion leg is what is behind the user's stock, or nothing if there is no input. */
  lemma BehindLeg(s: Ledger, user: UserId, from: set<CommodityId>, to: set<CommodityId>, group: GroupId,
                  level: Traceability, legs: Table, s': Ledger, i: TransactionId)
    requires Consistent(s) && Extends(s, s') && AddsConversion(s, user, from, to, group, level, legs, s') && i in legs
    ensures FirstChain(s'.txs, i) == if from == {} then {} else BehindStock(s.txs, Some(user))
  {
    if from == {} {
      LonelyLeg(s, user, from, to, group, level, legs, s', i);
    } else {
      LegsAddBuyer(s, user, from, to, group, level, legs, s');
      forall p | p in Bought(s.txs, Some(user)) ensures p in Chain(Storage, s'.txs, i) {
        LegsReachStock(s, user, from, to, group, level, legs, s', i, p);
      }
      BehindAddedRow(s, s', legs.Keys, Some(user), i);
    }
  }

  // ---- the two properties ----

  /** No accepted transaction dead-ends. */
  ghost predicate NoDeadEnd(s: Ledger) {
    forall i :: i in s.acceptedAt ==> HasFirst(s, i)
  }

  ghost predicate HasFirst(s: Ledger, i: TransactionId) {
    exists w :: w in FirstChain(s.txs, i)
  }

  /** The first chain holds a producer with the level that the transaction stores. */
  ghost predicate WitnessedAt(s: Ledger, i: TransactionId) {
    i in s.txs && exists w :: w in FirstChain(s.txs, i) && s.txs[w].kind.Producer? && s.txs[w].traceability == s.txs[i].traceability
  }

  ghost predicate Witnessed(s: Ledger) {
    forall i :: i in s.acceptedAt ==> WitnessedAt(s, i)
  }

  /** Levels behind the stock of a user. */
  ghost function StockLevels(txs: Table, user: Option<UserId>): set<Traceability> {
    Levels(txs, BehindStock(txs, user))
  }

  lemma ProducerIsItsOwnWitness(s: Ledger, i: TransactionId)
    requires Consistent(s) && i in s.acceptedAt && s.txs[i].kind.Producer?
    ensures i in FirstChain(s.txs, i) && WitnessedAt(s, i)
  {
    ChainHasRoot(Storage, s.txs, i);
    assert RowOk(s.txs[i]);
  }

  lemma WitnessPersists(s: Ledger, s': Ledger, i: TransactionId)
    requires Consistent(s) && Extends(s, s') && i in s.acceptedAt && WitnessedAt(s, i)
    ensures WitnessedAt(s', i)
  {
    var w :| w in FirstChain(s.txs, i) && s.txs[w].kind.Producer? && s.txs[w].traceability == s.txs[i].traceability;
    FirstChainsGrow(s, s', i);
    assert RowOk(s.txs[w]) && Preserved(s.txs[w], s'.txs[w]) && Preserved(s.txs[i], s'.txs[i]);
  }

  lemma BehindStockIsAccepted(s: Ledger, user: Option<UserId>)
    requires Consistent(s)
    ensures forall w :: w in BehindStock(s.txs, user) ==> w in s.txs && w in s.acceptedAt && s.txs[w].kind.Producer?
  {
    forall w | w in BehindStock(s.txs, user) ensures w in s.txs && w in s.acceptedAt && s.txs[w].kind.Producer? {
      var p :| p in Bought(s.txs, user) && w in FirstChain(s.txs, p);
      FirstChainIsProducers(s, p);
    }
  }

  lemma StockIsBehindIff(s: Ledger, user: Option<UserId>)
    requires Consistent(s) && NoDeadEnd(s)
    ensures BehindStock(s.txs, user) != {} <==> Bought(s.txs, user) != {}
  {
    if Bought(s.txs, user) != {} {
      var p :| p in Bought(s.txs, user);
      assert p in s.acceptedAt;
      var w :| w in FirstChain(s.txs, p);
      assert w in BehindStock(s.txs, user);
    }
  }

  /** A row behind which is the stock of `user` has a witness iff its level is behind that stock. */
  lemma StockWitnessIff(s: Ledger, s': Ledger, user: Option<UserId>, i: TransactionId, level: Traceability)
    requires Consistent(s) && Extends(s, s') && i in s'.txs && s'.txs[i].traceability == Some(level)
    requires FirstChain(s'.txs, i) == BehindStock(s.txs, user)
    ensures WitnessedAt(s', i) <==> level in StockLevels(s.txs, user)
  {
    BehindStockIsAccepted(s, user);
    forall w | w in BehindStock(s.txs, user)
      ensures s'.txs[w].kind.Producer? && s'.txs[w].traceability == s.txs[w].traceability
    {
      assert Preserved(s.txs[w], s'.txs[w]);
    }
    if level in StockLevels(s.txs, user) {
      var w :| w in BehindStock(s.txs, user) && s.txs[w].traceability == Some(level);
      assert w in FirstChain(s'.txs, i);
    }
    if WitnessedAt(s', i) {
      var w :| w in FirstChain(s'.txs, i) && s'.txs[w].traceability == Some(level);
      assert s.txs[w].traceability == Some(level);
    }
  }

  lemma PurchaseLevelIsBehind(s: Ledger, user: Option<UserId>, p: TransactionId, level: Traceability)
    requires Consistent(s) && p in Bought(s.txs, user) && WitnessedAt(s, p) && s.txs[p].traceability == Some(level)
    ensures level in StockLevels(s.txs, user)
  {
    var w :| w in FirstChain(s.txs, p) && s.txs[w].traceability == Some(level);
    assert w in BehindStock(s.txs, user);
  }

  /** Where every row has a witness, the lowest level of some purchases is behind the stock. */
  lemma LowestPurchaseIsBehind(s: Ledger, user: Option<UserId>, commodities: set<CommodityId>)
    requires Consistent(s) && Witnessed(s) && Levels(s.txs, Purchases(s.txs, user, commodities)) != {}
    ensures Lowest(Levels(s.txs, Purchases(s.txs, user, commodities))) in StockLevels(s.txs, user)
  {
    var purchases := Purchases(s.txs, user, commodities);
    var level := Lowest(Levels(s.txs, purchases));
    var p :| p in purchases && p in s.txs && s.txs[p].traceability == Some(level);
    assert p in Bought(s.txs, user) && p in s.acceptedAt;
    PurchaseLevelIsBehind(s, user, p, level);
  }

  // ---- one step ----

  /** The seller of an accepted sale bought anything before or lacks volume, and whoever converts
      has an input and bought anything before. */
  ghost predicate HasStock(s: Ledger, e: Event) {
    match e
    case Accept(user, id, _, now) =>
      IsIncoming(s.txs, user, id, now, false) ==>
        Bought(s.txs, s.txs[id].seller) != {} || Shortfall(s.balances, s.txs[id]) > 0
    case CreateConversion(user, request, _, _, _, _) =>
      var plan := PlanConversion(s.balances, user, request);
      plan.Planned? && (plan.inputs != map[] || plan.outputs != map[]) ==>
        plan.inputs != map[] && Bought(s.txs, Some(user)) != {}
    case _ => true
  }

  /** The step has a source, or there happens to be an untraceable producer behind the stock. */
  ghost predicate HasWitness(s: Ledger, e: Event) {
    || HasSource(s, e)
    || match e
       case Accept(_, id, _, _) => id in s.txs && Incomplete in StockLevels(s.txs, s.txs[id].seller)
       case CreateConversion(user, request, _, _, _, _) =>
         var plan := PlanConversion(s.balances, user, request);
         plan.Planned? && plan.inputs != map[] && Incomplete in StockLevels(s.txs, Some(user))
       case _ => true
  }

  lemma AcceptedSaleHasStockIff(s: Ledger, e: Event, s': Ledger)
    requires Consistent(s) && e.Accept? && e.automaticId !in s.txs && IsIncoming(s.txs, e.user, e.id, e.now, false)
    requires s' == Settled(s, e.id, e.automaticId, e.now) && NoDeadEnd(s)
    ensures e.id in s'.txs && (HasFirst(s', e.id) <==> HasStock(s, e))
  {
    BehindAcceptedSale(s, e.user, e.id, e.automaticId, e.now, s');
    StockIsBehindIff(s, s.txs[e.id].seller);
  }

  lemma AcceptedSaleHasWitnessIff(s: Ledger, e: Event, s': Ledger)
    requires Consistent(s) && e.Accept? && e.automaticId !in s.txs && IsIncoming(s.txs, e.user, e.id, e.now, false)
    requires s' == Settled(s, e.id, e.automaticId, e.now) && Witnessed(s)
    ensures WitnessedAt(s', e.id) <==> HasWitness(s, e)
  {
    AcceptKeepsConsistent(s, e.user, e.id, e.automaticId, e.now);
    BehindAcceptedSale(s, e.user, e.id, e.automaticId, e.now, s');
    if Shortfall(s.balances, s.txs[e.id]) == 0 {
      CoveredSaleHasWitnessIff(s, e, s');
    } else {
      FirstChainIsProducers(s', e.id);
    }
  }

  lemma CoveredSaleHasWitnessIff(s: Ledger, e: Event, s': Ledger)
    requires Consistent(s) && Extends(s, s') && e.Accept? && IsIncoming(s.txs, e.user, e.id, e.now, false)
    requires s' == Settled(s, e.id, e.automaticId, e.now) && Shortfall(s.balances, s.txs[e.id]) == 0
    requires e.id in s'.txs && s'.txs[e.id].status.Accepted? && Witnessed(s)
    requires FirstChain(s'.txs, e.id) == BehindStock(s.txs, s.txs[e.id].seller)
    ensures WitnessedAt(s', e.id) <==> HasWitness(s, e)
  {
    var t := s.txs[e.id];
    PurchasesHaveLevels(s.txs, t.seller, {t.commodity});
    var level := DownstreamTraceability(s.txs, t.seller, t.commodity).value;
    assert s'.txs[e.id].traceability == Some(level);
    StockWitnessIff(s, s', t.seller, e.id, level);
    if Purchases(s.txs, t.seller, {t.commodity}) != {} {
      LowestPurchaseIsBehind(s, t.seller, {t.commodity});
    }
  }

  lemma LegIff(s: Ledger, user: UserId, from: set<CommodityId>, to: set<CommodityId>, group: GroupId,
               legs: Table, s': Ledger, i: TransactionId)
    requires Consistent(s) && Extends(s, s') && i in legs
    requires AddsConversion(s, user, from, to, group, ConversionTraceability(s.txs, user, from), legs, s')
    ensures NoDeadEnd(s) ==> (HasFirst(s', i) <==> from != {} && Bought(s.txs, Some(user)) != {})
    ensures Witnessed(s) ==>
              (WitnessedAt(s', i) <==>
                 Purchases(s.txs, Some(user), from) != {} || (from != {} && Incomplete in StockLevels(s.txs, Some(user))))
  {
    var level := ConversionTraceability(s.txs, user, from);
    BehindLeg(s, user, from, to, group, level, legs, s', i);
    assert LegOk(legs[i], group, user, level) && s'.txs[i] == legs[i];
    if NoDeadEnd(s) {
      StockIsBehindIff(s, Some(user));
    }
    if Witnessed(s) && from != {} {
      StockWitnessIff(s, s', Some(user), i, level);
      PurchasesHaveLevels(s.txs, Some(user), from);
      if Purchases(s.txs, Some(user), from) != {} {
        LowestPurchaseIsBehind(s, Some(user), from);
      }
    }
  }

  lemma LegIsSafeIff(s: Ledger, e: Event, inputs: map<CommodityId, real>, outputs: map<CommodityId, real>)
    requires e.CreateConversion? && PlanConversion(s.balances, e.user, e.conversion) == Planned(inputs, outputs)
    requires inputs != map[] || outputs != map[]
    ensures HasStock(s, e) <==> inputs.Keys != {} && Bought(s.txs, Some(e.user)) != {}
    ensures HasWitness(s, e) <==> Purchases(s.txs, Some(e.user), inputs.Keys) != {}
                                  || (inputs.Keys != {} && Incomplete in StockLevels(s.txs, Some(e.user)))
  {
    assert inputs == map[] <==> inputs.Keys == {};
  }

  lemma ConvertedLegIff(round: Rounding, s: Ledger, e: Event, s': Ledger, i: TransactionId)
    requires Consistent(s) && e.CreateConversion? && Fresh(s, e) && s' == Apply(round, s, e) && s' != s
    requires i in s'.acceptedAt && i !in s.acceptedAt
    ensures NoDeadEnd(s) ==> (HasFirst(s', i) <==> HasStock(s, e))
    ensures Witnessed(s) ==> (WitnessedAt(s', i) <==> HasWitness(s, e))
  {
    var inputs, outputs := ConversionCase(round, s, e, s');
    var level := ConversionTraceability(s.txs, e.user, inputs.Keys);
    StepKeepsConsistent(round, s, e, s');
    ConvertedAddsConversion(round, s, e.user, inputs, outputs, e.group, e.inputIds, e.outputIds, e.now);
    var legs := AllLegs(round, e.user, inputs, outputs, level, e.group, e.inputIds, e.outputIds, e.now);
    assert i in legs;
    NoLegsIff(inputs, outputs, e.inputIds, e.outputIds);
    LegIsSafeIff(s, e, inputs, outputs);
    LegIff(s, e.user, inputs.Keys, outputs.Keys, e.group, legs, s', i);
  }

  /** Every row that a step accepts is good exactly when the step is safe. */
  lemma NewRowIff(round: Rounding, s: Ledger, e: Event, s': Ledger, i: TransactionId)
    requires Consistent(s) && Fresh(s, e) && s' == Apply(round, s, e) && Consistent(s')
    requires i in s'.acceptedAt && i !in s.acceptedAt && !s'.txs[i].kind.Producer?
    ensures NoDeadEnd(s) ==> (HasFirst(s', i) <==> HasStock(s, e))
    ensures Witnessed(s) ==> (WitnessedAt(s', i) <==> HasWitness(s, e))
  {
    NewlyAccepted(round, s, e, s', i);
    if e.CreateConversion? {
      ConvertedLegIff(round, s, e, s', i);
    } else {
      if NoDeadEnd(s) {
        AcceptedSaleHasStockIff(s, e, s');
      }
      if Witnessed(s) {
        AcceptedSaleHasWitnessIff(s, e, s');
      }
    }
  }

  ghost predicate AcceptsOnlyProducers(s: Ledger, s': Ledger) {
    forall i :: i in s'.acceptedAt && i !in s.acceptedAt && i in s'.txs ==> s'.txs[i].kind.Producer?
  }

  /** A step that accepts no sale and no leg is safe. */
  lemma SafeUnlessAccepting(round: Rounding, s: Ledger, e: Event, s': Ledger)
    requires Consistent(s) && Fresh(s, e) && s' == Apply(round, s, e)
    requires AcceptsOnlyProducers(s, s')
    ensures HasStock(s, e) && HasWitness(s, e)
  {
    if e.Accept? && IsIncoming(s.txs, e.user, e.id, e.now, false) {
      BehindAcceptedSale(s, e.user, e.id, e.automaticId, e.now, s');
      AcceptIsGroundedIff(s, e.user, e.id, e.automaticId, e.now);
      AcceptCreatesOnlyShortfall(s, e.user, e.id, e.automaticId, e.now, s');
      assert false;
    } else if e.CreateConversion? {
      QuietConversionHasNoLegs(round, s, e, s');
    }
  }

  lemma QuietConversionHasNoLegs(round: Rounding, s: Ledger, e: Event, s': Ledger)
    requires Consistent(s) && e.CreateConversion? && Fresh(s, e) && s' == Apply(round, s, e)
    requires AcceptsOnlyProducers(s, s')
    ensures var plan := PlanConversion(s.balances, e.user, e.conversion);
            plan.Planned? ==> plan.inputs == map[] && plan.outputs == map[]
  {
    if s' != s {
      var inputs, outputs := ConversionCase(round, s, e, s');
      var level := ConversionTraceability(s.txs, e.user, inputs.Keys);
      ConvertedAddsConversion(round, s, e.user, inputs, outputs, e.group, e.inputIds, e.outputIds, e.now);
      var legs := AllLegs(round, e.user, inputs, outputs, level, e.group, e.inputIds, e.outputIds, e.now);
      LegsAreNewlyAccepted(s, e.user, inputs.Keys, outputs.Keys, e.group, level, legs, s');
      assert forall i :: i in legs ==> i !in s.acceptedAt;
      NoLegsIff(inputs, outputs, e.inputIds, e.outputIds);
    } else {
      ConversionStep(round, s, e);
    }
  }

  lemma RowIff(round: Rounding, s: Ledger, e: Event, s': Ledger, i: TransactionId)
    requires Consistent(s) && Fresh(s, e) && s' == Apply(round, s, e) && Consistent(s') && Extends(s, s')
    requires i in s'.acceptedAt
    ensures NoDeadEnd(s) ==> (HasFirst(s', i) <==> i in s.acceptedAt || s'.txs[i].kind.Producer? || HasStock(s, e))
    ensures Witnessed(s) ==> (WitnessedAt(s', i) <==> i in s.acceptedAt || s'.txs[i].kind.Producer? || HasWitness(s, e))
  {
    if i in s.acceptedAt {
      FirstChainsGrow(s, s', i);
      if Witnessed(s) {
        WitnessPersists(s, s', i);
      }
    } else if s'.txs[i].kind.Producer? {
      ProducerIsItsOwnWitness(s', i);
    } else {
      NewRowIff(round, s, e, s', i);
    }
  }

  /** When old rows and producers are good, and other new rows are good exactly if the step is
      safe, then everything is good exactly if the step is safe. */
  lemma NewRowsDecide(s: Ledger, s': Ledger, good: TransactionId -> bool, safe: bool)
    requires forall i :: i in s'.acceptedAt ==>
               i in s'.txs && (good(i) <==> i in s.acceptedAt || s'.txs[i].kind.Producer? || safe)
    requires AcceptsOnlyProducers(s, s') ==> safe
    ensures (forall i :: i in s'.acceptedAt ==> good(i)) <==> safe
  {
    if !safe {
      var i :| i in s'.acceptedAt && i !in s.acceptedAt && i in s'.txs && !s'.txs[i].kind.Producer?;
      assert !good(i);
    }
  }

  lemma StepHasNoDeadEndIff(round: Rounding, s: Ledger, e: Event, s': Ledger)
    requires Consistent(s) && NoDeadEnd(s) && Fresh(s, e) && s' == Apply(round, s, e)
    ensures NoDeadEnd(s') <==> HasStock(s, e)
  {
    StepKeepsConsistent(round, s, e, s');
    var good: TransactionId -> bool := (i: TransactionId) => HasFirst(s', i);
    forall i | i in s'.acceptedAt
      ensures i in s'.txs && (good(i) <==> i in s.acceptedAt || s'.txs[i].kind.Producer? || HasStock(s, e))
    {
      RowIff(round, s, e, s', i);
    }
    if AcceptsOnlyProducers(s, s') {
      SafeUnlessAccepting(round, s, e, s');
    }
    NewRowsDecide(s, s', good, HasStock(s, e));
    assert (forall i :: i in s'.acceptedAt ==> good(i)) <==> NoDeadEnd(s');
  }

  lemma StepIsWitnessedIff(round: Rounding, s: Ledger, e: Event, s': Ledger)
    requires Consistent(s) && Witnessed(s) && Fresh(s, e) && s' == Apply(round, s, e)
    ensures Witnessed(s') <==> HasWitness(s, e)
  {
    StepKeepsConsistent(round, s, e, s');
    var good: TransactionId -> bool := (i: TransactionId) => WitnessedAt(s', i);
    forall i | i in s'.acceptedAt
      ensures i in s'.txs && (good(i) <==> i in s.acceptedAt || s'.txs[i].kind.Producer? || HasWitness(s, e))
    {
      RowIff(round, s, e, s', i);
    }
    if AcceptsOnlyProducers(s, s') {
      SafeUnlessAccepting(round, s, e, s');
    }
    NewRowsDecide(s, s', good, HasWitness(s, e));
    assert (forall i :: i in s'.acceptedAt ==> good(i)) <==> Witnessed(s');
  }

  // ---- whole runs ----

  /** No accepted transaction dead-ends throughout a run exactly when every accepted sale and every
      conversion with legs of it draws on some stock. */
  lemma NoDeadEndThroughoutIff(round: Rounding, events: seq<Event>, states: seq<Ledger>)
    requires IsRun(round, events, states)
    ensures (forall k :: 0 <= k < |states| ==> NoDeadEnd(states[k]))
            <==> (forall k :: 0 <= k < |events| ==> HasStock(states[k], events[k]))
  {
    var good: Ledger -> bool := (s: Ledger) => NoDeadEnd(s);
    var safe: (Ledger, Event) -> bool := (s: Ledger, e: Event) => HasStock(s, e);
    forall k | 0 <= k < |events| ensures ExactAt(states[k], events[k], states[k + 1], good, safe) {
      StepOfRun(round, events, states, k);
      if good(states[k]) {
        StepHasNoDeadEndIff(round, states[k], events[k], states[k + 1]);
      }
    }
    ThroughoutIff(events, states, good, safe);
    assert Throughout(states, good) <==> forall k :: 0 <= k < |states| ==> NoDeadEnd(states[k]);
    assert EveryStep(events, states, safe) <==> forall k :: 0 <= k < |events| ==> HasStock(states[k], events[k]);
  }

  /** The first chain of every accepted transaction holds a producer with exactly its level,
      throughout a run, exactly when every accepted sale and conversion of it has a source, or an
      untraceable producer behind the stock it draws on. */
  lemma WitnessedThroughoutIff(round: Rounding, events: seq<Event>, states: seq<Ledger>)
    requires IsRun(round, events, states)
    ensures (forall k :: 0 <= k < |states| ==> Witnessed(states[k]))
            <==> (forall k :: 0 <= k < |events| ==> HasWitness(states[k], events[k]))
  {
    var good: Ledger -> bool := (s: Ledger) => Witnessed(s);
    var safe: (Ledger, Event) -> bool := (s: Ledger, e: Event) => HasWitness(s, e);
    forall k | 0 <= k < |events| ensures ExactAt(states[k], events[k], states[k + 1], good, safe) {
      StepOfRun(round, events, states, k);
      if good(states[k]) {
        StepIsWitnessedIff(round, states[k], events[k], states[k + 1]);
      }
    }
    ThroughoutIff(events, states, good, safe);
    assert Throughout(states, good) <==> forall k :: 0 <= k < |states| ==> Witnessed(states[k]);
    assert EveryStep(events, states, safe) <==> forall k :: 0 <= k < |events| ==> HasWitness(states[k], events[k]);
  }
}
