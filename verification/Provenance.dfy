/** What the stored level of an accepted transaction means over its whole supply chain. */
module Provenance {
  import opened Domain
  import opened Mappers
  import opened Ledgers
  import opened Lifecycle
  import opened ChainGraph

  /** Whose stock a sale or a conversion leg draws on. */
  function Holder(t: Transaction): Option<UserId> {
    if t.seller.Some? then t.seller else t.buyer
  }

  /** The commodities a transaction was made from. */
  function SourceCommodities(txs: Table, t: Transaction): set<CommodityId> {
    match t.kind
    case Producer => {}
    case Downstream => {t.commodity}
    case Conversion => InputCommodities(txs, t.group)
  }

  /** `p` is a parent of `i`: bought earlier, by the holder of `i`, of a source commodity. */
  ghost predicate IsParent(s: Ledger, p: TransactionId, i: TransactionId) {
    && p in s.txs && i in s.txs && p in s.acceptedAt && i in s.acceptedAt
    && s.acceptedAt[p] < s.acceptedAt[i]
    && s.txs[p].buyer == Holder(s.txs[i])
    && s.txs[p].commodity in SourceCommodities(s.txs, s.txs[i])
  }

  ghost function Parents(s: Ledger, i: TransactionId): set<TransactionId> {
    set p | p in s.txs && IsParent(s, p, i)
  }

  /** `level` is the least of the levels stored in the given, non-empty set of rows. */
  ghost predicate IsLowestOf(txs: Table, ids: set<TransactionId>, level: Option<Traceability>) {
    && level.Some?
    && (exists p :: p in ids && p in txs && txs[p].traceability == level)
    && forall p :: p in ids && p in txs && txs[p].traceability.Some? ==> !txs[p].traceability.value.Below(level.value)
  }

  /** The stored level is the local minimum over the parents, of which there is at least one. */
  ghost predicate GroundedAt(s: Ledger, i: TransactionId) {
    i in s.txs && IsLowestOf(s.txs, Parents(s, i), s.txs[i].traceability)
  }

  ghost predicate Grounded(s: Ledger) {
    forall i :: i in s.acceptedAt && i in s.txs && !s.txs[i].kind.Producer? ==> GroundedAt(s, i)
  }

  /** Balances are never negative, and stock was bought. */
  ghost predicate Covered(s: Ledger) {
    forall a :: a in s.balances ==>
      s.balances[a] >= 0 && (s.balances[a] > 0 ==> Purchases(s.txs, Some(a.user), {a.commodity}) != {})
  }

  ghost predicate TradesArePositive(s: Ledger) {
    forall i :: i in s.txs && s.txs[i].kind.Downstream? ==> s.txs[i].volume > 0
  }

  /** What the requests of a run must respect, none of which the services check: sales of a
      positive stored volume, no negative production, no negative recipe input. */
  ghost predicate Sound(round: Rounding, e: Event) {
    match e
    case CreateProducer(_, request, _, _, _) => request.volume >= 0.0
    case CreateDownstream(_, request, _, _, _, _, _) => round(request.volume) > 0
    case CreateConversion(_, request, _, _, _, _) =>
      request.recipe.Some? ==>
        forall c :: c in request.recipe.value.inputs ==>
          Quantity(request.recipe.value.inputs, request.inputOverrides, c) >= 0.0
    case _ => true
  }

  ghost predicate Sourced(s: Ledger) {
    Covered(s) && TradesArePositive(s) && Grounded(s)
  }

  // ---- later steps do not change the parents of an accepted row ----

  lemma SourcesPersist(s: Ledger, s': Ledger, i: TransactionId)
    requires Consistent(s) && Extends(s, s') && i in s.acceptedAt
    ensures SourceCommodities(s'.txs, s'.txs[i]) == SourceCommodities(s.txs, s.txs[i])
  {
    assert RowOk(s.txs[i]) && Preserved(s.txs[i], s'.txs[i]);
    if s.txs[i].kind.Conversion? {
      var group := s.txs[i].group;
      forall j | j in s'.txs && IsInputLeg(s'.txs[j]) && s'.txs[j].group == group
        ensures j in s.txs && IsInputLeg(s.txs[j]) && s.txs[j].group == group && s.txs[j].commodity == s'.txs[j].commodity
      {
        assert j !in s.txs ==> !Grouped(s'.txs, j, s.txs, i);
        assert Preserved(s.txs[j], s'.txs[j]);
      }
      forall j | j in s.txs && IsInputLeg(s.txs[j]) && s.txs[j].group == group
        ensures j in s'.txs && IsInputLeg(s'.txs[j]) && s'.txs[j].group == group && s.txs[j].commodity == s'.txs[j].commodity
      {
        assert Preserved(s.txs[j], s'.txs[j]);
      }
      assert InputCommodities(s'.txs, group) == InputCommodities(s.txs, group);
    }
  }

  lemma ParentsPersist(s: Ledger, s': Ledger, i: TransactionId)
    requires Consistent(s) && Consistent(s') && Extends(s, s') && i in s.acceptedAt
    ensures Parents(s', i) == Parents(s, i)
    ensures s'.txs[i].traceability == s.txs[i].traceability
    ensures forall p :: p in Parents(s, i) ==> s'.txs[p].traceability == s.txs[p].traceability
  {
    SourcesPersist(s, s', i);
    assert forall j :: j in s.acceptedAt ==> Preserved(s.txs[j], s'.txs[j]);
    forall p | p in s'.txs && IsParent(s', p, i) ensures p in s.txs && IsParent(s, p, i) {
      assert p in s.acceptedAt;
    }
    forall p | p in s.txs && IsParent(s, p, i) ensures IsParent(s', p, i) {
      assert Preserved(s.txs[p], s'.txs[p]);
    }
  }

  lemma GroundedPersists(s: Ledger, s': Ledger, i: TransactionId)
    requires Consistent(s) && Consistent(s') && Extends(s, s')
    requires i in s.acceptedAt && GroundedAt(s, i)
    ensures GroundedAt(s', i)
  {
    ParentsPersist(s, s', i);
    var p :| p in Parents(s, i) && p in s.txs && s.txs[p].traceability == s.txs[i].traceability;
    assert p in Parents(s', i) && s'.txs[p].traceability == s'.txs[i].traceability;
  }

  lemma PurchasesPersist(s: Ledger, s': Ledger, buyer: Option<UserId>, commodities: set<CommodityId>)
    requires Extends(s, s')
    ensures Purchases(s.txs, buyer, commodities) <= Purchases(s'.txs, buyer, commodities)
  {
    forall p | p in Purchases(s.txs, buyer, commodities) ensures p in Purchases(s'.txs, buyer, commodities) {
      assert Preserved(s.txs[p], s'.txs[p]);
    }
  }

  // ---- the two steps that store a computed level ----

  lemma LowestIsLowestOf(txs: Table, ids: set<TransactionId>)
    requires Levels(txs, ids) != {}
    ensures IsLowestOf(txs, ids, Some(Lowest(Levels(txs, ids))))
  {
    var lowest := Lowest(Levels(txs, ids));
    assert lowest in Levels(txs, ids);
    var p :| p in ids && p in txs && txs[p].traceability.Some? && txs[p].traceability.value == lowest;
    assert txs[p].traceability == Some(lowest);
    forall q | q in ids && q in txs && txs[q].traceability.Some? ensures !txs[q].traceability.value.Below(lowest) {
      assert txs[q].traceability.value in Levels(txs, ids);
    }
  }

  /** Accepted rows always carry a level, so a minimum over purchases is never over nothing. */
  lemma PurchasesHaveLevels(txs: Table, buyer: Option<UserId>, commodities: set<CommodityId>)
    requires RowsOk(txs)
    ensures Levels(txs, Purchases(txs, buyer, commodities)) == {} <==> Purchases(txs, buyer, commodities) == {}
  {
    var purchases := Purchases(txs, buyer, commodities);
    if purchases != {} {
      var p :| p in purchases;
      assert RowOk(txs[p]);
      assert txs[p].traceability.value in Levels(txs, purchases);
    }
  }

  /** The parents of a sale just accepted are its seller's purchases of the commodity. */
  lemma SettledParents(s: Ledger, id: TransactionId, level: Traceability, s': Ledger)
    requires Consistent(s) && Settles(s, id, level, s')
    ensures id in s'.acceptedAt
    ensures Parents(s', id) == Purchases(s.txs, s.txs[id].seller, {s.txs[id].commodity})
    ensures id !in Purchases(s.txs, s.txs[id].seller, {s.txs[id].commodity})
  {
    var t := s.txs[id];
    assert forall p :: p in s.txs && p != id ==> s'.txs[p] == s.txs[p];
    assert SourceCommodities(s'.txs, s'.txs[id]) == {t.commodity};
    assert Holder(s'.txs[id]) == t.seller;
    forall p ensures p in Parents(s', id) <==> p in Purchases(s.txs, t.seller, {t.commodity}) {
      if p in s.txs && p != id {
        assert p in s'.acceptedAt <==> s.txs[p].status.Accepted?;
      }
    }
  }

  /** A lowest level survives changes outside the rows it ranges over. */
  lemma LowestOfFrame(txs: Table, txs': Table, ids: set<TransactionId>, level: Option<Traceability>)
    requires IsLowestOf(txs, ids, level)
    requires forall p :: p in ids ==> (p in txs <==> p in txs') && (p in txs ==> txs'[p].traceability == txs[p].traceability)
    ensures IsLowestOf(txs', ids, level)
  {
    var p :| p in ids && p in txs && txs[p].traceability == level;
    assert p in ids && p in txs' && txs'[p].traceability == level;
  }

  lemma SettlingGrounds(s: Ledger, id: TransactionId, s': Ledger)
    requires Consistent(s) && id in s.txs
    requires var level := DownstreamTraceability(s.txs, s.txs[id].seller, s.txs[id].commodity);
             level.Some? && Settles(s, id, level.value, s')
    requires Purchases(s.txs, s.txs[id].seller, {s.txs[id].commodity}) != {}
    ensures GroundedAt(s', id)
  {
    var t := s.txs[id];
    var purchases := Purchases(s.txs, t.seller, {t.commodity});
    PurchasesHaveLevels(s.txs, t.seller, {t.commodity});
    LowestIsLowestOf(s.txs, purchases);
    SettledParents(s, id, DownstreamTraceability(s.txs, t.seller, t.commodity).value, s');
    LowestOfFrame(s.txs, s'.txs, purchases, s'.txs[id].traceability);
  }

  /** Accepting always succeeds in storing a level, and the level is grounded exactly when the
      seller had an accepted purchase of the commodity or lacked volume and got an automatic one.
      Otherwise the sale is stored as untraceable. */
  lemma AcceptIsGroundedIff(s: Ledger, user: UserId, id: TransactionId, automaticId: TransactionId, now: Time)
    requires Consistent(s) && automaticId !in s.txs && IsIncoming(s.txs, user, id, now, false)
    ensures var s' := Settled(s, id, automaticId, now);
            && id in s'.acceptedAt
            && (GroundedAt(s', id) <==>
                  Purchases(s.txs, s.txs[id].seller, {s.txs[id].commodity}) != {} || Shortfall(s.balances, s.txs[id]) > 0)
            && (!GroundedAt(s', id) ==> s'.txs[id].traceability == Some(Incomplete))
  {
    var t := s.txs[id];
    var funded := Funded(s, t, automaticId, now);
    var s' := Settled(s, id, automaticId, now);
    AcceptSettles(s, user, id, automaticId, now);
    AcceptedByTheOtherParty(s.txs, user, id, now);
    PurchasesHaveLevels(funded.txs, t.seller, {t.commodity});
    SettledParents(funded, id, DownstreamTraceability(funded.txs, t.seller, t.commodity).value, s');
    FundedPurchases(s, t, automaticId, now);
    if Purchases(funded.txs, t.seller, {t.commodity}) != {} {
      SettlingGrounds(funded, id, s');
    }
  }

  lemma FundedPurchases(s: Ledger, t: Transaction, automaticId: TransactionId, now: Time)
    requires automaticId !in s.txs && t.seller.Some?
    ensures Purchases(Funded(s, t, automaticId, now).txs, t.seller, {t.commodity})
            == Purchases(s.txs, t.seller, {t.commodity}) + if Shortfall(s.balances, t) > 0 then {automaticId} else {}
  {
  }

  // ---- conversions ----

  lemma LegSources(s: Ledger, user: UserId, from: set<CommodityId>, to: set<CommodityId>, group: GroupId,
                   level: Traceability, legs: Table, s': Ledger)
    requires AddsConversion(s, user, from, to, group, level, legs, s')
    ensures InputCommodities(s'.txs, Some(group)) == from
  {
    forall j ensures (j in s'.txs && IsInputLeg(s'.txs[j]) && s'.txs[j].group == Some(group))
                     <==> (j in legs && IsInputLeg(legs[j]) && legs[j].group == Some(group)) {
    }
    assert forall j :: j in legs ==> s'.txs[j] == legs[j];
    assert InputCommodities(s'.txs, Some(group)) == InputCommodities(legs, Some(group));
  }

  /** The parents of every leg are the user's earlier purchases of the input commodities. */
  lemma LegParents(s: Ledger, user: UserId, from: set<CommodityId>, to: set<CommodityId>, group: GroupId,
                   level: Traceability, legs: Table, s': Ledger, i: TransactionId)
    requires Consistent(s) && AddsConversion(s, user, from, to, group, level, legs, s') && i in legs
    ensures i in s'.acceptedAt && s'.txs[i].traceability == Some(level)
    ensures Parents(s', i) == Purchases(s.txs, Some(user), from)
  {
    LegSources(s, user, from, to, group, level, legs, s');
    assert s'.txs[i] == legs[i] && LegOk(legs[i], group, user, level);
    assert Holder(s'.txs[i]) == Some(user) && SourceCommodities(s'.txs, s'.txs[i]) == from;
    forall p ensures p in Parents(s', i) <==> p in Purchases(s.txs, Some(user), from) {
      if p in s.txs {
        assert s'.txs[p] == s.txs[p];
      }
    }
  }

  /** The legs of a conversion are grounded exactly when the user had bought an input. */
  lemma ConversionIsGroundedIff(s: Ledger, user: UserId, from: set<CommodityId>, to: set<CommodityId>, group: GroupId,
                                legs: Table, s': Ledger, i: TransactionId)
    requires Consistent(s) && i in legs
    requires AddsConversion(s, user, from, to, group, ConversionTraceability(s.txs, user, from), legs, s')
    ensures GroundedAt(s', i) <==> Purchases(s.txs, Some(user), from) != {}
    ensures !GroundedAt(s', i) ==> s'.txs[i].traceability == Some(Incomplete)
  {
    var level := ConversionTraceability(s.txs, user, from);
    var purchases := Purchases(s.txs, Some(user), from);
    LegParents(s, user, from, to, group, level, legs, s', i);
    PurchasesHaveLevels(s.txs, Some(user), from);
    if purchases != {} {
      LowestIsLowestOf(s.txs, purchases);
      LowestOfFrame(s.txs, s'.txs, purchases, Some(level));
    }
  }

  // ---- every sound step keeps the ledger sourced ----

  lemma PaidInputsWereBought(s: Ledger, user: UserId, inputs: map<CommodityId, real>)
    requires Covered(s) && CanPay(s.balances, user, inputs)
    requires exists c :: c in inputs && inputs[c] > 0.0
    ensures Purchases(s.txs, Some(user), inputs.Keys) != {}
  {
    var c :| c in inputs && inputs[c] > 0.0;
    assert s.balances[Account(user, c)] > 0;
    var p :| p in Purchases(s.txs, Some(user), {c});
    assert p in Purchases(s.txs, Some(user), inputs.Keys);
  }

  /** Balances that did not change, or that are now zero, or that were positive before. */
  lemma CoverPersists(s: Ledger, s': Ledger, a: Account)
    requires Covered(s) && Extends(s, s')
    requires Balance(s.balances, a) > 0
    ensures Purchases(s'.txs, Some(a.user), {a.commodity}) != {}
  {
    PurchasesPersist(s, s', Some(a.user), {a.commodity});
    var p :| p in Purchases(s.txs, Some(a.user), {a.commodity});
    assert p in Purchases(s'.txs, Some(a.user), {a.commodity});
  }

  lemma ProducedKeepsCovered(round: Rounding, s: Ledger, user: UserId, request: ProducerRequest, id: TransactionId, now: Time)
    requires RoundsToNearest(round) && Consistent(s) && Covered(s) && id !in s.txs && request.volume >= 0.0
    requires Extends(s, Produced(round, s, user, request, id, now))
    ensures Covered(Produced(round, s, user, request, id, now))
  {
    var s' := Produced(round, s, user, request, id, now);
    assert id in Purchases(s'.txs, Some(user), {request.commodity});
    forall a | a in s'.balances
      ensures s'.balances[a] >= 0 && (s'.balances[a] > 0 ==> Purchases(s'.txs, Some(a.user), {a.commodity}) != {})
    {
      if a != Account(user, request.commodity) && s'.balances[a] > 0 {
        CoverPersists(s, s', a);
      }
    }
  }

  lemma TradedIsCovered(balances: Balances, t: Transaction, a: Account)
    requires t.seller != t.buyer && t.volume > 0 && a in Traded(balances, t)
    requires forall b :: b in balances ==> balances[b] >= 0
    ensures Traded(balances, t)[a] >= 0
    ensures Traded(balances, t)[a] > 0 ==>
              Balance(balances, a) > 0 || (t.buyer == Some(a.user) && t.commodity == a.commodity)
  {
  }

  lemma AcceptKeepsCovered(s: Ledger, user: UserId, id: TransactionId, automaticId: TransactionId, now: Time)
    requires Consistent(s) && Covered(s) && TradesArePositive(s)
    requires automaticId !in s.txs && IsIncoming(s.txs, user, id, now, false)
    ensures Covered(Settled(s, id, automaticId, now))
  {
    var t := s.txs[id];
    var s' := Settled(s, id, automaticId, now);
    AcceptKeepsConsistent(s, user, id, automaticId, now);
    assert RowOk(t);
    if s' != s {
      assert id in Purchases(s'.txs, t.buyer, {t.commodity});
      forall a | a in s'.balances
        ensures s'.balances[a] >= 0 && (s'.balances[a] > 0 ==> Purchases(s'.txs, Some(a.user), {a.commodity}) != {})
      {
        TradedIsCovered(s.balances, t, a);
        if Balance(s.balances, a) > 0 {
          CoverPersists(s, s', a);
        }
      }
    }
  }

  lemma ConvertedIsCovered(round: Rounding, balances: Balances, user: UserId, inputs: map<CommodityId, real>,
                           outputs: map<CommodityId, real>, a: Account)
    requires RoundsToNearest(round) && CanPay(balances, user, inputs)
    requires forall c :: c in inputs ==> inputs[c] > 0.0
    requires forall c :: c in outputs ==> outputs[c] > 0.0
    requires forall b :: b in balances ==> balances[b] >= 0
    requires a in ConvertedBalances(round, balances, user, inputs, outputs)
    ensures ConvertedBalances(round, balances, user, inputs, outputs)[a] >= 0
    ensures ConvertedBalances(round, balances, user, inputs, outputs)[a] > 0 ==>
              Balance(balances, a) > 0 || (a.user == user && a.commodity in outputs)
  {
  }

  lemma ConversionKeepsCovered(round: Rounding, s: Ledger, user: UserId, inputs: map<CommodityId, real>,
                               outputs: map<CommodityId, real>, level: Traceability, group: GroupId, legs: Table, s': Ledger)
    requires RoundsToNearest(round) && Covered(s) && Extends(s, s')
    requires AddsConversion(s, user, inputs.Keys, outputs.Keys, group, level, legs, s')
    requires forall c :: c in inputs ==> inputs[c] > 0.0
    requires forall c :: c in outputs ==> outputs[c] > 0.0
    requires CanPay(s.balances, user, inputs) && s'.balances == ConvertedBalances(round, s.balances, user, inputs, outputs)
    ensures Covered(s')
  {
    forall a | a in s'.balances
      ensures s'.balances[a] >= 0 && (s'.balances[a] > 0 ==> Purchases(s'.txs, Some(a.user), {a.commodity}) != {})
    {
      ConvertedIsCovered(round, s.balances, user, inputs, outputs, a);
      if Balance(s.balances, a) > 0 {
        CoverPersists(s, s', a);
      } else if a.user == user && a.commodity in outputs {
        assert a.commodity in OutputCommodities(legs, Some(group));
        var i :| i in legs && IsOutputLeg(legs[i]) && legs[i].group == Some(group) && legs[i].commodity == a.commodity;
        assert LegOk(legs[i], group, user, level);
        assert i in Purchases(s'.txs, Some(user), {a.commodity});
      }
    }
  }

  lemma ConvertedKeepsCovered(round: Rounding, s: Ledger, user: UserId, inputs: map<CommodityId, real>,
                              outputs: map<CommodityId, real>, group: GroupId, inputIds: map<TransactionId, CommodityId>,
                              outputIds: map<TransactionId, CommodityId>, now: Time)
    requires RoundsToNearest(round) && Covered(s) && FreshLegs(s.txs, inputs, outputs, group, inputIds, outputIds)
    requires forall c :: c in inputs ==> inputs[c] > 0.0
    requires forall c :: c in outputs ==> outputs[c] > 0.0
    requires CanPay(s.balances, user, inputs)
    requires Extends(s, Converted(round, s, user, inputs, outputs, group, inputIds, outputIds, now))
    ensures Covered(Converted(round, s, user, inputs, outputs, group, inputIds, outputIds, now))
  {
    var level := ConversionTraceability(s.txs, user, inputs.Keys);
    ConvertedAddsConversion(round, s, user, inputs, outputs, group, inputIds, outputIds, now);
    ConversionKeepsCovered(round, s, user, inputs, outputs, level, group,
      AllLegs(round, user, inputs, outputs, level, group, inputIds, outputIds, now),
      Converted(round, s, user, inputs, outputs, group, inputIds, outputIds, now));
  }

  lemma UnchangedBalancesStayCovered(s: Ledger, s': Ledger)
    requires Covered(s) && Extends(s, s') && s'.balances == s.balances
    ensures Covered(s')
  {
    forall a | a in s'.balances && s'.balances[a] > 0 ensures Purchases(s'.txs, Some(a.user), {a.commodity}) != {} {
      CoverPersists(s, s', a);
    }
  }

  lemma StepKeepsCovered(round: Rounding, s: Ledger, e: Event, s': Ledger)
    requires RoundsToNearest(round) && Sound(round, e)
    requires Consistent(s) && Covered(s) && TradesArePositive(s)
    requires Fresh(s, e) && s' == Apply(round, s, e) && Extends(s, s')
    ensures Covered(s')
  {
    if s'.balances == s.balances {
      UnchangedBalancesStayCovered(s, s');
    } else {
      match e
      case CreateProducer(user, request, _, id, now) =>
        ProducedKeepsCovered(round, s, user, request, id, now);
      case Accept(user, id, automaticId, now) =>
        AcceptKeepsCovered(s, user, id, automaticId, now);
      case CreateConversion(user, request, group, inputIds, outputIds, now) =>
        var inputs, outputs := ConversionCase(round, s, e, s');
        ConvertedKeepsCovered(round, s, user, inputs, outputs, group, inputIds, outputIds, now);
    }
  }

  lemma AcceptAddsNoTrade(s: Ledger, id: TransactionId, automaticId: TransactionId, now: Time, i: TransactionId)
    requires id in s.txs && i in Settled(s, id, automaticId, now).txs && i !in s.txs
    ensures Settled(s, id, automaticId, now).txs[i].kind.Producer?
  {
  }

  lemma ConversionAddsNoTrade(s: Ledger, user: UserId, from: set<CommodityId>, to: set<CommodityId>, group: GroupId,
                              level: Traceability, legs: Table, s': Ledger, i: TransactionId)
    requires AddsConversion(s, user, from, to, group, level, legs, s') && i in s'.txs && i !in s.txs
    ensures i in legs && s'.txs[i].kind.Conversion?
  {
    assert LegOk(legs[i], group, user, level);
  }

  /** Sales enter the ledger through create_downstream only. */
  lemma NewTrade(round: Rounding, s: Ledger, e: Event, s': Ledger, i: TransactionId)
    requires Fresh(s, e) && s' == Apply(round, s, e)
    requires i in s'.txs && i !in s.txs && s'.txs[i].kind.Downstream?
    ensures e.CreateDownstream? && s'.txs[i].volume == round(e.downstream.volume)
  {
    match e
    case CreateDownstream(_, _, _, _, _, _, _) =>
    case CreateProducer(_, _, _, _, _) =>
    case Accept(_, id, automaticId, now) => AcceptAddsNoTrade(s, id, automaticId, now, i);
    case CreateConversion(user, request, group, inputIds, outputIds, now) =>
      var plan := PlanConversion(s.balances, user, request);
      var level := ConversionTraceability(s.txs, user, plan.inputs.Keys);
      ConvertedAddsConversion(round, s, user, plan.inputs, plan.outputs, group, inputIds, outputIds, now);
      ConversionAddsNoTrade(s, user, plan.inputs.Keys, plan.outputs.Keys, group, level,
        AllLegs(round, user, plan.inputs, plan.outputs, level, group, inputIds, outputIds, now), s', i);
  }

  lemma StepKeepsTradesPositive(round: Rounding, s: Ledger, e: Event, s': Ledger)
    requires Sound(round, e) && TradesArePositive(s)
    requires Fresh(s, e) && s' == Apply(round, s, e) && Extends(s, s')
    ensures TradesArePositive(s')
  {
    forall i | i in s'.txs && s'.txs[i].kind.Downstream? ensures s'.txs[i].volume > 0 {
      if i in s.txs {
        assert Preserved(s.txs[i], s'.txs[i]);
      } else {
        NewTrade(round, s, e, s', i);
      }
    }
  }

  /** A sound conversion consumes something, so its legs have parents. */
  lemma PlannedInputsArePositive(s: Ledger, user: UserId, request: ConversionRequest)
    requires PlanConversion(s.balances, user, request).Planned?
    requires forall c :: c in request.recipe.value.inputs ==>
               Quantity(request.recipe.value.inputs, request.inputOverrides, c) >= 0.0
    ensures var inputs := PlanConversion(s.balances, user, request).inputs; exists c :: c in inputs && inputs[c] > 0.0
  {
    var recipe := request.recipe.value;
    var c :| c in recipe.inputs && Quantity(recipe.inputs, request.inputOverrides, c) != 0.0;
    assert c in PlanConversion(s.balances, user, request).inputs;
  }

  lemma AcceptedSaleIsGrounded(s: Ledger, user: UserId, id: TransactionId, automaticId: TransactionId, now: Time)
    requires Consistent(s) && Covered(s) && TradesArePositive(s)
    requires automaticId !in s.txs && IsIncoming(s.txs, user, id, now, false)
    ensures GroundedAt(Settled(s, id, automaticId, now), id)
  {
    var t := s.txs[id];
    AcceptedByTheOtherParty(s.txs, user, id, now);
    AcceptIsGroundedIff(s, user, id, automaticId, now);
    if Shortfall(s.balances, t) == 0 {
      assert Balance(s.balances, Account(t.seller.value, t.commodity)) > 0;
    }
  }

  lemma ConvertedLegsAreGrounded(round: Rounding, s: Ledger, user: UserId, inputs: map<CommodityId, real>,
                                 outputs: map<CommodityId, real>, group: GroupId, inputIds: map<TransactionId, CommodityId>,
                                 outputIds: map<TransactionId, CommodityId>, now: Time, i: TransactionId)
    requires Consistent(s) && Covered(s) && FreshLegs(s.txs, inputs, outputs, group, inputIds, outputIds)
    requires CanPay(s.balances, user, inputs) && exists c :: c in inputs && inputs[c] > 0.0
    requires i in inputIds || i in outputIds
    ensures GroundedAt(Converted(round, s, user, inputs, outputs, group, inputIds, outputIds, now), i)
  {
    var level := ConversionTraceability(s.txs, user, inputs.Keys);
    ConvertedAddsConversion(round, s, user, inputs, outputs, group, inputIds, outputIds, now);
    PaidInputsWereBought(s, user, inputs);
    ConversionIsGroundedIff(s, user, inputs.Keys, outputs.Keys, group,
      AllLegs(round, user, inputs, outputs, level, group, inputIds, outputIds, now),
      Converted(round, s, user, inputs, outputs, group, inputIds, outputIds, now), i);
  }

  lemma ConversionStepGrounds(round: Rounding, s: Ledger, e: Event, s': Ledger, i: TransactionId)
    requires e.CreateConversion? && Sound(round, e) && Consistent(s) && Covered(s)
    requires Fresh(s, e) && s' == Apply(round, s, e) && i in s'.acceptedAt && i !in s.acceptedAt
    ensures GroundedAt(s', i)
  {
    var inputs, outputs := ConversionCase(round, s, e, s');
    PlannedInputsArePositive(s, e.user, e.conversion);
    ConvertedLegsAreGrounded(round, s, e.user, inputs, outputs, e.group, e.inputIds, e.outputIds, e.now, i);
  }

  /** Apart from producers, a step accepts the sale it was asked to accept, or conversion legs. */
  lemma NewlyAccepted(round: Rounding, s: Ledger, e: Event, s': Ledger, i: TransactionId)
    requires Fresh(s, e) && s' == Apply(round, s, e)
    requires i in s'.acceptedAt && i in s'.txs && i !in s.acceptedAt && !s'.txs[i].kind.Producer?
    ensures e.CreateConversion? || (e.Accept? && i == e.id && IsIncoming(s.txs, e.user, e.id, e.now, false)
                                    && s' == Settled(s, e.id, e.automaticId, e.now))
  {
  }

  lemma StepKeepsSourced(round: Rounding, s: Ledger, e: Event, s': Ledger)
    requires RoundsToNearest(round) && Sound(round, e)
    requires Consistent(s) && Sourced(s) && Fresh(s, e) && s' == Apply(round, s, e)
    ensures Sourced(s')
  {
    StepKeepsConsistent(round, s, e, s');
    StepKeepsCovered(round, s, e, s');
    StepKeepsTradesPositive(round, s, e, s');
    forall i | i in s'.acceptedAt && i in s'.txs && !s'.txs[i].kind.Producer? ensures GroundedAt(s', i) {
      if i in s.acceptedAt {
        assert Preserved(s.txs[i], s'.txs[i]);
        GroundedPersists(s, s', i);
      } else {
        NewlyAccepted(round, s, e, s', i);
        if e.CreateConversion? {
          ConversionStepGrounds(round, s, e, s', i);
        } else {
          AcceptedSaleIsGrounded(s, e.user, e.id, e.automaticId, e.now);
        }
      }
    }
  }

  ghost predicate SoundRun(round: Rounding, events: seq<Event>) {
    RoundsToNearest(round) && forall k :: 0 <= k < |events| ==> Sound(round, events[k])
  }

  lemma {:induction false} RunIsSourced(round: Rounding, events: seq<Event>, states: seq<Ledger>, n: nat)
    requires IsRun(round, events, states) && SoundRun(round, events) && n <= |events|
    ensures Sourced(states[n])
    decreases n
  {
    if n > 0 {
      StepOfRun(round, events, states, n - 1);
      RunIsSourced(round, events, states, n - 1);
      StepKeepsSourced(round, states[n - 1], events[n - 1], states[n]);
    }
  }
}
