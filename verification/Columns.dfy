/** What every operation does to the columns of the two tables, spelled out: who may call it,
    when it refuses, what it writes and what it leaves alone. */
module Columns {
  import opened Domain
  import opened Mappers
  import opened Ledgers
  import opened Lifecycle
  import opened Conservation
  import opened Decisions

  // ---- create_producer ----

  /** Production is stored for an existing commodity only, accepted at once, at the level its
      evidence gives, with the location and the coordinates of the request. */
  lemma ProductionOnColumns(round: Rounding, s: Ledger, e: Event, s': Ledger)
    requires e.CreateProducer? && Fresh(s, e) && s' == Apply(round, s, e)
    ensures !e.commodityExists ==> s' == s
    ensures e.commodityExists ==>
              && e.id in s'.txs && s'.txs == s.txs[e.id := s'.txs[e.id]]
              && s'.balances == s.balances[Account(e.user, e.producer.commodity) :=
                                             s'.balances[Account(e.user, e.producer.commodity)]]
    ensures e.commodityExists ==>
              var t, request := s'.txs[e.id], e.producer;
              && t.kind == Producer && t.status == Accepted && t.expiresAt == None && t.group == None
              && t.commodity == request.commodity && t.volume == round(request.volume)
              && t.seller == None && t.buyer == Some(e.user) && t.createdBy == e.user
              && t.createdAt == e.now && t.season == None && !t.isAutomatic
              && t.location == request.location && t.isBuyingFromFarmer == request.isBuyingFromFarmer
              && t.farmLatitude == request.farmLatitude && t.farmLongitude == request.farmLongitude
    ensures e.commodityExists ==>
              var level, request := s'.txs[e.id].traceability, e.producer;
              && (level == Some(Full) <==> request.location in {Some(Qr), Some(Gps)})
              && (level == Some(Conditional) <==> request.location in {Some(Manual), Some(File)})
              && (level == Some(Partial) <==> request.location == None && request.isBuyingFromFarmer)
              && (level == Some(Incomplete) <==> request.location == None && !request.isBuyingFromFarmer)
  {
  }

  // ---- create_downstream ----

  /** A proposal needs an existing commodity and a recipient, if one is named, who is known and is
      not the user. It is pending, on the side that the action says, until its lifetime ends, and
      moves no balance. */
  lemma ProposalOnColumns(round: Rounding, s: Ledger, e: Event, s': Ledger)
    requires e.CreateDownstream? && Fresh(s, e) && s' == Apply(round, s, e)
    ensures s' != s <==> e.commodityExists && e.recipient != Unknown && e.recipient != Known(Some(e.user))
    ensures s' != s ==>
              && e.id in s'.txs && s'.txs == s.txs[e.id := s'.txs[e.id]] && s'.balances == s.balances
              && var t, request := s'.txs[e.id], e.downstream;
                 && t.kind == Downstream && t.status == Pending && t.expiresAt == Some(e.now + e.lifetime)
                 && t.group == None && t.traceability == None
                 && t.commodity == request.commodity && t.volume == round(request.volume)
                 && (request.action == Selling ==> t.seller == Some(e.user) && t.buyer == e.recipient.user)
                 && (request.action == Buying ==> t.buyer == Some(e.user) && t.seller == e.recipient.user)
                 && t.createdBy == e.user && t.createdAt == e.now && t.season == None
                 && t.location == None && t.farmLatitude == None && t.farmLongitude == None
                 && !t.isBuyingFromFarmer && !t.isAutomatic
  {
    assert e.id !in s.txs;
  }

  // ---- accept and reject ----

  /** Accepting goes through exactly for a pending sale, up to its deadline, on behalf of the party
      that did not create it. */
  lemma AcceptanceOnColumns(round: Rounding, s: Ledger, e: Event, s': Ledger)
    requires Consistent(s) && e.Accept? && Fresh(s, e) && s' == Apply(round, s, e)
    ensures s' != s <==>
              && e.id in s.txs && s.txs[e.id].kind == Downstream && s.txs[e.id].status == Pending
              && (s.txs[e.id].buyer == Some(e.user) || s.txs[e.id].seller == Some(e.user))
              && s.txs[e.id].createdBy != e.user
              && s.txs[e.id].expiresAt != None && e.now <= s.txs[e.id].expiresAt.value
    ensures s' != s ==> e.id in s'.txs && s'.txs[e.id].status == Accepted
  {
    if e.id in s.txs {
      assert RowOk(s.txs[e.id]);
    }
    if IsIncoming(s.txs, e.user, e.id, e.now, false) {
      AcceptCreatesOnlyShortfall(s, e.user, e.id, e.automaticId, e.now, s');
    }
  }

  /** Rejecting goes through exactly for a pending sale, up to its deadline, on behalf of either
      party, its creator included. It clears the deadline and changes nothing else. */
  lemma RejectionOnColumns(round: Rounding, s: Ledger, e: Event, s': Ledger)
    requires Consistent(s) && e.Reject? && s' == Apply(round, s, e)
    ensures s' != s <==>
              && e.id in s.txs && s.txs[e.id].kind == Downstream && s.txs[e.id].status == Pending
              && (s.txs[e.id].buyer == Some(e.user) || s.txs[e.id].seller == Some(e.user))
              && s.txs[e.id].expiresAt != None && e.now <= s.txs[e.id].expiresAt.value
    ensures s' != s ==> s' == s.(txs := s.txs[e.id := s.txs[e.id].(status := Rejected, expiresAt := None)])
  {
    if e.id in s.txs {
      assert RowOk(s.txs[e.id]);
      assert s' != s ==> s'.txs[e.id].status == Rejected;
    }
  }

  // ---- update_geodata and expiry ----

  /** Either party of a transaction, and nobody else, can set its location, once the upload worked. */
  lemma GeodataOnColumns(round: Rounding, s: Ledger, e: Event, s': Ledger)
    requires e.UpdateGeodata? && s' == Apply(round, s, e)
    ensures (e.id in s.txs && (s.txs[e.id].buyer == Some(e.user) || s.txs[e.id].seller == Some(e.user)) && e.uploaded) ==>
              s' == s.(txs := s.txs[e.id := s.txs[e.id].(location := Some(e.location))])
    ensures !(e.id in s.txs && (s.txs[e.id].buyer == Some(e.user) || s.txs[e.id].seller == Some(e.user)) && e.uploaded) ==>
              s' == s
  {
  }

  /** The expiry job closes every row whose deadline has come, and no other. */
  lemma ExpiryOnColumns(round: Rounding, s: Ledger, e: Event, s': Ledger, i: TransactionId)
    requires e.Expire? && s' == Apply(round, s, e) && i in s.txs
    ensures s' == s.(txs := s'.txs) && s'.txs.Keys == s.txs.Keys
    ensures s'.txs[i] ==
              if s.txs[i].expiresAt != None && s.txs[i].expiresAt.value <= e.now
              then s.txs[i].(status := NoResponse, expiresAt := None)
              else s.txs[i]
  {
  }

  // ---- create_conversion ----

  /** The overrides name commodities of the recipe only. */
  lemma RecipeRefusals(balances: Balances, user: UserId, request: ConversionRequest, plan: Plan)
    requires plan == PlanConversion(balances, user, request)
    ensures plan == Refused(RecipeNotFound) <==> request.recipe == None
    ensures plan == Refused(InvalidRecipeOverride) <==>
              request.recipe != None
              && ((exists c :: c in request.inputOverrides && c !in request.recipe.value.inputs)
                  || (exists c :: c in request.outputOverrides && c !in request.recipe.value.outputs))
  {
    if request.recipe != None {
      var recipe := request.recipe.value;
      assert request.inputOverrides.Keys <= recipe.inputs.Keys <==>
             !exists c :: c in request.inputOverrides && c !in recipe.inputs;
      assert request.outputOverrides.Keys <= recipe.outputs.Keys <==>
             !exists c :: c in request.outputOverrides && c !in recipe.outputs;
    }
  }

  /** The quantity of one commodity of a recipe side: the override if there is one. */
  lemma QuantityOnColumns(base: map<CommodityId, real>, overrides: map<CommodityId, real>, c: CommodityId)
    requires c in base
    ensures c in overrides ==> Quantity(base, overrides, c) == overrides[c]
    ensures c !in overrides ==> Quantity(base, overrides, c) == base[c]
    ensures c in Effective(base, overrides) <==> (if c in overrides then overrides[c] else base[c]) > 0.0
    ensures c in Effective(base, overrides) ==> Effective(base, overrides)[c] == if c in overrides then overrides[c] else base[c]
  {
  }

  /** With a recipe and valid overrides, a conversion is refused when every input is zero, and
      otherwise exactly when some positive input has no balance row or exceeds it. */
  lemma QuantityRefusals(balances: Balances, user: UserId, request: ConversionRequest, recipe: Recipe, plan: Plan)
    requires plan == PlanConversion(balances, user, request) && request.recipe == Some(recipe)
    requires forall c :: c in request.inputOverrides ==> c in recipe.inputs
    requires forall c :: c in request.outputOverrides ==> c in recipe.outputs
    ensures plan == Refused(AtLeastOneInputRequired) <==>
              forall c :: c in recipe.inputs ==>
                (if c in request.inputOverrides then request.inputOverrides[c] else recipe.inputs[c]) == 0.0
    ensures plan == Refused(InsufficientBalance) <==>
              && (exists c :: c in recipe.inputs
                    && (if c in request.inputOverrides then request.inputOverrides[c] else recipe.inputs[c]) != 0.0)
              && (exists c :: c in recipe.inputs
                    && var q := if c in request.inputOverrides then request.inputOverrides[c] else recipe.inputs[c];
                       q > 0.0 && (Account(user, c) !in balances || 100.0 * q > balances[Account(user, c)] as real))
  {
    var inputs := Effective(recipe.inputs, request.inputOverrides);
    forall c | c in recipe.inputs
      ensures c in inputs <==> (if c in request.inputOverrides then request.inputOverrides[c] else recipe.inputs[c]) > 0.0
    {
      QuantityOnColumns(recipe.inputs, request.inputOverrides, c);
    }
    assert AllZero(recipe.inputs, request.inputOverrides) <==>
           forall c :: c in recipe.inputs ==> Quantity(recipe.inputs, request.inputOverrides, c) == 0.0;
    UnpayableIff(balances, user, inputs);
  }

  lemma UnpayableIff(balances: Balances, user: UserId, inputs: map<CommodityId, real>)
    ensures CanPay(balances, user, inputs) <==>
              forall c :: c in inputs ==> Account(user, c) in balances && 100.0 * inputs[c] <= balances[Account(user, c)] as real
  {
    forall c | c in inputs && Account(user, c) in balances
      ensures ToReal(balances[Account(user, c)]) >= inputs[c] <==> 100.0 * inputs[c] <= balances[Account(user, c)] as real
    {
    }
  }

  /** A conversion that is not refused consumes and produces the positive quantities, overridden ones
      first, and nothing else. */
  lemma PlanOnColumns(balances: Balances, user: UserId, request: ConversionRequest, recipe: Recipe, plan: Plan, c: CommodityId)
    requires plan == PlanConversion(balances, user, request) && plan.Planned? && request.recipe == Some(recipe)
    ensures c in plan.inputs <==>
              c in recipe.inputs && (if c in request.inputOverrides then request.inputOverrides[c] else recipe.inputs[c]) > 0.0
    ensures c in plan.inputs ==>
              plan.inputs[c] == if c in request.inputOverrides then request.inputOverrides[c] else recipe.inputs[c]
    ensures c in plan.outputs <==>
              c in recipe.outputs && (if c in request.outputOverrides then request.outputOverrides[c] else recipe.outputs[c]) > 0.0
    ensures c in plan.outputs ==>
              plan.outputs[c] == if c in request.outputOverrides then request.outputOverrides[c] else recipe.outputs[c]
  {
    if c in recipe.inputs {
      QuantityOnColumns(recipe.inputs, request.inputOverrides, c);
    }
    if c in recipe.outputs {
      QuantityOnColumns(recipe.outputs, request.outputOverrides, c);
    }
  }

  /** One leg of a conversion, column by column. */
  ghost predicate IsLeg(t: Transaction, user: UserId, group: GroupId, c: CommodityId, volume: int, isInput: bool, now: Time) {
    && t.kind == Conversion && t.group == Some(group) && t.status == Accepted && t.traceability != None
    && t.commodity == c && t.volume == volume
    && t.seller == (if isInput then Some(user) else None) && t.buyer == (if isInput then None else Some(user))
    && t.createdBy == user && t.createdAt == now && t.season == None && t.expiresAt == None
    && t.location == None && t.farmLatitude == None && t.farmLongitude == None
    && !t.isBuyingFromFarmer && !t.isAutomatic
  }

  lemma LegOnColumns(round: Rounding, user: UserId, quantities: map<CommodityId, real>, ids: map<TransactionId, CommodityId>,
                     level: Traceability, isInput: bool, group: GroupId, now: Time, i: TransactionId)
    requires IdsFor(ids, quantities) && i in ids
    ensures ids[i] in quantities
    ensures IsLeg(Legs(round, user, quantities, ids, level, isInput, group, now)[i], user, group, ids[i],
                  round(if isInput then -quantities[ids[i]] else quantities[ids[i]]), isInput, now)
  {
    assert ids[i] in ids.Values;
  }

  lemma ConvertedRow(round: Rounding, s: Ledger, user: UserId, inputs: map<CommodityId, real>, outputs: map<CommodityId, real>,
                     group: GroupId, inputIds: map<TransactionId, CommodityId>, outputIds: map<TransactionId, CommodityId>,
                     now: Time, s': Ledger, i: TransactionId)
    requires FreshLegs(s.txs, inputs, outputs, group, inputIds, outputIds)
    requires s' == Converted(round, s, user, inputs, outputs, group, inputIds, outputIds, now)
    ensures i in s'.txs <==> i in s.txs || i in inputIds || i in outputIds
    ensures i in s.txs ==> s'.txs[i] == s.txs[i]
    ensures i in inputIds ==>
              inputIds[i] in inputs && IsLeg(s'.txs[i], user, group, inputIds[i], round(-inputs[inputIds[i]]), true, now)
    ensures i in outputIds ==>
              outputIds[i] in outputs && IsLeg(s'.txs[i], user, group, outputIds[i], round(outputs[outputIds[i]]), false, now)
  {
    var level := ConversionTraceability(s.txs, user, inputs.Keys);
    if i in inputIds {
      LegOnColumns(round, user, inputs, inputIds, level, true, group, now, i);
    } else if i in outputIds {
      LegOnColumns(round, user, outputs, outputIds, level, false, group, now, i);
    }
  }

  /** The rows of a conversion: a leg for every quantity under its fresh id, inputs negative and on
      the selling side, outputs positive and on the buying side; older rows stay. */
  lemma ConversionRowsOnColumns(round: Rounding, s: Ledger, e: Event, s': Ledger, plan: Plan, i: TransactionId)
    requires e.CreateConversion? && Fresh(s, e) && s' == Apply(round, s, e)
    requires plan == PlanConversion(s.balances, e.user, e.conversion) && plan.Planned?
    ensures e.inputIds.Values == plan.inputs.Keys && e.outputIds.Values == plan.outputs.Keys
    ensures i in s'.txs <==> i in s.txs || i in e.inputIds || i in e.outputIds
    ensures i in s.txs ==> s'.txs[i] == s.txs[i]
    ensures i in e.inputIds ==>
              e.inputIds[i] in plan.inputs
              && IsLeg(s'.txs[i], e.user, e.group, e.inputIds[i], round(-plan.inputs[e.inputIds[i]]), true, e.now)
    ensures i in e.outputIds ==>
              e.outputIds[i] in plan.outputs
              && IsLeg(s'.txs[i], e.user, e.group, e.outputIds[i], round(plan.outputs[e.outputIds[i]]), false, e.now)
  {
    ConversionStep(round, s, e);
    ConvertedRow(round, s, e.user, plan.inputs, plan.outputs, e.group, e.inputIds, e.outputIds, e.now, s', i);
  }

  /** One balance after a conversion: debited for an input, credited for any other output, and
      otherwise untouched. */
  ghost predicate IsConvertedBalance(round: Rounding, balances: Balances, user: UserId, inputs: map<CommodityId, real>,
                                     outputs: map<CommodityId, real>, balances': Balances, a: Account)
  {
    if a.user == user && a.commodity in inputs then
      a in balances && a in balances' && balances'[a] == round(ToReal(balances[a]) + -inputs[a.commodity])
    else if a.user == user && a.commodity in outputs then
      a in balances' && balances'[a] == round(ToReal(if a in balances then balances[a] else 0) + outputs[a.commodity])
    else
      (a in balances' <==> a in balances) && (a in balances ==> balances'[a] == balances[a])
  }

  lemma ConvertedBalanceOnColumns(round: Rounding, balances: Balances, user: UserId, inputs: map<CommodityId, real>,
                                  outputs: map<CommodityId, real>, balances': Balances, a: Account)
    requires CanPay(balances, user, inputs) && balances' == ConvertedBalances(round, balances, user, inputs, outputs)
    ensures IsConvertedBalance(round, balances, user, inputs, outputs, balances', a)
  {
    assert a.user == user ==> a == Account(user, a.commodity);
    ConvertedBalance(round, balances, user, inputs, outputs, a);
  }

  lemma ConversionBalancesOnColumns(round: Rounding, s: Ledger, e: Event, s': Ledger, plan: Plan, a: Account)
    requires e.CreateConversion? && Fresh(s, e) && s' == Apply(round, s, e)
    requires plan == PlanConversion(s.balances, e.user, e.conversion) && plan.Planned?
    ensures IsConvertedBalance(round, s.balances, e.user, plan.inputs, plan.outputs, s'.balances, a)
  {
    ConversionStep(round, s, e);
    ConvertedBalanceOnColumns(round, s.balances, e.user, plan.inputs, plan.outputs, s'.balances, a);
  }

  /** A conversion may consume a whole balance: when every positive input is covered, be it exactly,
      it goes through, and an input equal to its balance leaves zero. */
  lemma WholeBalanceConverts(round: Rounding, s: Ledger, e: Event, s': Ledger, recipe: Recipe, c: CommodityId)
    requires RoundsToNearest(round) && e.CreateConversion? && Fresh(s, e) && s' == Apply(round, s, e)
    requires e.conversion.recipe == Some(recipe)
    requires forall d :: d in e.conversion.inputOverrides ==> d in recipe.inputs
    requires forall d :: d in e.conversion.outputOverrides ==> d in recipe.outputs
    requires forall d :: d in recipe.inputs ==>
               var q := if d in e.conversion.inputOverrides then e.conversion.inputOverrides[d] else recipe.inputs[d];
               q > 0.0 ==> Account(e.user, d) in s.balances && 100.0 * q <= s.balances[Account(e.user, d)] as real
    requires c in recipe.inputs && Account(e.user, c) in s.balances
    requires var q := if c in e.conversion.inputOverrides then e.conversion.inputOverrides[c] else recipe.inputs[c];
             q > 0.0 && 100.0 * q == s.balances[Account(e.user, c)] as real
    ensures exists i :: i in e.inputIds && e.inputIds[i] == c && i in s'.txs && s'.txs[i].status == Accepted
    ensures Account(e.user, c) in s'.balances && s'.balances[Account(e.user, c)] == 0
  {
    var plan := PlanConversion(s.balances, e.user, e.conversion);
    CoveredIsPlanned(s.balances, e.user, e.conversion, recipe, c);
    PlanOnColumns(s.balances, e.user, e.conversion, recipe, plan, c);
    PlannedWholeBalance(round, s, e, s', plan, c);
  }

  lemma PlannedWholeBalance(round: Rounding, s: Ledger, e: Event, s': Ledger, plan: Plan, c: CommodityId)
    requires RoundsToNearest(round) && e.CreateConversion? && Fresh(s, e) && s' == Apply(round, s, e)
    requires plan == PlanConversion(s.balances, e.user, e.conversion) && plan.Planned?
    requires c in plan.inputs && Account(e.user, c) in s.balances
    requires 100.0 * plan.inputs[c] == s.balances[Account(e.user, c)] as real
    ensures exists i :: i in e.inputIds && e.inputIds[i] == c && i in s'.txs && s'.txs[i].status == Accepted
    ensures Account(e.user, c) in s'.balances && s'.balances[Account(e.user, c)] == 0
  {
    PlannedInputHasLeg(round, s, e, s', plan, c);
    ConversionBalancesOnColumns(round, s, e, s', plan, Account(e.user, c));
    RoundsZero(round, s.balances[Account(e.user, c)], plan.inputs[c]);
  }

  lemma PlannedInputHasLeg(round: Rounding, s: Ledger, e: Event, s': Ledger, plan: Plan, c: CommodityId)
    requires e.CreateConversion? && Fresh(s, e) && s' == Apply(round, s, e)
    requires plan == PlanConversion(s.balances, e.user, e.conversion) && plan.Planned? && c in plan.inputs
    ensures exists i :: i in e.inputIds && e.inputIds[i] == c && i in s'.txs && s'.txs[i].status == Accepted
  {
    ConversionStep(round, s, e);
    assert c in e.inputIds.Values;
    var i :| i in e.inputIds && e.inputIds[i] == c;
    ConversionRowsOnColumns(round, s, e, s', plan, i);
  }

  lemma RoundsZero(round: Rounding, balance: int, x: real)
    requires RoundsToNearest(round) && 100.0 * x == balance as real
    ensures round(ToReal(balance) + -x) == 0
  {
    assert ToReal(balance) + -x == 0.0;
    assert -0.5 <= round(0.0) as real - 100.0 * 0.0 <= 0.5;
  }

  lemma CoveredIsPlanned(balances: Balances, user: UserId, request: ConversionRequest, recipe: Recipe, c: CommodityId)
    requires request.recipe == Some(recipe)
    requires forall d :: d in request.inputOverrides ==> d in recipe.inputs
    requires forall d :: d in request.outputOverrides ==> d in recipe.outputs
    requires forall d :: d in recipe.inputs ==>
               var q := if d in request.inputOverrides then request.inputOverrides[d] else recipe.inputs[d];
               q > 0.0 ==> Account(user, d) in balances && 100.0 * q <= balances[Account(user, d)] as real
    requires c in recipe.inputs && (if c in request.inputOverrides then request.inputOverrides[c] else recipe.inputs[c]) > 0.0
    ensures PlanConversion(balances, user, request).Planned?
  {
    var plan := PlanConversion(balances, user, request);
    RecipeRefusals(balances, user, request, plan);
    QuantityRefusals(balances, user, request, recipe, plan);
  }

  // ---- levels ----

  /** The level of a conversion, on columns: the lowest stored by what the user bought of its inputs,
      incomplete if nothing was. */
  lemma ConversionLevelOnColumns(txs: Table, user: UserId, commodities: set<CommodityId>, level: Traceability)
    requires level == ConversionTraceability(txs, user, commodities)
    ensures forall i :: (i in txs && txs[i].status == Accepted && txs[i].buyer == Some(user) && txs[i].commodity in commodities
                         && txs[i].traceability != None) ==> !txs[i].traceability.value.Below(level)
    ensures || (exists i :: i in txs && txs[i].status == Accepted && txs[i].buyer == Some(user)
                            && txs[i].commodity in commodities && txs[i].traceability == Some(level))
            || (level == Incomplete
                && !exists i :: i in txs && txs[i].status == Accepted && txs[i].buyer == Some(user)
                                && txs[i].commodity in commodities && txs[i].traceability != None)
  {
    var levels := Levels(txs, Purchases(txs, Some(user), commodities));
    assert forall i :: (i in txs && txs[i].status == Accepted && txs[i].buyer == Some(user) && txs[i].commodity in commodities
                        && txs[i].traceability != None) ==> i in Purchases(txs, Some(user), commodities)
                                                            && txs[i].traceability.value in levels;
    if levels != {} {
      assert level in levels;
      var i :| i in Purchases(txs, Some(user), commodities) && i in txs && txs[i].traceability.Some? && txs[i].traceability.value == level;
      assert txs[i].traceability == Some(level);
    }
  }

  /** The level of an accepted sale, likewise, over what its seller bought of the commodity. */
  lemma SaleLevelOnColumns(txs: Table, seller: UserId, commodity: CommodityId, level: Traceability)
    requires DownstreamTraceability(txs, Some(seller), commodity) == Some(level)
    ensures forall i :: (i in txs && txs[i].status == Accepted && txs[i].buyer == Some(seller) && txs[i].commodity == commodity
                         && txs[i].traceability != None) ==> !txs[i].traceability.value.Below(level)
    ensures || (exists i :: i in txs && txs[i].status == Accepted && txs[i].buyer == Some(seller)
                            && txs[i].commodity == commodity && txs[i].traceability == Some(level))
            || (level == Incomplete
                && !exists i :: i in txs && txs[i].status == Accepted && txs[i].buyer == Some(seller) && txs[i].commodity == commodity)
  {
    var purchases := Purchases(txs, Some(seller), {commodity});
    assert forall i :: (i in txs && txs[i].status == Accepted && txs[i].buyer == Some(seller) && txs[i].commodity == commodity)
                         ==> i in purchases;
    if purchases != {} {
      assert level in Levels(txs, purchases);
      var i :| i in purchases && i in txs && txs[i].traceability.Some? && txs[i].traceability.value == level;
      assert txs[i].traceability == Some(level);
    } else {
      assert forall i :: i !in purchases;
    }
  }
}
