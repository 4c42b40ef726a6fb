/** The loops of create_conversion: its level, its balance rows and its transaction rows. */
module Conversions {
  import opened Domain
  import opened Mappers
  import opened Ledgers

  // ---- the level of a conversion ----

  /** The levels stored by the purchases of one commodity. */
  function LevelsOf(txs: Table, user: UserId, c: CommodityId): set<Traceability> {
    Levels(txs, Purchases(txs, Some(user), {c}))
  }

  /** The minimum of every group that is not empty. */
  function Minima(txs: Table, user: UserId, commodities: set<CommodityId>): set<Traceability> {
    set c | c in commodities && LevelsOf(txs, user, c) != {} :: Lowest(LevelsOf(txs, user, c))
  }

  lemma LevelsByCommodity(txs: Table, user: UserId, commodities: set<CommodityId>, level: Traceability)
    ensures level in Levels(txs, Purchases(txs, Some(user), commodities))
            <==> exists c :: c in commodities && level in LevelsOf(txs, user, c)
  {
    if level in Levels(txs, Purchases(txs, Some(user), commodities)) {
      var i :| i in Purchases(txs, Some(user), commodities) && txs[i].traceability == Some(level);
      assert i in Purchases(txs, Some(user), {txs[i].commodity});
      assert level in LevelsOf(txs, user, txs[i].commodity);
    }
    if c :| c in commodities && level in LevelsOf(txs, user, c) {
      var i :| i in Purchases(txs, Some(user), {c}) && txs[i].traceability == Some(level);
      assert i in Purchases(txs, Some(user), commodities);
    }
  }

  /** The minimum of the minima is the minimum over all purchases at once. */
  lemma MinimumOfMinima(txs: Table, user: UserId, commodities: set<CommodityId>)
    ensures ConversionTraceability(txs, user, commodities) ==
              var minima := Minima(txs, user, commodities);
              if minima == {} then Incomplete else Lowest(minima)
  {
    var minima := Minima(txs, user, commodities);
    var levels := Levels(txs, Purchases(txs, Some(user), commodities));
    forall c | c in commodities && LevelsOf(txs, user, c) != {} ensures Lowest(LevelsOf(txs, user, c)) in levels {
      LevelsByCommodity(txs, user, commodities, Lowest(LevelsOf(txs, user, c)));
    }
    forall l | l in levels ensures exists m :: m in minima && !l.Below(m) {
      LevelsByCommodity(txs, user, commodities, l);
      var c :| c in commodities && l in LevelsOf(txs, user, c);
      assert Lowest(LevelsOf(txs, user, c)) in minima;
    }
    if levels != {} {
      assert minima != {};
      LowestIsUnique(levels, Lowest(minima));
    }
  }

  /** `defaultdict(list)`, lists as sets: repetitions do not matter to a minimum. */
  function Group(grouped: map<CommodityId, set<Traceability>>, c: CommodityId): set<Traceability> {
    if c in grouped then grouped[c] else {}
  }

  function OfCommodity(txs: Table, ids: set<TransactionId>, c: CommodityId): set<TransactionId> {
    set j | j in ids && j in txs && txs[j].commodity == c
  }

  method GroupLevels(txs: Table, user: UserId, commodities: set<CommodityId>)
    returns (grouped: map<CommodityId, set<Traceability>>)
    ensures forall c :: c in commodities ==> Group(grouped, c) == LevelsOf(txs, user, c)
  {
    var rows := set i | i in Purchases(txs, Some(user), commodities) && txs[i].traceability.Some?;
    ghost var all := rows;
    grouped := map[];
    while rows != {}
      invariant rows <= all
      invariant forall c :: Group(grouped, c) == Levels(txs, OfCommodity(txs, all - rows, c))
      decreases rows
    {
      var i :| i in rows;
      var c, l := txs[i].commodity, txs[i].traceability.value;
      ghost var done := all - rows;
      rows := rows - {i};
      grouped := grouped[c := Group(grouped, c) + {l}];
      assert all - rows == done + {i};
      assert OfCommodity(txs, done + {i}, c) == OfCommodity(txs, done, c) + {i};
      assert Levels(txs, OfCommodity(txs, done, c) + {i}) == Levels(txs, OfCommodity(txs, done, c)) + {l};
      assert forall d :: d != c ==> OfCommodity(txs, done + {i}, d) == OfCommodity(txs, done, d);
    }
    forall c | c in commodities ensures Group(grouped, c) == LevelsOf(txs, user, c) {
      assert all - rows == all;
      assert OfCommodity(txs, all, c) == set j | j in Purchases(txs, Some(user), {c}) && txs[j].traceability.Some?;
      assert Levels(txs, OfCommodity(txs, all, c)) == LevelsOf(txs, user, c);
    }
  }

  /** Groups the purchases by commodity, takes the minimum of each group and then the minimum
      of the minima. */
  method GetConversionTraceability(txs: Table, user: UserId, commodities: set<CommodityId>) returns (level: Traceability)
    ensures level == ConversionTraceability(txs, user, commodities)
  {
    var grouped := GroupLevels(txs, user, commodities);
    var minima: set<Traceability> := {};
    var remaining := commodities;
    while remaining != {}
      invariant remaining <= commodities
      invariant minima == Minima(txs, user, commodities - remaining)
      decreases remaining
    {
      var c :| c in remaining;
      ghost var done := commodities - remaining;
      remaining := remaining - {c};
      var levels := Group(grouped, c);
      assert commodities - remaining == done + {c};
      assert Minima(txs, user, done + {c}) == Minima(txs, user, done) + if levels != {} then {Lowest(levels)} else {};
      if levels != {} {
        minima := minima + {Lowest(levels)};
      }
    }
    assert commodities - remaining == commodities;
    MinimumOfMinima(txs, user, commodities);
    level := if minima == {} then Incomplete else Lowest(minima);
  }

  // ---- the two sides of a conversion ----

  function Moved(round: Rounding, balances: Balances, a: Account, volume: real, isInput: bool): int {
    if isInput then round(ToReal(Balance(balances, a)) - volume) else round(ToReal(Balance(balances, a)) + volume)
  }

  /** The new volumes of one side, by commodity, when the commodities in `left` are still to
      come: debits for inputs, credits for outputs. */
  ghost predicate Recomputed(round: Rounding, balances: Balances, user: UserId, quantities: map<CommodityId, real>,
                             isInput: bool, left: set<CommodityId>, volumes: map<CommodityId, int>)
  {
    && (forall c :: c in volumes <==> c in quantities && c !in left)
    && (forall c :: c in volumes ==> volumes[c] == Moved(round, balances, Account(user, c), quantities[c], isInput))
  }

  lemma RecomputedOneMore(round: Rounding, balances: Balances, user: UserId, quantities: map<CommodityId, real>,
                          isInput: bool, left: set<CommodityId>, volumes: map<CommodityId, int>, c: CommodityId)
    requires Recomputed(round, balances, user, quantities, isInput, left, volumes) && c in left && c in quantities
    ensures Recomputed(round, balances, user, quantities, isInput, left - {c},
                       volumes[c := Moved(round, balances, Account(user, c), quantities[c], isInput)])
  {
  }

  /** The rows built so far, when the commodities in `left` are still to come. */
  ghost predicate LegsBuilt(round: Rounding, user: UserId, quantities: map<CommodityId, real>,
                            ids: map<TransactionId, CommodityId>, level: Traceability, isInput: bool, group: GroupId,
                            now: Time, left: set<CommodityId>, legs: Table)
  {
    && (forall i :: i in legs <==> i in ids && ids[i] !in left)
    && (forall i :: i in legs ==>
          && ids[i] in quantities
          && legs[i] == ToConversionTransaction(round, user, ids[i], quantities[ids[i]], level, isInput, group, now))
  }

  lemma LegsComplete(round: Rounding, user: UserId, quantities: map<CommodityId, real>, ids: map<TransactionId, CommodityId>,
                     level: Traceability, isInput: bool, group: GroupId, now: Time, legs: Table)
    requires IdsFor(ids, quantities)
    requires LegsBuilt(round, user, quantities, ids, level, isInput, group, now, {}, legs)
    ensures legs == Legs(round, user, quantities, ids, level, isInput, group, now)
  {
  }

  /** The row of one more commodity, under its fresh id. */
  lemma LegAdded(round: Rounding, user: UserId, quantities: map<CommodityId, real>, ids: map<TransactionId, CommodityId>,
                 level: Traceability, isInput: bool, group: GroupId, now: Time, left: set<CommodityId>, legs: Table,
                 c: CommodityId, id: TransactionId)
    requires IdsFor(ids, quantities) && c in left && c in quantities && id in ids && ids[id] == c
    requires LegsBuilt(round, user, quantities, ids, level, isInput, group, now, left, legs)
    ensures LegsBuilt(round, user, quantities, ids, level, isInput, group, now, left - {c},
                      legs[id := ToConversionTransaction(round, user, c, quantities[c], level, isInput, group, now)])
  {
  }

  /** The first loop over the inputs: is there enough of everything? */
  method CheckBalances(balances: Balances, user: UserId, inputs: map<CommodityId, real>) returns (sufficient: bool)
    ensures sufficient <==>
              forall c :: c in inputs ==> Account(user, c) in balances && 100.0 * inputs[c] <= balances[Account(user, c)] as real
    ensures sufficient <==> CanPay(balances, user, inputs)
  {
    var unchecked := inputs.Keys;
    while unchecked != {}
      invariant unchecked <= inputs.Keys
      invariant forall c :: c in inputs && c !in unchecked ==>
                  Account(user, c) in balances && ToReal(balances[Account(user, c)]) >= inputs[c]
      decreases unchecked
    {
      var c :| c in unchecked;
      unchecked := unchecked - {c};
      if Account(user, c) !in balances || ToReal(balances[Account(user, c)]) < inputs[c] {
        return false;
      }
    }
    return true;
  }

  /** Debits the balances checked above. */
  method ProcessConversionInputs(round: Rounding, balances: Balances, user: UserId, inputs: map<CommodityId, real>,
                                 level: Traceability, group: GroupId, ids: map<TransactionId, CommodityId>, now: Time)
    returns (debits: map<CommodityId, int>, legs: Table)
    requires IdsFor(ids, inputs) && CanPay(balances, user, inputs)
    ensures Recomputed(round, balances, user, inputs, true, {}, debits)
    ensures legs == Legs(round, user, inputs, ids, level, true, group, now)
  {
    debits, legs := map[], map[];
    var left := inputs.Keys;
    while left != {}
      invariant left <= inputs.Keys
      invariant Recomputed(round, balances, user, inputs, true, left, debits)
      invariant LegsBuilt(round, user, inputs, ids, level, true, group, now, left, legs)
      decreases left
    {
      var c :| c in left;
      assert c in ids.Values;
      var id :| id in ids && ids[id] == c;
      RecomputedOneMore(round, balances, user, inputs, true, left, debits, c);
      LegAdded(round, user, inputs, ids, level, true, group, now, left, legs, c, id);
      left := left - {c};
      debits := debits[c := round(ToReal(balances[Account(user, c)]) - inputs[c])];
      legs := legs[id := ToConversionTransaction(round, user, c, inputs[c], level, true, group, now)];
    }
    LegsComplete(round, user, inputs, ids, level, true, group, now, legs);
  }

  lemma PutInUnion(a: map<CommodityId, int>, b: map<CommodityId, int>, c: CommodityId, volume: int)
    ensures c !in b ==> a[c := volume] + b == (a + b)[c := volume]
    ensures a + b[c := volume] == (a + b)[c := volume]
  {
  }

  /** The credits computed so far, split by whether the balance row exists. */
  ghost predicate Credited(round: Rounding, balances: Balances, user: UserId, outputs: map<CommodityId, real>,
                           left: set<CommodityId>, toUpdate: map<CommodityId, int>, toCreate: map<CommodityId, int>)
  {
    && (forall c :: c in toUpdate ==> Account(user, c) in balances)
    && (forall c :: c in toCreate ==> Account(user, c) !in balances)
    && Recomputed(round, balances, user, outputs, false, left, toUpdate + toCreate)
  }

  lemma CreditedOneMore(round: Rounding, balances: Balances, user: UserId, outputs: map<CommodityId, real>,
                        left: set<CommodityId>, toUpdate: map<CommodityId, int>, toCreate: map<CommodityId, int>, c: CommodityId)
    requires Credited(round, balances, user, outputs, left, toUpdate, toCreate) && c in left && c in outputs
    ensures Account(user, c) in balances ==>
              Credited(round, balances, user, outputs, left - {c},
                       toUpdate[c := round(ToReal(balances[Account(user, c)]) + outputs[c])], toCreate)
    ensures Account(user, c) !in balances ==>
              Credited(round, balances, user, outputs, left - {c}, toUpdate, toCreate[c := round(outputs[c])])
  {
    RecomputedOneMore(round, balances, user, outputs, false, left, toUpdate + toCreate, c);
    PutInUnion(toUpdate, toCreate, c, Moved(round, balances, Account(user, c), outputs[c], false));
    assert ToReal(0) + outputs[c] == outputs[c];
  }

  /** Credits existing balance rows and creates the missing ones. */
  method ProcessConversionOutputs(round: Rounding, balances: Balances, user: UserId, outputs: map<CommodityId, real>,
                                  level: Traceability, group: GroupId, ids: map<TransactionId, CommodityId>, now: Time)
    returns (toUpdate: map<CommodityId, int>, toCreate: map<CommodityId, int>, legs: Table)
    requires IdsFor(ids, outputs)
    ensures Credited(round, balances, user, outputs, {}, toUpdate, toCreate)
    ensures legs == Legs(round, user, outputs, ids, level, false, group, now)
  {
    toUpdate, toCreate, legs := map[], map[], map[];
    var left := outputs.Keys;
    while left != {}
      invariant left <= outputs.Keys
      invariant Credited(round, balances, user, outputs, left, toUpdate, toCreate)
      invariant LegsBuilt(round, user, outputs, ids, level, false, group, now, left, legs)
      decreases left
    {
      var c :| c in left;
      assert c in ids.Values;
      var id :| id in ids && ids[id] == c;
      CreditedOneMore(round, balances, user, outputs, left, toUpdate, toCreate, c);
      LegAdded(round, user, outputs, ids, level, false, group, now, left, legs, c, id);
      left := left - {c};
      if Account(user, c) in balances {
        toUpdate := toUpdate[c := round(ToReal(balances[Account(user, c)]) + outputs[c])];
      } else {
        toCreate := toCreate[c := round(outputs[c])];
      }
      legs := legs[id := ToConversionTransaction(round, user, c, outputs[c], level, false, group, now)];
    }
    LegsComplete(round, user, outputs, ids, level, false, group, now, legs);
  }

  /** Writes balance rows of one user, existing or new. */
  function WriteRows(balances: Balances, user: UserId, rows: map<CommodityId, int>): Balances {
    map a | a in balances.Keys + (set c | c in rows :: Account(user, c)) ::
      if a.user == user && a.commodity in rows then rows[a.commodity] else Balance(balances, a)
  }

  /** The balance of an account after writing rows. */
  lemma Written(balances: Balances, user: UserId, rows: map<CommodityId, int>, a: Account)
    ensures a in WriteRows(balances, user, rows) <==> a in balances || (a.user == user && a.commodity in rows)
    ensures a in WriteRows(balances, user, rows) ==>
              WriteRows(balances, user, rows)[a] ==
                if a.user == user && a.commodity in rows then rows[a.commodity] else Balance(balances, a)
  {
    assert a.user == user ==> a == Account(user, a.commodity);
  }

  lemma ConvertsRows(round: Rounding, balances: Balances, user: UserId, inputs: map<CommodityId, real>,
                     outputs: map<CommodityId, real>, a: Account)
    ensures a in ConvertedBalances(round, balances, user, inputs, outputs)
            <==> a in balances || (a.user == user && a.commodity in outputs)
  {
    assert a.user == user ==> a == Account(user, a.commodity);
  }

  lemma Converts(round: Rounding, balances: Balances, user: UserId, inputs: map<CommodityId, real>,
                 outputs: map<CommodityId, real>, a: Account)
    requires a in ConvertedBalances(round, balances, user, inputs, outputs)
    ensures ConvertedBalances(round, balances, user, inputs, outputs)[a] ==
              if a.user == user && a.commodity in inputs then Moved(round, balances, a, inputs[a.commodity], true)
              else if a.user == user && a.commodity in outputs then Moved(round, balances, a, outputs[a.commodity], false)
              else Balance(balances, a)
  {
  }

  ghost predicate SameAt(m: Balances, m': Balances, a: Account) {
    (a in m <==> a in m') && (a in m ==> m[a] == m'[a])
  }

  lemma SameEverywhere(m: Balances, m': Balances)
    requires forall a :: SameAt(m, m', a)
    ensures m == m'
  {
    forall a
      ensures a in m <==> a in m'
      ensures a in m ==> m[a] == m'[a]
    {
      assert SameAt(m, m', a);
    }
  }

  lemma BulkUpdateAt(round: Rounding, balances: Balances, user: UserId, inputs: map<CommodityId, real>,
                     outputs: map<CommodityId, real>, debits: map<CommodityId, int>,
                     toUpdate: map<CommodityId, int>, toCreate: map<CommodityId, int>, a: Account)
    requires CanPay(balances, user, inputs)
    requires Recomputed(round, balances, user, inputs, true, {}, debits)
    requires Credited(round, balances, user, outputs, {}, toUpdate, toCreate)
    ensures var written := WriteRows(WriteRows(balances, user, toUpdate + debits), user, toCreate);
            SameAt(written, ConvertedBalances(round, balances, user, inputs, outputs), a)
  {
    assert a.commodity in toUpdate + toCreate <==> a.commodity in outputs;
    Written(balances, user, toUpdate + debits, a);
    Written(WriteRows(balances, user, toUpdate + debits), user, toCreate, a);
    ConvertsRows(round, balances, user, inputs, outputs, a);
    if a in ConvertedBalances(round, balances, user, inputs, outputs) {
      Converts(round, balances, user, inputs, outputs, a);
    }
    assert a.user == user ==> a == Account(user, a.commodity);
  }

  /** The bulk update lists debits before credits, and the first entry of a row wins. */
  lemma BulkUpdateIsConvertedBalances(round: Rounding, balances: Balances, user: UserId, inputs: map<CommodityId, real>,
                                      outputs: map<CommodityId, real>, debits: map<CommodityId, int>,
                                      toUpdate: map<CommodityId, int>, toCreate: map<CommodityId, int>)
    requires CanPay(balances, user, inputs)
    requires Recomputed(round, balances, user, inputs, true, {}, debits)
    requires Credited(round, balances, user, outputs, {}, toUpdate, toCreate)
    ensures WriteRows(WriteRows(balances, user, toUpdate + debits), user, toCreate)
            == ConvertedBalances(round, balances, user, inputs, outputs)
  {
    var written := WriteRows(WriteRows(balances, user, toUpdate + debits), user, toCreate);
    var spec := ConvertedBalances(round, balances, user, inputs, outputs);
    forall a ensures SameAt(written, spec, a) {
      BulkUpdateAt(round, balances, user, inputs, outputs, debits, toUpdate, toCreate, a);
    }
    SameEverywhere(written, spec);
  }

  /** Overriding quantities is converting by a recipe that has these quantities. */
  lemma OverridesReplaceQuantities(balances: Balances, user: UserId, recipe: Recipe,
                                   inputOverrides: map<CommodityId, real>, outputOverrides: map<CommodityId, real>)
    requires inputOverrides.Keys <= recipe.inputs.Keys && outputOverrides.Keys <= recipe.outputs.Keys
    ensures PlanConversion(balances, user, ConversionRequest(Some(recipe), inputOverrides, outputOverrides))
            == PlanConversion(balances, user,
                 ConversionRequest(Some(Recipe(recipe.inputs + inputOverrides, recipe.outputs + outputOverrides)), map[], map[]))
  {
    SameQuantities(recipe.inputs, inputOverrides);
    SameQuantities(recipe.outputs, outputOverrides);
  }

  lemma SameQuantities(base: map<CommodityId, real>, overrides: map<CommodityId, real>)
    requires overrides.Keys <= base.Keys
    ensures Effective(base, overrides) == Effective(base + overrides, map[])
    ensures AllZero(base, overrides) <==> AllZero(base + overrides, map[])
  {
    assert forall c :: c in base <==> c in base + overrides;
    assert forall c :: c in base ==> Quantity(base, overrides, c) == Quantity(base + overrides, map[], c);
  }

  /** Every check of a conversion, in order: recipe, overrides, quantities, balances. */
  method CheckConversion(balances: Balances, user: UserId, request: ConversionRequest) returns (plan: Plan)
    ensures plan == PlanConversion(balances, user, request)
  {
    if request.recipe.None? {
      return Refused(RecipeNotFound);
    }
    var recipe := request.recipe.value;
    if !(request.inputOverrides.Keys <= recipe.inputs.Keys) {
      return Refused(InvalidRecipeOverride);
    }
    if !(request.outputOverrides.Keys <= recipe.outputs.Keys) {
      return Refused(InvalidRecipeOverride);
    }
    if AllZero(recipe.inputs, request.inputOverrides) {
      return Refused(AtLeastOneInputRequired);
    }
    var inputs := Effective(recipe.inputs, request.inputOverrides);
    var sufficient := CheckBalances(balances, user, inputs);
    if !sufficient {
      return Refused(InsufficientBalance);
    }
    plan := Planned(inputs, Effective(recipe.outputs, request.outputOverrides));
  }

  lemma BothSides(round: Rounding, user: UserId, inputs: map<CommodityId, real>, outputs: map<CommodityId, real>,
                  level: Traceability, group: GroupId, inputIds: map<TransactionId, CommodityId>,
                  outputIds: map<TransactionId, CommodityId>, now: Time, inputRows: Table, outputRows: Table)
    requires IdsFor(inputIds, inputs) && IdsFor(outputIds, outputs)
    requires inputRows == Legs(round, user, inputs, inputIds, level, true, group, now)
    requires outputRows == Legs(round, user, outputs, outputIds, level, false, group, now)
    ensures inputRows + outputRows == AllLegs(round, user, inputs, outputs, level, group, inputIds, outputIds, now)
  {
  }

  /** What the database transaction of a conversion writes: balances and new rows. */
  method PrepareConversion(round: Rounding, txs: Table, balances: Balances, user: UserId, inputs: map<CommodityId, real>,
                           outputs: map<CommodityId, real>, group: GroupId, inputIds: map<TransactionId, CommodityId>,
                           outputIds: map<TransactionId, CommodityId>, now: Time)
    returns (saved: Balances, legs: Table)
    requires CanPay(balances, user, inputs) && IdsFor(inputIds, inputs) && IdsFor(outputIds, outputs)
    ensures saved == ConvertedBalances(round, balances, user, inputs, outputs)
    ensures legs == AllLegs(round, user, inputs, outputs, ConversionTraceability(txs, user, inputs.Keys),
                            group, inputIds, outputIds, now)
  {
    var level := GetConversionTraceability(txs, user, inputs.Keys);
    var debits, inputRows := ProcessConversionInputs(round, balances, user, inputs, level, group, inputIds, now);
    var toUpdate, toCreate, outputRows := ProcessConversionOutputs(round, balances, user, outputs, level, group, outputIds, now);
    BulkUpdateIsConvertedBalances(round, balances, user, inputs, outputs, debits, toUpdate, toCreate);
    saved := WriteRows(WriteRows(balances, user, toUpdate + debits), user, toCreate);
    BothSides(round, user, inputs, outputs, level, group, inputIds, outputIds, now, inputRows, outputRows);
    legs := inputRows + outputRows;
  }
}
