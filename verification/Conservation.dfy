/** What balances mean: the ledger equation, the rounding drift and the conservation of supply. */
module Conservation {
  import opened Domain
  import opened Mappers
  import opened Ledgers
  import opened Lifecycle
  import opened FiniteSums

  /** What an accepted row does to an account. Conversion legs store their sign. */
  function EffectOf(t: Transaction, a: Account): int {
    if !t.status.Accepted? || t.commodity != a.commodity then 0
    else match t.kind
      case Producer => if t.buyer == Some(a.user) then t.volume else 0
      case Downstream => (if t.buyer == Some(a.user) then t.volume else 0) - (if t.seller == Some(a.user) then t.volume else 0)
      case Conversion => if t.buyer == Some(a.user) || t.seller == Some(a.user) then t.volume else 0
  }

  /** Rows whose volume and balance change are rounded separately: producers entered by hand
      and conversion legs. */
  function DriftOf(t: Transaction, a: Account): int {
    if t.commodity != a.commodity then 0
    else match t.kind
      case Producer => if t.buyer == Some(a.user) && !t.isAutomatic then 1 else 0
      case Downstream => 0
      case Conversion => if t.buyer == Some(a.user) || t.seller == Some(a.user) then 1 else 0
  }

  /** What an accepted row adds to the total supply of its commodity: trades add nothing. */
  function SupplyOf(t: Transaction, c: CommodityId): int {
    if !t.status.Accepted? || t.commodity != c || t.kind.Downstream? then 0 else t.volume
  }

  ghost function Effect(a: Account): (TransactionId, Transaction) -> int { (i, t) => EffectOf(t, a) }

  ghost function Drift(a: Account): (TransactionId, Transaction) -> int { (i, t) => DriftOf(t, a) }

  ghost function Supplied(c: CommodityId): (TransactionId, Transaction) -> int { (i, t) => SupplyOf(t, c) }

  /** The balance the stored rows account for. */
  ghost function Booked(txs: Table, a: Account): int { Sum(txs, Effect(a)) }

  /** The number of rows of an account that may each drift by a hundredth. */
  ghost function Drifts(txs: Table, a: Account): int { Sum(txs, Drift(a)) }

  ghost function Deviation(s: Ledger, a: Account): int { Balance(s.balances, a) - Booked(s.txs, a) }

  ghost predicate LedgerEquation(s: Ledger) {
    forall a: Account :: Deviation(s, a) == 0
  }

  // ---- rounding ----

  /** Storing a changed balance and storing the change itself round separately. This is by how
      much they disagree when balance `b` changes by `x`. */
  function Slip(round: Rounding, b: int, x: real): int {
    round(ToReal(b) + x) - b - round(x)
  }

  /** Halfway between two hundredths. */
  predicate IsTie(x: real) {
    (100.0 * x - 0.5).Floor as real == 100.0 * x - 0.5
  }

  lemma WholeIsTie(k: int, x: real)
    requires 100.0 * x - 0.5 == k as real
    ensures IsTie(x)
  {
  }

  /** Two nearest whole numbers differ only halfway between them. */
  lemma TwoNearest(z: real, n: int, m: int)
    requires -0.5 <= n as real - z <= 0.5 && -0.5 <= m as real - z <= 0.5
    ensures -1 <= m - n <= 1
    ensures m != n ==> z - 0.5 == (if m < n then m else n) as real
  {
    assert -1.0 <= (m - n) as real <= 1.0;
  }

  lemma NearestOfMoved(round: Rounding, b: int, x: real)
    requires RoundsToNearest(round)
    ensures -0.5 <= (round(ToReal(b) + x) - b) as real - 100.0 * x <= 0.5
  {
    var y := ToReal(b) + x;
    assert 100.0 * y == b as real + 100.0 * x;
    assert -0.5 <= round(y) as real - 100.0 * y <= 0.5;
  }

  /** The two can disagree by one hundredth, and only on ties. */
  lemma OnlyTiesSlip(round: Rounding, b: int, x: real)
    requires RoundsToNearest(round)
    ensures -1 <= Slip(round, b, x) <= 1
    ensures Slip(round, b, x) != 0 ==> IsTie(x)
  {
    var n, m := round(x), round(ToReal(b) + x) - b;
    NearestOfMoved(round, b, x);
    TwoNearest(100.0 * x, n, m);
    if m != n {
      WholeIsTie(if m < n then m else n, x);
    }
  }

  /** `s'` is off its rows by `moved` more than `s` at account `a`, with at least `rows` more
      rows there that may drift. */
  ghost predicate DeviationMoves(s: Ledger, s': Ledger, a: Account, moved: int, rows: nat) {
    Deviation(s', a) == Deviation(s, a) + moved && Drifts(s'.txs, a) >= Drifts(s.txs, a) + rows
  }

  // ---- rows that contribute the same ----

  lemma SameRowsSameSums(txs: Table, txs': Table, a: Account)
    requires forall i :: i in txs || i in txs' ==>
               At(txs, Effect(a), i) == At(txs', Effect(a), i) && At(txs, Drift(a), i) == At(txs', Drift(a), i)
    ensures Booked(txs', a) == Booked(txs, a) && Drifts(txs', a) == Drifts(txs, a)
  {
    SumCongruence(txs, txs', Effect(a));
    SumCongruence(txs, txs', Drift(a));
  }

  lemma RewrittenRowWeighsTheSame(t: Transaction, t': Transaction, a: Account)
    requires Preserved(t, t') && (t'.status.Accepted? <==> t.status.Accepted?)
    ensures EffectOf(t', a) == EffectOf(t, a) && DriftOf(t', a) == DriftOf(t, a)
  {
  }

  /** Rewriting rows, or adding a pending one, moves nothing. */
  lemma RewriteKeepsDeviation(s: Ledger, txs: Table, a: Account)
    requires s.txs.Keys <= txs.Keys
    requires forall i :: i in s.txs ==> Preserved(s.txs[i], txs[i])
                                        && (txs[i].status.Accepted? <==> s.txs[i].status.Accepted?)
    requires forall i :: i in txs && i !in s.txs ==> txs[i].kind.Downstream? && !txs[i].status.Accepted?
    ensures DeviationMoves(s, s.(txs := txs), a, 0, 0)
  {
    forall i | i in s.txs || i in txs
      ensures At(s.txs, Effect(a), i) == At(txs, Effect(a), i) && At(s.txs, Drift(a), i) == At(txs, Drift(a), i)
    {
      if i in s.txs {
        RewrittenRowWeighsTheSame(s.txs[i], txs[i], a);
      }
    }
    SameRowsSameSums(s.txs, txs, a);
  }

  // ---- one new or decided row ----

  lemma OneRowChanges(txs: Table, txs': Table, id: TransactionId, a: Account)
    requires forall i :: i != id ==> (i in txs <==> i in txs') && (i in txs ==> txs'[i] == txs[i])
    ensures Booked(txs', a) - Booked(txs, a) == At(txs', Effect(a), id) - At(txs, Effect(a), id)
    ensures Drifts(txs', a) - Drifts(txs, a) == At(txs', Drift(a), id) - At(txs, Drift(a), id)
  {
    SumDifference(txs, txs', Effect(a), id);
    SumDifference(txs, txs', Drift(a), id);
  }

  /** Production drifts by its slip. */
  lemma ProducedMovesDeviation(round: Rounding, s: Ledger, user: UserId, request: ProducerRequest, id: TransactionId,
                               now: Time, a: Account)
    requires id !in s.txs
    ensures DeviationMoves(s, Produced(round, s, user, request, id, now), a,
                           if a == Account(user, request.commodity) then Slip(round, Balance(s.balances, a), request.volume) else 0,
                           if a == Account(user, request.commodity) then 1 else 0)
  {
    var s' := Produced(round, s, user, request, id, now);
    OneRowChanges(s.txs, s'.txs, id, a);
  }

  /** The seller's balance moves by the automatic volume minus the sale, the buyer's by the sale. */
  lemma TradedBalances(balances: Balances, t: Transaction, a: Account)
    requires t.seller.Some? && t.buyer.Some? && t.seller != t.buyer
    ensures Balance(Traded(balances, t), a) - Balance(balances, a) ==
              if a == Account(t.seller.value, t.commodity) then Shortfall(balances, t) - t.volume
              else if a == Account(t.buyer.value, t.commodity) then t.volume
              else 0
  {
  }

  lemma FundedBooks(s: Ledger, t: Transaction, automaticId: TransactionId, now: Time, a: Account)
    requires automaticId !in s.txs && t.seller.Some?
    ensures Booked(Funded(s, t, automaticId, now).txs, a) - Booked(s.txs, a) ==
              if a == Account(t.seller.value, t.commodity) then Shortfall(s.balances, t) else 0
    ensures Drifts(Funded(s, t, automaticId, now).txs, a) == Drifts(s.txs, a)
  {
    OneRowChanges(s.txs, Funded(s, t, automaticId, now).txs, automaticId, a);
  }

  /** Accepting adds no deviation at all, whatever the volumes. */
  lemma AcceptKeepsDeviation(s: Ledger, user: UserId, id: TransactionId, automaticId: TransactionId, now: Time, a: Account)
    requires Consistent(s) && automaticId !in s.txs && IsIncoming(s.txs, user, id, now, false)
    ensures DeviationMoves(s, Settled(s, id, automaticId, now), a, 0, 0)
  {
    var t := s.txs[id];
    var funded := Funded(s, t, automaticId, now);
    var s' := Settled(s, id, automaticId, now);
    AcceptedByTheOtherParty(s.txs, user, id, now);
    if s' != s {
      FundedBooks(s, t, automaticId, now, a);
      OneRowChanges(funded.txs, s'.txs, id, a);
      TradedBalances(s.balances, t, a);
    }
  }

  // ---- conversions ----

  /** What the legs of one side contribute to an account. */
  function SideEffect(round: Rounding, user: UserId, quantities: map<CommodityId, real>, isInput: bool, a: Account): int {
    if a.user == user && a.commodity in quantities
    then round(if isInput then -quantities[a.commodity] else quantities[a.commodity])
    else 0
  }

  function SideDrift(user: UserId, quantities: map<CommodityId, real>, a: Account): int {
    if a.user == user && a.commodity in quantities then 1 else 0
  }

  lemma LegWeights(round: Rounding, user: UserId, quantities: map<CommodityId, real>, ids: map<TransactionId, CommodityId>,
                   level: Traceability, isInput: bool, group: GroupId, now: Time, a: Account, i: TransactionId)
    requires ids.Values <= quantities.Keys && i in ids
    ensures var t := Legs(round, user, quantities, ids, level, isInput, group, now)[i];
            && EffectOf(t, a) == (if ids[i] == a.commodity then SideEffect(round, user, quantities, isInput, a) else 0)
            && DriftOf(t, a) == (if ids[i] == a.commodity then SideDrift(user, quantities, a) else 0)
  {
    assert ids[i] in ids.Values;
  }

  lemma LegsBook(round: Rounding, txs: Table, user: UserId, quantities: map<CommodityId, real>,
                 ids: map<TransactionId, CommodityId>, level: Traceability, isInput: bool, group: GroupId, now: Time, a: Account)
    requires IdsFor(ids, quantities) && ids.Keys !! txs.Keys
    ensures var txs' := txs + Legs(round, user, quantities, ids, level, isInput, group, now);
            && Booked(txs', a) - Booked(txs, a) == SideEffect(round, user, quantities, isInput, a)
            && Drifts(txs', a) - Drifts(txs, a) == SideDrift(user, quantities, a)
  {
    var legs := Legs(round, user, quantities, ids, level, isInput, group, now);
    var effect, drift := SideEffect(round, user, quantities, isInput, a), SideDrift(user, quantities, a);
    forall i | i in legs
      ensures Effect(a)(i, legs[i]) == (if ids[i] == a.commodity then effect else 0)
      ensures Drift(a)(i, legs[i]) == (if ids[i] == a.commodity then drift else 0)
    {
      LegWeights(round, user, quantities, ids, level, isInput, group, now, a, i);
    }
    SumOverMarked(txs, legs, ids, Effect(a), a.commodity, effect);
    SumOverMarked(txs, legs, ids, Drift(a), a.commodity, drift);
  }

  lemma ConvertedBooks(round: Rounding, txs: Table, user: UserId, inputs: map<CommodityId, real>,
                       outputs: map<CommodityId, real>, level: Traceability, group: GroupId,
                       inputIds: map<TransactionId, CommodityId>, outputIds: map<TransactionId, CommodityId>,
                       now: Time, a: Account)
    requires FreshLegs(txs, inputs, outputs, group, inputIds, outputIds)
    ensures var txs' := txs + AllLegs(round, user, inputs, outputs, level, group, inputIds, outputIds, now);
            && Booked(txs', a) - Booked(txs, a) ==
                 SideEffect(round, user, inputs, true, a) + SideEffect(round, user, outputs, false, a)
            && Drifts(txs', a) - Drifts(txs, a) == SideDrift(user, inputs, a) + SideDrift(user, outputs, a)
  {
    var debits := Legs(round, user, inputs, inputIds, level, true, group, now);
    var credits := Legs(round, user, outputs, outputIds, level, false, group, now);
    LegsBook(round, txs, user, inputs, inputIds, level, true, group, now, a);
    LegsBook(round, txs + debits, user, outputs, outputIds, level, false, group, now, a);
    UnionIsAssociative(txs, debits, credits);
  }

  lemma UnionIsAssociative(a: Table, b: Table, c: Table)
    ensures a + b + c == a + (b + c)
  {
  }

  /** The balance after a conversion: the debit wins over the credit. */
  lemma ConvertedBalance(round: Rounding, balances: Balances, user: UserId, inputs: map<CommodityId, real>,
                         outputs: map<CommodityId, real>, a: Account)
    requires CanPay(balances, user, inputs)
    ensures Balance(ConvertedBalances(round, balances, user, inputs, outputs), a) ==
              if a.user == user && a.commodity in inputs then round(ToReal(Balance(balances, a)) + -inputs[a.commodity])
              else if a.user == user && a.commodity in outputs then round(ToReal(Balance(balances, a)) + outputs[a.commodity])
              else Balance(balances, a)
  {
  }

  /** The quantity by which a conversion moves an account. A commodity on both sides is debited. */
  function MovedQuantity(user: UserId, inputs: map<CommodityId, real>, outputs: map<CommodityId, real>, a: Account): Option<real> {
    if a.user != user then None
    else if a.commodity in inputs then Some(-inputs[a.commodity])
    else if a.commodity in outputs then Some(outputs[a.commodity])
    else None
  }

  /** The credit that a conversion books for an account without paying it. */
  function LostCredit(round: Rounding, user: UserId, inputs: map<CommodityId, real>, outputs: map<CommodityId, real>, a: Account): int {
    if a.user == user && a.commodity in inputs && a.commodity in outputs then round(outputs[a.commodity]) else 0
  }

  function SlipOn(round: Rounding, b: int, x: Option<real>): int {
    if x.None? then 0 else Slip(round, b, x.value)
  }

  lemma ConvertedBalanceMoves(round: Rounding, balances: Balances, user: UserId, inputs: map<CommodityId, real>,
                              outputs: map<CommodityId, real>, a: Account)
    requires CanPay(balances, user, inputs)
    ensures var x := MovedQuantity(user, inputs, outputs, a);
            Balance(ConvertedBalances(round, balances, user, inputs, outputs), a) - Balance(balances, a)
            == SideEffect(round, user, inputs, true, a) + SideEffect(round, user, outputs, false, a)
               + SlipOn(round, Balance(balances, a), x) - LostCredit(round, user, inputs, outputs, a)
    ensures MovedQuantity(user, inputs, outputs, a).Some? ==> SideDrift(user, inputs, a) + SideDrift(user, outputs, a) >= 1
  {
    ConvertedBalance(round, balances, user, inputs, outputs, a);
  }

  /** A conversion drifts by the slip of what it moves and by the credit it loses. */
  lemma ConvertedMovesDeviation(round: Rounding, s: Ledger, user: UserId, inputs: map<CommodityId, real>,
                                outputs: map<CommodityId, real>, group: GroupId, inputIds: map<TransactionId, CommodityId>,
                                outputIds: map<TransactionId, CommodityId>, now: Time, a: Account)
    requires FreshLegs(s.txs, inputs, outputs, group, inputIds, outputIds) && CanPay(s.balances, user, inputs)
    ensures var x := MovedQuantity(user, inputs, outputs, a);
            DeviationMoves(s, Converted(round, s, user, inputs, outputs, group, inputIds, outputIds, now), a,
                           SlipOn(round, Balance(s.balances, a), x) - LostCredit(round, user, inputs, outputs, a),
                           if x.Some? then 1 else 0)
  {
    var level := ConversionTraceability(s.txs, user, inputs.Keys);
    ConvertedBooks(round, s.txs, user, inputs, outputs, level, group, inputIds, outputIds, now, a);
    ConvertedBalanceMoves(round, s.balances, user, inputs, outputs, a);
  }

  lemma TieOfOpposite(x: real)
    requires IsTie(x)
    ensures IsTie(-x)
  {
    WholeIsTie(-(100.0 * x - 0.5).Floor - 1, -x);
  }

  lemma DebitSlipsOnTies(round: Rounding, b: int, x: real)
    requires RoundsToNearest(round) && !IsTie(x)
    ensures Slip(round, b, -x) == 0
  {
    OnlyTiesSlip(round, b, -x);
    if IsTie(-x) {
      TieOfOpposite(-x);
    }
  }

  // ---- one step ----

  /** The quantity by which an event moves an account by rounding anew. */
  function MovedBy(s: Ledger, e: Event, a: Account): Option<real> {
    match e
    case CreateProducer(user, request, commodityExists, _, _) =>
      if commodityExists && a == Account(user, request.commodity) then Some(request.volume) else None
    case CreateConversion(user, request, _, _, _, _) =>
      var plan := PlanConversion(s.balances, user, request);
      if plan.Refused? then None else MovedQuantity(user, plan.inputs, plan.outputs, a)
    case _ => None
  }

  function SlipOf(round: Rounding, s: Ledger, e: Event, a: Account): int {
    SlipOn(round, Balance(s.balances, a), MovedBy(s, e, a))
  }

  /** The credit an event loses: its conversion has the commodity on both sides. */
  function LostBy(round: Rounding, s: Ledger, e: Event, a: Account): int {
    match e
    case CreateConversion(user, request, _, _, _, _) =>
      var plan := PlanConversion(s.balances, user, request);
      if plan.Refused? then 0 else LostCredit(round, user, plan.inputs, plan.outputs, a)
    case _ => 0
  }

  /** What one step adds to the gap between a balance and its rows, exactly and for any rounding. */
  lemma StepMovesDeviation(round: Rounding, s: Ledger, e: Event, s': Ledger, a: Account)
    requires Consistent(s) && Fresh(s, e) && s' == Apply(round, s, e)
    ensures DeviationMoves(s, s', a, SlipOf(round, s, e, a) - LostBy(round, s, e, a), if MovedBy(s, e, a).Some? then 1 else 0)
  {
    match e
    case CreateProducer(user, request, _, id, now) =>
      ProducedMovesDeviation(round, s, user, request, id, now, a);
    case Accept(user, id, automaticId, now) =>
      if IsIncoming(s.txs, user, id, now, false) {
        AcceptKeepsDeviation(s, user, id, automaticId, now, a);
      }
    case CreateConversion(user, _, group, inputIds, outputIds, now) =>
      ConversionStep(round, s, e);
      var plan := PlanConversion(s.balances, user, e.conversion);
      if plan.Planned? {
        ConvertedMovesDeviation(round, s, user, plan.inputs, plan.outputs, group, inputIds, outputIds, now, a);
      }
    case _ =>
      QuietStepKeepsDeviation(round, s, e, s', a);
  }

  lemma OverlapDoesNotSlip(round: Rounding, s: Ledger, e: Event, plan: Plan, c: CommodityId)
    requires RoundsToNearest(round)
    requires e.CreateConversion? && plan == PlanConversion(s.balances, e.user, e.conversion) && plan.Planned?
    requires c in plan.inputs && c in plan.outputs && !IsTie(plan.inputs[c])
    ensures SlipOf(round, s, e, Account(e.user, c)) == 0
  {
    DebitSlipsOnTies(round, Balance(s.balances, Account(e.user, c)), plan.inputs[c]);
  }

  /** A commodity on both sides of a conversion loses its whole credit, unless the debit is a tie. */
  lemma OverlapLosesCredit(round: Rounding, s: Ledger, e: Event, s': Ledger, plan: Plan, c: CommodityId)
    requires RoundsToNearest(round) && Consistent(s) && Fresh(s, e) && s' == Apply(round, s, e)
    requires e.CreateConversion? && plan == PlanConversion(s.balances, e.user, e.conversion) && plan.Planned?
    requires c in plan.inputs && c in plan.outputs && !IsTie(plan.inputs[c])
    ensures Deviation(s', Account(e.user, c)) == Deviation(s, Account(e.user, c)) - round(plan.outputs[c])
  {
    OverlapDoesNotSlip(round, s, e, plan, c);
    StepMovesDeviation(round, s, e, s', Account(e.user, c));
  }

  lemma QuietStepKeepsDeviation(round: Rounding, s: Ledger, e: Event, s': Ledger, a: Account)
    requires Consistent(s) && Fresh(s, e) && s' == Apply(round, s, e)
    requires !e.CreateProducer? && !e.Accept? && !e.CreateConversion?
    ensures DeviationMoves(s, s', a, 0, 0)
  {
    StepKeepsConsistent(round, s, e, s');
    QuietStep(round, s, e, s');
    forall i | i in s.txs ensures s'.txs[i].status.Accepted? <==> s.txs[i].status.Accepted? {
      QuietStepAcceptsNothing(round, s, e, s', i);
    }
    RewriteKeepsDeviation(s, s'.txs, a);
  }

  lemma QuietStep(round: Rounding, s: Ledger, e: Event, s': Ledger)
    requires Consistent(s) && Fresh(s, e) && s' == Apply(round, s, e)
    requires !e.CreateProducer? && !e.Accept? && !e.CreateConversion?
    ensures s' == s.(txs := s'.txs)
    ensures forall i :: i in s'.txs && i !in s.txs ==> s'.txs[i].kind.Downstream? && s'.txs[i].status.Pending?
  {
  }

  lemma QuietStepAcceptsNothing(round: Rounding, s: Ledger, e: Event, s': Ledger, i: TransactionId)
    requires Consistent(s) && Fresh(s, e) && s' == Apply(round, s, e)
    requires !e.CreateProducer? && !e.Accept? && !e.CreateConversion?
    requires i in s.txs && i in s'.txs
    ensures s'.txs[i].status.Accepted? <==> s.txs[i].status.Accepted?
  {
    assert RowOk(s.txs[i]);
  }

  /** Books stay exact on account `a`: what slips there is just the credit lost there. */
  ghost predicate IsExact(round: Rounding, s: Ledger, e: Event) {
    forall a: Account :: SlipOf(round, s, e, a) == LostBy(round, s, e, a)
  }

  /** The exact condition for a step to keep the ledger equation, for any rounding. */
  lemma StepKeepsLedgerEquationIff(round: Rounding, s: Ledger, e: Event, s': Ledger)
    requires Consistent(s) && LedgerEquation(s) && Fresh(s, e) && s' == Apply(round, s, e)
    ensures LedgerEquation(s') <==> IsExact(round, s, e)
  {
    forall a: Account ensures Deviation(s', a) == SlipOf(round, s, e, a) - LostBy(round, s, e, a) {
      assert Deviation(s, a) == 0;
      StepMovesDeviation(round, s, e, s', a);
    }
  }

  /** No moved quantity is a tie. */
  ghost predicate TieFree(s: Ledger, e: Event) {
    forall a: Account :: MovedBy(s, e, a).Some? ==> !IsTie(MovedBy(s, e, a).value)
  }

  /** Whatever is both consumed and produced is produced in an amount that rounds to zero. */
  ghost predicate LosesNothing(round: Rounding, s: Ledger, e: Event) {
    e.CreateConversion? ==>
      var plan := PlanConversion(s.balances, e.user, e.conversion);
      plan.Planned? ==> forall c :: c in plan.inputs && c in plan.outputs ==> round(plan.outputs[c]) == 0
  }

  /** Without ties, books stay exact if and only if no credit is lost. */
  lemma TieFreeIsExactIff(round: Rounding, s: Ledger, e: Event)
    requires RoundsToNearest(round) && TieFree(s, e)
    ensures IsExact(round, s, e) <==> LosesNothing(round, s, e)
  {
    forall a: Account ensures SlipOf(round, s, e, a) == 0 {
      if MovedBy(s, e, a).Some? {
        OnlyTiesSlip(round, Balance(s.balances, a), MovedBy(s, e, a).value);
      }
    }
    LosesNothingIff(round, s, e);
  }

  lemma LosesNothingIff(round: Rounding, s: Ledger, e: Event)
    ensures LosesNothing(round, s, e) <==> forall a: Account :: LostBy(round, s, e, a) == 0
  {
    if e.CreateConversion? {
      var plan := PlanConversion(s.balances, e.user, e.conversion);
      if plan.Planned? {
        assert forall c :: c in plan.inputs && c in plan.outputs ==>
                 LostBy(round, s, e, Account(e.user, c)) == round(plan.outputs[c]);
      }
    }
  }

  // ---- whole runs ----

  ghost function TotalSlip(round: Rounding, events: seq<Event>, states: seq<Ledger>, a: Account, n: nat): int
    requires n <= |events| < |states|
  {
    if n == 0 then 0 else TotalSlip(round, events, states, a, n - 1) + SlipOf(round, states[n - 1], events[n - 1], a)
  }

  ghost function TotalLost(round: Rounding, events: seq<Event>, states: seq<Ledger>, a: Account, n: nat): int
    requires n <= |events| < |states|
  {
    if n == 0 then 0 else TotalLost(round, events, states, a, n - 1) + LostBy(round, states[n - 1], events[n - 1], a)
  }

  /** How many of the first `n` events moved the account by a tie. */
  ghost function Ties(events: seq<Event>, states: seq<Ledger>, a: Account, n: nat): (ties: int)
    requires n <= |events| < |states|
    ensures ties >= 0
  {
    if n == 0 then 0
    else
      var x := MovedBy(states[n - 1], events[n - 1], a);
      Ties(events, states, a, n - 1) + if x.Some? && IsTie(x.value) then 1 else 0
  }

  /** In any run, for any rounding, a balance is off its rows by exactly the slips of its account
      less the credits it lost. */
  lemma {:induction false} DriftIsSlipsLessLosses(round: Rounding, events: seq<Event>, states: seq<Ledger>, a: Account, n: nat)
    requires IsRun(round, events, states) && n <= |events|
    ensures Deviation(states[n], a) == TotalSlip(round, events, states, a, n) - TotalLost(round, events, states, a, n)
    decreases n
  {
    if n > 0 {
      DriftIsSlipsLessLosses(round, events, states, a, n - 1);
      StepOfRun(round, events, states, n - 1);
      StepMovesDeviation(round, states[n - 1], events[n - 1], states[n], a);
    }
  }

  lemma {:induction false} SlipsAreFewerThanTies(round: Rounding, events: seq<Event>, states: seq<Ledger>, a: Account, n: nat)
    requires IsRun(round, events, states) && RoundsToNearest(round) && n <= |events|
    ensures -Ties(events, states, a, n) <= TotalSlip(round, events, states, a, n) <= Ties(events, states, a, n)
    ensures Ties(events, states, a, n) <= Drifts(states[n].txs, a)
    decreases n
  {
    if n > 0 {
      var s, e := states[n - 1], events[n - 1];
      SlipsAreFewerThanTies(round, events, states, a, n - 1);
      StepOfRun(round, events, states, n - 1);
      StepMovesDeviation(round, s, e, states[n], a);
      if MovedBy(s, e, a).Some? {
        OnlyTiesSlip(round, Balance(s.balances, a), MovedBy(s, e, a).value);
      }
    }
  }

  /** The drift bound: up to the credits lost, an account is off its rows by at most one hundredth
      for each tie, and there are at most as many ties as hand-entered producer transactions and
      conversion legs. */
  lemma DriftBound(round: Rounding, events: seq<Event>, states: seq<Ledger>, a: Account)
    requires IsRun(round, events, states) && RoundsToNearest(round)
    ensures var s, ties := states[|events|], Ties(events, states, a, |events|);
            && -ties <= Deviation(s, a) + TotalLost(round, events, states, a, |events|) <= ties
            && ties <= Drifts(s.txs, a)
  {
    DriftIsSlipsLessLosses(round, events, states, a, |events|);
    SlipsAreFewerThanTies(round, events, states, a, |events|);
  }
}
