/** Requests on which a property fails that the exact conditions elsewhere rule out. */
module Counterexamples {
  import opened Domain
  import opened Mappers
  import opened Ledgers
  import opened Lifecycle
  import opened Provenance
  import opened ChainGraph
  import opened ChainSearch
  import opened Conservation
  import opened Decisions
  import opened FirstChains

  const ALICE: UserId := 1
  const COCOA: CommodityId := 0
  const BUTTER: CommodityId := 1

  lemma RoundIsExact(round: Rounding, hundredths: int)
    requires RoundsToNearest(round)
    ensures round(ToReal(hundredths)) == hundredths
  {
    assert 100.0 * ToReal(hundredths) == hundredths as real;
    assert -0.5 <= round(ToReal(hundredths)) as real - 100.0 * ToReal(hundredths) <= 0.5;
  }

  lemma OneId(id: TransactionId, c: CommodityId)
    ensures map[id := c].Values == {c}
  {
    assert map[id := c][id] == c;
  }

  lemma RunOfTwo(round: Rounding, e: Event, f: Event) returns (states: seq<Ledger>)
    requires Fresh(EMPTY_LEDGER, e) && Fresh(Apply(round, EMPTY_LEDGER, e), f)
    ensures IsRun(round, [e, f], states)
    ensures states == [EMPTY_LEDGER, Apply(round, EMPTY_LEDGER, e), Apply(round, Apply(round, EMPTY_LEDGER, e), f)]
  {
    states := [EMPTY_LEDGER, Apply(round, EMPTY_LEDGER, e), Apply(round, Apply(round, EMPTY_LEDGER, e), f)];
  }

  // ---- sales of nothing, or less ----

  /** The first event of a run proposes to sell `volume` hundredths. */
  ghost predicate IsFirstSale(e: Event, volume: int, who: UserId, moment: Time) {
    && e.CreateDownstream? && e.commodityExists && e.downstream.action.Selling? && e.downstream.volume == ToReal(volume)
    && e.recipient == Known(Some(who)) && e.user != who && moment <= e.now + e.lifetime
  }

  lemma FirstSaleIsPending(round: Rounding, e: Event, volume: int, s: Ledger, who: UserId, moment: Time)
    requires RoundsToNearest(round) && IsFirstSale(e, volume, who, moment) && s == Apply(round, EMPTY_LEDGER, e)
    ensures Consistent(s) && IsIncoming(s.txs, who, e.id, moment, false)
    ensures s.txs.Keys == {e.id} && s.balances == map[]
    ensures var t := s.txs[e.id];
            t.seller == Some(e.user) && t.buyer == Some(who) && t.volume == volume && t.commodity == e.downstream.commodity
  {
    StepKeepsConsistent(round, EMPTY_LEDGER, e, s);
    RoundIsExact(round, volume);
  }

  /** A seller who never bought anything sells nothing: no shortfall arises, so the accepted sale
      has no producer behind it. */
  lemma SaleOfNothingHasNoOrigin(round: Rounding, e: Event, s: Ledger, who: UserId, automaticId: TransactionId, moment: Time,
                                 s': Ledger)
    requires RoundsToNearest(round) && IsFirstSale(e, 0, who, moment) && s == Apply(round, EMPTY_LEDGER, e)
    requires automaticId != e.id && s' == Settled(s, e.id, automaticId, moment)
    ensures e.id in s'.txs && s'.txs[e.id].status.Accepted?
    ensures FirstChain(s'.txs, e.id) == {} && !GroundedAt(s', e.id)
  {
    FirstSaleIsPending(round, e, 0, s, who, moment);
    var t := s.txs[e.id];
    assert Purchases(s.txs, t.seller, {t.commodity}) == {} by {
      assert t.status.Pending?;
    }
    AcceptIsGroundedIff(s, who, e.id, automaticId, moment);
    AcceptCreatesOnlyShortfall(s, who, e.id, automaticId, moment, s');
    assert s'.txs.Keys == {e.id} && s'.txs[e.id].seller.Some?;
  }

  /** Selling less than nothing takes the goods from the buyer, who may have none. */
  lemma NegativeSaleDrainsBuyer(round: Rounding, e: Event, volume: int, s: Ledger, who: UserId, automaticId: TransactionId,
                                moment: Time, s': Ledger)
    requires RoundsToNearest(round) && IsFirstSale(e, volume, who, moment) && volume < 0 && s == Apply(round, EMPTY_LEDGER, e)
    requires automaticId != e.id && s' == Apply(round, s, Event.Accept(who, e.id, automaticId, moment))
    ensures Balance(s'.balances, Account(who, e.downstream.commodity)) == volume
    ensures Balance(s'.balances, Account(e.user, e.downstream.commodity)) == -volume
    ensures !NonNegative(s'.balances)
  {
    FirstSaleIsPending(round, e, volume, s, who, moment);
    AcceptMovesBalances(s, who, e.id, automaticId, moment, s');
    assert Account(who, e.downstream.commodity) in s'.balances;
  }

  const UNHARVEST: Event :=
    Event.CreateProducer(ALICE, ProducerRequest(COCOA, -1.0, true, None, None, None), true, 0, 0)

  /** The first event of a run can produce minus one. */
  lemma NegativeProductionOverdraws(round: Rounding)
    requires RoundsToNearest(round)
    ensures var s := Apply(round, EMPTY_LEDGER, UNHARVEST);
            s.balances == map[Account(ALICE, COCOA) := -100] && !NonNegative(s.balances)
  {
    RoundIsExact(round, -100);
    assert ToReal(0) + -1.0 == ToReal(-100);
    assert Account(ALICE, COCOA) in Apply(round, EMPTY_LEDGER, UNHARVEST).balances;
  }

  // ---- recipes that consume nothing, or less ----

  /** No input is positive, but not all of them are zero. */
  ghost predicate ConsumesLessThanNothing(request: ConversionRequest) {
    && request.recipe.Some?
    && var recipe := request.recipe.value;
       && request.inputOverrides.Keys <= recipe.inputs.Keys && request.outputOverrides.Keys <= recipe.outputs.Keys
       && (forall c :: c in recipe.inputs ==> Quantity(recipe.inputs, request.inputOverrides, c) <= 0.0)
       && (exists c :: c in recipe.inputs && Quantity(recipe.inputs, request.inputOverrides, c) < 0.0)
  }

  const NEGATIVE_RECIPE: Recipe := Recipe(map[COCOA := -1.0], map[BUTTER := 5.0])

  const CONVERT_FROM_NOTHING: Event :=
    Event.CreateConversion(ALICE, ConversionRequest(Some(NEGATIVE_RECIPE), map[], map[]), 0, map[], map[0 := BUTTER], 0)

  /** There are such requests, and they can be the first of a run. */
  lemma NegativeRecipeIsOne()
    ensures ConsumesLessThanNothing(CONVERT_FROM_NOTHING.conversion) && Fresh(EMPTY_LEDGER, CONVERT_FROM_NOTHING)
  {
    assert COCOA in NEGATIVE_RECIPE.inputs && Quantity(NEGATIVE_RECIPE.inputs, map[], COCOA) < 0.0;
    assert Effective(NEGATIVE_RECIPE.outputs, map[]) == map[BUTTER := 5.0];
    PlansNoInputIff(EMPTY_LEDGER.balances, ALICE, CONVERT_FROM_NOTHING.conversion);
    OneId(0, BUTTER);
  }

  /** Exactly such requests pass the guard against empty conversions and then lose every input. */
  lemma PlansNoInputIff(balances: Balances, user: UserId, request: ConversionRequest)
    ensures var plan := PlanConversion(balances, user, request);
            plan.Planned? && plan.inputs == map[] <==> ConsumesLessThanNothing(request)
    ensures ConsumesLessThanNothing(request) ==>
              PlanConversion(balances, user, request).outputs == Effective(request.recipe.value.outputs, request.outputOverrides)
  {
    if request.recipe.Some? {
      var inputs, overrides := request.recipe.value.inputs, request.inputOverrides;
      assert Effective(inputs, overrides) == map[] <==> forall c :: c in inputs ==> Quantity(inputs, overrides, c) <= 0.0 by {
        assert forall c :: c in inputs && Quantity(inputs, overrides, c) > 0.0 ==> c in Effective(inputs, overrides);
      }
    }
  }

  /** Whatever the ledger, the outputs of such a request are created out of nothing: nothing is
      debited for them and nothing is behind them. */
  lemma OutputsComeFromNothing(round: Rounding, s: Ledger, e: Event, s': Ledger, i: TransactionId)
    requires e.CreateConversion? && ConsumesLessThanNothing(e.conversion)
    requires Fresh(s, e) && s' == Apply(round, s, e) && i in e.outputIds
    ensures i in s'.txs && s'.txs[i].status.Accepted? && FirstChain(s'.txs, i) == {}
    ensures forall a: Account :: a.user != e.user || a.commodity !in e.outputIds.Values ==>
              Balance(s'.balances, a) == Balance(s.balances, a)
  {
    PlansNoInputIff(s.balances, e.user, e.conversion);
    ConversionStep(round, s, e);
    var inputs: map<CommodityId, real> := map[];
    var outputs := Effective(e.conversion.recipe.value.outputs, e.conversion.outputOverrides);
    var level := ConversionTraceability(s.txs, e.user, inputs.Keys);
    ConvertedAddsConversion(round, s, e.user, inputs, outputs, e.group, e.inputIds, e.outputIds, e.now);
    LonelyLeg(s, e.user, inputs.Keys, outputs.Keys, e.group, level,
      AllLegs(round, e.user, inputs, outputs, level, e.group, e.inputIds, e.outputIds, e.now), s', i);
    forall a: Account | a.user != e.user || a.commodity !in e.outputIds.Values
      ensures Balance(s'.balances, a) == Balance(s.balances, a)
    {
      ConvertedBalance(round, s.balances, e.user, inputs, outputs, a);
    }
  }

  // ---- a recipe with one commodity on both sides ----

  const HARVEST: Event :=
    Event.CreateProducer(ALICE, ProducerRequest(COCOA, 10.0, true, None, None, None), true, 0, 0)

  const SORTING_RECIPE: Recipe := Recipe(map[COCOA := 4.0], map[COCOA := 3.0])

  const SORT: Event :=
    Event.CreateConversion(ALICE, ConversionRequest(Some(SORTING_RECIPE), map[], map[]), 0, map[1 := COCOA], map[2 := COCOA], 0)

  lemma HarvestGivesTen(round: Rounding)
    requires RoundsToNearest(round)
    ensures var s := Apply(round, EMPTY_LEDGER, HARVEST);
            && s.balances == map[Account(ALICE, COCOA) := 1000]
            && s.txs == map[0 := FromProducerRequest(round, ALICE, HARVEST.producer, 0)] && s.txs[0].volume == 1000
  {
    RoundIsExact(round, 1000);
    assert 10.0 == ToReal(1000) && ToReal(0) + 10.0 == ToReal(1000);
  }

  lemma SortingIsPlanned(balances: Balances)
    requires balances == map[Account(ALICE, COCOA) := 1000]
    ensures PlanConversion(balances, ALICE, SORT.conversion) == Planned(map[COCOA := 4.0], map[COCOA := 3.0])
  {
    assert Effective(SORTING_RECIPE.inputs, map[]) == map[COCOA := 4.0];
    assert Effective(SORTING_RECIPE.outputs, map[]) == map[COCOA := 3.0];
    assert COCOA in SORTING_RECIPE.inputs && Quantity(SORTING_RECIPE.inputs, map[], COCOA) != 0.0;
    assert ToReal(1000) >= 4.0;
  }

  lemma SortingIsFresh(txs: Table)
    requires txs.Keys == {0} && txs[0].group.None?
    ensures FreshLegs(txs, map[COCOA := 4.0], map[COCOA := 3.0], 0, map[1 := COCOA], map[2 := COCOA])
  {
    OneId(1, COCOA);
    OneId(2, COCOA);
  }

  lemma TwoStepsDeviate(round: Rounding, e: Event, f: Event, states: seq<Ledger>, a: Account)
    requires IsRun(round, [e, f], states)
    ensures Deviation(states[2], a) == Deviation(states[0], a) + SlipOf(round, states[0], e, a) - LostBy(round, states[0], e, a)
                                       + SlipOf(round, states[1], f, a) - LostBy(round, states[1], f, a)
  {
    StepOfRun(round, [e, f], states, 0);
    StepOfRun(round, [e, f], states, 1);
    StepMovesDeviation(round, states[0], e, states[1], a);
    StepMovesDeviation(round, states[1], f, states[2], a);
  }

  lemma WholesDoNotSlip(round: Rounding, b: int, x: int)
    requires RoundsToNearest(round)
    ensures round(ToReal(b) + ToReal(x)) == b + x && Slip(round, b, ToReal(x)) == 0
  {
    assert ToReal(b) + ToReal(x) == ToReal(b + x);
    RoundIsExact(round, b + x);
    RoundIsExact(round, x);
  }

  lemma HarvestedBalance(round: Rounding, e: Event, made: int)
    requires RoundsToNearest(round) && e.CreateProducer? && e.commodityExists && e.producer.volume == ToReal(made)
    ensures Balance(Apply(round, EMPTY_LEDGER, e).balances, Account(e.user, e.producer.commodity)) == made
    ensures SlipOf(round, EMPTY_LEDGER, e, Account(e.user, e.producer.commodity)) == 0
  {
    WholesDoNotSlip(round, 0, made);
  }

  lemma DebitWhole(round: Rounding, balances: Balances, user: UserId, inputs: map<CommodityId, real>,
                   outputs: map<CommodityId, real>, c: CommodityId, used: int)
    requires RoundsToNearest(round) && CanPay(balances, user, inputs) && c in inputs && inputs[c] == ToReal(used)
    ensures var a := Account(user, c);
            && Balance(ConvertedBalances(round, balances, user, inputs, outputs), a) == Balance(balances, a) - used
            && SlipOn(round, Balance(balances, a), MovedQuantity(user, inputs, outputs, a)) == 0
  {
    ConvertedBalance(round, balances, user, inputs, outputs, Account(user, c));
    assert -inputs[c] == ToReal(-used);
    WholesDoNotSlip(round, Balance(balances, Account(user, c)), -used);
  }

  lemma OverlapDebits(round: Rounding, s: Ledger, f: Event, s': Ledger, plan: Plan, c: CommodityId, used: int)
    requires RoundsToNearest(round) && f.CreateConversion? && Fresh(s, f) && s' == Apply(round, s, f)
    requires plan == PlanConversion(s.balances, f.user, f.conversion) && plan.Planned?
    requires c in plan.inputs && c in plan.outputs && plan.inputs[c] == ToReal(used)
    ensures Balance(s'.balances, Account(f.user, c)) == Balance(s.balances, Account(f.user, c)) - used
    ensures SlipOf(round, s, f, Account(f.user, c)) == 0
  {
    ConversionStep(round, s, f);
    DebitWhole(round, s.balances, f.user, plan.inputs, plan.outputs, c, used);
  }

  /** Turning `used` hundredths of what was made into `got` hundredths of the same commodity should
      leave `made - used + got`, and so say the rows, but the balance is `made - used`. */
  lemma OverlapLosesOutput(round: Rounding, e: Event, f: Event, states: seq<Ledger>, plan: Plan, made: int, used: int, got: int)
    requires RoundsToNearest(round) && IsRun(round, [e, f], states)
    requires e.CreateProducer? && e.commodityExists && e.producer.volume == ToReal(made)
    requires f.CreateConversion? && f.user == e.user && plan == PlanConversion(states[1].balances, f.user, f.conversion)
    requires var c := e.producer.commodity;
             plan.Planned? && c in plan.inputs && plan.inputs[c] == ToReal(used) && c in plan.outputs && plan.outputs[c] == ToReal(got)
    ensures var a := Account(e.user, e.producer.commodity);
            Balance(states[2].balances, a) == made - used && Booked(states[2].txs, a) == made - used + got
  {
    var a := Account(e.user, e.producer.commodity);
    TwoStepsDeviate(round, e, f, states, a);
    assert states[1] == Apply(round, states[0], e) && states[2] == Apply(round, states[1], f);
    HarvestedBalance(round, e, made);
    OverlapDebits(round, states[1], f, states[2], plan, a.commodity, used);
    RoundIsExact(round, got);
    assert Deviation(states[0], a) == 0;
  }

  /** From 10 units, turning 4 into 3 of the same commodity leaves 6 where the rows book 9. */
  lemma OverlappingRecipeLosesOutput(round: Rounding) returns (states: seq<Ledger>)
    requires RoundsToNearest(round)
    ensures IsRun(round, [HARVEST, SORT], states)
    ensures Balance(states[2].balances, Account(ALICE, COCOA)) == 600
    ensures Booked(states[2].txs, Account(ALICE, COCOA)) == 900
  {
    var s := Apply(round, EMPTY_LEDGER, HARVEST);
    HarvestGivesTen(round);
    SortingIsPlanned(s.balances);
    SortingIsFresh(s.txs);
    states := RunOfTwo(round, HARVEST, SORT);
    assert 10.0 == ToReal(1000) && 4.0 == ToReal(400) && 3.0 == ToReal(300);
    OverlapLosesOutput(round, HARVEST, SORT, states, Planned(map[COCOA := 4.0], map[COCOA := 3.0]), 1000, 400, 300);
  }

  // ---- ties ----

  /** Both half-even and half-away-from-zero treat a number and its opposite alike. */
  ghost predicate IsSymmetric(round: Rounding) {
    forall x: real :: round(-x) == -round(x)
  }

  const GRAIN: Event :=
    Event.CreateProducer(ALICE, ProducerRequest(COCOA, 0.01, true, None, None, None), true, 0, 0)

  const HALF_RECIPE: Recipe := Recipe(map[COCOA := 0.005], map[BUTTER := 1.0])

  const HALVE: Event :=
    Event.CreateConversion(ALICE, ConversionRequest(Some(HALF_RECIPE), map[], map[]), 0, map[1 := COCOA], map[2 := BUTTER], 0)

  /** Taking half a hundredth from a hundredth: the balance keeps what rounding a half gives, and
      the leg books the opposite of it. */
  lemma HalfSlips(round: Rounding)
    requires RoundsToNearest(round) && IsSymmetric(round)
    ensures Slip(round, 1, -0.005) == 2 * round(0.005) - 1
    ensures Slip(round, 1, -0.005) in {-1, 1}
  {
    assert ToReal(1) + -0.005 == 0.005;
    assert round(-0.005) == -round(0.005);
    assert -0.5 <= round(0.005) as real - 100.0 * 0.005 <= 0.5;
  }

  lemma GrainIsOne(round: Rounding)
    requires RoundsToNearest(round)
    ensures var s := Apply(round, EMPTY_LEDGER, GRAIN);
            s.balances == map[Account(ALICE, COCOA) := 1] && s.txs.Keys == {0} && s.txs[0].group.None?
  {
    RoundIsExact(round, 1);
    assert ToReal(0) + 0.01 == ToReal(1);
  }

  lemma HalvingIsPlanned(balances: Balances)
    requires balances == map[Account(ALICE, COCOA) := 1]
    ensures PlanConversion(balances, ALICE, HALVE.conversion) == Planned(map[COCOA := 0.005], map[BUTTER := 1.0])
  {
    assert Effective(HALF_RECIPE.inputs, map[]) == map[COCOA := 0.005];
    assert Effective(HALF_RECIPE.outputs, map[]) == map[BUTTER := 1.0];
    assert COCOA in HALF_RECIPE.inputs && Quantity(HALF_RECIPE.inputs, map[], COCOA) != 0.0;
    assert ToReal(1) >= 0.005;
  }

  lemma HalvingIsFresh(txs: Table)
    requires txs.Keys == {0} && txs[0].group.None?
    ensures FreshLegs(txs, map[COCOA := 0.005], map[BUTTER := 1.0], 0, map[1 := COCOA], map[2 := BUTTER])
  {
    OneId(1, COCOA);
    OneId(2, BUTTER);
  }

  /** Under every symmetric rounding a tie drifts: when a hundredth was produced and half of it
      converted into something else, the balance is a hundredth off its rows, although no credit
      was lost. */
  lemma TieDrifts(round: Rounding, e: Event, f: Event, states: seq<Ledger>, plan: Plan)
    requires RoundsToNearest(round) && IsSymmetric(round) && IsRun(round, [e, f], states)
    requires e.CreateProducer? && e.commodityExists && e.producer.volume == 0.01
    requires f.CreateConversion? && f.user == e.user && plan == PlanConversion(states[1].balances, f.user, f.conversion)
    requires var c := e.producer.commodity; plan.Planned? && c in plan.inputs && plan.inputs[c] == 0.005 && c !in plan.outputs
    ensures Deviation(states[2], Account(e.user, e.producer.commodity)) in {-1, 1} && !LedgerEquation(states[2])
  {
    var a := Account(e.user, e.producer.commodity);
    TwoStepsDeviate(round, e, f, states, a);
    assert states[1] == Apply(round, states[0], e) && 0.01 == ToReal(1);
    HarvestedBalance(round, e, 1);
    HalfSlips(round);
    assert Deviation(states[0], a) == 0;
  }

  /** There is such a run. */
  lemma TieDriftsInARun(round: Rounding) returns (states: seq<Ledger>)
    requires RoundsToNearest(round) && IsSymmetric(round)
    ensures IsRun(round, [GRAIN, HALVE], states) && !LedgerEquation(states[2])
  {
    var s := Apply(round, EMPTY_LEDGER, GRAIN);
    GrainIsOne(round);
    HalvingIsPlanned(s.balances);
    HalvingIsFresh(s.txs);
    states := RunOfTwo(round, GRAIN, HALVE);
    TieDrifts(round, GRAIN, HALVE, states, Planned(map[COCOA := 0.005], map[BUTTER := 1.0]));
  }
}
