/** The ledger as a state machine: one event per service call, each call atomic. */
module Ledgers {
  import opened Domain
  import opened Mappers
  import opened Seasons

  datatype Account = Account(user: UserId, commodity: CommodityId)

  type Balances = map<Account, int>

  /** Transactions and balances, and a record of when each accepted row was accepted. The
      record belongs to the model only: no step reads it. */
  datatype Ledger = Ledger(txs: Table, balances: Balances, acceptedAt: map<TransactionId, nat>, clock: nat)

  /** Records that the given rows were accepted at one moment. */
  function Stamp(acceptedAt: map<TransactionId, nat>, ids: set<TransactionId>, moment: nat): map<TransactionId, nat> {
    acceptedAt + map i | i in ids :: moment
  }

  const EMPTY_LEDGER := Ledger(map[], map[], map[], 0)

  datatype Error =
    | NotFound
    | RecipientConflict
    | RecipeNotFound
    | InvalidRecipeOverride
    | AtLeastOneInputRequired
    | InsufficientBalance
    | LocationFileUpload
    | MinimumOfNothing

  datatype Result<+T> = Success(value: T) | Failure(error: Error)

  /** The outcome of looking up the other party of a request. */
  datatype Recipient = Unknown | Known(user: Option<UserId>)

  datatype Recipe = Recipe(inputs: map<CommodityId, real>, outputs: map<CommodityId, real>)

  datatype ConversionRequest = ConversionRequest(
    recipe: Option<Recipe>,
    inputOverrides: map<CommodityId, real>,
    outputOverrides: map<CommodityId, real>)

  datatype Event =
    | CreateProducer(user: UserId, producer: ProducerRequest, commodityExists: bool, id: TransactionId, now: Time)
    | CreateDownstream(user: UserId, downstream: DownstreamRequest, commodityExists: bool, recipient: Recipient,
                       id: TransactionId, now: Time, lifetime: Time)
    | Accept(user: UserId, id: TransactionId, automaticId: TransactionId, now: Time)
    | Reject(user: UserId, id: TransactionId, now: Time)
    | CreateConversion(user: UserId, conversion: ConversionRequest, group: GroupId,
                       inputIds: map<TransactionId, CommodityId>, outputIds: map<TransactionId, CommodityId>, now: Time)
    | UpdateGeodata(user: UserId, id: TransactionId, location: Location, uploaded: bool)
    | Expire(now: Time)
    | DistributeSeasons(seasons: seq<Season>, batchSize: nat)

  function Balance(balances: Balances, a: Account): int {
    if a in balances then balances[a] else 0
  }

  function ToReal(hundredths: int): real {
    hundredths as real / 100.0
  }

  // ---- create_producer ----

  function Produced(round: Rounding, s: Ledger, user: UserId, request: ProducerRequest, id: TransactionId, now: Time): Ledger {
    var a := Account(user, request.commodity);
    Ledger(s.txs[id := FromProducerRequest(round, user, request, now)],
           s.balances[a := round(ToReal(Balance(s.balances, a)) + request.volume)],
           Stamp(s.acceptedAt, {id}, s.clock),
           s.clock + 1)
  }

  // ---- create_downstream ----

  /** A downstream transaction is refused, or stored as pending. */
  function DownstreamRefusal(user: UserId, commodityExists: bool, recipient: Recipient): Option<Error> {
    if !commodityExists || recipient.Unknown? then Some(NotFound)
    else if recipient.user == Some(user) then Some(RecipientConflict)
    else None
  }

  // ---- accept and reject ----

  /** The guard of accept and reject. */
  predicate IsIncoming(txs: Table, user: UserId, id: TransactionId, now: Time, allowCreatedBy: bool) {
    && id in txs
    && (txs[id].buyer == Some(user) || txs[id].seller == Some(user))
    && (txs[id].expiresAt.Some? ==> now <= txs[id].expiresAt.value)
    && txs[id].kind.Downstream? && txs[id].status.Pending?
    && (!allowCreatedBy ==> txs[id].createdBy != user)
  }

  /** The level an accepted sale gets: the lowest among the seller's accepted purchases of the
      commodity, INCOMPLETE when there are none. `None` is the error of a minimum over rows
      that all lack a level. */
  function DownstreamTraceability(txs: Table, seller: Option<UserId>, commodity: CommodityId): Option<Traceability> {
    var purchases := Purchases(txs, seller, {commodity});
    if purchases == {} then Some(Incomplete)
    else if Levels(txs, purchases) == {} then None
    else Some(Lowest(Levels(txs, purchases)))
  }

  /** What the seller lacks; zero when the balance covers the sale. */
  function Shortfall(balances: Balances, t: Transaction): int {
    if t.seller.None? then 0
    else Max(0, t.volume - Balance(balances, Account(t.seller.value, t.commodity)))
  }

  /** Covers a shortfall with an automatic producer transaction. */
  function Funded(s: Ledger, t: Transaction, automaticId: TransactionId, now: Time): Ledger {
    var missing := Shortfall(s.balances, t);
    if missing == 0 || t.seller.None? then s
    else
      s.(txs := s.txs[automaticId := ToAutomaticTransaction(t.seller.value, t.commodity, -missing, now)],
         acceptedAt := Stamp(s.acceptedAt, {automaticId}, s.clock),
         clock := s.clock + 1)
  }

  /** Both balances are read first; the seller's is written before the buyer's. */
  function Traded(balances: Balances, t: Transaction): Balances {
    var debited :=
      if t.seller.None? then balances
      else
        var a := Account(t.seller.value, t.commodity);
        balances[a := Max(0, Balance(balances, a) - t.volume)];
    if t.buyer.None? then debited
    else
      var a := Account(t.buyer.value, t.commodity);
      debited[a := Balance(balances, a) + t.volume]
  }

  function AcceptedRow(t: Transaction, level: Traceability): Transaction {
    t.(status := Accepted, expiresAt := None, traceability := Some(level))
  }

  function Settled(s: Ledger, id: TransactionId, automaticId: TransactionId, now: Time): Ledger
    requires id in s.txs
  {
    var t := s.txs[id];
    var funded := Funded(s, t, automaticId, now);
    match DownstreamTraceability(funded.txs, t.seller, t.commodity)
    case None => s
    case Some(level) =>
      Ledger(funded.txs[id := AcceptedRow(t, level)], Traded(s.balances, t),
             Stamp(funded.acceptedAt, {id}, funded.clock), funded.clock + 1)
  }

  function RejectedRow(t: Transaction): Transaction {
    t.(status := Rejected, expiresAt := None)
  }

  // ---- create_conversion ----

  function Quantity(base: map<CommodityId, real>, overrides: map<CommodityId, real>, c: CommodityId): real
    requires c in base
  {
    if c in overrides then overrides[c] else base[c]
  }

  /** The overridden quantities, positive ones only. */
  function Effective(base: map<CommodityId, real>, overrides: map<CommodityId, real>): map<CommodityId, real> {
    map c | c in base && Quantity(base, overrides, c) > 0.0 :: Quantity(base, overrides, c)
  }

  predicate AllZero(base: map<CommodityId, real>, overrides: map<CommodityId, real>) {
    forall c :: c in base ==> Quantity(base, overrides, c) == 0.0
  }

  /** The level of every leg of a conversion. */
  function ConversionTraceability(txs: Table, user: UserId, commodities: set<CommodityId>): Traceability {
    var levels := Levels(txs, Purchases(txs, Some(user), commodities));
    if levels == {} then Incomplete else Lowest(levels)
  }

  predicate CanPay(balances: Balances, user: UserId, inputs: map<CommodityId, real>) {
    forall c :: c in inputs ==> Account(user, c) in balances && ToReal(balances[Account(user, c)]) >= inputs[c]
  }

  datatype Plan = Refused(error: Error) | Planned(inputs: map<CommodityId, real>, outputs: map<CommodityId, real>)

  /** Every check of a conversion, in the order in which it is made. */
  function PlanConversion(balances: Balances, user: UserId, request: ConversionRequest): Plan {
    if request.recipe.None? then Refused(RecipeNotFound)
    else
      var recipe := request.recipe.value;
      if !(request.inputOverrides.Keys <= recipe.inputs.Keys) || !(request.outputOverrides.Keys <= recipe.outputs.Keys)
      then Refused(InvalidRecipeOverride)
      else if AllZero(recipe.inputs, request.inputOverrides) then Refused(AtLeastOneInputRequired)
      else
        var inputs := Effective(recipe.inputs, request.inputOverrides);
        if !CanPay(balances, user, inputs) then Refused(InsufficientBalance)
        else Planned(inputs, Effective(recipe.outputs, request.outputOverrides))
  }

  /** One row per commodity, under the given fresh ids. */
  function Legs(round: Rounding, user: UserId, quantities: map<CommodityId, real>, ids: map<TransactionId, CommodityId>,
                level: Traceability, isInput: bool, group: GroupId, now: Time): (legs: Table)
    requires ids.Values <= quantities.Keys
    ensures legs.Keys == ids.Keys
  {
    map i | i in ids :: ToConversionTransaction(round, user, ids[i], quantities[ids[i]], level, isInput, group, now)
  }

  /** Debits and credits in one bulk update. A commodity on both sides appears in it twice,
      and the first entry, the debit, wins. */
  function ConvertedBalances(round: Rounding, balances: Balances, user: UserId,
                             inputs: map<CommodityId, real>, outputs: map<CommodityId, real>): Balances
  {
    map a | a in balances.Keys + (set c | c in outputs :: Account(user, c)) ::
      if a.user == user && a.commodity in inputs then round(ToReal(Balance(balances, a)) - inputs[a.commodity])
      else if a.user == user && a.commodity in outputs then round(ToReal(Balance(balances, a)) + outputs[a.commodity])
      else Balance(balances, a)
  }

  /** Each commodity gets exactly one of the ids. */
  ghost predicate IdsFor(ids: map<TransactionId, CommodityId>, quantities: map<CommodityId, real>) {
    && ids.Values == quantities.Keys
    && (forall i, j :: i in ids && j in ids && ids[i] == ids[j] ==> i == j)
  }

  /** The ids and the group id of a new conversion are unused, one id per leg. */
  ghost predicate FreshLegs(txs: Table, inputs: map<CommodityId, real>, outputs: map<CommodityId, real>, group: GroupId,
                            inputIds: map<TransactionId, CommodityId>, outputIds: map<TransactionId, CommodityId>)
  {
    && IdsFor(inputIds, inputs) && IdsFor(outputIds, outputs)
    && inputIds.Keys !! txs.Keys && outputIds.Keys !! txs.Keys && inputIds.Keys !! outputIds.Keys
    && forall i :: i in txs ==> txs[i].group != Some(group)
  }

  ghost function AllLegs(round: Rounding, user: UserId, inputs: map<CommodityId, real>, outputs: map<CommodityId, real>,
                         level: Traceability, group: GroupId, inputIds: map<TransactionId, CommodityId>,
                         outputIds: map<TransactionId, CommodityId>, now: Time): (legs: Table)
    requires IdsFor(inputIds, inputs) && IdsFor(outputIds, outputs)
    ensures legs.Keys == inputIds.Keys + outputIds.Keys
  {
    Legs(round, user, inputs, inputIds, level, true, group, now)
    + Legs(round, user, outputs, outputIds, level, false, group, now)
  }

  ghost function Converted(round: Rounding, s: Ledger, user: UserId, inputs: map<CommodityId, real>,
                           outputs: map<CommodityId, real>, group: GroupId, inputIds: map<TransactionId, CommodityId>,
                           outputIds: map<TransactionId, CommodityId>, now: Time): Ledger
    requires IdsFor(inputIds, inputs) && IdsFor(outputIds, outputs)
  {
    var level := ConversionTraceability(s.txs, user, inputs.Keys);
    Ledger(s.txs + AllLegs(round, user, inputs, outputs, level, group, inputIds, outputIds, now),
           ConvertedBalances(round, s.balances, user, inputs, outputs),
           Stamp(s.acceptedAt, inputIds.Keys + outputIds.Keys, s.clock),
           s.clock + 1)
  }

  // ---- update_geodata, expire_transactions ----

  predicate TakesPart(txs: Table, user: UserId, id: TransactionId) {
    id in txs && (txs[id].buyer == Some(user) || txs[id].seller == Some(user))
  }

  predicate IsDue(t: Transaction, now: Time) {
    t.expiresAt.Some? && t.expiresAt.value <= now
  }

  /** Selects on time alone, whatever the status. */
  function ExpiredRow(t: Transaction, now: Time): Transaction {
    if IsDue(t, now) then t.(status := NoResponse, expiresAt := None) else t
  }

  function Expired(txs: Table, now: Time): Table {
    map i | i in txs :: ExpiredRow(txs[i], now)
  }

  // ---- steps and runs ----

  /** New primary keys and group ids are unused. */
  ghost predicate Fresh(s: Ledger, e: Event) {
    match e
    case CreateProducer(_, _, _, id, _) => id !in s.txs
    case CreateDownstream(_, _, _, _, id, _, _) => id !in s.txs
    case Accept(_, _, automaticId, _) => automaticId !in s.txs
    case CreateConversion(user, request, group, inputIds, outputIds, _) =>
      var plan := PlanConversion(s.balances, user, request);
      plan.Planned? ==>
        FreshLegs(s.txs, plan.inputs, plan.outputs, group, inputIds, outputIds)
    case _ => true
  }

  ghost function Apply(round: Rounding, s: Ledger, e: Event): Ledger
    requires Fresh(s, e)
  {
    match e
    case CreateProducer(user, request, commodityExists, id, now) =>
      if commodityExists then Produced(round, s, user, request, id, now) else s
    case CreateDownstream(user, request, commodityExists, recipient, id, now, lifetime) =>
      if DownstreamRefusal(user, commodityExists, recipient).Some? then s
      else s.(txs := s.txs[id := FromDownstreamRequest(round, user, recipient.user, request, now, lifetime)])
    case Accept(user, id, automaticId, now) =>
      if IsIncoming(s.txs, user, id, now, false) then Settled(s, id, automaticId, now) else s
    case Reject(user, id, now) =>
      if IsIncoming(s.txs, user, id, now, true) then s.(txs := s.txs[id := RejectedRow(s.txs[id])]) else s
    case CreateConversion(user, request, group, inputIds, outputIds, now) =>
      var plan := PlanConversion(s.balances, user, request);
      if plan.Refused? then s
      else Converted(round, s, user, plan.inputs, plan.outputs, group, inputIds, outputIds, now)
    case UpdateGeodata(user, id, location, uploaded) =>
      if TakesPart(s.txs, user, id) && uploaded then s.(txs := s.txs[id := s.txs[id].(location := Some(location))]) else s
    case Expire(now) => s.(txs := Expired(s.txs, now))
    case DistributeSeasons(seasons, batchSize) =>
      if batchSize == 0 then s else s.(txs := AssignSeasons(s.txs, seasons))
  }

  lemma ConversionStep(round: Rounding, s: Ledger, e: Event)
    requires e.CreateConversion? && Fresh(s, e)
    ensures var plan := PlanConversion(s.balances, e.user, e.conversion);
            && (plan.Refused? ==> Apply(round, s, e) == s)
            && (plan.Planned? ==>
                  && FreshLegs(s.txs, plan.inputs, plan.outputs, e.group, e.inputIds, e.outputIds)
                  && CanPay(s.balances, e.user, plan.inputs)
                  && Apply(round, s, e)
                     == Converted(round, s, e.user, plan.inputs, plan.outputs, e.group, e.inputIds, e.outputIds, e.now))
  {
  }

  /** A run from the empty ledger: the states after each event. */
  ghost predicate IsRun(round: Rounding, events: seq<Event>, states: seq<Ledger>) {
    && |states| == |events| + 1
    && states[0] == EMPTY_LEDGER
    && forall k :: 0 <= k < |events| ==> Fresh(states[k], events[k]) && states[k + 1] == Apply(round, states[k], events[k])
  }

  lemma RunPrefix(round: Rounding, events: seq<Event>, states: seq<Ledger>)
    requires IsRun(round, events, states) && events != []
    ensures IsRun(round, events[..|events| - 1], states[..|events|])
    ensures Fresh(states[|events| - 1], events[|events| - 1])
    ensures states[|events|] == Apply(round, states[|events| - 1], events[|events| - 1])
  {
    var n := |events| - 1;
    assert states[..|events|][0] == states[0];
    forall k | 0 <= k < n
      ensures Fresh(states[..|events|][k], events[..n][k])
      ensures states[..|events|][k + 1] == Apply(round, states[..|events|][k], events[..n][k])
    {
      assert states[..|events|][k] == states[k] && states[..|events|][k + 1] == states[k + 1];
      assert events[..n][k] == events[k];
    }
  }
}
