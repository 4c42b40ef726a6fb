/** What every step keeps about single rows, and what no later step changes. */
module Lifecycle {
  import opened Domain
  import opened Mappers
  import opened Seasons
  import opened Ledgers
  import opened ChainGraph

  /** The shape of every stored row: an expiry exactly while pending, a level exactly when
      accepted, parties and group as the kind prescribes. */
  ghost predicate RowOk(t: Transaction) {
    && (t.expiresAt.Some? <==> t.status.Pending?)
    && (t.traceability.Some? <==> t.status.Accepted?)
    && match t.kind
       case Producer =>
         && t.status.Accepted? && t.group.None? && t.seller.None? && t.buyer == Some(t.createdBy)
         && (t.isAutomatic ==> t.traceability == Some(Incomplete))
       case Downstream =>
         && t.group.None? && t.seller != t.buyer
         && (t.seller == Some(t.createdBy) || t.buyer == Some(t.createdBy))
         && (t.status.Accepted? ==> t.seller.Some? && t.buyer.Some?)
       case Conversion =>
         && t.status.Accepted? && t.group.Some?
         && ((t.seller == Some(t.createdBy) && t.buyer.None?) || (t.seller.None? && t.buyer == Some(t.createdBy)))
  }

  ghost predicate RowsOk(txs: Table) {
    forall i :: i in txs ==> RowOk(txs[i])
  }

  /** The acceptance record covers exactly the accepted rows, and the legs of one conversion
      share owner, level and moment. */
  ghost predicate RecordOk(s: Ledger) {
    && (forall i :: i in s.acceptedAt <==> i in s.txs && s.txs[i].status.Accepted?)
    && (forall i :: i in s.acceptedAt ==> s.acceptedAt[i] < s.clock)
    && (forall i, j :: Grouped(s.txs, i, s.txs, j) ==> SameConversion(s, i, j))
  }

  /** The two rows carry the same group id. */
  ghost predicate Grouped(txs: Table, i: TransactionId, txs': Table, j: TransactionId) {
    i in txs && j in txs' && txs[i].group.Some? && txs[i].group == txs'[j].group
  }

  ghost predicate SameConversion(s: Ledger, i: TransactionId, j: TransactionId)
    requires i in s.txs && j in s.txs
  {
    && s.txs[i].createdBy == s.txs[j].createdBy
    && s.txs[i].traceability == s.txs[j].traceability
    && i in s.acceptedAt && j in s.acceptedAt && s.acceptedAt[i] == s.acceptedAt[j]
  }

  ghost predicate Consistent(s: Ledger) {
    RowsOk(s.txs) && RecordOk(s)
  }

  /** The columns no step ever writes again, and the ones frozen once a row is decided. */
  ghost predicate Preserved(t: Transaction, t': Transaction) {
    && t'.kind == t.kind && t'.group == t.group && t'.commodity == t.commodity && t'.volume == t.volume
    && t'.seller == t.seller && t'.buyer == t.buyer && t'.createdBy == t.createdBy && t'.isAutomatic == t.isAutomatic
    && (!t.status.Pending? ==>
          t'.status == t.status && t'.traceability == t.traceability && t'.expiresAt == t.expiresAt)
  }

  /** How a ledger may grow: rows persist, acceptance records persist and newer ones are
      later, and a group id is never reused. */
  ghost predicate Extends(s: Ledger, s': Ledger) {
    && s.clock <= s'.clock
    && (forall i :: i in s.txs ==> i in s'.txs && Preserved(s.txs[i], s'.txs[i]))
    && (forall i :: i in s.acceptedAt ==> i in s'.acceptedAt && s'.acceptedAt[i] == s.acceptedAt[i])
    && (forall i :: i in s'.acceptedAt && i !in s.acceptedAt ==> s.clock <= s'.acceptedAt[i])
    && (forall i, j :: i !in s.txs ==> !Grouped(s'.txs, i, s.txs, j))
  }

  /** A row that a step rewrites in place keeps its shape and its acceptance. */
  ghost predicate Rewritten(t: Transaction, t': Transaction) {
    RowOk(t') && Preserved(t, t') && (t'.status.Accepted? <==> t.status.Accepted?)
  }

  /** Rewriting rows in place: reject, expire, geodata and seasons. */
  lemma RewriteKeepsConsistent(s: Ledger, txs: Table)
    requires Consistent(s)
    requires txs.Keys == s.txs.Keys
    requires forall i :: i in txs ==> Rewritten(s.txs[i], txs[i])
    ensures Consistent(s.(txs := txs)) && Extends(s, s.(txs := txs))
  {
    var s' := s.(txs := txs);
    forall i, j | Grouped(txs, i, txs, j) ensures SameConversion(s', i, j) {
      assert Grouped(s.txs, i, s.txs, j);
    }
  }

  /** Adding rows under fresh ids, all accepted now or none: producers, automatic producers,
      pending sales and the legs of a conversion. */
  ghost predicate Additions(s: Ledger, rows: Table, s': Ledger) {
    && rows.Keys !! s.txs.Keys
    && s'.txs == s.txs + rows
    && (forall i :: i in rows ==> RowOk(rows[i]))
    && (forall i, j :: !Grouped(rows, i, s.txs, j))
    && (forall i, j :: Grouped(rows, i, rows, j) ==>
          rows[i].createdBy == rows[j].createdBy && rows[i].traceability == rows[j].traceability)
    && (|| ((forall i :: i in rows ==> rows[i].status.Accepted?) && s'.clock == s.clock + 1
            && s'.acceptedAt == Stamp(s.acceptedAt, rows.Keys, s.clock))
        || ((forall i :: i in rows ==> rows[i].status.Pending?) && s'.clock == s.clock && s'.acceptedAt == s.acceptedAt))
  }

  lemma AdditionsExtend(s: Ledger, rows: Table, s': Ledger)
    requires Consistent(s) && Additions(s, rows, s')
    ensures Extends(s, s')
  {
    StampKeepsPast(s, rows.Keys);
    forall i, j | i !in s.txs ensures !Grouped(s'.txs, i, s.txs, j) {
      assert !Grouped(rows, i, s.txs, j);
    }
  }

  lemma StampKeepsPast(s: Ledger, ids: set<TransactionId>)
    requires Consistent(s) && forall i :: i in ids ==> i !in s.txs || !s.txs[i].status.Accepted?
    ensures var stamped := Stamp(s.acceptedAt, ids, s.clock);
            && (forall i :: i in s.acceptedAt ==> i in stamped && stamped[i] == s.acceptedAt[i])
            && (forall i :: i in stamped && i !in s.acceptedAt ==> stamped[i] == s.clock)
  {
  }

  lemma AdditionsKeepGroups(s: Ledger, rows: Table, s': Ledger, i: TransactionId, j: TransactionId)
    requires Consistent(s) && Additions(s, rows, s')
    requires Grouped(s'.txs, i, s'.txs, j)
    ensures SameConversion(s', i, j)
  {
    assert !Grouped(rows, i, s.txs, j) && !Grouped(rows, j, s.txs, i);
    if i in rows {
      assert Grouped(rows, i, rows, j) && RowOk(rows[i]) && RowOk(rows[j]);
    } else {
      assert Grouped(s.txs, i, s.txs, j);
    }
  }

  lemma AdditionsKeepConsistent(s: Ledger, rows: Table, s': Ledger)
    requires Consistent(s) && Additions(s, rows, s')
    ensures Consistent(s') && Extends(s, s')
  {
    AdditionsExtend(s, rows, s');
    forall i, j | Grouped(s'.txs, i, s'.txs, j) ensures SameConversion(s', i, j) {
      AdditionsKeepGroups(s, rows, s', i, j);
    }
  }

  /** Deciding one pending sale. */
  ghost predicate Settles(s: Ledger, id: TransactionId, level: Traceability, s': Ledger) {
    && id in s.txs && s.txs[id].kind.Downstream? && s.txs[id].status.Pending?
    && s.txs[id].seller.Some? && s.txs[id].buyer.Some?
    && s'.txs == s.txs[id := AcceptedRow(s.txs[id], level)]
    && s'.acceptedAt == Stamp(s.acceptedAt, {id}, s.clock) && s'.clock == s.clock + 1
  }

  lemma SettlingExtends(s: Ledger, id: TransactionId, level: Traceability, s': Ledger)
    requires Consistent(s) && Settles(s, id, level, s')
    ensures Extends(s, s')
  {
    StampKeepsPast(s, {id});
  }

  lemma SettlingKeepsConsistent(s: Ledger, id: TransactionId, level: Traceability, s': Ledger)
    requires Consistent(s) && Settles(s, id, level, s')
    ensures Consistent(s')
  {
    assert RowOk(s.txs[id]);
    forall i, j | Grouped(s'.txs, i, s'.txs, j) ensures SameConversion(s', i, j) {
      assert Grouped(s.txs, i, s.txs, j);
    }
  }

  lemma ExtendsIsTransitive(s: Ledger, s': Ledger, s'': Ledger)
    requires Extends(s, s') && Extends(s', s'')
    ensures Extends(s, s'')
  {
    forall i | i in s.txs ensures i in s''.txs && Preserved(s.txs[i], s''.txs[i]) {
      assert Preserved(s.txs[i], s'.txs[i]) && Preserved(s'.txs[i], s''.txs[i]);
    }
    forall i, j | i !in s.txs ensures !Grouped(s''.txs, i, s.txs, j) {
      assert j in s.txs ==> Preserved(s.txs[j], s'.txs[j]);
      assert i in s'.txs ==> Preserved(s'.txs[i], s''.txs[i]);
      assert !Grouped(s'.txs, i, s.txs, j);
      assert i !in s'.txs ==> !Grouped(s''.txs, i, s'.txs, j);
    }
  }

  /** The other party accepts: the creator is one side of the sale, the acceptor the other. */
  lemma AcceptedByTheOtherParty(txs: Table, user: UserId, id: TransactionId, now: Time)
    requires RowsOk(txs) && IsIncoming(txs, user, id, now, false)
    ensures txs[id].seller.Some? && txs[id].buyer.Some?
    ensures txs[id].createdBy != user
    ensures {txs[id].seller.value, txs[id].buyer.value} == {txs[id].createdBy, user}
  {
    assert RowOk(txs[id]);
  }

  lemma FundingIsAddition(s: Ledger, t: Transaction, automaticId: TransactionId, now: Time)
    requires Consistent(s) && automaticId !in s.txs
    ensures Consistent(Funded(s, t, automaticId, now)) && Extends(s, Funded(s, t, automaticId, now))
  {
    var missing := Shortfall(s.balances, t);
    if missing != 0 && t.seller.Some? {
      var row := ToAutomaticTransaction(t.seller.value, t.commodity, -missing, now);
      var funded := Funded(s, t, automaticId, now);
      var rows := map[automaticId := row];
      assert rows.Keys == {automaticId};
      AdditionsKeepConsistent(s, rows, funded);
    }
  }

  /** Accepting is funding, then deciding the sale at the level computed after the funding. */
  lemma AcceptSettles(s: Ledger, user: UserId, id: TransactionId, automaticId: TransactionId, now: Time)
    requires Consistent(s) && automaticId !in s.txs && IsIncoming(s.txs, user, id, now, false)
    ensures var funded := Funded(s, s.txs[id], automaticId, now);
            var level := DownstreamTraceability(funded.txs, s.txs[id].seller, s.txs[id].commodity);
            && Consistent(funded) && Extends(s, funded)
            && id in funded.txs && funded.txs[id] == s.txs[id]
            && (level.Some? ==> Settles(funded, id, level.value, Settled(s, id, automaticId, now)))
  {
    FundingIsAddition(s, s.txs[id], automaticId, now);
    AcceptedByTheOtherParty(s.txs, user, id, now);
  }

  lemma AcceptKeepsConsistent(s: Ledger, user: UserId, id: TransactionId, automaticId: TransactionId, now: Time)
    requires Consistent(s) && automaticId !in s.txs && IsIncoming(s.txs, user, id, now, false)
    ensures Consistent(Settled(s, id, automaticId, now)) && Extends(s, Settled(s, id, automaticId, now))
  {
    var t := s.txs[id];
    var funded := Funded(s, t, automaticId, now);
    AcceptSettles(s, user, id, automaticId, now);
    match DownstreamTraceability(funded.txs, t.seller, t.commodity)
    case None =>
    case Some(level) =>
      var s' := Settled(s, id, automaticId, now);
      SettlingKeepsConsistent(funded, id, level, s');
      SettlingExtends(funded, id, level, s');
      ExtendsIsTransitive(s, funded, s');
  }

  ghost predicate LegOk(t: Transaction, group: GroupId, user: UserId, level: Traceability) {
    && RowOk(t) && t.kind.Conversion? && t.group == Some(group) && t.createdBy == user
    && t.traceability == Some(level) && t.status.Accepted?
  }

  lemma LegsAreOk(round: Rounding, user: UserId, quantities: map<CommodityId, real>, ids: map<TransactionId, CommodityId>,
                  level: Traceability, isInput: bool, group: GroupId, now: Time)
    requires ids.Values <= quantities.Keys
    ensures var legs := Legs(round, user, quantities, ids, level, isInput, group, now);
            forall i :: i in legs ==>
                 && LegOk(legs[i], group, user, level)
                 && legs[i].commodity == ids[i]
                 && (if isInput then IsInputLeg(legs[i]) else IsOutputLeg(legs[i]))
  {
  }

  function InputCommodities(txs: Table, group: Option<GroupId>): set<CommodityId> {
    set j | j in txs && IsInputLeg(txs[j]) && txs[j].group == group :: txs[j].commodity
  }

  function OutputCommodities(txs: Table, group: Option<GroupId>): set<CommodityId> {
    set j | j in txs && IsOutputLeg(txs[j]) && txs[j].group == group :: txs[j].commodity
  }

  /** The legs of one conversion from the commodities `from` to the commodities `to`. */
  ghost predicate ConversionLegs(legs: Table, user: UserId, from: set<CommodityId>, to: set<CommodityId>, group: GroupId,
                                 level: Traceability)
  {
    && (forall i :: i in legs ==> LegOk(legs[i], group, user, level))
    && InputCommodities(legs, Some(group)) == from
    && OutputCommodities(legs, Some(group)) == to
  }

  /** `s'` is `s` with the legs of one conversion under fresh ids and a fresh group. */
  ghost predicate AddsConversion(s: Ledger, user: UserId, from: set<CommodityId>, to: set<CommodityId>, group: GroupId,
                                 level: Traceability, legs: Table, s': Ledger)
  {
    && legs.Keys !! s.txs.Keys
    && s'.txs == s.txs + legs
    && s'.acceptedAt == Stamp(s.acceptedAt, legs.Keys, s.clock) && s'.clock == s.clock + 1
    && (forall i :: i in s.txs ==> s.txs[i].group != Some(group))
    && ConversionLegs(legs, user, from, to, group, level)
  }

  lemma LegCommodities(legs: Table, ids: map<TransactionId, CommodityId>, isInput: bool, group: GroupId, user: UserId, level: Traceability)
    requires legs.Keys == ids.Keys
    requires forall i :: i in legs ==> LegOk(legs[i], group, user, level) && legs[i].commodity == ids[i]
                                       && (if isInput then IsInputLeg(legs[i]) else IsOutputLeg(legs[i]))
    ensures InputCommodities(legs, Some(group)) == if isInput then ids.Values else {}
    ensures OutputCommodities(legs, Some(group)) == if isInput then {} else ids.Values
  {
    forall c | c in ids.Values ensures exists i :: i in legs && legs[i].commodity == c {
      var i :| i in ids && ids[i] == c;
      assert i in legs;
    }
    assert forall i :: i in legs ==> (IsInputLeg(legs[i]) <==> isInput) && (IsOutputLeg(legs[i]) <==> !isInput);
  }

  lemma LegsAreConversionLegs(round: Rounding, user: UserId, quantities: map<CommodityId, real>, ids: map<TransactionId, CommodityId>,
                              level: Traceability, isInput: bool, group: GroupId, now: Time)
    requires IdsFor(ids, quantities)
    ensures ConversionLegs(Legs(round, user, quantities, ids, level, isInput, group, now), user,
                           if isInput then quantities.Keys else {}, if isInput then {} else quantities.Keys, group, level)
  {
    LegsAreOk(round, user, quantities, ids, level, isInput, group, now);
    LegCommodities(Legs(round, user, quantities, ids, level, isInput, group, now), ids, isInput, group, user, level);
  }

  lemma UnionOfLegs(a: Table, b: Table, user: UserId, from: set<CommodityId>, to: set<CommodityId>, group: GroupId, level: Traceability)
    requires a.Keys !! b.Keys
    requires ConversionLegs(a, user, from, {}, group, level) && ConversionLegs(b, user, {}, to, group, level)
    ensures ConversionLegs(a + b, user, from, to, group, level)
  {
    assert forall j :: j in a ==> (a + b)[j] == a[j];
    assert forall j :: j in b ==> (a + b)[j] == b[j];
    assert InputCommodities(a + b, Some(group)) == InputCommodities(a, Some(group)) + InputCommodities(b, Some(group));
    assert OutputCommodities(a + b, Some(group)) == OutputCommodities(a, Some(group)) + OutputCommodities(b, Some(group));
  }

  lemma ConvertedAddsConversion(round: Rounding, s: Ledger, user: UserId, inputs: map<CommodityId, real>,
                                outputs: map<CommodityId, real>, group: GroupId, inputIds: map<TransactionId, CommodityId>,
                                outputIds: map<TransactionId, CommodityId>, now: Time)
    requires FreshLegs(s.txs, inputs, outputs, group, inputIds, outputIds)
    ensures var level := ConversionTraceability(s.txs, user, inputs.Keys);
            AddsConversion(s, user, inputs.Keys, outputs.Keys, group, level,
                           AllLegs(round, user, inputs, outputs, level, group, inputIds, outputIds, now),
                           Converted(round, s, user, inputs, outputs, group, inputIds, outputIds, now))
  {
    var level := ConversionTraceability(s.txs, user, inputs.Keys);
    LegsAreConversionLegs(round, user, inputs, inputIds, level, true, group, now);
    LegsAreConversionLegs(round, user, outputs, outputIds, level, false, group, now);
    UnionOfLegs(Legs(round, user, inputs, inputIds, level, true, group, now),
                Legs(round, user, outputs, outputIds, level, false, group, now),
                user, inputs.Keys, outputs.Keys, group, level);
  }

  lemma PlannedIsPayable(s: Ledger, user: UserId, request: ConversionRequest)
    requires PlanConversion(s.balances, user, request).Planned?
    ensures var plan := PlanConversion(s.balances, user, request);
            && CanPay(s.balances, user, plan.inputs)
            && (forall c :: c in plan.inputs ==> plan.inputs[c] > 0.0)
            && (forall c :: c in plan.outputs ==> plan.outputs[c] > 0.0)
  {
  }

  lemma AppliedConversion(round: Rounding, s: Ledger, e: Event, s': Ledger)
    requires e.CreateConversion? && Fresh(s, e) && s' == Apply(round, s, e) && s' != s
    ensures var plan := PlanConversion(s.balances, e.user, e.conversion);
            && plan.Planned?
            && FreshLegs(s.txs, plan.inputs, plan.outputs, e.group, e.inputIds, e.outputIds)
            && s' == Converted(round, s, e.user, plan.inputs, plan.outputs, e.group, e.inputIds, e.outputIds, e.now)
  {
  }

  /** A conversion that changes anything was planned, paid for and gave every leg a fresh id. */
  lemma ConversionCase(round: Rounding, s: Ledger, e: Event, s': Ledger)
    returns (inputs: map<CommodityId, real>, outputs: map<CommodityId, real>)
    requires e.CreateConversion? && Fresh(s, e) && s' == Apply(round, s, e) && s' != s
    ensures PlanConversion(s.balances, e.user, e.conversion) == Planned(inputs, outputs)
    ensures CanPay(s.balances, e.user, inputs)
    ensures forall c :: c in inputs ==> inputs[c] > 0.0
    ensures forall c :: c in outputs ==> outputs[c] > 0.0
    ensures FreshLegs(s.txs, inputs, outputs, e.group, e.inputIds, e.outputIds)
    ensures s' == Converted(round, s, e.user, inputs, outputs, e.group, e.inputIds, e.outputIds, e.now)
  {
    AppliedConversion(round, s, e, s');
    PlannedIsPayable(s, e.user, e.conversion);
    var plan := PlanConversion(s.balances, e.user, e.conversion);
    return plan.inputs, plan.outputs;
  }

  lemma ConversionKeepsConsistent(s: Ledger, user: UserId, from: set<CommodityId>, to: set<CommodityId>, group: GroupId,
                                  level: Traceability, legs: Table, s': Ledger)
    requires Consistent(s) && AddsConversion(s, user, from, to, group, level, legs, s')
    ensures Consistent(s') && Extends(s, s')
  {
    AdditionsKeepConsistent(s, legs, s');
  }

  lemma ProducedKeepsConsistent(round: Rounding, s: Ledger, user: UserId, request: ProducerRequest, id: TransactionId, now: Time)
    requires Consistent(s) && id !in s.txs
    ensures var s' := Produced(round, s, user, request, id, now); Consistent(s') && Extends(s, s')
  {
    var s' := Produced(round, s, user, request, id, now);
    var rows := map[id := FromProducerRequest(round, user, request, now)];
    assert rows.Keys == {id};
    AdditionsKeepConsistent(s, rows, s');
  }

  lemma PendingKeepsConsistent(round: Rounding, s: Ledger, user: UserId, recipient: Option<UserId>,
                               request: DownstreamRequest, id: TransactionId, now: Time, lifetime: Time)
    requires Consistent(s) && id !in s.txs && recipient != Some(user)
    ensures var s' := s.(txs := s.txs[id := FromDownstreamRequest(round, user, recipient, request, now, lifetime)]);
            Consistent(s') && Extends(s, s')
  {
    var rows := map[id := FromDownstreamRequest(round, user, recipient, request, now, lifetime)];
    AdditionsKeepConsistent(s, rows, s.(txs := s.txs + rows));
    assert s.txs + rows == s.txs[id := rows[id]];
  }

  lemma RejectingKeepsConsistent(s: Ledger, user: UserId, id: TransactionId, now: Time)
    requires Consistent(s) && IsIncoming(s.txs, user, id, now, true)
    ensures var s' := s.(txs := s.txs[id := RejectedRow(s.txs[id])]); Consistent(s') && Extends(s, s')
  {
    assert RowOk(s.txs[id]);
    RewriteKeepsConsistent(s, s.txs[id := RejectedRow(s.txs[id])]);
  }

  /** Expiry looks at the time only, yet it never touches a decided row. */
  lemma ExpiryKeepsConsistent(s: Ledger, now: Time)
    requires Consistent(s)
    ensures var s' := s.(txs := Expired(s.txs, now)); Consistent(s') && Extends(s, s')
  {
    forall i | i in s.txs ensures Rewritten(s.txs[i], ExpiredRow(s.txs[i], now)) {
      assert RowOk(s.txs[i]);
    }
    RewriteKeepsConsistent(s, Expired(s.txs, now));
  }

  lemma SeasonsKeepConsistent(s: Ledger, seasons: seq<Season>)
    requires Consistent(s)
    ensures var s' := s.(txs := AssignSeasons(s.txs, seasons)); Consistent(s') && Extends(s, s')
  {
    forall i | i in s.txs ensures Rewritten(s.txs[i], AssignSeasons(s.txs, seasons)[i]) {
      assert RowOk(s.txs[i]);
    }
    RewriteKeepsConsistent(s, AssignSeasons(s.txs, seasons));
  }

  lemma GeodataKeepsConsistent(s: Ledger, id: TransactionId, location: Location)
    requires Consistent(s) && id in s.txs
    ensures var s' := s.(txs := s.txs[id := s.txs[id].(location := Some(location))]); Consistent(s') && Extends(s, s')
  {
    assert RowOk(s.txs[id]);
    RewriteKeepsConsistent(s, s.txs[id := s.txs[id].(location := Some(location))]);
  }

  /** Every step keeps the shape of all rows and only extends the ledger. */
  lemma StepKeepsConsistent(round: Rounding, s: Ledger, e: Event, s': Ledger)
    requires Consistent(s) && Fresh(s, e) && s' == Apply(round, s, e)
    ensures Consistent(s') && Extends(s, s')
  {
    if s' == s {
    } else {
      match e
      case CreateProducer(user, request, _, id, now) =>
        ProducedKeepsConsistent(round, s, user, request, id, now);
      case CreateDownstream(user, request, _, recipient, id, now, lifetime) =>
        PendingKeepsConsistent(round, s, user, recipient.user, request, id, now, lifetime);
      case Accept(user, id, automaticId, now) =>
        AcceptKeepsConsistent(s, user, id, automaticId, now);
      case Reject(user, id, now) =>
        RejectingKeepsConsistent(s, user, id, now);
      case CreateConversion(user, request, group, inputIds, outputIds, now) =>
        var plan := PlanConversion(s.balances, user, request);
        var level := ConversionTraceability(s.txs, user, plan.inputs.Keys);
        ConvertedAddsConversion(round, s, user, plan.inputs, plan.outputs, group, inputIds, outputIds, now);
        ConversionKeepsConsistent(s, user, plan.inputs.Keys, plan.outputs.Keys, group, level,
          AllLegs(round, user, plan.inputs, plan.outputs, level, group, inputIds, outputIds, now), s');
      case UpdateGeodata(user, id, location, _) =>
        GeodataKeepsConsistent(s, id, location);
      case Expire(now) =>
        ExpiryKeepsConsistent(s, now);
      case DistributeSeasons(seasons, _) =>
        SeasonsKeepConsistent(s, seasons);
    }
  }

  lemma {:induction false} RunIsConsistent(round: Rounding, events: seq<Event>, states: seq<Ledger>)
    requires IsRun(round, events, states)
    ensures Consistent(states[|events|])
    decreases |events|
  {
    if events != [] {
      RunPrefix(round, events, states);
      RunIsConsistent(round, events[..|events| - 1], states[..|events|]);
      StepKeepsConsistent(round, states[|events| - 1], events[|events| - 1], states[|events|]);
    }
  }

  /** Every state along a run is consistent, and every event takes its step. */
  lemma {:induction false} StepOfRun(round: Rounding, events: seq<Event>, states: seq<Ledger>, k: nat)
    requires IsRun(round, events, states) && k < |events|
    ensures Consistent(states[k]) && Fresh(states[k], events[k]) && states[k + 1] == Apply(round, states[k], events[k])
    decreases k
  {
    if k > 0 {
      StepOfRun(round, events, states, k - 1);
      StepKeepsConsistent(round, states[k - 1], events[k - 1], states[k - 1 + 1]);
    }
  }

  /** Although expiry filters on time alone, it closes exactly the due pending rows and leaves
      none due behind. */
  lemma ExpiryClosesExactlyDuePendingRows(s: Ledger, now: Time)
    requires Consistent(s)
    ensures var txs' := Expired(s.txs, now);
            && txs'.Keys == s.txs.Keys
            && (forall i :: i in s.txs ==> !IsDue(txs'[i], now))
            && (forall i :: i in s.txs && s.txs[i].status.Pending? && IsDue(s.txs[i], now) ==>
                  txs'[i] == s.txs[i].(status := NoResponse, expiresAt := None))
            && (forall i :: i in s.txs && !(s.txs[i].status.Pending? && IsDue(s.txs[i], now)) ==> txs'[i] == s.txs[i])
  {
    forall i | i in s.txs ensures IsDue(s.txs[i], now) ==> s.txs[i].status.Pending? {
      assert RowOk(s.txs[i]);
    }
  }
}
