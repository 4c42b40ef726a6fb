/** Who decides a pending sale, and what accepting one leaves behind. */
module Decisions {
  import opened Domain
  import opened Mappers
  import opened Ledgers
  import opened Lifecycle
  import opened Provenance

  /** On reachable states accepting never fails for want of a level. */
  lemma AcceptStoresALevel(s: Ledger, user: UserId, id: TransactionId, automaticId: TransactionId, now: Time)
    requires Consistent(s) && automaticId !in s.txs && IsIncoming(s.txs, user, id, now, false)
    ensures DownstreamTraceability(Funded(s, s.txs[id], automaticId, now).txs, s.txs[id].seller, s.txs[id].commodity).Some?
    ensures Settled(s, id, automaticId, now) != s
  {
    var t := s.txs[id];
    var funded := Funded(s, t, automaticId, now);
    AcceptSettles(s, user, id, automaticId, now);
    PurchasesHaveLevels(funded.txs, t.seller, {t.commodity});
    assert Settled(s, id, automaticId, now).txs[id].status.Accepted?;
  }

  // ---- what accepting leaves behind ----

  /** Only the two parties' balances of the commodity move. */
  lemma AcceptMovesBalances(s: Ledger, user: UserId, id: TransactionId, automaticId: TransactionId, now: Time, s': Ledger)
    requires Consistent(s) && automaticId !in s.txs && IsIncoming(s.txs, user, id, now, false)
    requires s' == Settled(s, id, automaticId, now)
    ensures var t := s.txs[id];
            && t.seller.Some? && t.buyer.Some?
            && var from, to := Account(t.seller.value, t.commodity), Account(t.buyer.value, t.commodity);
               && from != to
               && Balance(s'.balances, from) == Max(0, Balance(s.balances, from) - t.volume)
               && Balance(s'.balances, to) == Balance(s.balances, to) + t.volume
               && (forall a :: a != from && a != to ==> Balance(s'.balances, a) == Balance(s.balances, a))
  {
    AcceptedByTheOtherParty(s.txs, user, id, now);
    AcceptStoresALevel(s, user, id, automaticId, now);
    assert RowOk(s.txs[id]);
  }

  /** The automatic producer transaction, column by column: nothing is known of its origin. */
  ghost predicate IsShortfall(extra: Transaction, t: Transaction, volume: int, now: Time) {
    && extra.kind == Producer && extra.isAutomatic && extra.status == Accepted && extra.traceability == Some(Incomplete)
    && extra.buyer == t.seller && extra.seller == None && Some(extra.createdBy) == t.seller
    && extra.commodity == t.commodity && extra.volume == volume
    && extra.location == None && extra.farmLatitude == None && extra.farmLongitude == None
    && extra.createdAt == now && extra.season == None && extra.group == None && extra.expiresAt == None
    && !extra.isBuyingFromFarmer
  }

  lemma FundingIsUntraceable(s: Ledger, t: Transaction, automaticId: TransactionId, now: Time)
    requires t.seller.Some? && Shortfall(s.balances, t) > 0
    ensures DownstreamTraceability(Funded(s, t, automaticId, now).txs, t.seller, t.commodity) == Some(Incomplete)
  {
    var funded := Funded(s, t, automaticId, now);
    var purchases := Purchases(funded.txs, t.seller, {t.commodity});
    assert automaticId in purchases;
    assert Incomplete in Levels(funded.txs, purchases);
  }

  /** An automatic producer transaction is stored exactly when the seller lacks volume, for
      exactly the lacking volume, and the sale is then stored as untraceable. */
  lemma AcceptCreatesOnlyShortfall(s: Ledger, user: UserId, id: TransactionId, automaticId: TransactionId, now: Time, s': Ledger)
    requires Consistent(s) && automaticId !in s.txs && IsIncoming(s.txs, user, id, now, false)
    requires s' == Settled(s, id, automaticId, now)
    ensures var t := s.txs[id];
            && t.seller.Some?
            && var b := Balance(s.balances, Account(t.seller.value, t.commodity));
               && (automaticId in s'.txs <==> b < t.volume)
               && (forall i :: i != automaticId ==> (i in s'.txs <==> i in s.txs))
               && (forall i :: i in s.txs && i != id ==> s'.txs[i] == s.txs[i])
               && s'.txs[id] == t.(status := Accepted, expiresAt := None, traceability := s'.txs[id].traceability)
               && (b < t.volume ==> IsShortfall(s'.txs[automaticId], t, t.volume - b, now) && s'.txs[id].traceability == Some(Incomplete))
  {
    var t := s.txs[id];
    AcceptedByTheOtherParty(s.txs, user, id, now);
    AcceptStoresALevel(s, user, id, automaticId, now);
    if Shortfall(s.balances, t) > 0 {
      FundingIsUntraceable(s, t, automaticId, now);
    }
  }

  // ---- who decides ----

  /** The event that moves pending row `i` to a decided status; `Pending` when it decides nothing. */
  ghost function Decision(txs: Table, e: Event, i: TransactionId): Status
    requires i in txs
  {
    match e
    case Accept(user, id, _, now) => if id == i && IsIncoming(txs, user, i, now, false) then Accepted else Pending
    case Reject(user, id, now) => if id == i && IsIncoming(txs, user, i, now, true) then Rejected else Pending
    case Expire(now) => if IsDue(txs[i], now) then NoResponse else Pending
    case _ => Pending
  }

  /** A pending sale is accepted by the party that did not create it, rejected by either party,
      both up to its expiry, and closed by the expiry job from then on; nothing else decides it. */
  lemma WhoDecides(round: Rounding, s: Ledger, e: Event, s': Ledger, i: TransactionId)
    requires Consistent(s) && Fresh(s, e) && s' == Apply(round, s, e)
    requires i in s.txs && s.txs[i].status.Pending?
    ensures i in s'.txs && s'.txs[i].status == Decision(s.txs, e, i)
  {
    if e.Accept? {
      if IsIncoming(s.txs, e.user, e.id, e.now, false) {
        AcceptCreatesOnlyShortfall(s, e.user, e.id, e.automaticId, e.now, s');
      }
    } else if e.CreateConversion? {
      if s' != s {
        ConversionKeepsRow(round, s, e, s', i);
      }
    }
  }

  /** The deadline leaves no gap: the other party of a pending sale can accept it up to the
      deadline, the expiry job takes it from the deadline on, and both can at the deadline itself. */
  lemma OpenOrDue(s: Ledger, i: TransactionId, who: UserId, now: Time)
    requires Consistent(s) && TakesPart(s.txs, who, i) && s.txs[i].status.Pending? && who != s.txs[i].createdBy
    ensures IsIncoming(s.txs, who, i, now, false) || IsDue(s.txs[i], now)
    ensures IsIncoming(s.txs, who, i, now, false) && IsDue(s.txs[i], now) <==> s.txs[i].expiresAt == Some(now)
  {
    assert RowOk(s.txs[i]);
  }

  lemma ConversionKeepsRow(round: Rounding, s: Ledger, e: Event, s': Ledger, i: TransactionId)
    requires e.CreateConversion? && Fresh(s, e) && s' == Apply(round, s, e) && s' != s && i in s.txs
    ensures i in s'.txs && s'.txs[i] == s.txs[i]
  {
    var inputs, outputs := ConversionCase(round, s, e, s');
    ConvertedAddsConversion(round, s, e.user, inputs, outputs, e.group, e.inputIds, e.outputIds, e.now);
  }

  /** By this step sale `i`, pending before, was accepted by the party that had not created it. */
  ghost predicate AcceptsSale(s: Ledger, e: Event, s': Ledger, i: TransactionId) {
    && e.Accept? && e.id == i
    && i in s.txs && IsIncoming(s.txs, e.user, i, e.now, false)
    && i in s'.txs && s'.txs[i].status.Accepted?
    && var t := s.txs[i];
       && t.seller.Some? && t.buyer.Some? && t.seller != t.buyer
       && e.user != t.createdBy && {t.seller.value, t.buyer.value} == {t.createdBy, e.user}
  }

  lemma AcceptedBeforeOrNow(round: Rounding, s: Ledger, e: Event, s': Ledger, i: TransactionId)
    requires Consistent(s) && Fresh(s, e) && s' == Apply(round, s, e)
    requires i in s'.txs && s'.txs[i].kind.Downstream? && s'.txs[i].status.Accepted?
    ensures i in s.txs && Preserved(s.txs[i], s'.txs[i])
    ensures s.txs[i].status.Accepted? || AcceptsSale(s, e, s', i)
  {
    StepKeepsConsistent(round, s, e, s');
    if i !in s.txs {
      NewTrade(round, s, e, s', i);
      assert false;
    } else {
      assert Preserved(s.txs[i], s'.txs[i]) && RowOk(s.txs[i]);
      if s.txs[i].status.Pending? {
        WhoDecides(round, s, e, s', i);
        AcceptedByTheOtherParty(s.txs, e.user, i, e.now);
      }
    }
  }

  /** Behind every accepted sale of a run there is the step by which the other party accepted it,
      and the sale has been the same ever since. */
  lemma {:induction false} AcceptedSalesHadTwoParties(round: Rounding, events: seq<Event>, states: seq<Ledger>, n: nat, i: TransactionId)
    returns (k: nat)
    requires IsRun(round, events, states) && n <= |events|
    requires var s := states[n]; i in s.txs && s.txs[i].kind.Downstream? && s.txs[i].status.Accepted?
    ensures k < n && AcceptsSale(states[k], events[k], states[k + 1], i)
    ensures Preserved(states[k + 1].txs[i], states[n].txs[i])
    decreases n
  {
    assert n > 0;
    k := n - 1;
    StepOfRun(round, events, states, k);
    AcceptedBeforeOrNow(round, states[k], events[k], states[k + 1], i);
    if states[k].txs[i].status.Accepted? {
      k := AcceptedSalesHadTwoParties(round, events, states, n - 1, i);
    }
  }

  // ---- a deal, from request to acceptance ----

  /** Until it expires, the recipient of a new sale and nobody else can accept it. */
  lemma OnlyTheRecipientCanAccept(round: Rounding, s: Ledger, e: Event, s': Ledger, who: UserId, moment: Time)
    requires e.CreateDownstream? && Fresh(s, e) && s' == Apply(round, s, e) && s' != s
    ensures IsIncoming(s'.txs, who, e.id, moment, false)
            <==> e.recipient.user == Some(who) && moment <= e.now + e.lifetime
  {
  }

  /** A deal moves its volume from the selling to the buying side, whoever of the two proposed it. */
  lemma DealMovesGoods(round: Rounding, s: Ledger, e: Event, s': Ledger, automaticId: TransactionId, moment: Time, s'': Ledger)
    requires Consistent(s) && e.CreateDownstream? && Fresh(s, e) && s' == Apply(round, s, e) && s' != s
    requires e.recipient.user.Some? && moment <= e.now + e.lifetime && automaticId !in s'.txs
    requires s'' == Apply(round, s', Event.Accept(e.recipient.user.value, e.id, automaticId, moment))
    ensures var other, c, v := e.recipient.user.value, e.downstream.commodity, round(e.downstream.volume);
            && (e.downstream.action.Selling? ==>
                  && Balance(s''.balances, Account(e.user, c)) == Max(0, Balance(s.balances, Account(e.user, c)) - v)
                  && Balance(s''.balances, Account(other, c)) == Balance(s.balances, Account(other, c)) + v)
            && (e.downstream.action.Buying? ==>
                  && Balance(s''.balances, Account(e.user, c)) == Balance(s.balances, Account(e.user, c)) + v
                  && Balance(s''.balances, Account(other, c)) == Max(0, Balance(s.balances, Account(other, c)) - v))
  {
    var other := e.recipient.user.value;
    StepKeepsConsistent(round, s, e, s');
    OnlyTheRecipientCanAccept(round, s, e, s', other, moment);
    AcceptMovesBalances(s', other, e.id, automaticId, moment, s'');
  }

  // ---- when balances stay non-negative ----

  ghost predicate NonNegative(balances: Balances) {
    forall a :: a in balances ==> balances[a] >= 0
  }

  /** A quantity that is stored as zero or more: down to half a hundredth below zero, and that
      half included if it rounds up. */
  ghost predicate StoredNonNegative(round: Rounding, x: real) {
    x > -0.005 || (x == -0.005 && round(-0.005) == 0)
  }

  lemma StoredNonNegativeIff(round: Rounding, x: real)
    requires RoundsToNearest(round)
    ensures round(x) >= 0 <==> StoredNonNegative(round, x)
  {
    assert -0.5 <= round(x) as real - 100.0 * x <= 0.5;
    if x == -0.005 {
      assert 100.0 * x == -0.5;
    }
  }

  /** What keeps a step from overdrawing: production that takes no more than there is, and a sale
      that takes no more from the buyer than there is. */
  ghost predicate DoesNotOverdraw(round: Rounding, s: Ledger, e: Event) {
    match e
    case CreateProducer(user, request, commodityExists, _, _) =>
      commodityExists ==>
        StoredNonNegative(round, request.volume + ToReal(Balance(s.balances, Account(user, request.commodity))))
    case Accept(user, id, _, now) =>
      IsIncoming(s.txs, user, id, now, false) ==>
        var t := s.txs[id];
        t.buyer.Some? ==> Balance(s.balances, Account(t.buyer.value, t.commodity)) >= -t.volume
    case _ => true
  }

  /** For production it is enough, and up to half a hundredth necessary, that a negative volume
      stays within the balance. */
  lemma ProductionWithinBalance(round: Rounding, s: Ledger, e: Event)
    requires e.CreateProducer? && e.commodityExists
    ensures var b := ToReal(Balance(s.balances, Account(e.user, e.producer.commodity)));
            && (e.producer.volume >= -b ==> DoesNotOverdraw(round, s, e))
            && (DoesNotOverdraw(round, s, e) ==> e.producer.volume >= -b - 0.005)
  {
  }

  lemma ProducedIsNonNegativeIff(round: Rounding, s: Ledger, user: UserId, request: ProducerRequest, id: TransactionId, now: Time)
    requires RoundsToNearest(round) && NonNegative(s.balances)
    ensures NonNegative(Produced(round, s, user, request, id, now).balances)
            <==> StoredNonNegative(round, request.volume + ToReal(Balance(s.balances, Account(user, request.commodity))))
  {
    var balances' := Produced(round, s, user, request, id, now).balances;
    assert Account(user, request.commodity) in balances';
    StoredNonNegativeIff(round, ToReal(Balance(s.balances, Account(user, request.commodity))) + request.volume);
  }

  lemma TradedIsNonNegativeIff(balances: Balances, t: Transaction)
    requires NonNegative(balances) && t.seller.Some? && t.buyer.Some? && t.seller != t.buyer
    ensures NonNegative(Traded(balances, t))
            <==> Balance(balances, Account(t.buyer.value, t.commodity)) >= -t.volume
  {
    assert Account(t.buyer.value, t.commodity) in Traded(balances, t);
  }

  lemma ConvertedIsNonNegative(round: Rounding, s: Ledger, e: Event, s': Ledger)
    requires RoundsToNearest(round) && NonNegative(s.balances)
    requires e.CreateConversion? && Fresh(s, e) && s' == Apply(round, s, e) && s' != s
    ensures NonNegative(s'.balances)
  {
    var inputs, outputs := ConversionCase(round, s, e, s');
    forall a | a in s'.balances ensures s'.balances[a] >= 0 {
      ConvertedIsCovered(round, s.balances, e.user, inputs, outputs, a);
    }
  }

  /** The exact condition, with no assumption on requested volumes. */
  lemma BalancesStayNonNegativeIff(round: Rounding, s: Ledger, e: Event, s': Ledger)
    requires RoundsToNearest(round) && Consistent(s) && NonNegative(s.balances) && Fresh(s, e) && s' == Apply(round, s, e)
    ensures NonNegative(s'.balances) <==> DoesNotOverdraw(round, s, e)
  {
    if e.CreateProducer? {
      ProducedIsNonNegativeIff(round, s, e.user, e.producer, e.id, e.now);
    } else if e.Accept? {
      if IsIncoming(s.txs, e.user, e.id, e.now, false) {
        AcceptedByTheOtherParty(s.txs, e.user, e.id, e.now);
        AcceptStoresALevel(s, e.user, e.id, e.automaticId, e.now);
        assert RowOk(s.txs[e.id]);
        TradedIsNonNegativeIff(s.balances, s.txs[e.id]);
      }
    } else if e.CreateConversion? && s' != s {
      ConvertedIsNonNegative(round, s, e, s');
    }
  }
}
