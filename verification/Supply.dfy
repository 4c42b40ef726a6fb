/** Conservation of supply: the holdings of all users add up to what was produced and converted. */
module Supply {
  import opened Domain
  import opened Mappers
  import opened Ledgers
  import opened Lifecycle
  import opened Decisions
  import opened Exactness
  import opened FiniteSums
  import opened Conservation

  ghost function Holding(c: CommodityId): (Account, int) -> int {
    (a: Account, v: int) => if a.commodity == c then v else 0
  }

  /** What all users together hold of a commodity. */
  ghost function Holdings(balances: Balances, c: CommodityId): int {
    Sum(balances, Holding(c))
  }

  /** Producer volumes, automatic ones included, plus the signed volumes of conversion legs. */
  ghost function TotalSupply(txs: Table, c: CommodityId): int {
    Sum(txs, Supplied(c))
  }

  /** Per account, what the rows account for, or what a single row does. */
  ghost function BookedHolding(txs: Table, c: CommodityId): (Account, int) -> int {
    (a: Account, v: int) => if a.commodity == c then Booked(txs, a) else 0
  }

  ghost function RowHolding(t: Transaction, c: CommodityId): (Account, int) -> int {
    (a: Account, v: int) => if a.commodity == c then EffectOf(t, a) else 0
  }

  /** The accounts a row can touch are listed. */
  ghost predicate PartiesListed(txs: Table, accounts: Balances) {
    forall i :: i in txs ==> RowListed(txs[i], accounts)
  }

  ghost predicate RowListed(t: Transaction, accounts: Balances) {
    && (t.buyer.Some? ==> Account(t.buyer.value, t.commodity) in accounts)
    && (t.seller.Some? ==> Account(t.seller.value, t.commodity) in accounts)
  }

  lemma SumOfTwo<K, V>(m: map<K, V>, weigh: (K, V) -> int, j: K, k: K)
    requires j != k
    requires forall i :: i in m && i != j && i != k ==> weigh(i, m[i]) == 0
    ensures Sum(m, weigh) == At(m, weigh, j) + At(m, weigh, k)
  {
    Drop(m, weigh, j);
    SumOfOne(m - {j}, weigh, k);
  }

  /** Over all accounts, a trade cancels out and any other row counts once. */
  lemma RowSupply(t: Transaction, accounts: Balances, c: CommodityId)
    requires RowOk(t) && RowListed(t, accounts)
    ensures Sum(accounts, RowHolding(t, c)) == SupplyOf(t, c)
  {
    var weigh := RowHolding(t, c);
    if !t.status.Accepted? || t.commodity != c {
      SumOfNothing(accounts, weigh);
    } else if t.kind.Downstream? {
      SumOfTwo(accounts, weigh, Account(t.seller.value, c), Account(t.buyer.value, c));
    } else {
      var owner := if t.buyer.Some? then t.buyer.value else t.seller.value;
      SumOfOne(accounts, weigh, Account(owner, c));
    }
  }

  /** Summing over accounts and then over rows is summing over rows and then over accounts. */
  lemma {:induction false} ExchangeSums(txs: Table, accounts: Balances, c: CommodityId)
    requires RowsOk(txs) && PartiesListed(txs, accounts)
    ensures Sum(accounts, BookedHolding(txs, c)) == TotalSupply(txs, c)
    decreases |txs|
  {
    if txs == map[] {
      SumOfNothing(accounts, BookedHolding(txs, c));
    } else {
      var i := Pick(txs.Keys);
      var rest := txs - {i};
      assert rest.Keys == txs.Keys - {i};
      ExchangeSums(rest, accounts, c);
      forall a | a in accounts
        ensures BookedHolding(txs, c)(a, accounts[a])
                == RowHolding(txs[i], c)(a, accounts[a]) + BookedHolding(rest, c)(a, accounts[a])
      {
        SumRemove(txs, Effect(a), i);
      }
      SumOfWeights(accounts, RowHolding(txs[i], c), BookedHolding(rest, c), BookedHolding(txs, c));
      RowSupply(txs[i], accounts, c);
    }
  }

  lemma {:induction false} SameWeights<K, V>(m: map<K, V>, a: (K, V) -> int, b: (K, V) -> int)
    requires forall k :: k in m ==> a(k, m[k]) == b(k, m[k])
    ensures Sum(m, a) == Sum(m, b)
    decreases |m|
  {
    if m != map[] {
      var k := Pick(m.Keys);
      assert (m - {k}).Keys == m.Keys - {k};
      SameWeights(m - {k}, a, b);
    }
  }

  ghost function BalanceHolding(balances: Balances, c: CommodityId): (Account, int) -> int {
    (a: Account, v: int) => if a.commodity == c then Balance(balances, a) else 0
  }

  ghost function DeviationHolding(s: Ledger, c: CommodityId): (Account, int) -> int {
    (a: Account, v: int) => if a.commodity == c then Deviation(s, a) else 0
  }

  /** By how much the holdings of a commodity exceed its supply. */
  ghost function Surplus(s: Ledger, c: CommodityId): int {
    Holdings(s.balances, c) - TotalSupply(s.txs, c)
  }

  /** Accounts that cover every balance row and every party of a ledger. Their volumes do not matter. */
  ghost predicate Covers(accounts: Balances, s: Ledger) {
    s.balances.Keys <= accounts.Keys && PartiesListed(s.txs, accounts)
  }

  ghost function AccountsOf(s: Ledger): (accounts: Balances)
    ensures Covers(accounts, s)
  {
    var buyers := set i | i in s.txs && s.txs[i].buyer.Some? :: Account(s.txs[i].buyer.value, s.txs[i].commodity);
    var sellers := set i | i in s.txs && s.txs[i].seller.Some? :: Account(s.txs[i].seller.value, s.txs[i].commodity);
    map a | a in s.balances.Keys + buyers + sellers :: 0
  }

  lemma HoldingsAreBalances(balances: Balances, accounts: Balances, c: CommodityId)
    requires balances.Keys <= accounts.Keys
    ensures Sum(accounts, BalanceHolding(balances, c)) == Holdings(balances, c)
  {
    SumCongruence(balances, accounts, BalanceHolding(balances, c));
    SameWeights(balances, BalanceHolding(balances, c), Holding(c));
  }

  /** The surplus of a commodity is what all its accounts together deviate. */
  lemma SurplusIsTotalDeviation(s: Ledger, accounts: Balances, c: CommodityId)
    requires Consistent(s) && Covers(accounts, s)
    ensures Surplus(s, c) == Sum(accounts, DeviationHolding(s, c))
  {
    HoldingsAreBalances(s.balances, accounts, c);
    ExchangeSums(s.txs, accounts, c);
    SumOfWeights(accounts, DeviationHolding(s, c), BookedHolding(s.txs, c), BalanceHolding(s.balances, c));
  }

  /** Where the ledger equation holds, supply is conserved. */
  lemma LedgerEquationConservesSupply(s: Ledger, c: CommodityId)
    requires Consistent(s) && LedgerEquation(s)
    ensures Holdings(s.balances, c) == TotalSupply(s.txs, c)
  {
    var accounts := AccountsOf(s);
    SurplusIsTotalDeviation(s, accounts, c);
    forall a | a in accounts ensures DeviationHolding(s, c)(a, accounts[a]) == 0 {
      assert Deviation(s, a) == 0;
    }
    SumOfNothing(accounts, DeviationHolding(s, c));
  }

  // ---- one step ----

  /** What an event adds to the surplus of a commodity: it moves one account of it at most. */
  function SurplusOf(round: Rounding, s: Ledger, e: Event, c: CommodityId): int {
    if e.CreateProducer? || e.CreateConversion?
    then SlipOf(round, s, e, Account(e.user, c)) - LostBy(round, s, e, Account(e.user, c))
    else 0
  }

  ghost function SlipHolding(round: Rounding, s: Ledger, e: Event, c: CommodityId): (Account, int) -> int {
    (a: Account, v: int) => if a.commodity == c then SlipOf(round, s, e, a) - LostBy(round, s, e, a) else 0
  }

  lemma OneAccountSlips(round: Rounding, s: Ledger, e: Event, accounts: Balances, c: CommodityId)
    requires e.CreateProducer? || e.CreateConversion? ==> Account(e.user, c) in accounts
    ensures Sum(accounts, SlipHolding(round, s, e, c)) == SurplusOf(round, s, e, c)
  {
    var weigh := SlipHolding(round, s, e, c);
    if e.CreateProducer? || e.CreateConversion? {
      SumOfOne(accounts, weigh, Account(e.user, c));
    } else {
      SumOfNothing(accounts, weigh);
    }
  }

  /** Accounts for both ends of a step. */
  lemma CommonAccounts(s: Ledger, s': Ledger, extra: Account) returns (accounts: Balances)
    ensures Covers(accounts, s) && Covers(accounts, s') && extra in accounts
  {
    accounts := AccountsOf(s) + AccountsOf(s') + map[extra := 0];
    assert forall i :: i in s.txs ==> RowListed(s.txs[i], AccountsOf(s));
    assert forall i :: i in s'.txs ==> RowListed(s'.txs[i], AccountsOf(s'));
  }

  /** For any rounding, a step changes the surplus of a commodity by what it slips and loses. */
  lemma StepMovesSurplus(round: Rounding, s: Ledger, e: Event, s': Ledger, c: CommodityId)
    requires Consistent(s) && Fresh(s, e) && s' == Apply(round, s, e)
    ensures Surplus(s', c) == Surplus(s, c) + SurplusOf(round, s, e, c)
  {
    var extra := if e.CreateProducer? || e.CreateConversion? then Account(e.user, c) else Account(0, c);
    var accounts := CommonAccounts(s, s', extra);
    StepKeepsConsistent(round, s, e, s');
    SurplusIsTotalDeviation(s, accounts, c);
    SurplusIsTotalDeviation(s', accounts, c);
    forall a | a in accounts
      ensures DeviationHolding(s', c)(a, accounts[a])
              == DeviationHolding(s, c)(a, accounts[a]) + SlipHolding(round, s, e, c)(a, accounts[a])
    {
      StepMovesDeviation(round, s, e, s', a);
    }
    SumOfWeights(accounts, DeviationHolding(s, c), SlipHolding(round, s, e, c), DeviationHolding(s', c));
    OneAccountSlips(round, s, e, accounts, c);
  }

  // ---- whole runs ----

  /** For any rounding, the supply of a commodity is conserved throughout a run exactly when no
      event of it slips or loses a credit of that commodity. */
  lemma SupplyIsConservedIff(round: Rounding, events: seq<Event>, states: seq<Ledger>, c: CommodityId)
    requires IsRun(round, events, states)
    ensures (forall k :: 0 <= k < |states| ==> Holdings(states[k].balances, c) == TotalSupply(states[k].txs, c))
            <==> (forall k :: 0 <= k < |events| ==> SurplusOf(round, states[k], events[k], c) == 0)
  {
    var good: Ledger -> bool := (s: Ledger) => Surplus(s, c) == 0;
    var safe: (Ledger, Event) -> bool := (s: Ledger, e: Event) => SurplusOf(round, s, e, c) == 0;
    forall k | 0 <= k < |events| ensures ExactAt(states[k], events[k], states[k + 1], good, safe) {
      StepOfRun(round, events, states, k);
      StepMovesSurplus(round, states[k], events[k], states[k + 1], c);
    }
    ThroughoutIff(events, states, good, safe);
    assert Throughout(states, good) <==> forall k :: 0 <= k < |states| ==> Surplus(states[k], c) == 0;
    assert EveryStep(events, states, safe) <==> forall k :: 0 <= k < |events| ==> SurplusOf(round, states[k], events[k], c) == 0;
  }

  /** Without ties and lost credits, what is held is what was produced and converted. */
  lemma SupplyIsConserved(round: Rounding, events: seq<Event>, states: seq<Ledger>, c: CommodityId)
    requires IsRun(round, events, states) && RoundsToNearest(round)
    requires forall k :: 0 <= k < |events| ==> TieFree(states[k], events[k]) && LosesNothing(round, states[k], events[k])
    ensures Holdings(states[|events|].balances, c) == TotalSupply(states[|events|].txs, c)
  {
    LedgerEquationWithoutTiesIff(round, events, states);
    RunIsConsistent(round, events, states);
    LedgerEquationConservesSupply(states[|events|], c);
  }

  lemma FundingSupplies(s: Ledger, t: Transaction, automaticId: TransactionId, now: Time, c: CommodityId)
    requires automaticId !in s.txs && t.seller.Some?
    ensures TotalSupply(Funded(s, t, automaticId, now).txs, c) - TotalSupply(s.txs, c)
            == if c == t.commodity then Shortfall(s.balances, t) else 0
  {
    SumDifference(s.txs, Funded(s, t, automaticId, now).txs, Supplied(c), automaticId);
  }

  /** Accepting a trade adds to the supply its automatic shortfall and nothing else. */
  lemma TradeSuppliesOnlyShortfall(s: Ledger, user: UserId, id: TransactionId, automaticId: TransactionId, now: Time, c: CommodityId)
    requires Consistent(s) && automaticId !in s.txs && IsIncoming(s.txs, user, id, now, false)
    ensures Settled(s, id, automaticId, now) != s
    ensures TotalSupply(Settled(s, id, automaticId, now).txs, c) - TotalSupply(s.txs, c)
            == if c == s.txs[id].commodity then Shortfall(s.balances, s.txs[id]) else 0
  {
    var t := s.txs[id];
    var funded := Funded(s, t, automaticId, now);
    var s' := Settled(s, id, automaticId, now);
    AcceptSettles(s, user, id, automaticId, now);
    AcceptedByTheOtherParty(s.txs, user, id, now);
    FundingSupplies(s, t, automaticId, now, c);
    AcceptStoresALevel(s, user, id, automaticId, now);
    SumDifference(funded.txs, s'.txs, Supplied(c), id);
  }
}
