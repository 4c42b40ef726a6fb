/** The worklist searches over the provenance graph and the queries built on them. */
module ChainSearch {
  import opened Domain
  import opened ChainGraph

  /** The ids a `pk__in` filter selects, without those of an `exclude(pk__in=...)`. */
  function Select(txs: Table, search: Search, ids: set<TransactionId>, acceptedOnly: bool,
                  excluded: set<TransactionId>): set<TransactionId>
  {
    set i | i in txs && i in ids && Visible(search, txs[i])
            && (acceptedOnly ==> txs[i].status.Accepted?) && i !in excluded
  }

  /** The ids of every row bought, at any status, by a seller of the given rows. */
  function BoughtBySellersOf(txs: Table, search: Search, ids: set<TransactionId>): set<TransactionId> {
    var sellers := set i | i in ids && i in txs && txs[i].seller.Some? :: txs[i].seller;
    set j | j in txs && Visible(search, txs[j]) && txs[j].buyer in sellers
  }

  /** The input legs of one conversion group. */
  function InputLegsOf(txs: Table, group: Option<GroupId>): set<TransactionId> {
    set j | j in txs && IsInputLeg(txs[j]) && txs[j].group == group
  }

  lemma BoughtBySellersIsSellerEdge(txs: Table, search: Search, ids: set<TransactionId>, i: TransactionId, j: TransactionId)
    requires i in ids && i in txs && j in txs && Visible(search, txs[j]) && SellerEdge(txs[i], txs[j])
    ensures j in BoughtBySellersOf(txs, search, ids)
  {
    assert txs[i].seller in set k | k in ids && k in txs && txs[k].seller.Some? :: txs[k].seller;
  }

  /** What every round of a search keeps. */
  ghost predicate SearchState(search: Search, txs: Table, root: TransactionId, acceptedOnly: bool,
                              visited: set<TransactionId>, frontier: set<TransactionId>, chain: set<TransactionId>)
  {
    // only the first round, on the root alone, looks at rows of any status
    && (if acceptedOnly then root in visited else visited == {} && chain == {} && frontier == {root})
    // what was collected, and what is queued and eligible, lies on a path from the root
    && (forall x :: x in chain ==> x in txs && Visible(search, txs[x]) && InChain(search, txs, root, x))
    && (forall x :: x in frontier && x in txs && Visible(search, txs[x]) && (acceptedOnly ==> txs[x].status.Accepted?)
          ==> InChain(search, txs, root, x))
    // nothing eligible was visited without being collected
    && (forall x :: x in visited && x in txs && Visible(search, txs[x]) && (x == root || txs[x].status.Accepted?)
          ==> x in chain)
    && (search.Storage? && acceptedOnly ==>
          forall x :: x in visited + frontier && x in txs && IsInputLeg(txs[x]) ==> x in chain)
    // everything collected is visited or queued, and so are the neighbours of visited rows
    && chain <= visited + frontier
    && (forall i, j :: i in chain && i in visited && Edge(search, txs, root, i, j) ==> j in chain || j in frontier)
  }

  /** No input leg of a conversion whose output is among `rows` was overlooked. */
  ghost predicate InputLegsReached(txs: Table, rows: set<TransactionId>, visited: set<TransactionId>, chain: set<TransactionId>) {
    forall i, j :: i in rows && i in txs && IsOutputLeg(txs[i]) && j in InputLegsOf(txs, txs[i].group) ==>
      (j in visited || j in chain)
  }

  lemma InputLegsAreInChain(txs: Table, root: TransactionId, output: TransactionId)
    requires InChain(Storage, txs, root, output)
    requires output in txs && IsOutputLeg(txs[output])
    requires output == root || txs[output].status.Accepted?
    ensures forall j :: j in InputLegsOf(txs, txs[output].group) ==> InChain(Storage, txs, root, j)
  {
    forall j | j in InputLegsOf(txs, txs[output].group) ensures InChain(Storage, txs, root, j) {
      ChainStep(Storage, txs, root, output, j);
    }
  }

  /** One round: `rows` are selected, their sellers' purchases and the missing input legs of
      their conversion groups are queued. */
  lemma RoundKeepsState(search: Search, txs: Table, root: TransactionId, acceptedOnly: bool,
                        visited: set<TransactionId>, frontier: set<TransactionId>, chain: set<TransactionId>,
                        frontier': set<TransactionId>, chain': set<TransactionId>)
    requires SearchState(search, txs, root, acceptedOnly, visited, frontier, chain)
    requires var rows := Select(txs, search, frontier, acceptedOnly, visited);
             && BoughtBySellersOf(txs, search, rows) <= frontier'
             && frontier' <= BoughtBySellersOf(txs, search, rows) + chain'
             && chain + rows <= chain' <= chain + rows + frontier'
             && (forall x :: x in chain' - chain - rows ==>
                   search.Storage? && x in txs && InChain(search, txs, root, x))
             && (search.Storage? ==> InputLegsReached(txs, rows, visited + frontier, chain'))
    ensures SearchState(search, txs, root, true, visited + frontier, frontier', chain')
  {
    var rows := Select(txs, search, frontier, acceptedOnly, visited);
    var visited' := visited + frontier;
    forall x | x in frontier' && x in txs && Visible(search, txs[x]) && txs[x].status.Accepted?
      ensures InChain(search, txs, root, x)
    {
      if x in BoughtBySellersOf(txs, search, rows) {
        var i :| i in rows && txs[i].seller.Some? && txs[x].buyer == txs[i].seller;
        ChainStep(search, txs, root, i, x);
      }
    }
    assert forall x :: x in visited' && x in txs && Visible(search, txs[x]) && (x == root || txs[x].status.Accepted?)
                       ==> x in chain + rows;
    forall i, j | i in chain' && i in visited' && Edge(search, txs, root, i, j) ensures j in chain' || j in frontier' {
      if i in rows {
        if SellerEdge(txs[i], txs[j]) {
          BoughtBySellersIsSellerEdge(txs, search, rows, i, j);
        }
      } else {
        assert i in chain && i in visited;
      }
    }
  }

  /** Collects and queues the unvisited input legs behind every conversion output of a round. */
  method QueueConversionInputs(txs: Table, ghost root: TransactionId, rows: set<TransactionId>,
                               visited: set<TransactionId>, bought: set<TransactionId>, collected: set<TransactionId>)
    returns (frontier: set<TransactionId>, chain: set<TransactionId>)
    requires forall i :: i in rows ==> i in txs && InChain(Storage, txs, root, i) && (i == root || txs[i].status.Accepted?)
    ensures bought <= frontier <= bought + chain
    ensures collected <= chain <= collected + frontier
    ensures bought <= txs.Keys ==> frontier <= txs.Keys
    ensures forall x :: x in chain - collected ==> x in txs && InChain(Storage, txs, root, x)
    ensures InputLegsReached(txs, rows, visited, chain)
    ensures rows == {} ==> frontier == bought
  {
    frontier, chain := bought, collected;
    var outputs := set i | i in rows && IsOutputLeg(txs[i]);
    while outputs != {}
      invariant outputs <= rows
      invariant bought <= frontier <= bought + chain
      invariant collected <= chain <= collected + frontier
      invariant bought <= txs.Keys ==> frontier <= txs.Keys
      invariant forall x :: x in chain - collected ==> x in txs && InChain(Storage, txs, root, x)
      invariant InputLegsReached(txs, rows - outputs, visited, chain)
      invariant rows == {} ==> frontier == bought
      decreases outputs
    {
      var output :| output in outputs;
      InputLegsAreInChain(txs, root, output);
      var inputs := InputLegsOf(txs, txs[output].group) - visited;
      outputs := outputs - {output};
      chain := chain + inputs;
      frontier := frontier + inputs;
    }
  }

  /** The breadth-first search of the transactions storage. It returns exactly the chain,
      on any table, cyclic ones included. A round may find only visited ids, so what decreases
      is the set of unvisited ids and then whether anything is queued. */
  method GetChainTransactions(txs: Table, transactionId: TransactionId) returns (chain: set<TransactionId>)
    ensures chain == Chain(Storage, txs, transactionId)
  {
    chain := {};
    var frontier := {transactionId};
    var acceptedOnly := false;
    var visited: set<TransactionId> := {};
    if transactionId in txs { ChainHasRoot(Storage, txs, transactionId); }
    ghost var all := txs.Keys + {transactionId};
    while frontier != {}
      invariant visited <= all && frontier <= all
      invariant SearchState(Storage, txs, transactionId, acceptedOnly, visited, frontier, chain)
      decreases all - visited, frontier != {}
    {
      ghost var visited0, frontier0, chain0, acceptedOnly0 := visited, frontier, chain, acceptedOnly;
      var rows := Select(txs, Storage, frontier, acceptedOnly, visited);
      chain := chain + rows;
      acceptedOnly := true;
      visited := visited + frontier;
      var bought := BoughtBySellersOf(txs, Storage, rows);
      frontier, chain := QueueConversionInputs(txs, transactionId, rows, visited, bought, chain);
      RoundKeepsState(Storage, txs, transactionId, acceptedOnly0, visited0, frontier0, chain0, frontier, chain);
      if frontier0 <= visited0 {
        assert rows == {};
      }
    }
    ChainFromClosure(Storage, txs, transactionId, chain);
  }

  /** The analytics search: one commodity, no conversion edges. */
  method GetAllChainTransactionsForUser(txs: Table, transactionId: TransactionId, commodity: CommodityId)
    returns (chain: set<TransactionId>)
    ensures chain == Chain(WithinCommodity(commodity), txs, transactionId)
  {
    ghost var search := WithinCommodity(commodity);
    chain := {};
    var frontier := {transactionId};
    var acceptedOnly := false;
    var visited: set<TransactionId> := {};
    if transactionId in txs && Visible(search, txs[transactionId]) { ChainHasRoot(search, txs, transactionId); }
    ghost var all := txs.Keys + {transactionId};
    while frontier != {}
      invariant visited <= all && frontier <= all
      invariant SearchState(search, txs, transactionId, acceptedOnly, visited, frontier, chain)
      decreases all - visited, frontier != {}
    {
      ghost var visited0, frontier0, chain0, acceptedOnly0 := visited, frontier, chain, acceptedOnly;
      var rows := Select(txs, WithinCommodity(commodity), frontier, acceptedOnly, visited);
      chain := chain + rows;
      acceptedOnly := true;
      visited := visited + frontier;
      frontier := BoughtBySellersOf(txs, WithinCommodity(commodity), rows);
      RoundKeepsState(search, txs, transactionId, acceptedOnly0, visited0, frontier0, chain0, frontier, chain);
      if frontier0 <= visited0 {
        assert rows == {};
      }
    }
    ChainFromClosure(search, txs, transactionId, chain);
  }

  /** The sellerless members of a chain that are not conversion legs. */
  ghost function FirstChain(txs: Table, root: TransactionId): set<TransactionId> {
    set i | i in Chain(Storage, txs, root) && txs[i].seller.None? && !txs[i].kind.Conversion?
  }

  method GetFirstChainTransactions(txs: Table, transactionId: TransactionId) returns (first: set<TransactionId>)
    ensures first == FirstChain(txs, transactionId)
    ensures first == set i | i in Chain(Storage, txs, transactionId) && i in txs && txs[i].seller == None && txs[i].kind != Conversion
  {
    var chain := GetChainTransactions(txs, transactionId);
    first := set i | i in chain && i in txs && txs[i].seller.None? && !txs[i].kind.Conversion?;
  }

  /** A plot is a pair of farm coordinates, both present. */
  predicate HasPlot(t: Transaction) {
    t.farmLatitude.Some? && t.farmLongitude.Some?
  }

  predicate Involves(t: Transaction, user: UserId) {
    t.buyer == Some(user) || t.seller == Some(user) || t.createdBy == user
  }

  /** The union of the analytics chains of the given transactions. */
  ghost function ChainUnion(txs: Table, ids: set<TransactionId>): set<TransactionId> {
    set i, x | i in ids && i in txs && x in Chain(WithinCommodity(txs[i].commodity), txs, i) :: x
  }

  lemma ChainUnionOneMore(txs: Table, ids: set<TransactionId>, i: TransactionId)
    requires i in txs
    ensures ChainUnion(txs, ids + {i}) == ChainUnion(txs, ids) + Chain(WithinCommodity(txs[i].commodity), txs, i)
  {
  }

  /** The rows behind a user's dashboard: the chains of every transaction the user takes part in. */
  ghost function UserChainUnion(txs: Table, user: UserId): set<TransactionId> {
    ChainUnion(txs, UserTransactions(txs, user))
  }

  function UserTransactions(txs: Table, user: UserId): set<TransactionId> {
    set i | i in txs && Involves(txs[i], user)
  }

  function Plots(txs: Table, ids: set<TransactionId>): set<(real, real)> {
    set x | x in ids && x in txs && HasPlot(txs[x]) :: (txs[x].farmLatitude.value, txs[x].farmLongitude.value)
  }

  /** The plots behind a user's dashboard, on columns. */
  lemma PlotsOnColumns(txs: Table, user: UserId)
    ensures Plots(txs, UserChainUnion(txs, user)) ==
              set i, x | i in txs && (txs[i].buyer == Some(user) || txs[i].seller == Some(user) || txs[i].createdBy == user)
                         && x in Chain(WithinCommodity(txs[i].commodity), txs, i)
                         && x in txs && txs[x].farmLatitude != None && txs[x].farmLongitude != None
                :: (txs[x].farmLatitude.value, txs[x].farmLongitude.value)
  {
    forall x, i | i in txs && (txs[i].buyer == Some(user) || txs[i].seller == Some(user) || txs[i].createdBy == user)
                  && x in Chain(WithinCommodity(txs[i].commodity), txs, i)
      ensures x in UserChainUnion(txs, user)
    {
      assert i in UserTransactions(txs, user);
    }
  }

  lemma PlotsOfUnion(txs: Table, a: set<TransactionId>, b: set<TransactionId>)
    ensures Plots(txs, a + b) == Plots(txs, a) + Plots(txs, b)
  {
  }

  /** Counts the distinct coordinate pairs over the union of the chains, however often
      the chains overlap. */
  method GetUserPlotsCount(txs: Table, user: UserId) returns (count: nat)
    ensures count == |set i, x | i in txs && (txs[i].buyer == Some(user) || txs[i].seller == Some(user) || txs[i].createdBy == user)
                                 && x in Chain(WithinCommodity(txs[i].commodity), txs, i)
                                 && x in txs && txs[x].farmLatitude != None && txs[x].farmLongitude != None
                        :: (txs[x].farmLatitude.value, txs[x].farmLongitude.value)|
  {
    var mine := UserTransactions(txs, user);
    var uniquePlots: set<(real, real)> := {};
    ghost var done: set<TransactionId> := {};
    while mine != {}
      invariant done + mine == UserTransactions(txs, user)
      invariant uniquePlots == Plots(txs, ChainUnion(txs, done))
      decreases mine
    {
      var i :| i in mine;
      mine := mine - {i};
      var chain := GetAllChainTransactionsForUser(txs, i, txs[i].commodity);
      ChainUnionOneMore(txs, done, i);
      PlotsOfUnion(txs, ChainUnion(txs, done), chain);
      uniquePlots := uniquePlots + Plots(txs, chain);
      done := done + {i};
    }
    assert done + {} == done;
    PlotsOnColumns(txs, user);
    count := |uniquePlots|;
  }

  /** The chain members that store a given level. */
  function AtLevel(txs: Table, chain: set<TransactionId>, level: Traceability): set<TransactionId> {
    set i | i in chain && i in txs && txs[i].traceability == Some(level)
  }

  /** A level is counted iff some chain member stores it. */
  lemma CountedIffStored(txs: Table, chain: set<TransactionId>, level: Traceability)
    ensures AtLevel(txs, chain, level) == set i | i in chain && i in txs && txs[i].traceability == Some(level)
    ensures |AtLevel(txs, chain, level)| > 0 <==> level in Levels(txs, chain)
  {
    var rows := set i | i in chain && i in txs && txs[i].traceability == Some(level);
    if level in Levels(txs, chain) {
      var i :| i in chain && i in txs && txs[i].traceability.Some? && txs[i].traceability.value == level;
      assert i in rows;
    }
    if |rows| > 0 {
      var i :| i in rows;
    }
  }

  method GetTraceabilityCounts(txs: Table, transactionId: TransactionId) returns (counts: map<Traceability, nat>)
    ensures counts.Keys == {Full, Conditional, Partial, Incomplete}
    ensures forall level :: level in counts ==>
              counts[level] == |set i | i in Chain(Storage, txs, transactionId) && i in txs && txs[i].traceability == Some(level)|
    ensures forall level :: level in counts ==>
              (counts[level] > 0 <==> level in Levels(txs, Chain(Storage, txs, transactionId)))
  {
    var chain := GetChainTransactions(txs, transactionId);
    counts := map[Full := 0, Conditional := 0, Partial := 0, Incomplete := 0];
    var levels := {Full, Conditional, Partial, Incomplete};
    while levels != {}
      invariant counts.Keys == {Full, Conditional, Partial, Incomplete}
      invariant levels <= counts.Keys
      invariant forall level :: level in counts ==>
                  counts[level] == if level in levels then 0 else |AtLevel(txs, chain, level)|
      decreases levels
    {
      var level :| level in levels;
      levels := levels - {level};
      counts := counts[level := counts[level] + |AtLevel(txs, chain, level)|];
    }
    forall level | level in counts
      ensures counts[level] == |set i | i in chain && i in txs && txs[i].traceability == Some(level)|
      ensures counts[level] > 0 <==> level in Levels(txs, chain)
    {
      CountedIffStored(txs, chain, level);
    }
  }
}
