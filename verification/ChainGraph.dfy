/** The provenance graph over the transactions table, and what a chain means on it,
    independently of the loops that compute it. */
module ChainGraph {
  import opened Domain

  /** The storage search follows every edge; the analytics search stays inside one
      commodity and knows no conversion edges. */
  datatype Search = Storage | WithinCommodity(commodity: CommodityId)

  predicate Visible(search: Search, t: Transaction) {
    search.Storage? || t.commodity == search.commodity
  }

  /** From a sale to every accepted purchase of its seller. */
  predicate SellerEdge(a: Transaction, b: Transaction) {
    a.seller.Some? && b.buyer == a.seller && b.status.Accepted?
  }

  predicate IsInputLeg(t: Transaction) {
    t.kind.Conversion? && t.buyer.None?
  }

  predicate IsOutputLeg(t: Transaction) {
    t.kind.Conversion? && t.seller.None?
  }

  /** From a conversion output to the input legs of its group. */
  predicate ConversionEdge(a: Transaction, b: Transaction) {
    IsOutputLeg(a) && IsInputLeg(b) && b.group == a.group
  }

  /** Edges leave the root, whatever its status, and accepted rows. */
  predicate Edge(search: Search, txs: Table, root: TransactionId, i: TransactionId, j: TransactionId) {
    && i in txs && j in txs
    && Visible(search, txs[i]) && Visible(search, txs[j])
    && (i == root || txs[i].status.Accepted?)
    && (SellerEdge(txs[i], txs[j]) || (search.Storage? && ConversionEdge(txs[i], txs[j])))
  }

  ghost predicate IsPath(search: Search, txs: Table, root: TransactionId, path: seq<TransactionId>) {
    && path != [] && path[0] == root
    && root in txs && Visible(search, txs[root])
    && forall k :: 0 <= k < |path| - 1 ==> Edge(search, txs, root, path[k], path[k + 1])
  }

  ghost predicate InChain(search: Search, txs: Table, root: TransactionId, x: TransactionId) {
    exists path :: IsPath(search, txs, root, path) && path[|path| - 1] == x
  }

  /** The chain of a transaction: everything a path from it reaches. */
  ghost function Chain(search: Search, txs: Table, root: TransactionId): set<TransactionId> {
    set x | x in txs && InChain(search, txs, root, x)
  }

  ghost predicate ClosedUnderEdges(search: Search, txs: Table, root: TransactionId, s: set<TransactionId>) {
    forall i, j :: i in s && Edge(search, txs, root, i, j) ==> j in s
  }

  lemma ChainHasRoot(search: Search, txs: Table, root: TransactionId)
    requires root in txs && Visible(search, txs[root])
    ensures root in Chain(search, txs, root)
  {
    assert IsPath(search, txs, root, [root]);
  }

  lemma ChainStep(search: Search, txs: Table, root: TransactionId, i: TransactionId, j: TransactionId)
    requires InChain(search, txs, root, i)
    requires Edge(search, txs, root, i, j)
    ensures InChain(search, txs, root, j)
  {
    var path :| IsPath(search, txs, root, path) && path[|path| - 1] == i;
    var longer := path + [j];
    assert forall k :: 0 <= k < |path| ==> longer[k] == path[k];
    assert IsPath(search, txs, root, longer) && longer[|longer| - 1] == j;
  }

  lemma {:induction false} PathStaysInside(search: Search, txs: Table, root: TransactionId,
                                           path: seq<TransactionId>, s: set<TransactionId>)
    requires IsPath(search, txs, root, path)
    requires root in s && ClosedUnderEdges(search, txs, root, s)
    ensures path[|path| - 1] in s
    decreases |path|
  {
    if |path| > 1 {
      var shorter := path[..|path| - 1];
      assert forall k :: 0 <= k < |shorter| ==> shorter[k] == path[k];
      PathStaysInside(search, txs, root, shorter, s);
      assert Edge(search, txs, root, path[|path| - 2], path[|path| - 1]);
    }
  }

  /** The chain is the least set that holds the root and is closed under the edges. */
  lemma ChainIsLeastClosedSet(search: Search, txs: Table, root: TransactionId)
    requires root in txs && Visible(search, txs[root])
    ensures root in Chain(search, txs, root)
    ensures ClosedUnderEdges(search, txs, root, Chain(search, txs, root))
    ensures forall s: set<TransactionId> :: root in s && ClosedUnderEdges(search, txs, root, s) ==>
              Chain(search, txs, root) <= s
  {
    ChainHasRoot(search, txs, root);
    forall i, j | i in Chain(search, txs, root) && Edge(search, txs, root, i, j)
      ensures j in Chain(search, txs, root)
    {
      ChainStep(search, txs, root, i, j);
    }
    forall s: set<TransactionId>, x | root in s && ClosedUnderEdges(search, txs, root, s) && x in Chain(search, txs, root)
      ensures x in s
    {
      var path :| IsPath(search, txs, root, path) && path[|path| - 1] == x;
      PathStaysInside(search, txs, root, path, s);
    }
  }

  /** The storage chain on columns: it holds the root, the accepted purchases of every seller in it,
      and the inputs of every conversion with an output in it. */
  lemma StorageChainOnColumns(txs: Table, root: TransactionId, chain: set<TransactionId>)
    requires chain == Chain(Storage, txs, root)
    ensures chain <= txs.Keys && (root in chain <==> root in txs) && (root !in txs ==> chain == {})
    ensures forall i, j :: (i in chain && (i == root || txs[i].status == Accepted) && j in txs && txs[j].status == Accepted
                            && txs[i].seller != None && txs[j].buyer == txs[i].seller) ==> j in chain
    ensures forall i, j :: (i in chain && (i == root || txs[i].status == Accepted) && j in txs
                            && txs[i].kind == Conversion && txs[i].seller == None
                            && txs[j].kind == Conversion && txs[j].buyer == None && txs[j].group == txs[i].group) ==> j in chain
  {
    if root in txs {
      ChainIsLeastClosedSet(Storage, txs, root);
    }
    forall i, j | i in chain && Edge(Storage, txs, root, i, j) ensures j in chain {
    }
    forall i, j | i in chain && (i == root || txs[i].status == Accepted) && j in txs
                  && txs[i].kind == Conversion && txs[i].seller == None
                  && txs[j].kind == Conversion && txs[j].buyer == None && txs[j].group == txs[i].group
      ensures j in chain
    {
      assert Edge(Storage, txs, root, i, j);
    }
  }

  /** And it holds nothing that this does not force into it. */
  lemma StorageChainIsLeastOnColumns(txs: Table, root: TransactionId, other: set<TransactionId>)
    requires root in other
    requires forall i, j :: (i in other && i in txs && (i == root || txs[i].status == Accepted)
                             && j in txs && txs[j].status == Accepted
                             && txs[i].seller != None && txs[j].buyer == txs[i].seller) ==> j in other
    requires forall i, j :: (i in other && i in txs && (i == root || txs[i].status == Accepted) && j in txs
                             && txs[i].kind == Conversion && txs[i].seller == None
                             && txs[j].kind == Conversion && txs[j].buyer == None && txs[j].group == txs[i].group) ==> j in other
    ensures Chain(Storage, txs, root) <= other
  {
    assert ClosedUnderEdges(Storage, txs, root, other);
    if root in txs {
      ChainIsLeastClosedSet(Storage, txs, root);
    }
  }

  /** The analytics chain on columns: rows of its commodity only, and no conversion edges. */
  lemma AnalyticsChainOnColumns(txs: Table, root: TransactionId, commodity: CommodityId, chain: set<TransactionId>)
    requires chain == Chain(WithinCommodity(commodity), txs, root)
    ensures root in chain <==> root in txs && txs[root].commodity == commodity
    ensures root !in chain ==> chain == {}
    ensures forall x :: x in chain ==> x in txs && txs[x].commodity == commodity
    ensures forall i, j :: (i in chain && (i == root || txs[i].status == Accepted) && j in txs && txs[j].status == Accepted
                            && txs[j].commodity == commodity && txs[i].seller != None && txs[j].buyer == txs[i].seller)
                           ==> j in chain
  {
    var search := WithinCommodity(commodity);
    if root in txs && Visible(search, txs[root]) {
      ChainIsLeastClosedSet(search, txs, root);
    }
    forall x | x in chain ensures Visible(search, txs[x]) {
      var path :| IsPath(search, txs, root, path) && path[|path| - 1] == x;
      assert |path| > 1 ==> Edge(search, txs, root, path[|path| - 2], path[|path| - 2 + 1]);
    }
    forall i, j | i in chain && (i == root || txs[i].status == Accepted) && j in txs && txs[j].status == Accepted
                  && txs[j].commodity == commodity && txs[i].seller != None && txs[j].buyer == txs[i].seller
      ensures j in chain
    {
      ChainStep(search, txs, root, i, j);
    }
  }

  lemma AnalyticsChainIsLeastOnColumns(txs: Table, root: TransactionId, commodity: CommodityId, other: set<TransactionId>)
    requires root in other
    requires forall i, j :: (i in other && i in txs && txs[i].commodity == commodity && (i == root || txs[i].status == Accepted)
                             && j in txs && txs[j].status == Accepted && txs[j].commodity == commodity
                             && txs[i].seller != None && txs[j].buyer == txs[i].seller) ==> j in other
    ensures Chain(WithinCommodity(commodity), txs, root) <= other
  {
    var search := WithinCommodity(commodity);
    assert ClosedUnderEdges(search, txs, root, other);
    if root in txs && Visible(search, txs[root]) {
      ChainIsLeastClosedSet(search, txs, root);
    }
  }

  /** A set that contains the root, holds only chain members and is closed is the chain. */
  lemma ChainFromClosure(search: Search, txs: Table, root: TransactionId, s: set<TransactionId>)
    requires forall x :: x in s ==> x in txs && InChain(search, txs, root, x)
    requires root in txs && Visible(search, txs[root]) ==> root in s
    requires ClosedUnderEdges(search, txs, root, s)
    ensures s == Chain(search, txs, root)
  {
    forall x | x in Chain(search, txs, root) ensures x in s {
      var path :| IsPath(search, txs, root, path) && path[|path| - 1] == x;
      PathStaysInside(search, txs, root, path, s);
    }
  }

  /** Everything in a chain except possibly its root is accepted, provided that
      conversion inputs are. */
  lemma ChainIsAccepted(search: Search, txs: Table, root: TransactionId, x: TransactionId)
    requires forall i :: i in txs && IsInputLeg(txs[i]) ==> txs[i].status.Accepted?
    requires x in Chain(search, txs, root)
    ensures x == root || txs[x].status.Accepted?
  {
    var path :| IsPath(search, txs, root, path) && path[|path| - 1] == x;
    if |path| > 1 {
      assert Edge(search, txs, root, path[|path| - 2], path[|path| - 1]);
    }
  }

  /** A row the chain passes through has its own chain inside the outer one. */
  lemma ChainIsTransitive(txs: Table, root: TransactionId, mid: TransactionId)
    requires mid in Chain(Storage, txs, root)
    requires mid == root || txs[mid].status.Accepted?
    ensures Chain(Storage, txs, mid) <= Chain(Storage, txs, root)
  {
    ChainIsLeastClosedSet(Storage, txs, mid);
    var outer := Chain(Storage, txs, root);
    forall i, j | i in outer && Edge(Storage, txs, mid, i, j) ensures j in outer {
      ChainStep(Storage, txs, root, i, j);
    }
    assert ClosedUnderEdges(Storage, txs, mid, outer);
  }

  /** The analytics chain never leaves the storage chain of the same root. */
  lemma AnalyticsChainIsPartOfStorageChain(txs: Table, root: TransactionId, commodity: CommodityId)
    ensures Chain(WithinCommodity(commodity), txs, root) <= Chain(Storage, txs, root)
  {
    var search := WithinCommodity(commodity);
    forall x | x in Chain(search, txs, root) ensures x in Chain(Storage, txs, root) {
      var path :| IsPath(search, txs, root, path) && path[|path| - 1] == x;
      forall k | 0 <= k < |path| - 1 ensures Edge(Storage, txs, root, path[k], path[k + 1]) {
        assert Edge(search, txs, root, path[k], path[k + 1]);
      }
      assert IsPath(Storage, txs, root, path);
    }
  }
}
