/** From local minima to whole chains: the main results on traceability. */
module SupplyChain {
  import opened Domain
  import opened Mappers
  import opened Ledgers
  import opened Lifecycle
  import opened Provenance
  import opened ChainGraph
  import opened ChainSearch

  /** A supply line: every member was made from the next one, which was accepted before it. */
  ghost predicate IsLineage(s: Ledger, line: seq<TransactionId>) {
    && line != []
    && line[0] in s.acceptedAt
    && forall k :: 0 <= k < |line| - 1 ==> IsParent(s, line[k + 1], line[k])
  }

  ghost predicate IsLineTo(s: Ledger, line: seq<TransactionId>, i: TransactionId, origin: TransactionId) {
    IsLineage(s, line) && line[0] == i && line[|line| - 1] == origin
  }

  /** The producer transactions in the ancestry of `i`. */
  ghost function Origins(s: Ledger, i: TransactionId): set<TransactionId> {
    set r | r in s.txs && s.txs[r].kind.Producer? && exists line :: IsLineTo(s, line, i, r)
  }

  lemma LineageStep(s: Ledger, i: TransactionId, p: TransactionId, line: seq<TransactionId>, origin: TransactionId)
    requires IsParent(s, p, i) && IsLineTo(s, line, p, origin)
    ensures IsLineTo(s, [i] + line, i, origin)
  {
    var longer := [i] + line;
    forall k | 0 <= k < |longer| - 1 ensures IsParent(s, longer[k + 1], longer[k]) {
      if k > 0 {
        assert longer[k] == line[k - 1] && longer[k + 1] == line[k];
        assert IsParent(s, line[k - 1 + 1], line[k - 1]);
      }
    }
  }

  lemma LineageTail(s: Ledger, line: seq<TransactionId>)
    requires IsLineage(s, line) && |line| > 1
    ensures IsLineage(s, line[1..]) && IsParent(s, line[1], line[0])
  {
    assert IsParent(s, line[0 + 1], line[0]);
    forall k | 0 <= k < |line[1..]| - 1 ensures IsParent(s, line[1..][k + 1], line[1..][k]) {
      assert IsParent(s, line[k + 1 + 1], line[k + 1]);
    }
  }

  /** No origin of a line stores a level below the line's head. */
  lemma {:induction false} OriginIsNotBelow(s: Ledger, line: seq<TransactionId>)
    requires Consistent(s) && Grounded(s) && IsLineage(s, line)
    ensures var i, origin := line[0], line[|line| - 1];
            && i in s.txs && origin in s.txs
            && s.txs[i].traceability.Some? && s.txs[origin].traceability.Some?
            && !s.txs[origin].traceability.value.Below(s.txs[i].traceability.value)
    decreases |line|
  {
    assert RowOk(s.txs[line[0]]);
    if |line| > 1 {
      LineageTail(s, line);
      OriginIsNotBelow(s, line[1..]);
      assert line[1] in Parents(s, line[0]);
      assert GroundedAt(s, line[0]);
    }
  }

  /** Following a parent with the lowest level reaches a producer with the level of `i`. */
  lemma {:induction false} LowestLine(s: Ledger, i: TransactionId) returns (line: seq<TransactionId>, origin: TransactionId)
    requires Consistent(s) && Grounded(s) && i in s.acceptedAt
    ensures IsLineTo(s, line, i, origin)
    ensures origin in s.txs && s.txs[origin].kind.Producer?
    ensures s.txs[origin].traceability == s.txs[i].traceability
    decreases s.acceptedAt[i]
  {
    if s.txs[i].kind.Producer? {
      line, origin := [i], i;
    } else {
      assert GroundedAt(s, i);
      var p :| p in Parents(s, i) && p in s.txs && s.txs[p].traceability == s.txs[i].traceability;
      line, origin := LowestLine(s, p);
      LineageStep(s, i, p, line, origin);
      line := [i] + line;
    }
  }

  /** The local rule has a global meaning: the stored level of an accepted transaction is the
      minimum over all producer transactions in its ancestry, and there is one. */
  lemma LocalMinimumIsGlobalMinimum(s: Ledger, i: TransactionId)
    requires Consistent(s) && Grounded(s) && i in s.acceptedAt
    ensures Levels(s.txs, Origins(s, i)) != {}
    ensures s.txs[i].traceability == Some(Lowest(Levels(s.txs, Origins(s, i))))
  {
    var line, origin := LowestLine(s, i);
    assert origin in Origins(s, i);
    var level := s.txs[i].traceability.value by {
      assert RowOk(s.txs[i]);
    }
    assert level in Levels(s.txs, Origins(s, i));
    forall other | other in Levels(s.txs, Origins(s, i)) ensures !other.Below(level) {
      var r :| r in Origins(s, i) && r in s.txs && s.txs[r].traceability == Some(other);
      var line' :| IsLineTo(s, line', i, r);
      OriginIsNotBelow(s, line');
    }
    LowestIsUnique(Levels(s.txs, Origins(s, i)), level);
  }

  /** Goods that entered the ledger through a shortfall taint everything made from them. */
  lemma AutomaticOriginMeansIncomplete(s: Ledger, i: TransactionId, origin: TransactionId)
    requires Consistent(s) && Grounded(s) && i in s.acceptedAt
    requires origin in Origins(s, i) && s.txs[origin].isAutomatic
    ensures i in s.txs && s.txs[i].traceability == Some(Incomplete)
  {
    var line :| IsLineTo(s, line, i, origin);
    OriginIsNotBelow(s, line);
    assert RowOk(s.txs[origin]);
  }

  /** A parent lies in the chain: directly for a sale or an input leg, through an input leg of
      the same conversion for an output leg. */
  lemma ParentIsInChain(s: Ledger, p: TransactionId, i: TransactionId)
    requires Consistent(s) && IsParent(s, p, i)
    ensures p in Chain(Storage, s.txs, i)
  {
    var t := s.txs[i];
    assert RowOk(t);
    ChainHasRoot(Storage, s.txs, i);
    if t.seller.Some? {
      ChainStep(Storage, s.txs, i, i, p);
    } else {
      assert t.kind.Conversion?;
      var j :| j in s.txs && IsInputLeg(s.txs[j]) && s.txs[j].group == t.group && s.txs[j].commodity == s.txs[p].commodity;
      assert Grouped(s.txs, i, s.txs, j) && RowOk(s.txs[j]);
      ChainStep(Storage, s.txs, i, i, j);
      ChainStep(Storage, s.txs, i, j, p);
    }
  }

  lemma {:induction false} LineIsInChain(s: Ledger, line: seq<TransactionId>)
    requires Consistent(s) && IsLineage(s, line)
    ensures line[|line| - 1] in Chain(Storage, s.txs, line[0])
    decreases |line|
  {
    if |line| == 1 {
      ChainHasRoot(Storage, s.txs, line[0]);
    } else {
      LineageTail(s, line);
      ParentIsInChain(s, line[1], line[0]);
      LineIsInChain(s, line[1..]);
      ChainIsTransitive(s.txs, line[0], line[1]);
    }
  }

  /** No accepted chain dead-ends: the first chain of an accepted transaction holds a producer
      with exactly its level. */
  lemma FirstChainHasWitness(s: Ledger, i: TransactionId)
    requires Consistent(s) && Grounded(s) && i in s.acceptedAt
    ensures exists w :: w in FirstChain(s.txs, i) && s.txs[w].kind.Producer? && s.txs[w].traceability == s.txs[i].traceability
  {
    var line, w := LowestLine(s, i);
    LineIsInChain(s, line);
    assert RowOk(s.txs[w]);
    assert w in FirstChain(s.txs, i);
  }

  /** No producer is missed: everything in the ancestry that is a producer is in the first chain. */
  lemma OriginsAreInFirstChain(s: Ledger, i: TransactionId)
    requires Consistent(s) && i in s.acceptedAt
    ensures Origins(s, i) <= FirstChain(s.txs, i)
  {
    forall r | r in Origins(s, i) ensures r in FirstChain(s.txs, i) {
      var line :| IsLineTo(s, line, i, r);
      LineIsInChain(s, line);
      assert RowOk(s.txs[r]);
    }
  }

  // ---- chains over runs ----

  /** A chain only grows: later steps add rows and decide pending ones, nothing else. */
  lemma ChainsAreMonotone(s: Ledger, s': Ledger, root: TransactionId)
    requires Extends(s, s')
    ensures Chain(Storage, s.txs, root) <= Chain(Storage, s'.txs, root)
  {
    forall x | x in Chain(Storage, s.txs, root) ensures x in Chain(Storage, s'.txs, root) {
      assert forall i :: i in s.txs ==> Preserved(s.txs[i], s'.txs[i]);
      var path :| IsPath(Storage, s.txs, root, path) && path[|path| - 1] == x;
      forall k | 0 <= k < |path| - 1 ensures Edge(Storage, s'.txs, root, path[k], path[k + 1]) {
        assert Edge(Storage, s.txs, root, path[k], path[k + 1]);
      }
      assert IsPath(Storage, s'.txs, root, path);
    }
  }

  lemma {:induction false} RunExtends(round: Rounding, events: seq<Event>, states: seq<Ledger>, from: nat)
    requires IsRun(round, events, states) && from <= |events|
    ensures Extends(states[from], states[|events|])
    decreases |events|
  {
    if from < |events| {
      var n := |events| - 1;
      RunPrefix(round, events, states);
      RunExtends(round, events[..n], states[..|events|], from);
      RunIsConsistent(round, events[..n], states[..|events|]);
      StepKeepsConsistent(round, states[n], events[n], states[|events|]);
      ExtendsIsTransitive(states[from], states[n], states[|events|]);
    }
  }

  /** Over a run, a decided row stays decided as it was, and every chain contains its past. */
  lemma DecisionsAndChainsPersist(round: Rounding, events: seq<Event>, states: seq<Ledger>, from: nat, i: TransactionId)
    requires IsRun(round, events, states) && from <= |events| && i in states[from].txs
    ensures var s, s' := states[from], states[|events|];
            && i in s'.txs && Preserved(s.txs[i], s'.txs[i])
            && Chain(Storage, s.txs, i) <= Chain(Storage, s'.txs, i)
  {
    RunExtends(round, events, states, from);
    ChainsAreMonotone(states[from], states[|events|], i);
  }

  ghost predicate ClosedUnderBothEdges(txs: Table, ids: set<TransactionId>) {
    forall i, j :: i in ids && i in txs && j in txs && (SellerEdge(txs[i], txs[j]) || ConversionEdge(txs[i], txs[j]))
                   ==> j in ids
  }

  /** On reachable states the chain is the least set that holds the root and is closed under
      both edge kinds, with no condition on the status of the row an edge leaves. */
  lemma ReachableChainIsLeastClosedSet(s: Ledger, root: TransactionId)
    requires Consistent(s) && root in s.txs
    ensures root in Chain(Storage, s.txs, root)
    ensures ClosedUnderBothEdges(s.txs, Chain(Storage, s.txs, root))
    ensures forall other: set<TransactionId> :: root in other && ClosedUnderBothEdges(s.txs, other) ==>
              Chain(Storage, s.txs, root) <= other
  {
    var chain := Chain(Storage, s.txs, root);
    ChainIsLeastClosedSet(Storage, s.txs, root);
    assert forall i :: i in s.txs && IsInputLeg(s.txs[i]) ==> RowOk(s.txs[i]) && s.txs[i].status.Accepted?;
    forall i, j | i in chain && j in s.txs && (SellerEdge(s.txs[i], s.txs[j]) || ConversionEdge(s.txs[i], s.txs[j]))
      ensures j in chain
    {
      ChainIsAccepted(Storage, s.txs, root, i);
      assert Edge(Storage, s.txs, root, i, j);
    }
    forall other: set<TransactionId> | root in other && ClosedUnderBothEdges(s.txs, other)
      ensures chain <= other
    {
      assert ClosedUnderEdges(Storage, s.txs, root, other);
    }
  }

  // ---- traceability counts ----

  function CountSum(counts: map<Traceability, nat>): nat
    requires counts.Keys == {Full, Conditional, Partial, Incomplete}
  {
    counts[Full] + counts[Conditional] + counts[Partial] + counts[Incomplete]
  }

  /** The counts of a chain add up to its size, less one when the root is not accepted. */
  lemma CountsAddUp(s: Ledger, root: TransactionId, counts: map<Traceability, nat>)
    requires Consistent(s) && root in s.txs
    requires counts.Keys == {Full, Conditional, Partial, Incomplete}
    requires forall level :: level in counts ==>
               counts[level] == |set i | i in Chain(Storage, s.txs, root) && i in s.txs && s.txs[i].traceability == Some(level)|
    ensures CountSum(counts) == |Chain(Storage, s.txs, root)| - if s.txs[root].status.Accepted? then 0 else 1
  {
    var chain := Chain(Storage, s.txs, root);
    var accepted := set i | i in chain && s.txs[i].status.Accepted?;
    ChainHasRoot(Storage, s.txs, root);
    assert forall i :: i in s.txs ==> RowOk(s.txs[i]);
    forall i | i in chain ensures i in accepted <==> i != root || s.txs[root].status.Accepted? {
      ChainIsAccepted(Storage, s.txs, root, i);
    }
    assert accepted == chain - if s.txs[root].status.Accepted? then {} else {root};
    assert forall level :: AtLevel(s.txs, chain, level) == set i | i in chain && i in s.txs && s.txs[i].traceability == Some(level);
    PartitionByLevel(s.txs, chain, accepted);
  }

  lemma PartitionByLevel(txs: Table, chain: set<TransactionId>, levelled: set<TransactionId>)
    requires chain <= txs.Keys && levelled == set i | i in chain && i in txs && txs[i].traceability.Some?
    ensures |levelled| == |AtLevel(txs, chain, Full)| + |AtLevel(txs, chain, Conditional)|
                          + |AtLevel(txs, chain, Partial)| + |AtLevel(txs, chain, Incomplete)|
  {
    var full, conditional := AtLevel(txs, chain, Full), AtLevel(txs, chain, Conditional);
    var partial, incomplete := AtLevel(txs, chain, Partial), AtLevel(txs, chain, Incomplete);
    assert full !! conditional && (full + conditional) !! partial && (full + conditional + partial) !! incomplete;
    forall i ensures i in levelled <==> i in full + conditional + partial + incomplete {
      if i in levelled {
        match txs[i].traceability.value
        case Full =>
        case Conditional =>
        case Partial =>
        case Incomplete =>
      }
    }
    assert levelled == full + conditional + partial + incomplete;
  }
}
