/** Traceability of whole supply chains, over whole runs. */
module Tracing {
  import opened Domain
  import opened Mappers
  import opened Ledgers
  import opened Lifecycle
  import opened Provenance
  import opened SupplyChain
  import opened Exactness
  import opened FirstChains

  /** There are producers in the ancestry, and the level stored is the minimum over all of them. */
  ghost predicate TracedAt(s: Ledger, i: TransactionId) {
    && i in s.txs
    && Levels(s.txs, Origins(s, i)) != {}
    && s.txs[i].traceability == Some(Lowest(Levels(s.txs, Origins(s, i))))
  }

  ghost predicate Traced(s: Ledger) {
    forall i :: i in s.acceptedAt ==> TracedAt(s, i)
  }

  lemma OriginOfParent(s: Ledger, i: TransactionId, r: TransactionId) returns (p: TransactionId)
    requires Consistent(s) && i in s.acceptedAt && !s.txs[i].kind.Producer? && r in Origins(s, i)
    ensures p in Parents(s, i) && r in Origins(s, p)
  {
    var line :| IsLineTo(s, line, i, r);
    LineageTail(s, line);
    p := line[1];
    assert IsLineTo(s, line[1..], p, r);
  }

  lemma OriginsOfParent(s: Ledger, i: TransactionId, p: TransactionId)
    requires p in Parents(s, i)
    ensures Origins(s, p) <= Origins(s, i)
  {
    forall r | r in Origins(s, p) ensures r in Origins(s, i) {
      var line :| IsLineTo(s, line, p, r);
      LineageStep(s, i, p, line, r);
    }
  }

  /** No parent of a traced row stores a lower level. */
  lemma ParentIsNotBelow(s: Ledger, i: TransactionId, p: TransactionId)
    requires TracedAt(s, i) && TracedAt(s, p) && p in Parents(s, i)
    ensures !s.txs[p].traceability.value.Below(s.txs[i].traceability.value)
  {
    OriginsOfParent(s, i, p);
    assert s.txs[p].traceability.value in Levels(s.txs, Origins(s, i));
  }

  lemma OriginIsNotAbove(s: Ledger, p: TransactionId, r: TransactionId, level: Traceability)
    requires TracedAt(s, p) && r in Origins(s, p) && r in s.txs && s.txs[r].traceability == Some(level)
    ensures !level.Below(s.txs[p].traceability.value)
  {
    assert level in Levels(s.txs, Origins(s, p));
  }

  lemma LowestOrigin(s: Ledger, i: TransactionId) returns (r: TransactionId)
    requires TracedAt(s, i)
    ensures r in Origins(s, i) && r in s.txs && s.txs[r].traceability == s.txs[i].traceability
  {
    var level := s.txs[i].traceability.value;
    assert level in Levels(s.txs, Origins(s, i));
    r :| r in Origins(s, i) && r in s.txs && s.txs[r].traceability.Some? && s.txs[r].traceability.value == level;
  }

  lemma SameLevel(s: Ledger, i: TransactionId, p: TransactionId, r: TransactionId)
    requires TracedAt(s, i) && TracedAt(s, p) && p in Parents(s, i)
    requires r in Origins(s, p) && r in s.txs && s.txs[r].traceability == s.txs[i].traceability
    ensures s.txs[p].traceability == s.txs[i].traceability
  {
    OriginIsNotAbove(s, p, r, s.txs[i].traceability.value);
    ParentIsNotBelow(s, i, p);
  }

  /** The parent through which the lowest origin is reached stores the level of its child. */
  lemma LowestParent(s: Ledger, i: TransactionId) returns (p: TransactionId)
    requires Consistent(s) && i in s.acceptedAt && !s.txs[i].kind.Producer? && TracedAt(s, i)
    requires forall q :: q in Parents(s, i) ==> TracedAt(s, q)
    ensures p in Parents(s, i) && s.txs[p].traceability == s.txs[i].traceability
  {
    var r := LowestOrigin(s, i);
    p := OriginOfParent(s, i, r);
    SameLevel(s, i, p, r);
  }

  lemma TracedIsGroundedAt(s: Ledger, i: TransactionId)
    requires Consistent(s) && Traced(s) && i in s.acceptedAt && !s.txs[i].kind.Producer?
    ensures GroundedAt(s, i)
  {
    assert TracedAt(s, i);
    var p := LowestParent(s, i);
    forall q | q in Parents(s, i) && q in s.txs && s.txs[q].traceability.Some?
      ensures !s.txs[q].traceability.value.Below(s.txs[i].traceability.value)
    {
      assert TracedAt(s, q);
      ParentIsNotBelow(s, i, q);
    }
  }

  /** The local rule and its global meaning are the same thing. */
  lemma TracedIffGrounded(s: Ledger)
    requires Consistent(s)
    ensures Traced(s) <==> Grounded(s)
  {
    if Traced(s) {
      forall i | i in s.acceptedAt && i in s.txs && !s.txs[i].kind.Producer? ensures GroundedAt(s, i) {
        TracedIsGroundedAt(s, i);
      }
    }
    if Grounded(s) {
      forall i | i in s.acceptedAt ensures TracedAt(s, i) {
        LocalMinimumIsGlobalMinimum(s, i);
      }
    }
  }

  /** Throughout a run every accepted transaction stores the minimum over all producers in its
      ancestry, exactly when every accepted sale and conversion of it has a source. */
  lemma TracedThroughoutIff(round: Rounding, events: seq<Event>, states: seq<Ledger>)
    requires IsRun(round, events, states)
    ensures (forall k :: 0 <= k < |states| ==> Traced(states[k]))
            <==> (forall k :: 0 <= k < |events| ==> HasSource(states[k], events[k]))
  {
    forall k | 0 <= k < |states| ensures Traced(states[k]) <==> Grounded(states[k]) {
      if k < |events| {
        StepOfRun(round, events, states, k);
      } else {
        RunIsConsistent(round, events, states);
      }
      TracedIffGrounded(states[k]);
    }
    GroundedThroughoutIff(round, events, states);
  }

  /** Sound requests are enough: each of their sales and conversions has a source. */
  lemma SoundRunsHaveSources(round: Rounding, events: seq<Event>, states: seq<Ledger>)
    requires IsRun(round, events, states) && SoundRun(round, events)
    ensures forall k :: 0 <= k < |events| ==> HasSource(states[k], events[k])
  {
    forall k | 0 <= k < |states| ensures Grounded(states[k]) {
      RunIsSourced(round, events, states, k);
    }
    GroundedThroughoutIff(round, events, states);
  }

  /** Where every sale and conversion of a run has a source, every accepted transaction stores the
      minimum over its ancestry and has a producer with exactly that level in its first chain. */
  lemma RunsTraceEverything(round: Rounding, events: seq<Event>, states: seq<Ledger>)
    requires IsRun(round, events, states)
    requires forall k :: 0 <= k < |events| ==> HasSource(states[k], events[k])
    ensures forall k :: 0 <= k < |states| ==> Traced(states[k]) && Witnessed(states[k])
  {
    TracedThroughoutIff(round, events, states);
    assert forall k :: 0 <= k < |events| ==> HasWitness(states[k], events[k]);
    WitnessedThroughoutIff(round, events, states);
  }
}
