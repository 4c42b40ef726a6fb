/** For the properties that some requests break: the exact condition, over whole runs. */
module Exactness {
  import opened Domain
  import opened Mappers
  import opened Ledgers
  import opened Lifecycle
  import opened Provenance
  import opened Conservation
  import opened Decisions

  // ---- from one step to a run ----

  ghost predicate Throughout(states: seq<Ledger>, good: Ledger -> bool) {
    forall k :: 0 <= k < |states| ==> good(states[k])
  }

  ghost predicate EveryStep(events: seq<Event>, states: seq<Ledger>, safe: (Ledger, Event) -> bool)
    requires |states| == |events| + 1
  {
    forall k :: 0 <= k < |events| ==> safe(states[k], events[k])
  }

  /** From a good state, a step reaches a good state exactly when it is safe. */
  ghost predicate ExactAt(s: Ledger, e: Event, s': Ledger, good: Ledger -> bool, safe: (Ledger, Event) -> bool) {
    good(s) ==> (good(s') <==> safe(s, e))
  }

  lemma {:induction false} SafeStepsStayGood(events: seq<Event>, states: seq<Ledger>, good: Ledger -> bool,
                                             safe: (Ledger, Event) -> bool, n: nat)
    requires |states| == |events| + 1 && n <= |events| && good(states[0])
    requires forall k :: 0 <= k < |events| ==> ExactAt(states[k], events[k], states[k + 1], good, safe)
    requires EveryStep(events, states, safe)
    ensures good(states[n])
  {
    if n > 0 {
      SafeStepsStayGood(events, states, good, safe, n - 1);
      assert ExactAt(states[n - 1], events[n - 1], states[n - 1 + 1], good, safe);
    }
  }

  lemma ThroughoutIff(events: seq<Event>, states: seq<Ledger>, good: Ledger -> bool, safe: (Ledger, Event) -> bool)
    requires |states| == |events| + 1 && good(states[0])
    requires forall k :: 0 <= k < |events| ==> ExactAt(states[k], events[k], states[k + 1], good, safe)
    ensures Throughout(states, good) <==> EveryStep(events, states, safe)
  {
    if EveryStep(events, states, safe) {
      forall k | 0 <= k < |states| ensures good(states[k]) {
        SafeStepsStayGood(events, states, good, safe, k);
      }
    }
    if Throughout(states, good) {
      forall k | 0 <= k < |events| ensures safe(states[k], events[k]) {
        assert ExactAt(states[k], events[k], states[k + 1], good, safe);
        assert good(states[k]) && good(states[k + 1]);
      }
    }
  }

  // ---- balances ----

  /** Balances are never negative in a run exactly when no event of it overdraws. */
  lemma NeverNegativeIff(round: Rounding, events: seq<Event>, states: seq<Ledger>)
    requires IsRun(round, events, states) && RoundsToNearest(round)
    ensures (forall k :: 0 <= k < |states| ==> NonNegative(states[k].balances))
            <==> (forall k :: 0 <= k < |events| ==> DoesNotOverdraw(round, states[k], events[k]))
  {
    var good: Ledger -> bool := (s: Ledger) => NonNegative(s.balances);
    var safe: (Ledger, Event) -> bool := (s: Ledger, e: Event) => DoesNotOverdraw(round, s, e);
    forall k | 0 <= k < |events| ensures ExactAt(states[k], events[k], states[k + 1], good, safe) {
      StepOfRun(round, events, states, k);
      if good(states[k]) {
        BalancesStayNonNegativeIff(round, states[k], events[k], states[k + 1]);
      }
    }
    ThroughoutIff(events, states, good, safe);
    assert Throughout(states, good) <==> forall k :: 0 <= k < |states| ==> NonNegative(states[k].balances);
    assert EveryStep(events, states, safe) <==> forall k :: 0 <= k < |events| ==> DoesNotOverdraw(round, states[k], events[k]);
  }

  // ---- the ledger equation ----

  /** For any rounding, the ledger equation holds throughout a run exactly when no event of it
      slips or loses a credit (or does both, by the same amount). */
  lemma LedgerEquationThroughoutIff(round: Rounding, events: seq<Event>, states: seq<Ledger>)
    requires IsRun(round, events, states)
    ensures (forall k :: 0 <= k < |states| ==> LedgerEquation(states[k]))
            <==> (forall k :: 0 <= k < |events| ==> IsExact(round, states[k], events[k]))
  {
    var good: Ledger -> bool := (s: Ledger) => LedgerEquation(s);
    var safe: (Ledger, Event) -> bool := (s: Ledger, e: Event) => IsExact(round, s, e);
    forall k | 0 <= k < |events| ensures ExactAt(states[k], events[k], states[k + 1], good, safe) {
      StepOfRun(round, events, states, k);
      if good(states[k]) {
        StepKeepsLedgerEquationIff(round, states[k], events[k], states[k + 1]);
      }
    }
    ThroughoutIff(events, states, good, safe);
    assert Throughout(states, good) <==> forall k :: 0 <= k < |states| ==> LedgerEquation(states[k]);
    assert EveryStep(events, states, safe) <==> forall k :: 0 <= k < |events| ==> IsExact(round, states[k], events[k]);
  }

  /** Without ties, and rounding to a nearest hundredth, it holds throughout a run exactly when no
      conversion of it produces, in a visible amount, what it also consumes. */
  lemma LedgerEquationWithoutTiesIff(round: Rounding, events: seq<Event>, states: seq<Ledger>)
    requires IsRun(round, events, states) && RoundsToNearest(round)
    requires forall k :: 0 <= k < |events| ==> TieFree(states[k], events[k])
    ensures (forall k :: 0 <= k < |states| ==> LedgerEquation(states[k]))
            <==> (forall k :: 0 <= k < |events| ==> LosesNothing(round, states[k], events[k]))
  {
    LedgerEquationThroughoutIff(round, events, states);
    forall k | 0 <= k < |events| ensures IsExact(round, states[k], events[k]) <==> LosesNothing(round, states[k], events[k]) {
      TieFreeIsExactIff(round, states[k], events[k]);
    }
  }

  // ---- traceability ----

  /** The seller of an accepted sale bought the commodity before or lacks volume, and whoever
      converts bought one of the inputs before. */
  ghost predicate HasSource(s: Ledger, e: Event) {
    match e
    case Accept(user, id, _, now) =>
      IsIncoming(s.txs, user, id, now, false) ==>
        Purchases(s.txs, s.txs[id].seller, {s.txs[id].commodity}) != {} || Shortfall(s.balances, s.txs[id]) > 0
    case CreateConversion(user, request, _, _, _, _) =>
      var plan := PlanConversion(s.balances, user, request);
      plan.Planned? && (plan.inputs != map[] || plan.outputs != map[]) ==>
        Purchases(s.txs, Some(user), plan.inputs.Keys) != {}
    case _ => true
  }

  lemma LegsAreNewlyAccepted(s: Ledger, user: UserId, from: set<CommodityId>, to: set<CommodityId>, group: GroupId,
                             level: Traceability, legs: Table, s': Ledger)
    requires Consistent(s) && AddsConversion(s, user, from, to, group, level, legs, s')
    ensures forall i :: i in legs ==> i in s'.acceptedAt && i in s'.txs && !s'.txs[i].kind.Producer?
    ensures forall i :: i in s'.acceptedAt && i in s'.txs ==> i in legs || (i in s.acceptedAt && s'.txs[i] == s.txs[i])
  {
    forall i | i in legs ensures !s'.txs[i].kind.Producer? {
      assert LegOk(legs[i], group, user, level);
    }
  }

  lemma ConversionStaysGroundedIff(s: Ledger, user: UserId, from: set<CommodityId>, to: set<CommodityId>, group: GroupId,
                                   legs: Table, s': Ledger)
    requires Consistent(s) && Consistent(s') && Extends(s, s') && Grounded(s)
    requires AddsConversion(s, user, from, to, group, ConversionTraceability(s.txs, user, from), legs, s')
    ensures Grounded(s') <==> legs == map[] || Purchases(s.txs, Some(user), from) != {}
  {
    LegsAreNewlyAccepted(s, user, from, to, group, ConversionTraceability(s.txs, user, from), legs, s');
    forall i | i in s'.acceptedAt && i in s'.txs && !s'.txs[i].kind.Producer?
      ensures GroundedAt(s', i) <==> i in legs ==> Purchases(s.txs, Some(user), from) != {}
    {
      if i in legs {
        ConversionIsGroundedIff(s, user, from, to, group, legs, s', i);
      } else {
        GroundedPersists(s, s', i);
      }
    }
    if legs != map[] {
      var i :| i in legs;
    }
  }

  lemma ConvertedStaysGroundedIff(round: Rounding, s: Ledger, e: Event, s': Ledger)
    requires Consistent(s) && Grounded(s) && e.CreateConversion? && Fresh(s, e) && s' == Apply(round, s, e) && s' != s
    ensures Grounded(s') <==> HasSource(s, e)
  {
    var inputs, outputs := ConversionCase(round, s, e, s');
    var level := ConversionTraceability(s.txs, e.user, inputs.Keys);
    StepKeepsConsistent(round, s, e, s');
    ConvertedAddsConversion(round, s, e.user, inputs, outputs, e.group, e.inputIds, e.outputIds, e.now);
    var legs := AllLegs(round, e.user, inputs, outputs, level, e.group, e.inputIds, e.outputIds, e.now);
    ConversionStaysGroundedIff(s, e.user, inputs.Keys, outputs.Keys, e.group, legs, s');
    NoLegsIff(inputs, outputs, e.inputIds, e.outputIds);
    assert legs == map[] <==> legs.Keys == {};
  }

  lemma NoLegsIff(inputs: map<CommodityId, real>, outputs: map<CommodityId, real>,
                  inputIds: map<TransactionId, CommodityId>, outputIds: map<TransactionId, CommodityId>)
    requires IdsFor(inputIds, inputs) && IdsFor(outputIds, outputs)
    ensures inputIds.Keys + outputIds.Keys == {} <==> inputs == map[] && outputs == map[]
  {
    assert forall c :: c in inputs ==> exists i :: i in inputIds && inputIds[i] == c;
    assert forall c :: c in outputs ==> exists i :: i in outputIds && outputIds[i] == c;
    assert forall i :: i in inputIds ==> inputIds[i] in inputs;
    assert forall i :: i in outputIds ==> outputIds[i] in outputs;
  }

  lemma StepStaysGroundedIff(round: Rounding, s: Ledger, e: Event, s': Ledger)
    requires Consistent(s) && Grounded(s) && Fresh(s, e) && s' == Apply(round, s, e)
    ensures Grounded(s') <==> HasSource(s, e)
  {
    if e.CreateConversion? {
      if s' != s {
        ConvertedStaysGroundedIff(round, s, e, s');
      } else {
        IdleConversion(round, s, e);
      }
    } else {
      StepKeepsConsistent(round, s, e, s');
      forall i | i in s'.acceptedAt && i in s'.txs && !s'.txs[i].kind.Producer? && HasSource(s, e) ensures GroundedAt(s', i) {
        if i in s.acceptedAt {
          assert Preserved(s.txs[i], s'.txs[i]);
          GroundedPersists(s, s', i);
        } else {
          NewlyAccepted(round, s, e, s', i);
          AcceptIsGroundedIff(s, e.user, e.id, e.automaticId, e.now);
        }
      }
      if e.Accept? && IsIncoming(s.txs, e.user, e.id, e.now, false) {
        AcceptIsGroundedIff(s, e.user, e.id, e.automaticId, e.now);
        assert Preserved(s.txs[e.id], s'.txs[e.id]);
      }
    }
  }

  /** A conversion that adds no row was refused or has no leg. */
  lemma IdleConversion(round: Rounding, s: Ledger, e: Event)
    requires e.CreateConversion? && Fresh(s, e) && Apply(round, s, e) == s
    ensures HasSource(s, e)
  {
    ConversionStep(round, s, e);
  }

  /** Every level is the minimum over the ancestry, throughout a run, exactly when every accepted
      sale and conversion of it had a source. */
  lemma GroundedThroughoutIff(round: Rounding, events: seq<Event>, states: seq<Ledger>)
    requires IsRun(round, events, states)
    ensures (forall k :: 0 <= k < |states| ==> Grounded(states[k]))
            <==> (forall k :: 0 <= k < |events| ==> HasSource(states[k], events[k]))
  {
    var good: Ledger -> bool := (s: Ledger) => Grounded(s);
    var safe: (Ledger, Event) -> bool := (s: Ledger, e: Event) => HasSource(s, e);
    forall k | 0 <= k < |events| ensures ExactAt(states[k], events[k], states[k + 1], good, safe) {
      StepOfRun(round, events, states, k);
      if good(states[k]) {
        StepStaysGroundedIff(round, states[k], events[k], states[k + 1]);
      }
    }
    ThroughoutIff(events, states, good, safe);
    assert Throughout(states, good) <==> forall k :: 0 <= k < |states| ==> Grounded(states[k]);
    assert EveryStep(events, states, safe) <==> forall k :: 0 <= k < |events| ==> HasSource(states[k], events[k]);
  }
}
