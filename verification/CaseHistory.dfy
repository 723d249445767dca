/**
  How one case file may change over time: versions and logs only grow, equal
  versions mean equal records, a provider reference is written once, and a
  closed case stays closed.
*/
module CaseHistory {
  import opened Wrappers
  import opened DispatchModels
  import opened DispatchStore
  import opened DispatchCoordinator
  import opened CaseAutomaton

  predicate SlotEvolves(slot: Slot, slot': Slot) {
    && slot'.attempt.identity == slot.attempt.identity
    && slot.attempt.version <= slot'.attempt.version
    && (slot.attempt.version == slot'.attempt.version ==> slot' == slot)
    && (slot.attempt.reference.Some? ==> slot'.attempt.reference == slot.attempt.reference)
  }

  predicate Evolves(f: CaseFile, f': CaseFile) {
    && f'.record.identity == f.record.identity
    && f.record.version <= f'.record.version
    && (f.record.version == f'.record.version ==> f'.record == f.record && f'.slots == f.slots)
    && |f.slots| <= |f'.slots|
    && (forall i :: 0 <= i < |f.slots| ==> SlotEvolves(f.slots[i], f'.slots[i]))
    && f.log <= f'.log
  }

  lemma EvolvesTransitive(f: CaseFile, g: CaseFile, h: CaseFile)
    requires Evolves(f, g) && Evolves(g, h)
    ensures Evolves(f, h)
  {
    forall i | 0 <= i < |f.slots| ensures SlotEvolves(f.slots[i], h.slots[i]) {
      assert SlotEvolves(f.slots[i], g.slots[i]) && SlotEvolves(g.slots[i], h.slots[i]);
    }
  }

  /** Replacing one slot and raising the case version. */
  lemma AmendEvolves(f: CaseFile, n: nat, record: DispatchCase, slot: Slot, event: DispatchEvent)
    requires n < |f.slots| && SlotEvolves(f.slots[n], slot)
    requires record.identity == f.record.identity && record.version == f.record.version + 1
    ensures Evolves(f, Amend(f, n, record, slot, event))
  {
  }

  lemma CallbackEvolves(policy: Policy, m: CaseMove, f: CaseFile)
    requires m.Callback? && Enabled(policy, m, f)
    ensures Evolves(f, Perform(policy, m, f))
  {
    var plan := Handle(policy, f.record, f.slots[m.n].attempt, m.reference, m.action, m.env).plan;
    AmendEvolves(f, m.n, plan.record, f.slots[m.n].(attempt := plan.attempt), plan.event);
  }

  lemma CloseEvolves(policy: Policy, m: CaseMove, f: CaseFile)
    requires (m.Cancel? || m.Exhaust?) && Enabled(policy, m, f)
    ensures Evolves(f, Perform(policy, m, f))
  {
  }

  lemma MoveEvolves(policy: Policy, m: CaseMove, f: CaseFile)
    requires Enabled(policy, m, f)
    ensures Evolves(f, Perform(policy, m, f))
  {
    match m {
      case Callback(_, _, _, _) => CallbackEvolves(policy, m, f);
      case Cancel(_, _, _) => CloseEvolves(policy, m, f);
      case Exhaust(_, _) => CloseEvolves(policy, m, f);
      case _ =>
    }
  }

  /**
    A case that was acknowledged, handed to a person or canceled never changes
    again; a case whose ladder was exhausted changes only by a key-press, which
    acknowledges it or hands it to a person.
  */
  lemma ClosedForGood(policy: Policy, m: CaseMove, f: CaseFile)
    requires Enabled(policy, m, f) && f.record.status.Terminal()
    ensures var f' := Perform(policy, m, f);
            || (f'.record == f.record && f'.slots == f.slots)
            || (&& f.record.status.Unacknowledged?
                && m.Callback? && m.action.Gather? && !m.action.digits.Other?
                && (f'.record.status.Acknowledged? || f'.record.status.ManualFollowUp?))
  {
  }

  /**
    An exhausted queue hands the case to a person and leaves every submission
    as it was: a claim stays a claim, whose call may still come through.
  */
  lemma ExhaustKeepsSubmissions(policy: Policy, m: CaseMove, f: CaseFile)
    requires m.Exhaust? && Enabled(policy, m, f)
    ensures var f' := Perform(policy, m, f);
            && f'.record.status.ManualFollowUp? && |f'.slots| == |f.slots|
            && (forall i :: 0 <= i < |f.slots| ==> f'.slots[i].submission == f.slots[i].submission)
            && (m.n < |f.slots| ==> f'.slots[m.n].attempt.status.ManualFollowUp?)
  {
  }
}
