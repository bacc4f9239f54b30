/** Reversion in a ring: of the two events that can strand a revertive owner in PENDING a ring with
    one owner only knows one, the CLEAR of a remote switch at an owner that blocks nothing. */
module Reversion {
  import opened NodeModel
  import opened Events
  import opened Robustness
  import opened Safety
  import opened SafeRuns
  import opened Persistence
  import opened Ring

  predicate NodeReverts(s: NodeState) {
    ControlOk(s) && OwnerRb(s) && RevertOk(s)
  }

  ghost predicate RingReverts(r: seq<NodeState>) {
    WellConfigured(r) && forall i :: 0 <= i < |r| ==> NodeReverts(r[i])
  }

  /** CLEAR of a manual or forced switch at a revertive owner with nothing blocked. */
  predicate ClearStrands(r: seq<NodeState>, a: RingAct) {
    && a.NodeEvent? && a.i < |r|
    && a.ev.Local? && a.ev.cmd.AdmClear? && Reverts(r[a.i])
    && (r[a.i].state.ManualSwitch? || r[a.i].state.ForcedSwitch?) && !r[a.i].AnyBlocked()
  }

  lemma OnlyClearStrands(r: seq<NodeState>, a: RingAct)
    requires RingReverts(r) && RingEnabled(r, a) && a.env.Succeeds()
    ensures StepStrands(r[Target(a)], EventAt(r, a), a.env) <==> ClearStrands(r, a)
  {
    hide ControlOk, RevertOk, Heard, CurrentPdu;
    if a.Deliver? {
      assert NodeReverts(r[a.from]);
      OwnerHearsNoRb(r, a);
      HeardIsRemote(r[a.to], EventAt(r, a).pdu, a.env);
    }
  }

  /** Exact: one step of a ring strands a revertive owner if and only if it is such a CLEAR. */
  lemma RingStepKeepsReversion(r: seq<NodeState>, a: RingAct)
    requires RingReverts(r) && RingEnabled(r, a) && a.env.Succeeds()
    ensures RingReverts(RingStep(r, a)) <==> !ClearStrands(r, a)
  {
    hide Step, ControlOk, OwnerRb, RevertOk, StepStrands, ClearStrands, CurrentPdu;
    var s, ev := r[Target(a)], EventAt(r, a);
    var t := RingStep(r, a);
    assert NodeReverts(s);
    StepKeepsSafe(s, ev, a.env);
    StepKeepsRevert(s, ev, a.env);
    OnlyClearStrands(r, a);
    assert t[Target(a)] == Step(s, ev, a.env).node;
    assert RingReverts(t) ==> NodeReverts(t[Target(a)]);
  }

  ghost predicate NoStrandingClear(r: seq<NodeState>, a: RingAct) {
    a.env.Succeeds() && !ClearStrands(r, a)
  }

  lemma {:induction false} RingRunKeepsReversion(r: seq<NodeState>, acts: seq<RingAct>)
    requires RingReverts(r) && IsRingRun(r, acts, NoStrandingClear)
    ensures RingReverts(RingRun(r, acts, NoStrandingClear))
    decreases acts
  {
    if acts != [] {
      hide RingReverts, RingStep, ClearStrands;
      RingStepKeepsReversion(r, acts[0]);
      RingRunKeepsReversion(RingStep(r, acts[0]), acts[1..]);
    }
  }

  lemma BootedRingReverts(r: seq<NodeState>)
    requires RingBooted(r)
    ensures RingReverts(r)
  {
  }

  /** Reversion is never lost: in a ring of any size, after any run without a stranding CLEAR, a
      revertive owner in PENDING has WTR or WTB running, and its expiry takes the node to IDLE with
      exactly the RPL blocked. */
  lemma ReversionIsNeverLost(r: seq<NodeState>, acts: seq<RingAct>, i: nat, env: Env)
    requires RingBooted(r) && IsRingRun(r, acts, NoStrandingClear) && env.Succeeds()
    ensures var t := RingRun(r, acts, NoStrandingClear);
            i < |t| && Reverts(t[i]) && t[i].state.Pending? ==>
              var fires := NodeEvent(i, if t[i].wtr.Running? then WtrFires else WtbFires, env);
              && RingEnabled(t, fires)
              && var s := RingStep(t, fires)[i]; s.state.Idle? && s.p1.blocked && !s.p0.blocked && s.pdu.HasRb()
  {
    hide RingBooted, IsRingRun, RingRun, Step, ControlOk, OwnerRb;
    BootedRingReverts(r);
    RingRunKeepsReversion(r, acts);
    var t := RingRun(r, acts, NoStrandingClear);
    if i < |t| && Reverts(t[i]) && t[i].state.Pending? {
      assert NodeReverts(t[i]);
      ExpiryReverts(t[i], if t[i].wtr.Running? then WtrFires else WtbFires, env);
    }
  }
}
