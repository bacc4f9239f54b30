/** The exceptions to the properties of nodes and rings do happen: runs of freshly started nodes and
    rings, with every foreign call succeeding, that reach them. */
module Lapses {
  import opened Requests
  import opened NodeIds
  import opened Raps
  import opened NodeModel
  import opened Events
  import opened Runs
  import opened TableFacts
  import opened Safety
  import opened SafeRuns
  import opened Persistence
  import opened Retransmission
  import opened Ring
  import opened Backing
  import opened Convergence
  import opened Election
  import T = Table

  ghost predicate Working(s: NodeState, act: Act) { act.env.Succeeds() }

  /** A frame of another node. */
  function PduFrom(reqState: bv8, status: bv8, id: NodeId): Pdu {
    Pdu(0, OPCODE, FLAGS, TLV_OFFSET, RsSc(reqState, 0), status, id)
  }

  lemma FrameIsHeard(s: NodeState, id: NodeId, env: Env)
    requires s.guard.Stopped? && id != s.cfg.id
    ensures s.cfg.ver != VERSION_1 ==> Heard(s, PduFrom(FS, 0, id), env) == Some(RapsFs)
    ensures s.cfg.ver != VERSION_1 ==> Heard(s, PduFrom(MS, 0, id), env) == Some(RapsMs)
    ensures Heard(s, PduFrom(SF, 0, id), env) == Some(RapsSf)
    ensures Heard(s, PduFrom(NR, RB, id), env) == Some(RapsNrRb)
  {
  }

  lemma TwoSteps(s: NodeState, a: Act, b: Act)
    requires Enabled(s, a.ev) && Enabled(After(s, a), b.ev) && a.env.Succeeds() && b.env.Succeeds()
    ensures IsRun(s, [a, b], Working) && Run(s, [a, b]) == After(After(s, a), b)
  {
    hide Step;
    assert [a, b][1..] == [b] && [b][1..] == [];
    assert IsRun(After(After(s, a), b), [], Working);
    assert IsRun(After(s, a), [b], Working);
    assert Run(After(s, a), [b]) == Run(After(After(s, a), b), []);
  }

  // ----- a failure at the start -----

  lemma BootedFails(s: NodeState, p: PortNo, env: Env) returns (t: NodeState)
    requires Booted(s) && env.Succeeds()
    ensures t == Step(s, Local(p, SignalFail), env).node
    ensures ControlOk(t) && t.cfg == s.cfg && t.guard == s.guard && t.state.Protection? && t.topreq.Sf?
    ensures t.Blocked(p) && t.Port(p).failed
    ensures t.pdu.rsSc == RsSc(SF, 0) && (t.Transmitting() <==> env.Audible())
  {
    hide Step, T.SwitchTo;
    BootedIsSafe(s);
    t := Step(s, Local(p, SignalFail), env).node;
    StepIsReact(s, Local(p, SignalFail), env);
    SwitchToBlocksOne(T.Latch(s, p, Sf), p, SF, Protection, env);
  }

  // ----- stranded in PENDING -----

  predicate Stranded(s: NodeState) {
    Reverts(s) && s.state.Pending? && s.wtr.Stopped? && s.wtb.Stopped? && s.topreq.Invalid?
  }

  /** R-APS(FS) makes the owner open its ports; a CLEAR given to the owner itself then ends the forced
      switch without starting WTB, and nothing will ever block the RPL again by itself. */
  lemma StrandedByClear(s: NodeState, p: PortNo, q: PortNo, id: NodeId, env: Env)
    requires Booted(s) && Reverts(s) && s.cfg.ver != VERSION_1 && id != s.cfg.id && env.Succeeds()
    ensures var acts := [Act(Receive(p, PduFrom(FS, 0, id)), env), Act(Local(q, AdmClear), env)];
            && IsRun(s, acts, Working)
            && Stranded(Run(s, acts)) && !Run(s, acts).AnyBlocked() && !RevertOk(Run(s, acts))
  {
    hide Step, IsRun, Run, Booted, ControlOk, PduFrom;
    assert s.guard.Stopped? by { BootedUnguarded(s); }
    FrameIsHeard(s, id, env);
    var s1 := FollowsFs(s, p, PduFrom(FS, 0, id), env);
    OwnerReleases(s1, q, env);
    TwoSteps(s, Act(Receive(p, PduFrom(FS, 0, id)), env), Act(Local(q, AdmClear), env));
  }

  lemma FollowsFs(s: NodeState, p: PortNo, pdu: Pdu, env: Env) returns (t: NodeState)
    requires Booted(s) && env.Succeeds() && Heard(s, pdu, env) == Some(RapsFs)
    ensures t == Step(s, Receive(p, pdu), env).node
    ensures ControlOk(t) && t.cfg == s.cfg && t.state.ForcedSwitch? && t.topreq.Invalid? && !t.AnyBlocked()
  {
    hide Step, Heard, T.OpenAndMute;
    t := Step(s, Receive(p, pdu), env).node;
    StepIsReact(s, Receive(p, pdu), env);
    OpenAndMuteOpensAll(s.(topreq := Invalid), ForcedSwitch);
  }

  lemma OwnerReleases(s: NodeState, p: PortNo, env: Env)
    requires ControlOk(s) && Reverts(s) && s.state.ForcedSwitch? && !s.AnyBlocked() && env.Succeeds()
    ensures Stranded(Step(s, Local(p, AdmClear), env).node) && !Step(s, Local(p, AdmClear), env).node.AnyBlocked()
  {
    hide Step;
    StepIsReact(s, Local(p, AdmClear), env);
  }

  /** R-APS(NR,RB) heard in PROTECTION, as from a second owner, has the same effect. */
  lemma StrandedByNrRb(s: NodeState, p: PortNo, q: PortNo, id: NodeId, env: Env)
    requires Booted(s) && Reverts(s) && id != s.cfg.id && env.Succeeds()
    ensures var acts := [Act(Receive(p, PduFrom(SF, 0, id)), env), Act(Receive(q, PduFrom(NR, RB, id)), env)];
            && IsRun(s, acts, Working)
            && Stranded(Run(s, acts)) && !RevertOk(Run(s, acts))
  {
    hide Step, IsRun, Run, Booted, ControlOk, PduFrom;
    assert s.guard.Stopped? by { BootedUnguarded(s); }
    FrameIsHeard(s, id, env);
    var s1 := FollowsSf(s, p, PduFrom(SF, 0, id), env);
    FrameIsHeard(s1, id, env);
    HearsRb(s1, q, PduFrom(NR, RB, id), env);
    TwoSteps(s, Act(Receive(p, PduFrom(SF, 0, id)), env), Act(Receive(q, PduFrom(NR, RB, id)), env));
  }

  lemma BootedUnguarded(s: NodeState)
    requires Booted(s)
    ensures s.guard.Stopped?
  {
  }

  lemma FollowsSf(s: NodeState, p: PortNo, pdu: Pdu, env: Env) returns (t: NodeState)
    requires Booted(s) && env.Succeeds() && Heard(s, pdu, env) == Some(RapsSf)
    ensures t == Step(s, Receive(p, pdu), env).node
    ensures ControlOk(t) && t.cfg == s.cfg && t.guard == s.guard && t.state.Protection? && t.topreq.Invalid?
  {
    hide Step, Heard, T.OpenSoundAndMute;
    t := Step(s, Receive(p, pdu), env).node;
    StepIsReact(s, Receive(p, pdu), env);
    OpenSoundKeepsFailed(s.(topreq := Invalid), Protection);
  }

  lemma HearsRb(s: NodeState, p: PortNo, pdu: Pdu, env: Env)
    requires ControlOk(s) && Reverts(s) && s.state.Protection? && s.topreq.Invalid?
    requires env.Succeeds() && Heard(s, pdu, env) == Some(RapsNrRb)
    ensures Stranded(Step(s, Receive(p, pdu), env).node)
  {
    hide Step, Heard;
    StepIsReact(s, Receive(p, pdu), env);
  }

  /** A manual switch whose port the driver refuses to block fails, but by then the timers are stopped:
      the owner stays in PENDING, and the switch stays latched there. */
  lemma StrandedByFailure(s: NodeState, err: Errno, env: Env)
    requires Booted(s) && Reverts(s) && env.lock == 0 && env.io0 == SetFails(err)
    ensures var acts := [Act(Local(0, AdmManualSwitch), env)];
            var t := Run(s, acts);
            && IsRun(s, acts, Anything)
            && Step(s, acts[0].ev, env).Failed?
            && t.state.Pending? && t.wtr.Stopped? && t.wtb.Stopped? && t.topreq.Ms? && !RevertOk(t)
  {
    hide Step;
    var a := Act(Local(0, AdmManualSwitch), env);
    assert [a][1..] == [];
    assert IsRun(After(s, a), [], Anything) && Run(After(s, a), []) == After(s, a);
    MsFails(s, err, env);
  }

  lemma MsFails(s: NodeState, err: Errno, env: Env)
    requires Booted(s) && Reverts(s) && env.lock == 0 && env.io0 == SetFails(err)
    ensures var o := Step(s, Local(0, AdmManualSwitch), env);
            && o.Failed? && o.err == err && o.node == s.(topreq := Ms, wtr := Stopped, wtb := Stopped)
  {
  }

  // ----- swaying -----

  function Recovery(env: Env): seq<Act> {
    [Act(Local(1, SignalFail), env), Act(Local(1, ClearSignalFail), env), Act(GuardExpires, env), Act(WtrFires, env)]
  }

  /** The RPL fails and recovers, and the owner reverts: the port is still marked as failed. */
  lemma RecoveredOwnerSways(s: NodeState, env: Env)
    requires Booted(s) && Reverts(s) && env.Succeeds()
    ensures var t := Run(s, Recovery(env));
            && IsRun(s, Recovery(env), Working)
            && t.state.Idle? && ControlOk(t) && t.guard.Stopped? && t.cfg == s.cfg && Sways(t)
  {
    hide Step, IsRun, Run;
    var s1 := BootedFails(s, 1, env);
    var s2 := RplClears(s1, env);
    var s3 := GuardWaits(s2, env);
    var s4 := OwnerReverts(s3, env);
    FourSteps(s, s1, s2, s3, s4, env);
  }

  lemma FourSteps(s: NodeState, s1: NodeState, s2: NodeState, s3: NodeState, s4: NodeState, env: Env)
    requires env.Succeeds()
    requires s1 == Step(s, Local(1, SignalFail), env).node && s2 == Step(s1, Local(1, ClearSignalFail), env).node
    requires s3 == Step(s2, GuardExpires, env).node && s4 == Step(s3, WtrFires, env).node
    requires s2.guard.Running? && s3.wtr.Running?
    ensures IsRun(s, Recovery(env), Working) && Run(s, Recovery(env)) == s4
  {
    hide Step;
    var acts := Recovery(env);
    TwoSteps(s2, acts[2], acts[3]);
    assert acts[1..][1..] == [acts[2], acts[3]];
    assert IsRun(s1, acts[1..], Working) && Run(s1, acts[1..]) == s4;
  }

  lemma RplClears(s: NodeState, env: Env) returns (t: NodeState)
    requires ControlOk(s) && Reverts(s) && env.Succeeds() && s.state.Protection? && s.topreq.Sf?
    ensures t == Step(s, Local(1, ClearSignalFail), env).node
    ensures ControlOk(t) && t.cfg == s.cfg && t.state.Pending? && t.wtr.Running? && t.guard.Running?
    ensures t.p1.blocked == s.p1.blocked && t.p1.failed == s.p1.failed
  {
    hide Step, T.Announce;
    t := Step(s, Local(1, ClearSignalFail), env).node;
    StepIsReact(s, Local(1, ClearSignalFail), env);
    AnnounceKeepsPorts(s.(topreq := Invalid), NR, 0, env);
  }

  lemma GuardWaits(s: NodeState, env: Env) returns (t: NodeState)
    requires ControlOk(s)
    ensures t == Step(s, GuardExpires, env).node == s.(guard := Stopped) && ControlOk(t)
  {
    t := s.(guard := Stopped);
  }

  lemma OwnerReverts(s: NodeState, env: Env) returns (t: NodeState)
    requires ControlOk(s) && Reverts(s) && env.Succeeds() && s.wtr.Running? && s.p1.blocked && s.p1.failed
    ensures t == Step(s, WtrFires, env).node
    ensures ControlOk(t) && t.cfg == s.cfg && t.state.Idle? && t.guard == s.guard && Sways(t)
  {
    hide Step, T.RevertToRpl;
    t := Step(s, WtrFires, env).node;
    StepIsReact(s, WtrFires, env);
    RevertBlocksRpl(Found(s, WtrFires).(topreq := Invalid, wtb := Stopped), env);
  }

  /** From there one R-APS(MS) frame, repeated as frames are, keeps the owner moving for ever. */
  lemma OwnerSwaysForEver(s: NodeState, p: PortNo, id: NodeId, env: Env, n: nat)
    requires Booted(s) && Reverts(s) && s.cfg.ver != VERSION_1 && id != s.cfg.id && env.Succeeds() && n >= 2
    ensures IsRun(s, Recovery(env), Working)
    ensures var t := Run(s, Recovery(env));
            ViewOf(RepeatMs(t, p, PduFrom(MS, 0, id), env, n + 1)) != ViewOf(RepeatMs(t, p, PduFrom(MS, 0, id), env, n))
  {
    hide Booted, IsRun, Run, RepeatMs, Recovery, ControlOk, Sways, PduFrom;
    RecoveredOwnerSways(s, env);
    FrameIsHeard(Run(s, Recovery(env)), id, env);
    RepeatedMs(Run(s, Recovery(env)), p, PduFrom(MS, 0, id), env, n);
  }

  // ----- a stale RB bit -----

  lemma ThreeSteps(s: NodeState, a: Act, b: Act, c: Act)
    requires Enabled(s, a.ev) && Enabled(After(s, a), b.ev) && Enabled(After(After(s, a), b), c.ev)
    requires a.env.Succeeds() && b.env.Succeeds() && c.env.Succeeds()
    ensures IsRun(s, [a, b, c], Working) && Run(s, [a, b, c]) == After(After(After(s, a), b), c)
  {
    hide Step;
    TwoSteps(After(s, a), b, c);
    assert [a, b, c][1..] == [b, c];
  }

  /** An owner that has reverted hears of a failure, opens and falls silent; when an interface comes up
      it goes on sending the R-APS(NR,RB) that it sent last, in PROTECTION. */
  lemma RbBitLies(s: NodeState, p: PortNo, q: PortNo, id: NodeId, env: Env)
    requires Booted(s) && Reverts(s) && id != s.cfg.id && env.Succeeds()
    ensures var acts := [Act(WtrFires, env), Act(Receive(p, PduFrom(SF, 0, id)), env), Act(IfaceUp(q), env)];
            var t := Run(s, acts);
            && IsRun(s, acts, Working)
            && t.state.Protection? && t.Transmitting() && t.pdu.HasRb() && !RbOk(t)
  {
    hide Step, IsRun, Run, ControlOk, PduFrom, Heard;
    var a, b, c := Act(WtrFires, env), Act(Receive(p, PduFrom(SF, 0, id)), env), Act(IfaceUp(q), env);
    BootedIsSafe(s);
    ExpiryReverts(s, a.ev, env);
    StepKeepsSafe(s, a.ev, env);
    var s1 := After(s, a);
    FrameIsHeard(s1, id, env);
    IdleFollows(s1, p, PduFrom(SF, 0, id), env);
    var s2 := After(s1, b);
    assert Posted(s2, c.ev, env).None?;
    OtherStepsAreMinor(s2, c.ev, env);
    ThreeSteps(s, a, b, c);
  }

  // ----- a stale or un-latched R-APS(SF) -----

  /** A node with a signal failure of its own yields to R-APS(FS); when an interface comes up it goes on
      sending R-APS(SF), in FORCED_SWITCH and with nothing latched. */
  lemma SfOutlivesFailure(s: NodeState, p: PortNo, q: PortNo, id: NodeId, env: Env)
    requires Booted(s) && !s.cfg.owner && s.cfg.ver != VERSION_1 && id != s.cfg.id && env.Succeeds()
    ensures var acts := [Act(Local(p, SignalFail), env), Act(Receive(p, PduFrom(FS, 0, id)), env),
                         Act(IfaceUp(q), env)];
            && IsRun(s, acts, Working)
            && Run(s, acts).state.ForcedSwitch? && !Backed(Run(s, acts))
  {
    hide Step, IsRun, Run, Booted, ControlOk, PduFrom, Heard, T.OpenAndMute;
    var a, b, c := Act(Local(p, SignalFail), env), Act(Receive(p, PduFrom(FS, 0, id)), env), Act(IfaceUp(q), env);
    assert s.guard.Stopped? by { BootedUnguarded(s); }
    var s1 := BootedFails(s, p, env);
    FrameIsHeard(s1, id, env);
    StepIsReact(s1, b.ev, env);
    OpenAndMuteOpensAll(s1.(topreq := Invalid), ForcedSwitch);
    var s2 := After(s1, b);
    assert Posted(s2, c.ev, env).None?;
    OtherStepsAreMinor(s2, c.ev, env);
    ThreeSteps(s, a, b, c);
  }

  /** The owner is an exception to the discipline: CLEAR given to it takes the latch from a signal
      failure, but it stays in PROTECTION and goes on sending R-APS(SF). */
  lemma OwnerSendsUnlatchedSf(s: NodeState, p: PortNo, q: PortNo, env: Env)
    requires Booted(s) && s.cfg.owner && env.Audible()
    ensures var acts := [Act(Local(p, SignalFail), env), Act(Local(q, AdmClear), env)];
            var t := Run(s, acts);
            && IsRun(s, acts, Working)
            && t.Transmitting() && t.state.Protection? && t.pdu.rsSc == RsSc(SF, 0)
            && t.topreq.Invalid? && !BackedPdu(t)
  {
    hide Step, IsRun, Run, Booted;
    var s1 := BootedFails(s, p, env);
    StepIsReact(s1, Local(q, AdmClear), env);
    TwoSteps(s, Act(Local(p, SignalFail), env), Act(Local(q, AdmClear), env));
  }

  // ----- two speakers -----

  /** Election can come to rest with two speakers: the owner waits to revert, the other node has the
      higher identifier and hears nothing higher. */
  lemma TwoSpeakersAtRest(r: seq<NodeState>)
    requires RingBooted(r) && |r| == 2 && r[0].Transmitting() && r[1].Transmitting()
    requires Reverts(r[1]) && Value(r[0].cfg.id) > Value(r[1].cfg.id)
    ensures Contest(r) && Quiescent(r) && Speakers(r) == {0, 1}
  {
    hide Booted, Contest, Chatter, RingStep, Value;
    BootedRingContests(r);
    BootedAtRest(r[0]);
    BootedAtRest(r[1]);
    forall a | RingEnabled(r, a) && Chatter(r, a)
      ensures Speakers(RingStep(r, a)) == Speakers(r)
    {
      ContestStep(r, a);
    }
  }

  lemma BootedAtRest(s: NodeState)
    requires Booted(s)
    ensures s.guard.Stopped? && (Reverts(s) ==> s.topreq.WtrRunning?)
  {
  }

  // ----- an idle owner is disturbed -----

  ghost predicate AllWorking(r: seq<NodeState>, a: RingAct) { a.env.Succeeds() }

  /** CLEAR_SF takes the latch from a manual switch and leaves everything else as it is. */
  lemma ClearSfUnlatches(s: NodeState, p: PortNo, env: Env)
    requires ControlOk(s) && s.state.ManualSwitch? && s.topreq.Ms? && env.Succeeds()
    ensures Step(s, Local(p, ClearSignalFail), env).node == s.(topreq := Invalid)
  {
    hide Step;
    StepIsReact(s, Local(p, ClearSignalFail), env);
  }

  lemma BootedSwitches(s: NodeState, p: PortNo, env: Env)
    requires Booted(s) && env.Audible()
    ensures var t := Step(s, Local(p, AdmManualSwitch), env).node;
            !s.cfg.owner ==> t.cfg == s.cfg && t.state.ManualSwitch? && t.topreq.Ms? && SendsMs(t)
  {
    hide Step, T.SwitchTo;
    BootedIsSafe(s);
    StepIsReact(s, Local(p, AdmManualSwitch), env);
    SwitchToBlocksOne(s.(topreq := Ms), p, MS, ManualSwitch, env);
  }

  lemma BootedConfigured(r: seq<NodeState>, o: nat, i: nat)
    requires RingBooted(r) && o < |r| && i < |r| && i != o && Reverts(r[o])
    ensures !r[i].cfg.owner && r[i].cfg.id != r[o].cfg.id && Booted(r[i]) && Booted(r[o]) && r[o].guard.Stopped?
  {
  }

  /** The owner reverts; another node is switched by hand and told that a signal failure has cleared. */
  function Prelude(o: nat, i: nat, p: PortNo, q: PortNo, env: Env): seq<RingAct> {
    [NodeEvent(o, WtrFires, env), NodeEvent(i, Local(p, AdmManualSwitch), env),
     NodeEvent(i, Local(q, ClearSignalFail), env)]
  }

  /** Where the prelude leads: the ring settles, but R-APS(MS) is still on the wire. */
  lemma PreludeSettles(r: seq<NodeState>, o: nat, i: nat, p: PortNo, q: PortNo, env: Env) returns (t: seq<NodeState>)
    requires RingBooted(r) && o < |r| && i < |r| && i != o && Reverts(r[o]) && env.Audible()
    ensures IsRingRun(r, Prelude(o, i, p, q, env), AllWorking)
    ensures t == RingRun(r, Prelude(o, i, p, q, env), AllWorking) && |t| == |r|
    ensures Settling(t, o) && SendsMs(t[i])
    ensures t[o].guard.Stopped? && t[o].cfg == r[o].cfg && t[i].cfg == r[i].cfg
  {
    hide Step, RingBooted, Booted, ControlOk, NodeSteady, SendsMs, IsRingRun, RingRun;
    BootedConfigured(r, o, i);
    var acts := Prelude(o, i, p, q, env);
    StartupSettles(r, o, env);
    var r1 := RingStep(r, acts[0]);
    OwnerReverted(r[o], env);
    BootedSwitches(r[i], p, env);
    var r2 := RingStep(r1, acts[1]);
    RingStepKeepsSteady(r1, acts[1]);
    assert NodeSteady(r2[i]);
    SteadyIsControlled(r2[i]);
    ClearSfUnlatches(r2[i], q, env);
    t := RingStep(r2, acts[2]);
    RingStepKeepsSteady(r2, acts[2]);
    SendsMsUnlatched(r2[i]);
    EmptyRun(t, AllWorking);
    assert acts[3..] == [] && acts[0..] == acts;
    StepBack(r2, t, acts, 2, AllWorking);
    StepBack(r1, r2, acts, 1, AllWorking);
    StepBack(r, r1, acts, 0, AllWorking);
  }

  lemma SteadyIsControlled(s: NodeState)
    requires NodeSteady(s)
    ensures ControlOk(s)
  {
  }

  lemma SendsMsUnlatched(s: NodeState)
    ensures SendsMs(s.(topreq := Invalid)) == SendsMs(s)
  {
  }

  lemma OwnerReverted(s: NodeState, env: Env)
    requires Booted(s) && Reverts(s) && env.Succeeds()
    ensures var t := Step(s, WtrFires, env).node; t.guard.Stopped? && t.cfg == s.cfg
  {
    hide Step;
    ExpiryReverts(s, WtrFires, env);
    StepKeepsSafe(s, WtrFires, env);
  }

  /** In any freshly initialized ring that understands R-APS(MS), a node whose manual switch was
      un-latched by CLEAR_SF pulls the idle owner out of IDLE, and the ring no longer settles. */
  lemma MsPullsOwner(r: seq<NodeState>, o: nat, i: nat, p: PortNo, q: PortNo, env: Env)
    requires RingBooted(r) && o < |r| && i < |r| && i != o && Reverts(r[o]) && env.Audible()
    requires r[o].cfg.ver != VERSION_1
    ensures IsRingRun(r, Prelude(o, i, p, q, env), AllWorking)
    ensures var t := RingRun(r, Prelude(o, i, p, q, env), AllWorking);
            && Settling(t, o)
            && RingEnabled(t, Deliver(i, o, p, env)) && Disturbs(t, Deliver(i, o, p, env))
            && !RingStep(t, Deliver(i, o, p, env))[o].state.Idle?
            && !Settling(RingStep(t, Deliver(i, o, p, env)), o)
  {
    hide Step, RingBooted, Booted, NodeSteady, IsRingRun, RingRun, Prelude, CurrentPdu, Subsiding;
    BootedConfigured(r, o, i);
    var t := PreludeSettles(r, o, i, p, q, env);
    assert NodeSteady(t[i]) && NodeSteady(t[o]);
    var pdu := CurrentPdu(t[i]);
    SubsidingSends(t[i]);
    MsIsHeard(t[o], pdu, env);
    IdleIsUnlatched(t[o]);
    HearingSwitch(t[o], p, pdu, env);
  }

  lemma MsIsHeard(s: NodeState, pdu: Pdu, env: Env)
    requires s.guard.Stopped? && s.cfg.ver != VERSION_1 && pdu.nodeId != s.cfg.id
    requires pdu.opcode == OPCODE && pdu.ReqState() == MS
    ensures Heard(s, pdu, env) == Some(RapsMs)
  {
  }
}
