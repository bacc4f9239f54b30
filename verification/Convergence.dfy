/** How a ring settles: the frames of an idle owner bring every node to IDLE, and nodes that
    only exchange R-APS(NR) fall silent except for the one with the highest identifier. */
module Convergence {
  import opened Requests
  import opened NodeIds
  import opened Raps
  import opened NodeModel
  import opened Events
  import opened Robustness
  import opened Runs
  import opened TableFacts
  import opened Safety
  import opened SafeRuns
  import opened Ring
  import opened Backing
  import opened Persistence
  import T = Table

  // ----- every node of a running ring -----

  predicate NodeSteady(s: NodeState) {
    ControlOk(s) && Robust(s) && RbOk(s) && IdleOk(s) && Backed(s)
  }

  ghost predicate RingSteady(r: seq<NodeState>) {
    WellConfigured(r) && forall i :: 0 <= i < |r| ==> NodeSteady(r[i])
  }

  /** Foreign calls succeed and the interface-up callback is not taken; anything else may happen. */
  ghost predicate Undisturbed(r: seq<NodeState>, a: RingAct) {
    a.env.Succeeds() && !(a.NodeEvent? && a.ev.IfaceUp?)
  }

  lemma RingStepKeepsSteady(r: seq<NodeState>, a: RingAct)
    requires RingSteady(r) && RingEnabled(r, a) && Undisturbed(r, a)
    ensures RingSteady(RingStep(r, a))
  {
    hide Step, ControlOk, Robust, RbOk, IdleOk, Backed, HearsRbAsOwner, CurrentPdu;
    var s, ev := r[Target(a)], EventAt(r, a);
    assert NodeSteady(s);
    StepKeepsSafe(s, ev, a.env);
    StepKeepsRobust(s, ev, a.env);
    StepKeepsBacked(s, ev, a.env);
    if a.Deliver? { SteadySendsRbAsOwner(r[a.from]); }
    OwnerHearsNoRb(r, a);
    assert NodeSteady(Step(s, ev, a.env).node);
  }

  lemma SteadySendsRbAsOwner(s: NodeState)
    requires NodeSteady(s)
    ensures OwnerRb(s)
  {
  }

  /** In every state that an undisturbed ring can reach, IDLE has its role-specific meaning at
      every node and the RB bit on the wire is true, with no exception for frames heard by the owner. */
  lemma {:induction false} RingRunKeepsSteady(r: seq<NodeState>, acts: seq<RingAct>)
    requires RingSteady(r) && IsRingRun(r, acts, Undisturbed)
    ensures RingSteady(RingRun(r, acts, Undisturbed))
    decreases acts
  {
    if acts != [] {
      hide RingSteady, RingStep;
      RingStepKeepsSteady(r, acts[0]);
      RingRunKeepsSteady(RingStep(r, acts[0]), acts[1..]);
    }
  }

  lemma BootedRingIsSteady(r: seq<NodeState>)
    requires RingBooted(r)
    ensures RingSteady(r)
  {
  }

  // ----- an idle owner brings every node to IDLE -----

  function Rank(s: NodeState): nat {
    match s.state
    case Idle => 0
    case Pending => 1
    case _ => 2
  }

  function Distance(r: seq<NodeState>): nat {
    if r == [] then 0 else Rank(r[0]) + Distance(r[1..])
  }

  lemma {:induction false} DistanceUpdate(r: seq<NodeState>, i: nat, s: NodeState)
    requires i < |r|
    ensures Distance(r[i := s]) == Distance(r) - Rank(r[i]) + Rank(s)
  {
    if i == 0 {
      assert r[0 := s][1..] == r[1..];
    } else {
      assert r[i := s][1..] == r[1..][i - 1 := s];
      DistanceUpdate(r[1..], i - 1, s);
    }
  }

  lemma {:induction false} DistanceBounds(r: seq<NodeState>)
    ensures Distance(r) <= 2 * |r|
    ensures Distance(r) == 0 <==> forall i :: 0 <= i < |r| ==> r[i].state.Idle?
  {
    if r != [] {
      DistanceBounds(r[1..]);
      assert r == [r[0]] + r[1..];
    }
  }

  /** The owner is idle and speaks, and no other node has a request of its own latched. */
  ghost predicate Settling(r: seq<NodeState>, o: nat) {
    && RingSteady(r) && o < |r|
    && r[o].cfg.owner && r[o].state.Idle? && r[o].Transmitting()
    && forall i :: 0 <= i < |r| && i != o ==> Subsiding(r[i])
  }

  predicate Subsiding(s: NodeState) {
    s.topreq.Invalid? && !s.cfg.owner
  }

  predicate SendsMs(s: NodeState) {
    s.Transmitting() && s.pdu.rsSc == RsSc(MS, 0)
  }

  /** No node but the owner sends R-APS(MS). */
  ghost predicate NoMsSent(r: seq<NodeState>, o: nat) {
    forall i :: 0 <= i < |r| && i != o ==> !SendsMs(r[i])
  }

  /** A delivery of R-APS(MS) that is heard by a node in IDLE or PENDING. */
  predicate Disturbs(r: seq<NodeState>, a: RingAct) {
    && a.Deliver? && RingEnabled(r, a)
    && Heard(r[a.to], CurrentPdu(r[a.from]), a.env) == Some(RapsMs)
    && (r[a.to].state.Idle? || r[a.to].state.Pending?)
  }

  /** A delivery of the owner's frame that the receiver does not drop, to a node that is not idle yet. */
  predicate Effective(r: seq<NodeState>, o: nat, a: RingAct) {
    && a.Deliver? && RingEnabled(r, a) && a.from == o
    && r[a.to].guard.Stopped? && !r[a.to].state.Idle?
  }

  lemma IdleOwnerSendsRb(s: NodeState)
    requires NodeSteady(s) && s.cfg.owner && s.state.Idle?
    ensures var pdu := CurrentPdu(s);
            pdu.opcode == OPCODE && pdu.ReqState() == NR && pdu.Rb() && pdu.nodeId == s.cfg.id
  {
  }

  /** With no request of its own latched, another node can only be sending R-APS(NR) or R-APS(MS). */
  lemma SubsidingSends(s: NodeState)
    requires NodeSteady(s) && Subsiding(s) && s.Transmitting()
    ensures var pdu := CurrentPdu(s);
            && pdu.opcode == OPCODE && !pdu.Rb() && pdu.nodeId == s.cfg.id
            && pdu.ReqState() == (if SendsMs(s) then MS else NR)
  {
  }

  lemma HearingRbAdvances(s: NodeState, p: PortNo, pdu: Pdu, env: Env)
    requires NodeSteady(s) && Subsiding(s) && env.Succeeds()
    requires pdu.opcode == OPCODE && pdu.ReqState() == NR && pdu.Rb() && pdu.nodeId != s.cfg.id
    ensures var t := Step(s, Receive(p, pdu), env).node;
            && Subsiding(t) && t.guard == s.guard && (SendsMs(t) ==> SendsMs(s))
            && Rank(t) == if s.guard.Stopped? && !s.state.Idle? then Rank(s) - 1 else Rank(s)
  {
    hide Step, T.OpenAndMute, T.Open, T.Close;
    var ev := Receive(p, pdu);
    if s.guard.Stopped? {
      assert Heard(s, pdu, env) == Some(RapsNrRb);
      StepIsReact(s, ev, env);
      OpenAndMuteOpensAll(s, Idle);
      NeighbourSettles(s);
    } else {
      assert Heard(s, pdu, env) == None;
      NothingHeard(s, p, pdu, env);
    }
  }

  /** R-APS(NR) moves no node away from IDLE and makes none send anything new. */
  lemma HearingNrIsHarmless(s: NodeState, p: PortNo, pdu: Pdu, env: Env)
    requires NodeSteady(s) && Subsiding(s) && env.Succeeds()
    requires pdu.opcode == OPCODE && pdu.ReqState() == NR && !pdu.Rb()
    ensures var t := Step(s, Receive(p, pdu), env).node;
            Subsiding(t) && (SendsMs(t) ==> SendsMs(s)) && Rank(t) <= Rank(s)
  {
    hide Step, T.OpenSoundAndMute, Memcmp;
    var ev := Receive(p, pdu);
    if Heard(s, pdu, env).Some? {
      StepIsReact(s, ev, env);
      OpenSoundKeepsFailed(s, s.state);
    } else {
      NothingHeard(s, p, pdu, env);
    }
  }

  /** An idle owner ignores R-APS(NR). */
  lemma IdleOwnerIgnoresNr(s: NodeState, p: PortNo, pdu: Pdu, env: Env)
    requires NodeSteady(s) && s.cfg.owner && s.state.Idle? && env.Succeeds()
    requires pdu.opcode == OPCODE && pdu.ReqState() == NR && !pdu.Rb()
    ensures Step(s, Receive(p, pdu), env).node == s
  {
    hide Step;
    if Heard(s, pdu, env).Some? {
      StepIsReact(s, Receive(p, pdu), env);
    } else {
      NothingHeard(s, p, pdu, env);
    }
  }

  /** R-APS(MS), (SF) or (FS) leaves a node without a request of its own, and an idle owner, in one of
      the three states furthest from IDLE; so it takes a node further from IDLE if and only if it
      finds it in IDLE or PENDING. */
  lemma HearingSwitch(s: NodeState, p: PortNo, pdu: Pdu, env: Env)
    requires NodeSteady(s) && s.topreq.Invalid? && (s.cfg.owner ==> s.state.Idle?) && env.Succeeds()
    requires Heard(s, pdu, env).Some? && Heard(s, pdu, env).value in {RapsMs, RapsSf, RapsFs}
    ensures var t := Step(s, Receive(p, pdu), env).node;
            && t.topreq.Invalid? && (SendsMs(t) ==> SendsMs(s)) && !t.state.Idle? && !t.state.Pending?
            && (Rank(t) > Rank(s) <==> s.state.Idle? || s.state.Pending?)
            && (Rank(t) == Rank(s) <==> !s.state.Idle? && !s.state.Pending?)
  {
    hide Step, Heard, T.OpenAndMute, T.OpenSoundAndMute, T.Announce;
    StepIsReact(s, Receive(p, pdu), env);
    OpenAndMuteOpensAll(s, ForcedSwitch);
    OpenSoundKeepsFailed(s, Protection);
    OpenSoundKeepsFailed(s, ManualSwitch);
    AnnounceKeepsPorts(s, NR, 0, env);
  }

  /** What the frame of another node that is still settling does to the target of its delivery. */
  lemma OtherFrameArrives(s: NodeState, p: PortNo, pdu: Pdu, env: Env)
    requires NodeSteady(s) && env.Succeeds()
    requires if s.cfg.owner then s.state.Idle? && s.Transmitting() else Subsiding(s)
    requires pdu.opcode == OPCODE && !pdu.Rb() && pdu.ReqState() in {NR, MS}
    ensures var t := Step(s, Receive(p, pdu), env).node;
            var moved := Heard(s, pdu, env) == Some(RapsMs) && (s.state.Idle? || s.state.Pending?);
            && t.topreq.Invalid? && (SendsMs(t) ==> SendsMs(s))
            && (Rank(t) <= Rank(s) <==> !moved)
            && (s.cfg.owner ==> (t.state.Idle? && t.Transmitting() <==> !moved))
  {
    hide Step, NodeSteady, SendsMs, Heard;
    if s.state.Idle? { IdleIsUnlatched(s); }
    if pdu.ReqState() == NR {
      NrIsNotMs(s, pdu, env);
      if s.cfg.owner { IdleOwnerIgnoresNr(s, p, pdu, env); } else { HearingNrIsHarmless(s, p, pdu, env); }
    } else if Heard(s, pdu, env).Some? {
      MsIsMs(s, pdu, env);
      HearingSwitch(s, p, pdu, env);
    } else {
      NothingHeard(s, p, pdu, env);
    }
  }

  lemma IdleIsUnlatched(s: NodeState)
    requires NodeSteady(s) && s.state.Idle?
    ensures s.topreq.Invalid?
  {
  }

  lemma NrIsNotMs(s: NodeState, pdu: Pdu, env: Env)
    requires pdu.ReqState() == NR
    ensures Heard(s, pdu, env) != Some(RapsMs)
  {
  }

  lemma MsIsMs(s: NodeState, pdu: Pdu, env: Env)
    requires pdu.ReqState() == MS && Heard(s, pdu, env).Some?
    ensures Heard(s, pdu, env) == Some(RapsMs)
  {
  }

  /** What happens to the target of one step, in terms of rank. */
  lemma TargetSettles(r: seq<NodeState>, o: nat, a: RingAct)
    requires Settling(r, o) && RingEnabled(r, a) && Chatter(r, a)
    ensures var s, t := r[Target(a)], RingStep(r, a)[Target(a)];
            && t.cfg == s.cfg && (SendsMs(t) ==> SendsMs(s))
            && (if Target(a) == o then t.state.Idle? && t.Transmitting() <==> !Disturbs(r, a) else Subsiding(t))
            && (Rank(t) <= Rank(s) - (if Effective(r, o, a) then 1 else 0) <==> !Disturbs(r, a))
            && (a.NodeEvent? || a.from == o ==> Rank(t) == Rank(s) - if Effective(r, o, a) then 1 else 0)
  {
    hide Step, NodeSteady, CurrentPdu, Subsiding, SendsMs, Heard;
    var s, ev := r[Target(a)], EventAt(r, a);
    assert NodeSteady(s) && NodeSteady(r[o]);
    StepKeepsCfg(s, ev, a.env);
    if a.NodeEvent? {
      OtherStepsAreMinor(s, ev, a.env);
      MinorSettles(s, Step(s, ev, a.env).node);
    } else if a.to == a.from {
      OwnFrameIgnored(s, ev, a.env);
      OwnFrameUnheard(s, a.env);
    } else if a.from == o {
      IdleOwnerSendsRb(r[o]);
      NrIsNotMs(s, ev.pdu, a.env);
      HearingRbAdvances(s, a.port, ev.pdu, a.env);
    } else {
      SubsidingSends(r[a.from]);
      SubsidingIsOther(s);
      OtherFrameArrives(s, a.port, ev.pdu, a.env);
      SubsidingKeeps(s, Step(s, ev, a.env).node);
    }
  }

  lemma OwnFrameUnheard(s: NodeState, env: Env)
    requires env.Succeeds()
    ensures Heard(s, CurrentPdu(s), env).None?
  {
  }

  lemma SubsidingIsOther(s: NodeState)
    ensures Subsiding(s) ==> !s.cfg.owner
  {
  }

  lemma SubsidingKeeps(s: NodeState, t: NodeState)
    requires t.cfg == s.cfg && t.topreq.Invalid?
    ensures Subsiding(s) ==> Subsiding(t)
  {
  }

  lemma StepKeepsCfg(s: NodeState, ev: Event, env: Env)
    requires NodeSteady(s)
    ensures Step(s, ev, env).node.cfg == s.cfg
  {
    hide Step, Robust;
    StepKeepsRobust(s, ev, env);
  }

  lemma MinorSettles(s: NodeState, t: NodeState)
    requires t.topreq == s.topreq && t.cfg == s.cfg && t.pdu == s.pdu
    requires t.Transmitting() <==> s.Transmitting()
    ensures (Subsiding(s) ==> Subsiding(t)) && (SendsMs(t) ==> SendsMs(s))
  {
  }

  /** Each effective delivery lowers the distance by exactly one, events and other deliveries of the
      owner leave it. The frames of the others do harm if and only if one is an R-APS(MS) that is heard
      by a node in IDLE or PENDING: then the distance grows, and the owner leaves IDLE if it is hit. */
  lemma SettlingStep(r: seq<NodeState>, o: nat, a: RingAct)
    requires Settling(r, o) && RingEnabled(r, a) && Chatter(r, a)
    ensures RingSteady(RingStep(r, a)) && (NoMsSent(r, o) ==> NoMsSent(RingStep(r, a), o) && !Disturbs(r, a))
    ensures Settling(RingStep(r, a), o) <==> !(Disturbs(r, a) && a.to == o)
    ensures Distance(RingStep(r, a)) <= Distance(r) - (if Effective(r, o, a) then 1 else 0) <==> !Disturbs(r, a)
    ensures a.NodeEvent? || a.from == o ==>
              Distance(RingStep(r, a)) == Distance(r) - if Effective(r, o, a) then 1 else 0
  {
    hide Step, NodeSteady, CurrentPdu, Subsiding, SendsMs, Disturbs, Effective;
    var t := RingStep(r, a);
    TargetSettles(r, o, a);
    RingStepKeepsSteady(r, a);
    DistanceUpdate(r, Target(a), t[Target(a)]);
    if NoMsSent(r, o) { NoMsIsHarmless(r, o, a); }
    DisturbedIsTarget(r, o, a);
  }

  lemma NoMsIsHarmless(r: seq<NodeState>, o: nat, a: RingAct)
    requires Settling(r, o) && RingEnabled(r, a) && Chatter(r, a) && NoMsSent(r, o)
    ensures !Disturbs(r, a)
  {
    hide NodeSteady, CurrentPdu, Subsiding, Heard;
    if a.Deliver? {
      assert NodeSteady(r[a.from]);
      if a.from == o { IdleOwnerSendsRb(r[o]); } else { SubsidingSends(r[a.from]); }
      NrIsNotMs(r[a.to], CurrentPdu(r[a.from]), a.env);
    }
  }

  lemma DisturbedIsTarget(r: seq<NodeState>, o: nat, a: RingAct)
    ensures Disturbs(r, a) ==> Target(a) == a.to
  {
  }

  /** The number of effective deliveries in a run. */
  ghost function EffectiveCount(r: seq<NodeState>, o: nat, acts: seq<RingAct>,
                                ok: (seq<NodeState>, RingAct) -> bool): nat
    requires IsRingRun(r, acts, ok)
    decreases acts
  {
    if acts == [] then 0
    else (if Effective(r, o, acts[0]) then 1 else 0) + EffectiveCount(RingStep(r, acts[0]), o, acts[1..], ok)
  }

  /** Convergence: when no other node sends R-APS(MS), then however the frames of all nodes are
      delivered the distance falls at least by the number of effective deliveries, so there are at
      most two per node, and when it is zero every node is IDLE and the blocked ports of the ring are
      exactly the RPL ports of owner and neighbour. The same holds when such frames are sent but
      never disturb. */
  lemma {:induction false} RingConverges(r: seq<NodeState>, o: nat, acts: seq<RingAct>,
                                         ok: (seq<NodeState>, RingAct) -> bool)
    requires Settling(r, o) && IsRingRun(r, acts, ok)
    requires forall r', a :: ok(r', a) ==> Chatter(r', a)
    requires NoMsSent(r, o) || forall r', a :: ok(r', a) ==> !Disturbs(r', a)
    ensures var t := RingRun(r, acts, ok);
            && Settling(t, o)
            && Distance(t) + EffectiveCount(r, o, acts, ok) <= Distance(r) <= 2 * |r|
            && (Distance(t) == 0 ==> forall i :: 0 <= i < |t| ==>
                  t[i].state.Idle? && !t[i].p0.blocked && (t[i].p1.blocked <==> t[i].cfg.owner || t[i].cfg.nbr))
    decreases acts
  {
    hide RingStep, Effective, Disturbs, NodeSteady, Subsiding, SendsMs;
    DistanceBounds(r);
    if acts != [] {
      SettlingStep(r, o, acts[0]);
      RingConverges(RingStep(r, acts[0]), o, acts[1..], ok);
    } else {
      forall i | 0 <= i < |r| && r[i].state.Idle?
        ensures !r[i].p0.blocked && (r[i].p1.blocked <==> r[i].cfg.owner || r[i].cfg.nbr)
      {
        assert NodeSteady(r[i]);
        IdleMeansRpl(r[i]);
      }
    }
  }

  lemma IdleMeansRpl(s: NodeState)
    requires NodeSteady(s) && s.state.Idle?
    ensures !s.p0.blocked && (s.p1.blocked <==> s.cfg.owner || s.cfg.nbr)
  {
  }

  /** As long as a node is not idle, some delivery of the owner's frame is effective or becomes so
      once the guard timer of the node has expired. */
  lemma ProgressIsPossible(r: seq<NodeState>, o: nat, i: nat, p: PortNo, env: Env)
    requires Settling(r, o) && i < |r| && !r[i].state.Idle? && env.Succeeds()
    ensures r[i].guard.Stopped? ==> Effective(r, o, Deliver(o, i, p, env))
    ensures r[i].guard.Running? ==>
              && RingEnabled(r, NodeEvent(i, GuardExpires, env))
              && Effective(RingStep(r, NodeEvent(i, GuardExpires, env)), o, Deliver(o, i, p, env))
  {
  }

  // ----- from the start to rest -----

  /** When the WTR timer of the owner has expired in a freshly initialized ring, the ring settles. */
  lemma StartupSettles(r: seq<NodeState>, o: nat, env: Env)
    requires RingBooted(r) && o < |r| && Reverts(r[o]) && env.Audible()
    ensures RingEnabled(r, NodeEvent(o, WtrFires, env))
    ensures var t := RingStep(r, NodeEvent(o, WtrFires, env)); Settling(t, o) && NoMsSent(t, o)
  {
    hide Step, Booted, NodeSteady, ControlOk;
    var a := NodeEvent(o, WtrFires, env);
    forall i | 0 <= i < |r|
      ensures r[i].wtr.Running? == Reverts(r[i]) && ControlOk(r[i]) && !SendsMs(r[i])
      ensures !r[i].cfg.owner ==> r[i].topreq.Invalid?
    {
      BootedWaits(r[i]);
    }
    BootedRingIsSteady(r);
    RingStepKeepsSteady(r, a);
    StepKeepsSafe(r[o], WtrFires, env);
    ExpiryReverts(r[o], WtrFires, env);
  }

  lemma BootedWaits(s: NodeState)
    requires Booted(s)
    ensures s.wtr.Running? == Reverts(s) && ControlOk(s) && !SendsMs(s)
    ensures !s.cfg.owner ==> s.topreq.Invalid?
  {
  }

  /** From the start to rest: once WTR has expired at the revertive owner of a freshly initialized
      ring, any exchange of frames with as many effective deliveries as the distance allows ends with
      every node in IDLE and exactly the RPL ports of owner and neighbour blocked. */
  lemma StartupConverges(r: seq<NodeState>, o: nat, env: Env, acts: seq<RingAct>)
    requires RingBooted(r) && o < |r| && Reverts(r[o]) && env.Audible()
    requires RingEnabled(r, NodeEvent(o, WtrFires, env))
    requires IsRingRun(RingStep(r, NodeEvent(o, WtrFires, env)), acts, Chatter)
    ensures var s := RingStep(r, NodeEvent(o, WtrFires, env));
            var t := RingRun(s, acts, Chatter);
            && EffectiveCount(s, o, acts, Chatter) <= Distance(s) <= 2 * |r|
            && (EffectiveCount(s, o, acts, Chatter) == Distance(s) ==>
                  forall i :: 0 <= i < |t| ==>
                    t[i].state.Idle? && !t[i].p0.blocked && (t[i].p1.blocked <==> t[i].cfg.owner || t[i].cfg.nbr))
  {
    hide RingBooted, Settling, NoMsSent, IsRingRun, RingRun, EffectiveCount, Chatter;
    StartupSettles(r, o, env);
    RingConverges(RingStep(r, NodeEvent(o, WtrFires, env)), o, acts, Chatter);
  }
}
