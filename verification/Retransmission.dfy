/** R-APS frames are repeated every five seconds; hearing the same frame again and again must
    not keep a node moving. */
module Retransmission {
  import opened Requests
  import opened NodeIds
  import opened Raps
  import opened NodeModel
  import opened Events
  import opened Robustness
  import opened TableFacts
  import opened Safety
  import opened SafeRuns
  import opened Table

  // ----- one frame heard again, on the table -----

  function Hear(s: NodeState, req: Request, from: NodeId, env: Env): NodeState {
    React(s, 0, req, from, env)
  }

  lemma RapsFsOnce(s: NodeState, from: NodeId, env: Env)
    requires ControlOk(s)
    ensures var t := Hear(s, RapsFs, from, env); t.guard == s.guard && Hear(t, RapsFs, from, env) == t
  {
  }

  lemma RapsSfOnce(s: NodeState, from: NodeId, env: Env)
    requires ControlOk(s)
    ensures var t := Hear(s, RapsSf, from, env); t.guard == s.guard && Hear(t, RapsSf, from, env) == t
  {
  }

  /** R-APS(NR) in IDLE and PENDING takes effect at once. */
  lemma RapsNrOnce(s: NodeState, from: NodeId, env: Env)
    requires ControlOk(s) && (s.state.Idle? || s.state.Pending?)
    ensures var t := Hear(s, RapsNr, from, env); t.guard == s.guard && Hear(t, RapsNr, from, env) == t
  {
  }

  /** Elsewhere the node first goes to PENDING, or ignores the frame. */
  lemma RapsNrTwice(s: NodeState, from: NodeId, env: Env)
    requires ControlOk(s)
    ensures var t := Hear(s, RapsNr, from, env);
            && t.guard == s.guard && (t.state.Idle? || t.state.Pending? || t == s)
  {
  }

  lemma RapsNrRbInIdle(s: NodeState, from: NodeId, env: Env)
    requires ControlOk(s) && s.state.Idle?
    ensures var t := Hear(s, RapsNrRb, from, env);
            t.guard == s.guard && t.state.Idle? && Hear(t, RapsNrRb, from, env) == t
  {
  }

  lemma RapsNrRbInPending(s: NodeState, from: NodeId, env: Env)
    requires ControlOk(s) && s.state.Pending?
    ensures var t := Hear(s, RapsNrRb, from, env);
            && t.guard == s.guard && t.cfg == s.cfg
            && (t == s || t.state.Idle?)
            && (!s.cfg.owner ==> Hear(t, RapsNrRb, from, env) == t)
  {
  }

  lemma RapsNrRbElsewhere(s: NodeState, from: NodeId, env: Env)
    requires ControlOk(s) && !s.state.Idle? && !s.state.Pending?
    ensures var t := Hear(s, RapsNrRb, from, env);
            t.guard == s.guard && t.cfg == s.cfg && (t == s || t.state.Pending?)
  {
  }

  lemma HearKeepsControl(s: NodeState, req: Request, from: NodeId, env: Env)
    requires ControlOk(s) && req in {RapsFs, RapsSf, RapsMs, RapsNr, RapsNrRb}
    ensures ControlOk(Hear(s, req, from, env)) && Hear(s, req, from, env).cfg == s.cfg
  {
    hide React;
    ReactKeeps(s, 0, req, from, env);
  }

  /** Three hearings of R-APS(FS), (SF), (NR) or (NR,RB) settle any node, two any but the owner. */
  lemma HearingSettles(s: NodeState, req: Request, from: NodeId, env: Env)
    requires ControlOk(s) && req in {RapsFs, RapsSf, RapsNr, RapsNrRb}
    ensures var s1 := Hear(s, req, from, env);
            var s2 := Hear(s1, req, from, env);
            var s3 := Hear(s2, req, from, env);
            && s1.guard == s.guard && s2.guard == s.guard && s3.guard == s.guard
            && Hear(s3, req, from, env) == s3
            && (!s.cfg.owner ==> s3 == s2)
  {
    hide Hear, ControlOk;
    var s1 := Hear(s, req, from, env);
    var s2 := Hear(s1, req, from, env);
    HearKeepsControl(s, req, from, env);
    HearKeepsControl(s1, req, from, env);
    HearKeepsControl(s2, req, from, env);
    match req
    case RapsFs => RapsFsOnce(s, from, env);
    case RapsSf => RapsSfOnce(s, from, env);
    case RapsNr =>
      RapsNrTwice(s, from, env);
      if s1 != s { RapsNrOnce(s1, from, env); }
    case RapsNrRb =>
      if s.state.Idle? {
        RapsNrRbInIdle(s, from, env);
      } else if s.state.Pending? {
        RapsNrRbInPending(s, from, env);
        if s1 != s { RapsNrRbInIdle(s1, from, env); }
      } else {
        RapsNrRbElsewhere(s, from, env);
        if s1 != s {
          RapsNrRbInPending(s1, from, env);
          if s2 != s1 { RapsNrRbInIdle(s2, from, env); }
        }
      }
  }

  // ----- the same frame received again and again -----

  function Repeat(s: NodeState, ev: Event, env: Env, n: nat): NodeState {
    if n == 0 then s else Step(Repeat(s, ev, env, n - 1), ev, env).node
  }

  lemma PortIsIrrelevant(s: NodeState, p: PortNo, req: Request, from: NodeId, env: Env)
    requires req in {RapsFs, RapsSf, RapsMs, RapsNr, RapsNrRb}
    ensures React(s, p, req, from, env) == Hear(s, req, from, env)
  {
  }

  lemma ReceivingIsHearing(s: NodeState, p: PortNo, pdu: Pdu, env: Env)
    requires ControlOk(s) && env.Succeeds()
    ensures Step(s, Receive(p, pdu), env).node == match Heard(s, pdu, env)
              case Some(req) => Hear(s, req, pdu.nodeId, env)
              case None => Step(s, Receive(p, pdu), env).node
  {
    hide Step, Heard, React;
    if Heard(s, pdu, env).Some? {
      HeardIsRemote(s, pdu, env);
      StepIsReact(s, Receive(p, pdu), env);
      PortIsIrrelevant(s, p, Heard(s, pdu, env).value, pdu.nodeId, env);
    }
  }

  /** Periodic retransmission is harmless: a node with its guard timer expired that receives one and
      the same R-APS(FS), (SF), (NR) or (NR,RB) frame any number of times is in the same state after
      the third time as ever after, and already after the second unless it is the owner. */
  lemma {:induction false} RetransmissionSettles(s: NodeState, p: PortNo, pdu: Pdu, env: Env, n: nat)
    requires ControlOk(s) && env.Succeeds()
    requires Heard(s, pdu, env).Some? && !Heard(s, pdu, env).value.RapsMs?
    ensures n >= 3 ==> Repeat(s, Receive(p, pdu), env, n) == Repeat(s, Receive(p, pdu), env, 3)
    ensures n >= 2 && !s.cfg.owner ==> Repeat(s, Receive(p, pdu), env, n) == Repeat(s, Receive(p, pdu), env, 2)
  {
    hide Step, Heard, Hear, ControlOk;
    if n > 2 {
      RetransmissionSettles(s, p, pdu, env, n - 1);
      FirstThree(s, p, pdu, env);
    }
  }

  lemma FirstThree(s: NodeState, p: PortNo, pdu: Pdu, env: Env)
    requires ControlOk(s) && env.Succeeds()
    requires Heard(s, pdu, env).Some? && !Heard(s, pdu, env).value.RapsMs?
    ensures var s2 := Repeat(s, Receive(p, pdu), env, 2);
            var s3 := Repeat(s, Receive(p, pdu), env, 3);
            && s3 == Step(s2, Receive(p, pdu), env).node
            && Step(s3, Receive(p, pdu), env).node == s3
            && (!s.cfg.owner ==> s3 == s2)
  {
    hide Step, Heard, Hear, ControlOk;
    var ev, req, from := Receive(p, pdu), Heard(s, pdu, env).value, pdu.nodeId;
    HeardIsRemote(s, pdu, env);
    HearingSettles(s, req, from, env);
    var s1 := Hear(s, req, from, env);
    var s2 := Hear(s1, req, from, env);
    var s3 := Hear(s2, req, from, env);
    ReceivingIsHearing(s, p, pdu, env);
    HearKeepsControl(s, req, from, env);
    HeardAlike(s, s1, pdu, env);
    ReceivingIsHearing(s1, p, pdu, env);
    HearKeepsControl(s1, req, from, env);
    HeardAlike(s, s2, pdu, env);
    ReceivingIsHearing(s2, p, pdu, env);
    HearKeepsControl(s2, req, from, env);
    HeardAlike(s, s3, pdu, env);
    ReceivingIsHearing(s3, p, pdu, env);
    RepeatThrice(s, ev, env);
  }

  lemma RepeatThrice(s: NodeState, ev: Event, env: Env)
    ensures Repeat(s, ev, env, 1) == Step(s, ev, env).node
    ensures Repeat(s, ev, env, 2) == Step(Step(s, ev, env).node, ev, env).node
    ensures Repeat(s, ev, env, 3) == Step(Repeat(s, ev, env, 2), ev, env).node
  {
  }

  // ----- R-APS(MS), the exception -----

  /** What can be observed of a node, leaving out burst counters, delays and the guard timer. */
  datatype View = View(state: FsmState, topreq: Request, pdu: PduMut, speaks: bool, wtr: bool, wtb: bool,
                       blocked0: bool, blocked1: bool, failed0: bool, failed1: bool)

  function ViewOf(s: NodeState): View {
    View(s.state, s.topreq, s.pdu, s.Transmitting(), s.wtr.Running?, s.wtb.Running?,
         s.p0.blocked, s.p1.blocked, s.p0.failed, s.p1.failed)
  }

  /** R-APS(MS) heard once, on the table, and the guard timer not running afterwards. */
  function HearMs(s: NodeState, from: NodeId, env: Env): NodeState {
    Hear(s, RapsMs, from, env).(guard := Stopped)
  }

  /** An R-APS(MS) frame is received, and the guard timer, if that armed it, expires. */
  function MsRound(s: NodeState, p: PortNo, pdu: Pdu, env: Env): NodeState {
    var t := Step(s, Receive(p, pdu), env).node;
    if Enabled(t, GuardExpires) then Step(t, GuardExpires, env).node else t
  }

  function RepeatMs(s: NodeState, p: PortNo, pdu: Pdu, env: Env, n: nat): NodeState {
    if n == 0 then s else MsRound(RepeatMs(s, p, pdu, env, n - 1), p, pdu, env)
  }

  lemma MsRoundIsHearing(s: NodeState, p: PortNo, pdu: Pdu, env: Env)
    requires ControlOk(s) && env.Succeeds() && Heard(s, pdu, env) == Some(RapsMs)
    ensures MsRound(s, p, pdu, env) == HearMs(s, pdu.nodeId, env)
    ensures Heard(MsRound(s, p, pdu, env), pdu, env) == Some(RapsMs)
  {
    hide Hear, Heard, ControlOk;
    ReceivingIsHearing(s, p, pdu, env);
    HearKeepsControl(s, RapsMs, pdu.nodeId, env);
    HeardUnguarded(s, pdu, env);
    HeardAlike(s, HearMs(s, pdu.nodeId, env), pdu, env);
  }

  lemma HeardUnguarded(s: NodeState, pdu: Pdu, env: Env)
    requires Heard(s, pdu, env).Some?
    ensures s.guard.Stopped?
  {
  }

  /** A revertive owner with a port that is both failed and blocked, and no request of its own that
      R-APS(MS) would have to respect. */
  predicate Sways(s: NodeState) {
    && Reverts(s) && RapsMs.Rank() <= s.topreq.Rank()
    && (s.state.Idle? || s.state.Pending? || s.state.ManualSwitch?)
    && ((s.p0.blocked && s.p0.failed) || (s.p1.blocked && s.p1.failed))
  }

  predicate Still(s: NodeState, from: NodeId, env: Env) {
    ViewOf(HearMs(s, from, env)) == ViewOf(s)
  }

  lemma MsKeeps(s: NodeState, from: NodeId, env: Env)
    requires ControlOk(s)
    ensures ControlOk(HearMs(s, from, env))
  {
    hide Hear;
    HearKeepsControl(s, RapsMs, from, env);
  }

  lemma SwaysOn(s: NodeState, from: NodeId, env: Env)
    requires ControlOk(s)
    ensures var t := HearMs(s, from, env); (Sways(s) <==> Sways(t)) && (Sways(s) ==> t.state != s.state)
  {
    hide OpenSoundAndMute, Announce;
    var s1 := s.(topreq := Invalid);
    OpenSoundKeepsFailed(s1, ManualSwitch);
    AnnounceKeepsPorts(s1, NR, 0, env);
  }

  /** Ignored, or heard in PROTECTION or FORCED_SWITCH. */
  lemma MsNoEffect(s: NodeState, from: NodeId, env: Env)
    requires ControlOk(s)
    requires s.topreq.Rank() < RapsMs.Rank() || s.state.Protection? || s.state.ForcedSwitch?
    ensures var t := HearMs(s, from, env);
            && Still(t, from, env) && t.state == s.state
            && (t.topreq == s.topreq || s.state.Protection? || s.state.ForcedSwitch?)
  {
  }

  /** Heard in MANUAL_SWITCH, when that is not left. */
  lemma MsInSwitch(s: NodeState, from: NodeId, env: Env)
    requires ControlOk(s) && s.state.ManualSwitch? && !(Reverts(s) && s.AnyBlocked())
    ensures var t := HearMs(s, from, env);
            && Still(t, from, env) && t.state.ManualSwitch? && !(Reverts(t) && t.AnyBlocked())
    ensures s.topreq.Invalid? && !s.AnyBlocked() ==> Still(s, from, env)
  {
  }

  /** Heard in IDLE or PENDING by a node that does not sway. */
  lemma MsEnters(s: NodeState, from: NodeId, env: Env)
    requires ControlOk(s) && !Sways(s) && (s.state.Idle? || s.state.Pending?)
    ensures var t := HearMs(s, from, env);
            && t.state.ManualSwitch? && !(Reverts(t) && t.AnyBlocked()) && t.topreq.Invalid?
            && t.cfg == s.cfg
  {
  }

  /** Heard in MANUAL_SWITCH by a revertive owner that blocks a sound port. */
  lemma MsLeaves(s: NodeState, from: NodeId, env: Env)
    requires ControlOk(s) && s.state.ManualSwitch? && Reverts(s) && s.AnyBlocked()
    ensures var t := HearMs(s, from, env);
            s.topreq.Rank() < RapsMs.Rank() || (t.state.Pending? && t.cfg == s.cfg)
  {
  }

  /** Two hearings are enough for a node that does not sway. */
  lemma MsSettles(s: NodeState, from: NodeId, env: Env)
    requires ControlOk(s) && !Sways(s)
    ensures Still(HearMs(HearMs(s, from, env), from, env), from, env)
  {
    hide HearMs, ControlOk, Sways;
    var t := HearMs(s, from, env);
    MsKeeps(s, from, env);
    SwaysOn(s, from, env);
    if s.topreq.Rank() < RapsMs.Rank() || s.state.Protection? || s.state.ForcedSwitch? {
      MsNoEffect(s, from, env);
      MsNoEffect(t, from, env);
    } else if s.state.Idle? || s.state.Pending? {
      MsEnters(s, from, env);
      MsInSwitch(t, from, env);
    } else if Reverts(s) && s.AnyBlocked() {
      NotUninit(s);
      MsLeaves(s, from, env);
      MsEnters(t, from, env);
      MsKeeps(t, from, env);
      MsInSwitch(HearMs(t, from, env), from, env);
    } else {
      NotUninit(s);
      MsInSwitch(s, from, env);
      MsInSwitch(t, from, env);
    }
  }

  lemma NotUninit(s: NodeState)
    requires ControlOk(s)
    ensures !s.state.Uninit?
  {
  }

  lemma {:induction false} RepeatMsKeeps(s: NodeState, p: PortNo, pdu: Pdu, env: Env, n: nat)
    requires ControlOk(s) && env.Succeeds() && Heard(s, pdu, env) == Some(RapsMs)
    ensures var t := RepeatMs(s, p, pdu, env, n);
            && ControlOk(t) && (Sways(s) <==> Sways(t)) && Heard(t, pdu, env) == Some(RapsMs)
            && RepeatMs(s, p, pdu, env, n + 1) == HearMs(t, pdu.nodeId, env)
  {
    hide HearMs, MsRound, Heard, ControlOk, Sways;
    if n > 0 {
      var t := RepeatMs(s, p, pdu, env, n - 1);
      RepeatMsKeeps(s, p, pdu, env, n - 1);
      MsKeeps(t, pdu.nodeId, env);
      SwaysOn(t, pdu.nodeId, env);
      MsRoundIsHearing(t, p, pdu, env);
    }
    MsRoundIsHearing(RepeatMs(s, p, pdu, env, n), p, pdu, env);
  }

  /** The exception, exactly: one R-APS(MS) frame received again and again, with the guard timer
      expiring in between, settles after the second time, unless the node is a revertive owner with a
      port both failed and blocked, which then changes between MANUAL_SWITCH and PENDING with every
      frame, for ever. */
  lemma RepeatedMs(s: NodeState, p: PortNo, pdu: Pdu, env: Env, n: nat)
    requires ControlOk(s) && env.Succeeds() && Heard(s, pdu, env) == Some(RapsMs) && n >= 2
    ensures ViewOf(RepeatMs(s, p, pdu, env, n + 1)) == ViewOf(RepeatMs(s, p, pdu, env, n)) <==> !Sways(s)
  {
    hide HearMs, MsRound, Heard, ControlOk, Sways;
    RepeatMsKeeps(s, p, pdu, env, n);
    RepeatMsKeeps(s, p, pdu, env, n - 1);
    RepeatMsKeeps(s, p, pdu, env, n - 2);
    if Sways(s) {
      SwaysOn(RepeatMs(s, p, pdu, env, n), pdu.nodeId, env);
    } else {
      MsSettles(RepeatMs(s, p, pdu, env, n - 2), pdu.nodeId, env);
    }
  }
}
