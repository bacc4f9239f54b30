/** Reversion to the ring protection link is never lost, and local commands hold until they
    are cleared: properties of whole runs of one node. */
module Persistence {
  import opened Requests
  import opened NodeIds
  import opened Raps
  import opened NodeModel
  import opened Events
  import opened Robustness
  import opened Runs
  import opened TableFacts
  import opened Safety
  import opened SafeRuns
  import T = Table

  // ----- reversion -----

  /** A revertive owner that waits in PENDING has a timer running that will end the wait. */
  predicate RevertOk(s: NodeState) {
    Reverts(s) && s.state.Pending? ==> s.wtr.Running? || s.wtb.Running?
  }

  lemma BootedWillRevert(s: NodeState)
    requires Booted(s)
    ensures RevertOk(s)
  {
  }

  /** The requests that leave a revertive owner waiting for nothing. */
  predicate Strands(s: NodeState, req: Request) {
    && Reverts(s)
    && ((req.Clear? && (s.state.ManualSwitch? || s.state.ForcedSwitch?) && !s.AnyBlocked())
        || (req.RapsNrRb? && (s.state.Protection? || s.state.ManualSwitch? || s.state.ForcedSwitch?)))
  }

  lemma RowStrands(s: NodeState, p: PortNo, req: Request, from: NodeId, env: Env)
    requires Latched(s, req) && RevertOk(s) && !s.state.Uninit?
    ensures RevertOk(T.Row(s, p, req, from, env)) <==> !Strands(s, req)
  {
  }

  predicate StepStrands(s: NodeState, ev: Event, env: Env) {
    match Posted(s, ev, env)
    case Some(req) => T.Accepts(s, req) && Strands(s, req)
    case None => false
  }

  /** The expiry of a running WTR or WTB timer always passes the priority logic; it ends in IDLE
      with exactly the RPL blocked, R-APS(NR,RB) being sent and no timer running. */
  lemma ExpiryReverts(s: NodeState, ev: Event, env: Env)
    requires ControlOk(s) && Enabled(s, ev) && env.Succeeds() && (ev.WtrFires? || ev.WtbFires?)
    ensures var t := Step(s, ev, env).node;
            && t.state.Idle? && t.p1.blocked && !t.p0.blocked
            && t.topreq.Invalid? && t.wtr.Stopped? && t.wtb.Stopped? && t.guard == s.guard
            && t.pdu.rsSc == RsSc(NR, 0) && t.pdu.HasRb()
            && t.Transmitting() == (env.up0 || env.up1)
  {
    hide Step, T.RevertToRpl;
    StepIsReact(s, ev, env);
    RevertBlocksRpl(Found(s, ev).(topreq := Invalid, wtr := Stopped, wtb := Stopped), env);
  }

  lemma ReactStrands(s: NodeState, p: PortNo, req: Request, from: NodeId, env: Env)
    requires Ready(s, req) && RevertOk(s) && !req.WtrExpires? && !req.WtbExpires?
    ensures RevertOk(T.React(s, p, req, from, env)) <==> !(T.Accepts(s, req) && Strands(s, req))
  {
    hide T.Row;
    if T.Accepts(s, req) {
      RowStrands(T.Latch(s, p, req), p, req, from, env);
    }
  }

  /** Exact: an event strands a revertive owner in PENDING without a timer if and only if it is a
      CLEAR of a switch that blocked nothing here, or R-APS(NR,RB) heard outside IDLE and PENDING. */
  lemma StepKeepsRevert(s: NodeState, ev: Event, env: Env)
    requires ControlOk(s) && RevertOk(s) && Enabled(s, ev) && env.Succeeds()
    ensures RevertOk(Step(s, ev, env).node) <==> !StepStrands(s, ev, env)
  {
    hide Step, T.React, Posted, ControlOk, Ready;
    if ev.WtrFires? || ev.WtbFires? {
      ExpiryReverts(s, ev, env);
      ExpiryDoesNotStrand(s, ev, env);
    } else if Posted(s, ev, env).Some? {
      var req := Posted(s, ev, env).value;
      PostedIsReady(s, ev, env);
      StepIsReact(s, ev, env);
      PostedElsewhere(s, ev, env);
      ReactStrands(s, PortOf(ev), req, Sender(s, ev), env);
    } else {
      OtherStepsAreMinor(s, ev, env);
    }
  }

  lemma ExpiryDoesNotStrand(s: NodeState, ev: Event, env: Env)
    requires ev.WtrFires? || ev.WtbFires?
    ensures !StepStrands(s, ev, env)
  {
  }

  lemma PostedElsewhere(s: NodeState, ev: Event, env: Env)
    requires !ev.WtrFires? && !ev.WtbFires? && Posted(s, ev, env).Some?
    ensures Posted(s, ev, env).value !in {WtrExpires, WtbExpires}
  {
  }

  ghost predicate Unstranded(s: NodeState, act: Act) {
    act.env.Succeeds() && !StepStrands(s, act.ev, act.env)
  }

  /** Reversion is never lost on any run without the two stranding events. */
  lemma {:induction false} RunsKeepRevert(s: NodeState, acts: seq<Act>)
    requires ControlOk(s) && RevertOk(s) && IsRun(s, acts, Unstranded)
    ensures ControlOk(Run(s, acts)) && RevertOk(Run(s, acts))
    decreases acts
  {
    if acts != [] {
      hide Step, ControlOk, RevertOk, StepStrands;
      StepKeepsSafe(s, acts[0].ev, acts[0].env);
      StepKeepsRevert(s, acts[0].ev, acts[0].env);
      RunsKeepRevert(After(s, acts[0]), acts[1..]);
    }
  }

  // ----- a local forced switch -----

  predicate FsHeld(s: NodeState) {
    && s.topreq.Fs? && s.state.ForcedSwitch?
    && s.pdu == PduMut(RsSc(FS, 0), s.pdu.status) && s.AnyBlocked()
  }

  predicate BlockedStays(s: NodeState, t: NodeState) {
    (s.p0.blocked ==> t.p0.blocked) && (s.p1.blocked ==> t.p1.blocked)
  }

  ghost predicate NoClear(s: NodeState, act: Act) {
    act.env.Succeeds() && !(act.ev.Local? && act.ev.cmd.AdmClear?)
  }

  /** Some interface is up whenever something happens. */
  ghost predicate AllAudible(acts: seq<Act>) {
    forall act :: act in acts ==> act.env.Audible()
  }

  /** A forced switch is accepted in every state, and announced if an interface is up. */
  lemma FsIsAccepted(s: NodeState, p: PortNo, env: Env)
    requires ControlOk(s) && env.Succeeds()
    ensures var t := Step(s, Local(p, AdmForcedSwitch), env).node;
            FsHeld(t) && t.Blocked(p) && (t.Transmitting() <==> env.Audible())
  {
    hide Step, T.SwitchTo, T.Announce;
    var s1 := s.(topreq := Fs);
    StepIsReact(s, Local(p, AdmForcedSwitch), env);
    SwitchToBlocksOne(s1, p, FS, ForcedSwitch, env);
    AnnounceKeepsPorts(s1, FS, 0, env);
  }

  lemma StepHoldsFs(s: NodeState, ev: Event, env: Env)
    requires ControlOk(s) && FsHeld(s) && Enabled(s, ev) && NoClear(s, Act(ev, env))
    ensures var t := Step(s, ev, env).node;
            FsHeld(t) && BlockedStays(s, t) && (s.Transmitting() && env.Audible() ==> t.Transmitting())
  {
    hide Step, Heard, T.Announce, T.SwitchTo;
    if Posted(s, ev, env).Some? {
      StepIsReact(s, ev, env);
      AnnounceKeepsPorts(s.(topreq := Fs), FS, 0, env);
      if ev.Receive? { HeardIsRemote(s, ev.pdu, env); }
    } else {
      OtherStepsAreMinor(s, ev, env);
    }
  }

  /** An accepted forced switch holds until the next CLEAR: whatever else happens the node stays in
      FORCED_SWITCH with R-APS(FS) as its PDU, and no blocked port is opened. It goes on sending as
      long as it has an interface to send on. */
  lemma {:induction false} RunsHoldFs(s: NodeState, acts: seq<Act>)
    requires ControlOk(s) && FsHeld(s) && IsRun(s, acts, NoClear)
    ensures ControlOk(Run(s, acts)) && FsHeld(Run(s, acts)) && BlockedStays(s, Run(s, acts))
    ensures s.Transmitting() && AllAudible(acts) ==> Run(s, acts).Transmitting()
    decreases acts
  {
    if acts != [] {
      hide Step, ControlOk, FsHeld;
      StepKeepsSafe(s, acts[0].ev, acts[0].env);
      StepHoldsFs(s, acts[0].ev, acts[0].env);
      RunsHoldFs(After(s, acts[0]), acts[1..]);
    }
  }

  // ----- a local signal failure -----

  predicate SfHeld(s: NodeState, p: PortNo) {
    && s.topreq.Sf? && s.state.Protection?
    && s.Blocked(p) && s.Port(p).failed && !s.Blocked(Other(p)) && !s.Port(Other(p)).failed
    && s.pdu == PduMut(RsSc(SF, 0), s.pdu.status)
  }

  /** The events that may end a local signal failure are CLEAR, FS, R-APS(FS) and CLEAR_SF. */
  ghost predicate NoRelease(s: NodeState, act: Act) {
    act.env.Succeeds() &&
    (Posted(s, act.ev, act.env).Some? ==> Posted(s, act.ev, act.env).value !in {Clear, Fs, RapsFs, ClearSf})
  }

  /** The port of the last signal failure posted in a run that started with one on port p. */
  function LastFailure(p: PortNo, acts: seq<Act>): PortNo
    decreases acts
  {
    if acts == [] then p
    else
      var ev := acts[0].ev;
      LastFailure(if ev.LinkDownExpires? || (ev.Local? && ev.cmd.SignalFail?) then PortOf(ev) else p, acts[1..])
  }

  /** A signal failure outside FORCED_SWITCH is accepted, and announced if an interface is up. */
  lemma SfIsAccepted(s: NodeState, p: PortNo, ev: Event, env: Env)
    requires ControlOk(s) && !s.state.ForcedSwitch? && env.Succeeds()
    requires ev in {Local(p, SignalFail), LinkDownExpires(p)}
    ensures SfHeld(Step(s, ev, env).node, p) && (Step(s, ev, env).node.Transmitting() <==> env.Audible())
  {
    hide Step, T.React, ControlOk, SfHeld;
    StepIsReact(s, ev, env);
    SfReacts(s, p, Sender(s, ev), env);
  }

  lemma SfReacts(s: NodeState, p: PortNo, from: NodeId, env: Env)
    requires ControlOk(s) && !s.state.ForcedSwitch?
    ensures var t := T.React(s, p, Sf, from, env); SfHeld(t, p) && t.Transmitting() == (env.up0 || env.up1)
  {
    hide T.SwitchTo;
    var s1 := T.Latch(s, p, Sf);
    SwitchToBlocksOne(s1, p, SF, Protection, env);
    SwitchToBlocksOne(T.WithoutTimers(s1), p, SF, Protection, env);
  }

  lemma StepHoldsSf(s: NodeState, p: PortNo, ev: Event, env: Env)
    requires ControlOk(s) && SfHeld(s, p) && Enabled(s, ev) && NoRelease(s, Act(ev, env))
    ensures var t := Step(s, ev, env).node;
            && SfHeld(t, LastFailure(p, [Act(ev, env)]))
            && (s.Transmitting() && env.Audible() ==> t.Transmitting())
  {
    hide Step, Heard, T.SwitchTo, SfHeld;
    if Posted(s, ev, env) == Some(Sf) {
      if ev.Receive? { HeardIsRemote(s, ev.pdu, env); }
      assert s.state.Protection? by { SfHeldState(s, p); }
      SfIsAccepted(s, PortOf(ev), ev, env);
    } else if Posted(s, ev, env).Some? {
      SfHeldState(s, p);
      if ev.Receive? { HeardIsRemote(s, ev.pdu, env); }
      StepIsReact(s, ev, env);
    } else {
      SfHeldState(s, p);
      OtherStepsAreMinor(s, ev, env);
      SfHeldMinor(s, p, Step(s, ev, env).node);
    }
  }

  lemma SfHeldState(s: NodeState, p: PortNo)
    requires SfHeld(s, p)
    ensures s.topreq.Sf? && s.state.Protection?
  {
  }

  lemma SfHeldMinor(s: NodeState, p: PortNo, t: NodeState)
    requires SfHeld(s, p) && t.topreq == s.topreq && t.state == s.state && t.pdu == s.pdu
    requires t.p0.blocked == s.p0.blocked && t.p1.blocked == s.p1.blocked
    requires t.p0.failed == s.p0.failed && t.p1.failed == s.p1.failed
    ensures SfHeld(t, p)
  {
  }

  /** A signal failure accepted outside FORCED_SWITCH holds until one of the four releasing
      requests: the node stays in PROTECTION, the one port it blocks is that of the last failure,
      and it goes on sending R-APS(SF) as long as it has an interface to send on. */
  lemma {:induction false} RunsHoldSf(s: NodeState, p: PortNo, acts: seq<Act>)
    requires ControlOk(s) && SfHeld(s, p) && IsRun(s, acts, NoRelease)
    ensures ControlOk(Run(s, acts)) && SfHeld(Run(s, acts), LastFailure(p, acts))
    ensures s.Transmitting() && AllAudible(acts) ==> Run(s, acts).Transmitting()
    decreases acts
  {
    if acts != [] {
      hide Step, ControlOk, SfHeld, Posted;
      StepKeepsSafe(s, acts[0].ev, acts[0].env);
      StepHoldsSf(s, p, acts[0].ev, acts[0].env);
      RunsHoldSf(After(s, acts[0]), LastFailure(p, [acts[0]]), acts[1..]);
    }
  }
}
