/** Invariants of a node whose foreign calls succeed. */
module Safety {
  import opened Requests
  import opened NodeIds
  import opened Raps
  import opened NodeModel
  import opened Events
  import opened Refinement
  import opened Table
  import opened TableFacts

  /** The latched request fits the state. */
  predicate LatchOk(s: NodeState) {
    && (s.topreq.IsLatched() || s.topreq.Invalid?)
    && (s.topreq.Fs? ==> s.state.ForcedSwitch?)
    && (s.topreq.Sf? ==> s.state.Protection? || s.state.ForcedSwitch?)
    && (s.topreq.Ms? ==> s.state.ManualSwitch? || s.state.Protection? || s.state.ForcedSwitch?)
    && (s.topreq.WtrRunning? ==> s.state.Pending? && s.wtr.Running?)
    && (s.topreq.WtbRunning? ==> s.state.Pending? && s.wtb.Running?)
  }

  predicate ControlOk(s: NodeState) {
    !s.state.Uninit? && RoleOk(s) && TimersOk(s) && LatchOk(s)
  }

  /** A node that speaks has a port blocked. */
  predicate SpeakOk(s: NodeState) {
    s.Transmitting() ==> s.AnyBlocked()
  }

  /** A signal failure of this node that is in effect has blocked a port. */
  predicate SfBlocks(s: NodeState) {
    s.topreq.Sf? && s.state.Protection? ==> s.AnyBlocked()
  }

  /** Only the owner ever has the RB bit in its PDU. */
  predicate OwnerRb(s: NodeState) {
    s.pdu.HasRb() ==> s.cfg.owner
  }

  /** While the RB bit is sent it is true. */
  predicate RbOk(s: NodeState) {
    && OwnerRb(s)
    && (s.pdu.HasRb() && s.Transmitting() ==> s.state.Idle? && s.p1.blocked && !s.p0.blocked)
  }

  predicate IdleOk(s: NodeState) {
    s.state.Idle? ==>
      && !s.p0.blocked
      && (s.p1.blocked <==> s.cfg.owner || s.cfg.nbr)
      && (if s.cfg.owner then s.pdu.HasRb() else !s.Transmitting())
  }

  /** An idle owner is heard: R-APS(NR,RB) is being sent. */
  predicate OwnerSpeaks(s: NodeState) {
    s.state.Idle? && s.cfg.owner ==> s.Transmitting() && s.pdu.HasRb()
  }

  /** What a request finds: its own timer is no longer running when it reports an expiry. */
  predicate Ready(s: NodeState, req: Request) {
    && !req.IsRunning() && !req.Invalid?
    && match req
       case WtrExpires => s.wtr.Stopped? && ControlOk(s.(wtr := Running(0)))
       case WtbExpires => s.wtb.Stopped? && ControlOk(s.(wtb := Running(0)))
       case _ => ControlOk(s)
  }

  /** The two requests after which a node may speak with nothing blocked. */
  predicate Exposes(s: NodeState, req: Request, env: Env) {
    || (req.ClearSf? && s.state.Protection? && !s.AnyBlocked() && (env.up0 || env.up1))
    || (req.RapsNrRb? && s.state.Idle? && s.cfg.owner && !s.p1.blocked && s.Transmitting())
  }

  /** A request that has passed the priority logic, and the node with that request latched. */
  predicate Latched(s: NodeState, req: Request) {
    && RoleOk(s) && TimersOk(s)
    && !req.IsRunning() && !req.Invalid?
    && s.topreq == (if req.IsLatched() then req else Invalid)
    && (req.Clear? && !s.cfg.owner ==> s.state.ManualSwitch? || s.state.ForcedSwitch? || s.state.Protection?)
    && (req.WtrExpires? || req.WtbExpires? ==> s.wtr.Stopped? && s.wtb.Stopped?)
  }

  /** What one row keeps. */
  predicate RowKeeps(s: NodeState, req: Request, t: NodeState, env: Env) {
    && ControlOk(t) && t.cfg == s.cfg
    && (OwnerRb(s) ==> OwnerRb(t)) && SfBlocks(t)
    && (RbOk(s) ==> RbOk(t))
    && (IdleOk(s) && !(req.RapsNrRb? && s.cfg.owner) ==> IdleOk(t))
    && (OwnerSpeaks(s) && env.Audible() && !(req.RapsNrRb? && s.cfg.owner) ==> OwnerSpeaks(t))
    && (SpeakOk(s) ==> (SpeakOk(t) <==> !Exposes(s, req, env)))
  }

  lemma SwitchKeeps(s: NodeState, p: PortNo, req: Request, reqState: bv8, next: FsmState, env: Env)
    requires RoleOk(s) && s.wtr.Stopped? && s.wtb.Stopped? && s.topreq == req
    requires (req.Fs? && next.ForcedSwitch?) || (req.Sf? && next.Protection?) || (req.Ms? && next.ManualSwitch?)
    ensures RowKeeps(s, req, SwitchTo(s, p, reqState, next, env), env)
  {
  }

  lemma MuteKeeps(s: NodeState, req: Request, env: Env)
    requires RoleOk(s) && s.wtr.Stopped? && s.wtb.Stopped? && s.topreq.Invalid?
    requires req in {RapsFs, RapsSf, RapsMs}
    ensures RowKeeps(s, req, OpenAndMute(s, ForcedSwitch), env)
    ensures RowKeeps(s, req, OpenSoundAndMute(s, Protection), env)
    ensures RowKeeps(s, req, OpenSoundAndMute(s, ManualSwitch), env)
  {
  }

  lemma IdleRowKeeps(s: NodeState, p: PortNo, req: Request, from: NodeId, env: Env)
    requires Latched(s, req) && s.state.Idle?
    ensures RowKeeps(s, req, IdleRow(s, p, req, from, env), env)
  {
    hide SwitchTo, OpenAndMute, OpenSoundAndMute, Memcmp;
    match req
    case Fs => SwitchKeeps(s, p, req, FS, ForcedSwitch, env);
    case Sf => SwitchKeeps(s, p, req, SF, Protection, env);
    case Ms => SwitchKeeps(s, p, req, MS, ManualSwitch, env);
    case RapsFs => MuteKeeps(s, req, env);
    case RapsSf => MuteKeeps(s, req, env);
    case RapsMs => MuteKeeps(s, req, env);
    case RapsNrRb =>
    case RapsNr => OpenSoundKeepsFailed(s, Idle);
    case _ =>
  }

  lemma ProtectionRowKeeps(s: NodeState, p: PortNo, req: Request, env: Env)
    requires Latched(s, req) && s.state.Protection?
    ensures RowKeeps(s, req, ProtectionRow(s, p, req, env), env)
  {
    hide SwitchTo, OpenAndMute, Announce;
    match req
    case Fs => SwitchKeeps(s, p, req, FS, ForcedSwitch, env);
    case Sf => SwitchKeeps(s, p, req, SF, Protection, env);
    case RapsFs => MuteKeeps(s, req, env);
    case ClearSf => AnnounceKeepsPorts(s, NR, 0, env);
    case _ =>
  }

  lemma ManualSwitchRowKeeps(s: NodeState, p: PortNo, req: Request, env: Env)
    requires Latched(s, req) && s.state.ManualSwitch?
    ensures RowKeeps(s, req, ManualSwitchRow(s, p, req, env), env)
  {
    hide SwitchTo, OpenAndMute, OpenSoundAndMute, Announce, Release;
    match req
    case Clear => ReleaseKeeps(s, env);
    case Fs => SwitchKeeps(s, p, req, FS, ForcedSwitch, env);
    case Sf => SwitchKeeps(s, p, req, SF, Protection, env);
    case RapsFs => MuteKeeps(s, req, env);
    case RapsSf => MuteKeeps(s, req, env);
    case RapsMs => AnnounceKeepsPorts(s, NR, 0, env);
    case _ =>
  }

  lemma ReleaseKeeps(s: NodeState, env: Env)
    requires Latched(s, Clear) && (s.state.ManualSwitch? || s.state.ForcedSwitch?)
    ensures RowKeeps(s, Clear, Release(s, env), env)
  {
  }

  lemma ForcedSwitchRowKeeps(s: NodeState, p: PortNo, req: Request, env: Env)
    requires Latched(s, req) && s.state.ForcedSwitch?
    ensures RowKeeps(s, req, ForcedSwitchRow(s, p, req, env), env)
  {
    hide Announce, Release;
    match req
    case Clear => ReleaseKeeps(s, env);
    case Fs => AnnounceKeepsPorts(s, FS, 0, env);
    case _ =>
  }

  lemma TimersCommute(s: NodeState, p: PortNo, env: Env)
    ensures WithoutTimers(SwitchTo(s, p, FS, ForcedSwitch, env)) == SwitchTo(WithoutTimers(s), p, FS, ForcedSwitch, env)
    ensures WithoutTimers(SwitchTo(s, p, SF, Protection, env)) == SwitchTo(WithoutTimers(s), p, SF, Protection, env)
    ensures WithoutTimers(SwitchTo(s, p, MS, ManualSwitch, env)) == SwitchTo(WithoutTimers(s), p, MS, ManualSwitch, env)
    ensures WithoutTimers(OpenAndMute(s, ForcedSwitch)) == OpenAndMute(WithoutTimers(s), ForcedSwitch)
    ensures WithoutTimers(OpenSoundAndMute(s, Protection)) == OpenSoundAndMute(WithoutTimers(s), Protection)
    ensures WithoutTimers(OpenSoundAndMute(s, ManualSwitch)) == OpenSoundAndMute(WithoutTimers(s), ManualSwitch)
  {
  }

  /** Stopping the timers first makes no difference to what a row has to keep. */
  lemma KeepsDespiteTimers(s: NodeState, req: Request, t: NodeState, env: Env)
    requires RowKeeps(WithoutTimers(s), req, t, env)
    ensures RowKeeps(s, req, t, env)
  {
  }

  lemma PendingSwitchKeeps(s: NodeState, p: PortNo, req: Request, from: NodeId, env: Env)
    requires Latched(s, req) && s.state.Pending? && req in {Fs, Sf, Ms, RapsFs, RapsSf, RapsMs}
    ensures RowKeeps(s, req, PendingRow(s, p, req, from, env), env)
  {
    hide SwitchTo, OpenAndMute, OpenSoundAndMute, RevertToRpl, RowKeeps;
    TimersCommute(s, p, env);
    KeepsDespiteTimers(s, req, PendingRow(s, p, req, from, env), env) by {
      var s1 := WithoutTimers(s);
      match req
      case Fs => SwitchKeeps(s1, p, req, FS, ForcedSwitch, env);
      case Sf => SwitchKeeps(s1, p, req, SF, Protection, env);
      case Ms => SwitchKeeps(s1, p, req, MS, ManualSwitch, env);
      case _ => MuteKeeps(s1, req, env);
    }
  }

  lemma PendingRowKeeps(s: NodeState, p: PortNo, req: Request, from: NodeId, env: Env)
    requires Latched(s, req) && s.state.Pending?
    ensures RowKeeps(s, req, PendingRow(s, p, req, from, env), env)
  {
    hide SwitchTo, OpenAndMute, OpenSoundAndMute, RevertToRpl, Memcmp, Close, Open, Mute;
    match req
    case Clear => RevertBlocksRpl(WithoutTimers(s), env);
    case WtrExpires => RevertBlocksRpl(s.(wtb := Stopped), env);
    case WtbExpires => RevertBlocksRpl(s.(wtr := Stopped), env);
    case RapsNrRb =>
      OpenAndMuteOpensAll(s, Idle);
      NeighbourSettles(s);
    case RapsNr => OpenSoundKeepsFailed(s, Pending);
    case ClearSf | WtrRunning | WtbRunning | Invalid =>
    case _ => PendingSwitchKeeps(s, p, req, from, env);
  }

  lemma NeighbourSettles(s: NodeState)
    ensures var p0 := Mute(Open(s.p0)); !p0.blocked && p0.tx.TxOff? && p0.link == s.p0.link
    ensures var p1 := Mute(Close(s.p1)); p1.blocked && p1.tx.TxOff? && p1.link == s.p1.link
  {
  }

  lemma RowKeepsAll(s: NodeState, p: PortNo, req: Request, from: NodeId, env: Env)
    requires Latched(s, req) && !s.state.Uninit?
    ensures RowKeeps(s, req, Row(s, p, req, from, env), env)
  {
    hide IdleRow, ProtectionRow, ManualSwitchRow, ForcedSwitchRow, PendingRow, RowKeeps;
    match s.state
    case Idle => IdleRowKeeps(s, p, req, from, env);
    case Protection => ProtectionRowKeeps(s, p, req, env);
    case ManualSwitch => ManualSwitchRowKeeps(s, p, req, env);
    case ForcedSwitch => ForcedSwitchRowKeeps(s, p, req, env);
    case Pending => PendingRowKeeps(s, p, req, from, env);
  }

  /** Invariants of a node when an accepted or ignored request is handled. */
  lemma ReactKeeps(s: NodeState, p: PortNo, req: Request, from: NodeId, env: Env)
    requires Ready(s, req)
    ensures var t := React(s, p, req, from, env);
            && ControlOk(t) && t.cfg == s.cfg
            && (OwnerRb(s) ==> OwnerRb(t)) && (RbOk(s) ==> RbOk(t)) && (SfBlocks(s) ==> SfBlocks(t))
            && (IdleOk(s) && !(req.RapsNrRb? && s.cfg.owner) ==> IdleOk(t))
            && (OwnerSpeaks(s) && env.Audible() && !(req.RapsNrRb? && s.cfg.owner) ==> OwnerSpeaks(t))
            && (SpeakOk(s) ==> (SpeakOk(t) <==> !(Accepts(s, req) && Exposes(s, req, env))))
  {
    hide Row;
    if Accepts(s, req) {
      RowKeepsAll(Latch(s, p, req), p, req, from, env);
    }
  }
}
