/** The state machine in an environment where no foreign call fails, as a table in the manner of
    Table 10-2 of ITU-T G.8032: one row per state and request, as the code implements it, each row
    the complete new state of the node. */
module Table {
  import opened Requests
  import opened NodeIds
  import opened Raps
  import opened NodeModel

  // ----- the actions that rows are made of -----

  function Close(port: Port): Port {
    if port.blocked then port else port.(blocked := true, enabled := false)
  }

  function Open(port: Port): Port {
    if port.blocked then port.(failed := false, blocked := false, enabled := true)
    else port.(failed := false)
  }

  function OpenUnlessFailed(port: Port): Port {
    if port.failed then port else Open(port)
  }

  function Rearm(port: Port, up: bool, burst: nat): Port {
    port.(burst := burst, tx := if up then TxDue(TxDelay(burst)) else TxOff)
  }

  function Mute(port: Port): Port {
    port.(tx := TxOff)
  }

  function Announce(s: NodeState, reqState: bv8, status: bv8, env: Env): NodeState {
    var pdu := PduMut(RsSc(reqState, 0), status);
    var burst := if pdu != s.pdu then TX_BURST else 0;
    s.(pdu := pdu, p0 := Rearm(s.p0, env.up0, burst), p1 := Rearm(s.p1, env.up1, burst))
  }

  function WithWtr(s: NodeState): NodeState {
    s.(wtr := Running(s.cfg.wtrMinutes * 60000),
       topreq := if WtrRunning.Rank() <= s.topreq.Rank() then WtrRunning else s.topreq)
  }

  function WithWtb(s: NodeState): NodeState {
    s.(wtb := Running(s.cfg.guardMs + 5000),
       topreq := if WtbRunning.Rank() <= s.topreq.Rank() then WtbRunning else s.topreq)
  }

  // ----- rows that several states share -----

  /** Exactly the given port ends up blocked, and the request is announced. The forwarding
      database is flushed, and the others asked to flush, unless the port was blocked before. */
  function SwitchTo(s: NodeState, p: PortNo, reqState: bv8, next: FsmState, env: Env): NodeState {
    var already := s.Blocked(p);
    var s1 := Announce(s, reqState, if already then DNF else 0, env);
    s1.(state := next,
        p0 := if p == 0 then Close(s1.p0) else Open(s1.p0),
        p1 := if p == 1 then Close(s1.p1) else Open(s1.p1),
        flushes := if already then s.flushes else s.flushes + 1)
  }

  function OpenAndMute(s: NodeState, next: FsmState): NodeState {
    s.(state := next, p0 := Mute(Open(s.p0)), p1 := Mute(Open(s.p1)))
  }

  function OpenSoundAndMute(s: NodeState, next: FsmState): NodeState {
    s.(state := next, p0 := Mute(OpenUnlessFailed(s.p0)), p1 := Mute(OpenUnlessFailed(s.p1)))
  }

  function YieldTo(s: NodeState, other: NodeId): NodeState {
    if Memcmp(other, s.cfg.id) > 0 then OpenSoundAndMute(s, s.state) else s
  }

  /** The RPL port is the one blocked port, and R-APS(NR,RB) is sent. */
  function RevertToRpl(s: NodeState, env: Env): NodeState {
    var already := s.p1.blocked;
    var s1 := Announce(s, NR, if already then RB | DNF else RB, env);
    s1.(state := Idle, p0 := Open(s1.p0), p1 := Close(s1.p1),
        flushes := if already then s.flushes else s.flushes + 1)
  }

  function AnnounceNoRequest(s: NodeState, env: Env): NodeState {
    Announce(s, NR, 0, env).(guard := Running(s.cfg.guardMs))
  }

  /** CLEAR in MANUAL_SWITCH and FORCED_SWITCH. */
  function Release(s: NodeState, env: Env): NodeState {
    var s1 := if s.AnyBlocked() then AnnounceNoRequest(s, env) else s;
    var s2 := if s.AnyBlocked() && Reverts(s) then WithWtb(s1) else s1;
    s2.(state := Pending)
  }

  function WithoutTimers(s: NodeState): NodeState {
    if s.cfg.owner then s.(wtr := Stopped, wtb := Stopped) else s
  }

  // ----- the five states -----

  function IdleRow(s: NodeState, p: PortNo, req: Request, from: NodeId, env: Env): NodeState {
    match req
    case Fs => SwitchTo(s, p, FS, ForcedSwitch, env)
    case RapsFs => OpenAndMute(s, ForcedSwitch)
    case Sf => SwitchTo(s, p, SF, Protection, env)
    case RapsSf => OpenSoundAndMute(s, Protection)
    case RapsMs => OpenSoundAndMute(s, ManualSwitch)
    case Ms => SwitchTo(s, p, MS, ManualSwitch, env)
    case RapsNrRb =>
      var s1 := if s.p1.link.rpl then s.(p0 := Open(s.p0)) else s;
      if s.cfg.owner then s1 else s1.(p0 := Mute(s1.p0), p1 := Mute(s1.p1))
    case RapsNr => if s.cfg.owner || s.cfg.nbr then s else YieldTo(s, from)
    case _ => s
  }

  function ProtectionRow(s: NodeState, p: PortNo, req: Request, env: Env): NodeState {
    match req
    case Fs => SwitchTo(s, p, FS, ForcedSwitch, env)
    case RapsFs => OpenAndMute(s, ForcedSwitch)
    case Sf => SwitchTo(s, p, SF, Protection, env)
    case ClearSf =>
      var s1 := AnnounceNoRequest(s, env);
      (if Reverts(s) then WithWtr(s1) else s1).(state := Pending)
    case RapsNrRb => s.(state := Pending)
    case RapsNr => (if Reverts(s) then WithWtr(s) else s).(state := Pending)
    case _ => s
  }

  function ManualSwitchRow(s: NodeState, p: PortNo, req: Request, env: Env): NodeState {
    match req
    case Clear => Release(s, env)
    case Fs => SwitchTo(s, p, FS, ForcedSwitch, env)
    case RapsFs => OpenAndMute(s, ForcedSwitch)
    case Sf => SwitchTo(s, p, SF, Protection, env)
    case RapsSf => OpenSoundAndMute(s, Protection)
    case RapsMs =>
      if !s.AnyBlocked() then s
      else if Reverts(s) then WithWtb(AnnounceNoRequest(s, env)).(state := Pending)
      else AnnounceNoRequest(s, env)
    case RapsNrRb => s.(state := Pending)
    case RapsNr => (if Reverts(s) then WithWtb(s) else s).(state := Pending)
    case _ => s
  }

  function ForcedSwitchRow(s: NodeState, p: PortNo, req: Request, env: Env): NodeState {
    match req
    case Clear => Release(s, env)
    case Fs =>
      var s1 := Announce(s, FS, 0, env);
      s1.(p0 := if p == 0 then Close(s1.p0) else s1.p0,
          p1 := if p == 1 then Close(s1.p1) else s1.p1,
          flushes := s.flushes + 1)
    case RapsNrRb => s.(state := Pending)
    case RapsNr => (if Reverts(s) then WithWtb(s) else s).(state := Pending)
    case _ => s
  }

  function PendingRow(s: NodeState, p: PortNo, req: Request, from: NodeId, env: Env): NodeState {
    match req
    case Clear => if s.p1.link.rpl then RevertToRpl(WithoutTimers(s), env) else WithoutTimers(s).(state := Idle)
    case Fs => WithoutTimers(SwitchTo(s, p, FS, ForcedSwitch, env))
    case RapsFs => WithoutTimers(OpenAndMute(s, ForcedSwitch))
    case Sf => WithoutTimers(SwitchTo(s, p, SF, Protection, env))
    case RapsSf => WithoutTimers(OpenSoundAndMute(s, Protection))
    case RapsMs => WithoutTimers(OpenSoundAndMute(s, ManualSwitch))
    case Ms => WithoutTimers(SwitchTo(s, p, MS, ManualSwitch, env))
    case WtrExpires => if s.cfg.owner then RevertToRpl(s.(wtb := Stopped), env) else s
    case WtbExpires => if s.cfg.owner then RevertToRpl(s.(wtr := Stopped), env) else s
    case RapsNrRb =>
      if s.cfg.owner then WithoutTimers(s).(state := Idle)
      else if s.cfg.nbr then s.(state := Idle, p0 := Mute(Open(s.p0)), p1 := Mute(Close(s.p1)))
      else OpenAndMute(s, Idle)
    case RapsNr => YieldTo(s, from)
    case _ => s
  }

  function Row(s: NodeState, p: PortNo, req: Request, from: NodeId, env: Env): NodeState {
    match s.state
    case Idle => IdleRow(s, p, req, from, env)
    case Protection => ProtectionRow(s, p, req, env)
    case ManualSwitch => ManualSwitchRow(s, p, req, env)
    case ForcedSwitch => ForcedSwitchRow(s, p, req, env)
    case Pending => PendingRow(s, p, req, from, env)
    case Uninit => s
  }

  // ----- priority and entry -----

  /** CLEAR is passed on for a local FS or MS, and at the RPL owner. */
  predicate Accepts(s: NodeState, req: Request) {
    match req
    case Clear => s.topreq.Fs? || s.topreq.Ms? || s.cfg.owner
    case ClearSf => s.topreq.Sf? || req.Rank() <= s.topreq.Rank()
    case _ => req.Rank() <= s.topreq.Rank()
  }

  /** The node as the row finds it: the latched request is replaced. */
  function Latch(s: NodeState, p: PortNo, req: Request): NodeState {
    MarkFailed(s.(topreq := if req.IsLatched() then req else Invalid), p, req)
  }

  /** One accepted request: the row is applied, except that a cleared signal failure of the RPL
      only matters in PROTECTION. */
  function Accept(s: NodeState, p: PortNo, req: Request, from: NodeId, env: Env): NodeState {
    var s1 := Latch(s, p, req);
    if req.ClearSf? && s.Port(p).link.rpl && !s.state.Protection? then s1 else Row(s1, p, req, from, env)
  }

  function React(s: NodeState, p: PortNo, req: Request, from: NodeId, env: Env): NodeState {
    if Accepts(s, req) then Accept(s, p, req, from, env) else s
  }
}
