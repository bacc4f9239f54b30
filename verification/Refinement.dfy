/** When no foreign call fails, the state machine of the code is the table. */
module Refinement {
  import opened Requests
  import opened NodeIds
  import opened Raps
  import opened NodeModel
  import opened Events
  import F = Fsm
  import T = Table

  /** Only a revertive RPL owner in PENDING has a timer running, and never both. */
  predicate TimersOk(s: NodeState) {
    && (s.wtr.Running? || s.wtb.Running? ==> s.state.Pending? && s.cfg.owner && s.cfg.revertive)
    && !(s.wtr.Running? && s.wtb.Running?)
  }

  /** When a handler completes the node is as the table says, when it fails it returns the error code
      of a call that failed, and it hits no assertion. */
  predicate Refines(o: Outcome, t: NodeState, env: Env) {
    match o
    case Done(node) => node == t
    case Failed(_, err) => env.Reports(err)
    case Trap(_) => false
  }

  // ----- primitives -----

  lemma BlockCloses(s: NodeState, p: PortNo, env: Env)
    ensures Refines(Block(s, p, env), s.WithPort(p, T.Close(s.Port(p))), env)
  {
  }

  lemma UnblockOpens(s: NodeState, p: PortNo, env: Env)
    ensures Refines(Unblock(s, p, env), s.WithPort(p, T.Open(s.Port(p))), env)
  {
  }

  lemma SchedTxAnnounces(s: NodeState, reqState: bv8, status: bv8, env: Env)
    requires ValidReqState(reqState)
    ensures Refines(SchedTx(s, reqState, 0, status, env), T.Announce(s, reqState, status, env), env)
  {
  }

  lemma CloseCommutes(port: Port, up: bool, burst: nat)
    ensures T.Close(T.Rearm(port, up, burst)) == T.Rearm(T.Close(port), up, burst)
    ensures port.blocked ==> T.Close(port) == port
  {
  }

  // ----- handlers shared by several states -----

  lemma SwitchPort0(s: NodeState, reqState: bv8, next: FsmState, env: Env)
    requires ValidReqState(reqState)
    ensures Refines(F.FsSfMs(s, 0, reqState, next, env), T.SwitchTo(s, 0, reqState, next, env), env)
  {
    hide SchedTx, Block, Unblock, T.Close, T.Open, T.Rearm;
    var status := if s.p0.blocked then DNF else 0;
    var burst := if PduMut(RsSc(reqState, 0), status) != s.pdu then TX_BURST else 0;
    var s1 := s.(p0 := T.Close(s.p0));
    BlockCloses(s, 0, env);
    CloseCommutes(s.p0, env.up0, burst);
    SchedTxAnnounces(s1, reqState, status, env);
    UnblockOpens(T.Announce(s1, reqState, status, env), 1, env);
  }

  lemma SwitchPort1(s: NodeState, reqState: bv8, next: FsmState, env: Env)
    requires ValidReqState(reqState)
    ensures Refines(F.FsSfMs(s, 1, reqState, next, env), T.SwitchTo(s, 1, reqState, next, env), env)
  {
    hide SchedTx, Block, Unblock, T.Close, T.Open, T.Rearm;
    var status := if s.p1.blocked then DNF else 0;
    var burst := if PduMut(RsSc(reqState, 0), status) != s.pdu then TX_BURST else 0;
    var s1 := s.(p1 := T.Close(s.p1));
    BlockCloses(s, 1, env);
    CloseCommutes(s.p1, env.up1, burst);
    SchedTxAnnounces(s1, reqState, status, env);
    UnblockOpens(T.Announce(s1, reqState, status, env), 0, env);
  }

  lemma SwitchRefines(s: NodeState, p: PortNo, reqState: bv8, next: FsmState, env: Env)
    requires ValidReqState(reqState)
    ensures Refines(F.FsSfMs(s, p, reqState, next, env), T.SwitchTo(s, p, reqState, next, env), env)
  {
    hide F.FsSfMs, T.SwitchTo;
    if p == 0 {
      SwitchPort0(s, reqState, next, env);
    } else {
      SwitchPort1(s, reqState, next, env);
    }
  }

  lemma UnblockNonFailedRefines(s: NodeState, env: Env)
    ensures Refines(UnblockNonFailed(s, env), s.(p0 := T.OpenUnlessFailed(s.p0), p1 := T.OpenUnlessFailed(s.p1)), env)
  {
  }

  lemma UnblockAndStopRefines(s: NodeState, next: FsmState, env: Env)
    ensures Refines(F.UnblockAndStop(s, false, next, env), T.OpenAndMute(s, next), env)
    ensures Refines(F.UnblockAndStop(s, true, next, env), T.OpenSoundAndMute(s, next), env)
  {
  }

  lemma YieldRefines(s: NodeState, pdu: Pdu, env: Env)
    ensures Refines(F.MaybeUnblockAndStop(s, Some(pdu), env), T.YieldTo(s, pdu.nodeId), env)
  {
    hide UnblockNonFailed, T.OpenUnlessFailed, Memcmp;
    UnblockNonFailedRefines(s, env);
  }

  lemma RevertRefines(s: NodeState, env: Env)
    requires s.p1.link.rpl
    ensures Refines(F.BlockRplAndAnnounce(s, env), T.RevertToRpl(s, env), env)
  {
    hide SchedTx, Block, Unblock, T.Close, T.Open, T.Rearm;
    var status := if s.p1.blocked then RB | DNF else RB;
    var burst := if PduMut(RsSc(NR, 0), status) != s.pdu then TX_BURST else 0;
    var s1 := s.(p1 := T.Close(s.p1));
    BlockCloses(s, 1, env);
    CloseCommutes(s.p1, env.up1, burst);
    SchedTxAnnounces(s1, NR, status, env);
    UnblockOpens(T.Announce(s1, NR, status, env), 0, env);
  }

  lemma ReleaseRefines(s: NodeState, env: Env)
    requires s.wtb.Stopped?
    ensures Refines(F.ClearCommon(s, env), T.Release(s, env), env)
  {
  }

  // ----- the five states -----

  lemma IdleRefines(s: NodeState, p: PortNo, req: Request, pdu: Option<Pdu>, from: NodeId, env: Env)
    requires !req.Invalid?
    requires if pdu.Some? then from == pdu.value.nodeId else !req.RapsNr?
    ensures Refines(F.PostIdle(s, p, req, pdu, env), T.IdleRow(s, p, req, from, env), env)
  {
    hide F.FsSfMs, T.SwitchTo, F.UnblockAndStop, T.OpenAndMute, T.OpenSoundAndMute;
    hide F.MaybeUnblockAndStop, T.YieldTo, Unblock, T.Open;
    match req
    case Fs => SwitchRefines(s, p, FS, ForcedSwitch, env);
    case Sf => SwitchRefines(s, p, SF, Protection, env);
    case Ms => SwitchRefines(s, p, MS, ManualSwitch, env);
    case RapsFs => UnblockAndStopRefines(s, ForcedSwitch, env);
    case RapsSf => UnblockAndStopRefines(s, Protection, env);
    case RapsMs => UnblockAndStopRefines(s, ManualSwitch, env);
    case RapsNrRb => UnblockOpens(s, 0, env);
    case RapsNr => YieldRefines(s, pdu.value, env);
    case _ =>
  }

  lemma ProtectionRefines(s: NodeState, p: PortNo, req: Request, env: Env)
    requires !req.Invalid? && s.wtr.Stopped?
    ensures Refines(F.PostProtection(s, p, req, env), T.ProtectionRow(s, p, req, env), env)
  {
    hide F.FsSfMs, T.SwitchTo, F.UnblockAndStop, T.OpenAndMute, SchedTx, T.Announce;
    match req
    case Fs => SwitchRefines(s, p, FS, ForcedSwitch, env);
    case Sf => SwitchRefines(s, p, SF, Protection, env);
    case RapsFs => UnblockAndStopRefines(s, ForcedSwitch, env);
    case ClearSf => SchedTxAnnounces(StartGuard(s), NR, 0, env); NoRequestAnnounced(s, env);
    case _ =>
  }

  lemma NoRequestAnnounced(s: NodeState, env: Env)
    ensures T.Announce(StartGuard(s), NR, 0, env) == T.AnnounceNoRequest(s, env)
    ensures var a := T.Announce(StartGuard(s), NR, 0, env);
            a.cfg == s.cfg && a.wtr == s.wtr && a.wtb == s.wtb
  {
  }

  lemma ManualSwitchRefines(s: NodeState, p: PortNo, req: Request, env: Env)
    requires !req.Invalid? && s.wtb.Stopped?
    requires s.state.ManualSwitch?
    ensures Refines(F.PostManualSwitch(s, p, req, env), T.ManualSwitchRow(s, p, req, env), env)
  {
    hide F.FsSfMs, T.SwitchTo, F.UnblockAndStop, T.OpenAndMute, T.OpenSoundAndMute;
    hide SchedTx, T.Announce, F.ClearCommon, T.Release;
    match req
    case Clear => ReleaseRefines(s, env);
    case Fs => SwitchRefines(s, p, FS, ForcedSwitch, env);
    case Sf => SwitchRefines(s, p, SF, Protection, env);
    case RapsFs => UnblockAndStopRefines(s, ForcedSwitch, env);
    case RapsSf => UnblockAndStopRefines(s, Protection, env);
    case RapsMs => SchedTxAnnounces(StartGuard(s), NR, 0, env); NoRequestAnnounced(s, env);
    case _ =>
  }

  lemma ForcedSwitchRefines(s: NodeState, p: PortNo, req: Request, env: Env)
    requires !req.Invalid? && s.wtb.Stopped?
    ensures Refines(F.PostForcedSwitch(s, p, req, env), T.ForcedSwitchRow(s, p, req, env), env)
  {
    hide F.ClearCommon, T.Release, F.FsForcedSwitch, T.Announce, T.Close;
    match req
    case Clear => ReleaseRefines(s, env);
    case Fs => SecondSwitchRefines(s, p, env);
    case _ =>
  }

  lemma SecondSwitchRefines(s: NodeState, p: PortNo, env: Env)
    ensures Refines(F.FsForcedSwitch(s, p, env), T.ForcedSwitchRow(s, p, Fs, env), env)
  {
    hide Block, SchedTx, T.Close, T.Rearm;
    var burst := if PduMut(RsSc(FS, 0), 0) != s.pdu then TX_BURST else 0;
    BlockCloses(s, p, env);
    CloseCommutes(s.p0, env.up0, burst);
    CloseCommutes(s.p1, env.up1, burst);
    SchedTxAnnounces(s.WithPort(p, T.Close(s.Port(p))), FS, 0, env);
  }

  lemma NrRbPendingRefines(s: NodeState, p: PortNo, from: NodeId, env: Env)
    requires RoleOk(s)
    ensures Refines(F.RapsNrRbPending(s, env), T.PendingRow(s, p, RapsNrRb, from, env), env)
  {
  }

  lemma PendingRefines(s: NodeState, p: PortNo, req: Request, pdu: Option<Pdu>, from: NodeId, env: Env)
    requires !req.Invalid? && RoleOk(s)
    requires if pdu.Some? then from == pdu.value.nodeId else !req.RapsNr?
    ensures Refines(F.PostPending(s, p, req, pdu, env), T.PendingRow(s, p, req, from, env), env)
  {
    hide F.FsSfMs, T.SwitchTo, F.UnblockAndStop, T.OpenAndMute, T.OpenSoundAndMute;
    hide F.MaybeUnblockAndStop, T.YieldTo, F.RapsNrRbPending, F.BlockRplAndAnnounce, T.RevertToRpl;
    match req
    case Clear => if s.p1.link.rpl { RevertRefines(StopTimersIfOwner(s), env); }
    case Fs => SwitchRefines(s, p, FS, ForcedSwitch, env);
    case Sf => SwitchRefines(s, p, SF, Protection, env);
    case Ms => MsPendingRefines(s, p, env);
    case RapsFs => UnblockAndStopRefines(s, ForcedSwitch, env);
    case RapsSf => UnblockAndStopRefines(s, Protection, env);
    case RapsMs => UnblockAndStopRefines(s, ManualSwitch, env);
    case WtrExpires => if s.cfg.owner { RevertRefines(s.(wtb := Stopped), env); }
    case WtbExpires => if s.cfg.owner { RevertRefines(s.(wtr := Stopped), env); }
    case RapsNrRb => NrRbPendingRefines(s, p, from, env);
    case RapsNr => YieldRefines(s, pdu.value, env);
    case _ =>
  }

  lemma MsPendingRefines(s: NodeState, p: PortNo, env: Env)
    ensures Refines(F.FsSfMs(StopTimersIfOwner(s), p, MS, ManualSwitch, env),
                    T.WithoutTimers(T.SwitchTo(s, p, MS, ManualSwitch, env)), env)
  {
    hide F.FsSfMs, T.Close, T.Open, T.Rearm;
    SwitchRefines(StopTimersIfOwner(s), p, MS, ManualSwitch, env);
  }

  // ----- posting -----

  lemma PriorityRefines(s: NodeState, req: Request)
    ensures ResolvePriority(s, req)
         == if T.Accepts(s, req) then Some(if req.IsLatched() then req else Invalid) else None
  {
  }

  /** Main refinement, whatever foreign calls fail: a post that reports success has changed the node
      exactly as the table says, a post that fails returns the code of a call that failed, and no post
      hits an assertion. */
  lemma PostRefinesTable(s: NodeState, p: PortNo, req: Request, pdu: Option<Pdu>, from: NodeId, env: Env)
    requires RoleOk(s) && TimersOk(s) && !req.Invalid?
    requires if pdu.Some? then from == pdu.value.nodeId else !req.RapsNr?
    ensures Refines(F.Post(s, p, req, pdu, env), T.React(s, p, req, from, env), env)
    ensures env.Succeeds() ==> F.Post(s, p, req, pdu, env) == Done(T.React(s, p, req, from, env))
  {
    hide ResolvePriority, F.PostIdle, F.PostProtection, F.PostManualSwitch, F.PostForcedSwitch, F.PostPending;
    hide T.Accepts, T.IdleRow, T.ProtectionRow, T.ManualSwitchRow, T.ForcedSwitchRow, T.PendingRow;
    PriorityRefines(s, req);
    var s1 := T.Latch(s, p, req);
    match s.state
    case Idle => IdleRefines(s1, p, req, pdu, from, env);
    case Protection => ProtectionRefines(s1, p, req, env);
    case ManualSwitch => ManualSwitchRefines(s1, p, req, env);
    case ForcedSwitch => ForcedSwitchRefines(s1, p, req, env);
    case Pending => PendingRefines(s1, p, req, pdu, from, env);
    case Uninit =>
  }
}
