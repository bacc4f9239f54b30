/** What every step of a node keeps even when any of its foreign calls fails. */
module Robustness {
  import opened Requests
  import opened NodeIds
  import opened Raps
  import opened NodeModel
  import opened Fsm
  import opened Events
  import opened Refinement

  /** The cached flag of a port agrees with the driver. */
  predicate HardwareOk(s: NodeState) {
    s.p0.enabled == !s.p0.blocked && s.p1.enabled == !s.p1.blocked
  }

  /** The PDU to send is one that the state machine can schedule. */
  predicate PduOk(pdu: PduMut) {
    && pdu.rsSc in {RsSc(NR, 0), RsSc(MS, 0), RsSc(SF, 0), RsSc(FS, 0)}
    && pdu.status in {0, DNF, RB, RB | DNF}
    && (pdu.HasRb() ==> pdu.rsSc == RsSc(NR, 0))
  }

  predicate BurstOk(s: NodeState) {
    s.p0.burst <= TX_BURST && s.p1.burst <= TX_BURST
  }

  predicate Sound(s: NodeState) {
    HardwareOk(s) && PduOk(s.pdu) && BurstOk(s)
  }

  /** Configuration is untouched, no timer is started or stopped, and soundness is kept. */
  predicate Framed(s: NodeState, t: NodeState) {
    && t.cfg == s.cfg && t.p0.link == s.p0.link && t.p1.link == s.p1.link
    && t.wtr == s.wtr && t.wtb == s.wtb && t.doubleStarts == s.doubleStarts && t.topreq == s.topreq
    && (Sound(s) ==> Sound(t))
  }

  /** A frame-respecting piece of a handler that leaves the state alone. */
  predicate Quiet(s: NodeState, o: Outcome) {
    Framed(s, o.node) && o.node.state == s.state && !o.Trap?
  }

  /** A handler that ends in the given state when it completes and stays where it was otherwise. */
  predicate Moves(s: NodeState, o: Outcome, next: FsmState) {
    && Framed(s, o.node) && !o.Trap?
    && o.node.state == if o.Done? then next else s.state
  }

  // ----- primitives -----

  lemma BlockQuiet(s: NodeState, p: PortNo, env: Env)
    ensures Quiet(s, Block(s, p, env))
  {
  }

  lemma UnblockQuiet(s: NodeState, p: PortNo, env: Env)
    ensures Quiet(s, Unblock(s, p, env))
  {
  }

  lemma FlushQuiet(s: NodeState, env: Env)
    ensures Quiet(s, Flush(s, env))
  {
  }

  lemma SchedTxQuiet(s: NodeState, reqState: bv8, status: bv8, env: Env)
    requires PduOk(PduMut(RsSc(reqState, 0), status))
    ensures Quiet(s, SchedTx(s, reqState, 0, status, env))
  {
  }

  lemma UnblockAllQuiet(s: NodeState, env: Env)
    ensures Quiet(s, UnblockAll(s, env))
  {
  }

  lemma UnblockNonFailedQuiet(s: NodeState, env: Env)
    ensures Quiet(s, UnblockNonFailed(s, env))
  {
    hide Unblock, Sound;
    UnblockQuiet(s, 0, env);
    UnblockQuiet(UnblockUnlessFailed(s, 0, env).node, 1, env);
  }

  lemma StopTxQuiet(s: NodeState)
    ensures Quiet(s, Done(StopTx(s)))
  {
  }

  /** Soundness is about ports and PDU only. */
  lemma SoundElsewhere(s: NodeState, t: NodeState)
    requires t.p0 == s.p0 && t.p1 == s.p1 && t.pdu == s.pdu
    ensures Sound(s) <==> Sound(t)
  {
  }

  // ----- handlers shared by several states -----

  lemma FsSfMsMoves(s: NodeState, p: PortNo, reqState: bv8, next: FsmState, env: Env)
    requires reqState in {FS, SF, MS}
    ensures Moves(s, FsSfMs(s, p, reqState, next, env), next)
  {
    hide Block, SchedTx, Unblock, Flush, Sound;
    var status := if s.Blocked(p) then DNF else 0;
    BlockQuiet(s, p, env);
    var s1 := if s.Blocked(p) then s else Block(s, p, env).node;
    SchedTxQuiet(s1, reqState, status, env);
    var s2 := SchedTx(s1, reqState, 0, status, env).node;
    UnblockQuiet(s2, Other(p), env);
    var s3 := Unblock(s2, Other(p), env).node;
    FlushQuiet(s3, env);
    SoundElsewhere(s3, s3.(state := next));
    SoundElsewhere(Flush(s3, env).node, Flush(s3, env).node.(state := next));
  }

  lemma UnblockAndStopMoves(s: NodeState, onlyNonFailed: bool, next: FsmState, env: Env)
    ensures Moves(s, UnblockAndStop(s, onlyNonFailed, next, env), next)
  {
    hide UnblockAll, UnblockNonFailed, StopTx, Sound;
    UnblockAllQuiet(s, env);
    UnblockNonFailedQuiet(s, env);
    var s1 := if onlyNonFailed then UnblockNonFailed(s, env).node else UnblockAll(s, env).node;
    StopTxQuiet(s1);
    SoundElsewhere(StopTx(s1), StopTx(s1).(state := next));
  }

  lemma YieldQuiet(s: NodeState, pdu: Pdu, env: Env)
    ensures Quiet(s, MaybeUnblockAndStop(s, Some(pdu), env))
  {
    hide UnblockNonFailed, StopTx, Memcmp, Sound;
    UnblockNonFailedQuiet(s, env);
    StopTxQuiet(UnblockNonFailed(s, env).node);
  }

  lemma RevertMoves(s: NodeState, env: Env)
    requires s.p1.link.rpl
    ensures Moves(s, BlockRplAndAnnounce(s, env), Idle)
  {
    hide Block, SchedTx, Unblock, Flush, Sound;
    var status := if s.p1.blocked then RB | DNF else RB;
    BlockQuiet(s, 1, env);
    var s1 := if s.p1.blocked then s else Block(s, 1, env).node;
    SchedTxQuiet(s1, NR, status, env);
    var s2 := SchedTx(s1, NR, 0, status, env).node;
    UnblockQuiet(s2, 0, env);
    var s3 := Unblock(s2, 0, env).node;
    FlushQuiet(s3, env);
    SoundElsewhere(s3, s3.(state := Idle));
    SoundElsewhere(Flush(s3, env).node, Flush(s3, env).node.(state := Idle));
  }

  // ----- what a whole step keeps -----

  /** The facts about a node that no failure can break. */
  predicate Robust(s: NodeState) {
    Sound(s) && TimersOk(s) && RoleOk(s)
  }

  predicate KeepsRobust(s: NodeState, o: Outcome) {
    && !o.Trap? && Robust(o.node)
    && o.node.cfg == s.cfg && o.node.doubleStarts == s.doubleStarts
    && (s.state.Uninit? <==> o.node.state.Uninit?)
  }

  lemma MovesKeeps(s: NodeState, o: Outcome, next: FsmState)
    requires Robust(s) && Moves(s, o, next) && !s.state.Uninit? && !next.Uninit?
    requires s.wtr.Stopped? && s.wtb.Stopped?
    ensures KeepsRobust(s, o)
  {
  }

  /** R-APS(NR) is scheduled, possibly a timer is started, and the node goes to PENDING. */
  lemma AnnounceKeeps(s: NodeState, env: Env)
    requires Robust(s) && !s.state.Pending? && !s.state.Uninit?
    ensures var o := SchedTx(StartGuard(s), NR, 0, 0, env); Robust(o.node) && Quiet(s, o)
  {
  }

  lemma StartTimerKeeps(s: NodeState, env: Env)
    requires Robust(s) && !s.state.Pending? && !s.state.Uninit?
    requires Reverts(s)
    ensures var o := StartWtr(s, env);
            && !o.Trap? && o.node.cfg == s.cfg && o.node.state == s.state && o.node.doubleStarts == s.doubleStarts
            && (!o.Done? ==> Robust(o.node)) && Robust(o.node.(state := Pending))
    ensures var o := StartWtb(s, env);
            && !o.Trap? && o.node.cfg == s.cfg && o.node.state == s.state && o.node.doubleStarts == s.doubleStarts
            && (!o.Done? ==> Robust(o.node)) && Robust(o.node.(state := Pending))
  {
    hide Sound, ResolvePriority;
    SoundElsewhere(s, StartWtr(s, env).node);
    SoundElsewhere(s, StartWtr(s, env).node.(state := Pending));
    SoundElsewhere(s, StartWtb(s, env).node);
    SoundElsewhere(s, StartWtb(s, env).node.(state := Pending));
  }

  lemma GoPendingKeeps(s: NodeState)
    requires Robust(s)
    ensures Robust(s.(state := Pending))
  {
  }

  lemma ClearCommonKeeps(s: NodeState, env: Env)
    requires Robust(s) && !s.state.Pending? && !s.state.Uninit?
    ensures KeepsRobust(s, ClearCommon(s, env))
  {
    hide SchedTx, StartGuard, Robust, StartWtb;
    AnnounceKeeps(s, env);
    var s1 := SchedTx(StartGuard(s), NR, 0, 0, env).node;
    if Reverts(s) { StartTimerKeeps(s1, env); }
    GoPendingKeeps(s);
    GoPendingKeeps(s1);
  }

  lemma SwitchingKeeps(s: NodeState, p: PortNo, env: Env)
    requires Robust(s) && !s.state.Uninit? && s.wtr.Stopped? && s.wtb.Stopped?
    ensures KeepsRobust(s, FsSfMs(s, p, FS, ForcedSwitch, env))
    ensures KeepsRobust(s, FsSfMs(s, p, SF, Protection, env))
    ensures KeepsRobust(s, FsSfMs(s, p, MS, ManualSwitch, env))
    ensures KeepsRobust(s, UnblockAndStop(s, false, ForcedSwitch, env))
    ensures KeepsRobust(s, UnblockAndStop(s, true, Protection, env))
    ensures KeepsRobust(s, UnblockAndStop(s, true, ManualSwitch, env))
  {
    hide FsSfMs, UnblockAndStop, Moves, Robust;
    FsSfMsMoves(s, p, FS, ForcedSwitch, env);
    FsSfMsMoves(s, p, SF, Protection, env);
    FsSfMsMoves(s, p, MS, ManualSwitch, env);
    UnblockAndStopMoves(s, false, ForcedSwitch, env);
    UnblockAndStopMoves(s, true, Protection, env);
    UnblockAndStopMoves(s, true, ManualSwitch, env);
    MovesKeeps(s, FsSfMs(s, p, FS, ForcedSwitch, env), ForcedSwitch);
    MovesKeeps(s, FsSfMs(s, p, SF, Protection, env), Protection);
    MovesKeeps(s, FsSfMs(s, p, MS, ManualSwitch, env), ManualSwitch);
    MovesKeeps(s, UnblockAndStop(s, false, ForcedSwitch, env), ForcedSwitch);
    MovesKeeps(s, UnblockAndStop(s, true, Protection, env), Protection);
    MovesKeeps(s, UnblockAndStop(s, true, ManualSwitch, env), ManualSwitch);
  }

  // ----- the five states -----

  lemma IdleKeeps(s: NodeState, p: PortNo, req: Request, pdu: Option<Pdu>, env: Env)
    requires Robust(s) && s.state.Idle? && (req.RapsNr? ==> pdu.Some?)
    ensures KeepsRobust(s, PostIdle(s, p, req, pdu, env))
  {
    hide FsSfMs, UnblockAndStop, MaybeUnblockAndStop, Unblock, StopTx, Sound;
    SwitchingKeeps(s, p, env);
    match req
    case RapsNrRb =>
      UnblockQuiet(s, 0, env);
      StopTxQuiet(s);
      StopTxQuiet(Unblock(s, 0, env).node);
    case RapsNr => YieldQuiet(s, pdu.value, env);
    case _ =>
  }

  lemma ProtectionKeeps(s: NodeState, p: PortNo, req: Request, env: Env)
    requires Robust(s) && s.state.Protection?
    ensures KeepsRobust(s, PostProtection(s, p, req, env))
  {
    hide FsSfMs, UnblockAndStop, SchedTx, StartGuard, Robust, StartWtr;
    assert s.wtr.Stopped? && s.wtb.Stopped? by { TimersStopped(s); }
    SwitchingKeeps(s, p, env);
    AnnounceKeeps(s, env);
    var s1 := SchedTx(StartGuard(s), NR, 0, 0, env).node;
    if Reverts(s) {
      StartTimerKeeps(s, env);
      StartTimerKeeps(s1, env);
    }
    GoPendingKeeps(s);
    GoPendingKeeps(s1);
  }

  lemma TimersStopped(s: NodeState)
    requires Robust(s) && !s.state.Pending?
    ensures s.wtr.Stopped? && s.wtb.Stopped?
  {
  }

  lemma ManualSwitchKeeps(s: NodeState, p: PortNo, req: Request, env: Env)
    requires Robust(s) && s.state.ManualSwitch?
    ensures KeepsRobust(s, PostManualSwitch(s, p, req, env))
  {
    hide FsSfMs, UnblockAndStop, SchedTx, StartGuard, Robust, StartWtb, ClearCommon;
    TimersStopped(s);
    SwitchingKeeps(s, p, env);
    AnnounceKeeps(s, env);
    ClearCommonKeeps(s, env);
    var s1 := SchedTx(StartGuard(s), NR, 0, 0, env).node;
    if Reverts(s) {
      StartTimerKeeps(s, env);
      StartTimerKeeps(s1, env);
    }
    GoPendingKeeps(s);
  }

  lemma ForcedSwitchKeeps(s: NodeState, p: PortNo, req: Request, env: Env)
    requires Robust(s) && s.state.ForcedSwitch?
    ensures KeepsRobust(s, PostForcedSwitch(s, p, req, env))
  {
    hide Robust, StartWtb, ClearCommon, FsForcedSwitch;
    ClearCommonKeeps(s, env);
    SecondSwitchKeeps(s, p, env);
    if Reverts(s) { StartTimerKeeps(s, env); }
    GoPendingKeeps(s);
  }

  lemma SecondSwitchKeeps(s: NodeState, p: PortNo, env: Env)
    requires Robust(s)
    ensures KeepsRobust(s, FsForcedSwitch(s, p, env))
  {
    hide Block, SchedTx, Flush, Sound;
    BlockQuiet(s, p, env);
    var s1 := Block(s, p, env).node;
    SchedTxQuiet(s1, FS, 0, env);
    FlushQuiet(SchedTx(s1, FS, 0, 0, env).node, env);
  }

  /** In PENDING a handler may complete with the timers still running, but then stops them. */
  lemma ThenStopKeeps(s: NodeState, o: Outcome, next: FsmState)
    requires Robust(s) && s.state.Pending? && Moves(s, o, next) && !next.Uninit?
    ensures KeepsRobust(s, ThenStopTimers(o))
  {
  }

  lemma RevertKeeps(s: NodeState, t: NodeState, env: Env)
    requires Robust(s) && s.state.Pending? && s.p1.link.rpl
    requires t in {s.(wtr := Stopped), s.(wtb := Stopped), StopTimersIfOwner(s)}
    requires t.wtr.Stopped? && t.wtb.Stopped?
    ensures KeepsRobust(s, BlockRplAndAnnounce(t, env))
  {
    hide BlockRplAndAnnounce, Sound;
    SoundElsewhere(s, t);
    RevertMoves(t, env);
    MovesKeeps(t, BlockRplAndAnnounce(t, env), Idle);
  }

  lemma NrRbPendingKeeps(s: NodeState, env: Env)
    requires Robust(s) && s.state.Pending?
    ensures KeepsRobust(s, RapsNrRbPending(s, env))
  {
    hide Block, Unblock, UnblockAll, StopTx, Sound;
    if s.cfg.owner {
      SoundElsewhere(s, StopTimersIfOwner(s).(state := Idle));
    } else if s.cfg.nbr {
      BlockQuiet(s, 1, env);
      var s1 := Block(s, 1, env).node;
      UnblockQuiet(s1, 0, env);
      var s2 := Unblock(s1, 0, env).node;
      StopTxQuiet(s2);
      SoundElsewhere(StopTx(s2), StopTx(s2).(state := Idle));
    } else {
      UnblockAllQuiet(s, env);
      var s1 := UnblockAll(s, env).node;
      StopTxQuiet(s1);
      SoundElsewhere(StopTx(s1), StopTx(s1).(state := Idle));
    }
  }

  lemma MsPendingKeeps(s: NodeState, p: PortNo, env: Env)
    requires Robust(s) && s.state.Pending?
    ensures KeepsRobust(s, FsSfMs(StopTimersIfOwner(s), p, MS, ManualSwitch, env))
  {
    hide FsSfMs, Sound;
    var s1 := StopTimersIfOwner(s);
    SoundElsewhere(s, s1);
    FsSfMsMoves(s1, p, MS, ManualSwitch, env);
    MovesKeeps(s1, FsSfMs(s1, p, MS, ManualSwitch, env), ManualSwitch);
  }

  lemma PendingKeeps(s: NodeState, p: PortNo, req: Request, pdu: Option<Pdu>, env: Env)
    requires Robust(s) && s.state.Pending? && (req.RapsNr? ==> pdu.Some?)
    requires req.WtrExpires? ==> s.wtr.Stopped?
    requires req.WtbExpires? ==> s.wtb.Stopped?
    ensures KeepsRobust(s, PostPending(s, p, req, pdu, env))
  {
    hide FsSfMs, UnblockAndStop, MaybeUnblockAndStop, RapsNrRbPending, BlockRplAndAnnounce;
    hide ThenStopTimers, Sound, Moves;
    match req
    case Clear =>
      SoundElsewhere(s, StopTimersIfOwner(s));
      if s.p1.link.rpl { RevertKeeps(s, StopTimersIfOwner(s), env); }
      SoundElsewhere(s, StopTimersIfOwner(s).(state := Idle));
    case Fs =>
      FsSfMsMoves(s, p, FS, ForcedSwitch, env);
      ThenStopKeeps(s, FsSfMs(s, p, FS, ForcedSwitch, env), ForcedSwitch);
    case Sf =>
      FsSfMsMoves(s, p, SF, Protection, env);
      ThenStopKeeps(s, FsSfMs(s, p, SF, Protection, env), Protection);
    case Ms => MsPendingKeeps(s, p, env);
    case RapsFs =>
      UnblockAndStopMoves(s, false, ForcedSwitch, env);
      ThenStopKeeps(s, UnblockAndStop(s, false, ForcedSwitch, env), ForcedSwitch);
    case RapsSf =>
      UnblockAndStopMoves(s, true, Protection, env);
      ThenStopKeeps(s, UnblockAndStop(s, true, Protection, env), Protection);
    case RapsMs =>
      UnblockAndStopMoves(s, true, ManualSwitch, env);
      ThenStopKeeps(s, UnblockAndStop(s, true, ManualSwitch, env), ManualSwitch);
    case WtrExpires => if s.cfg.owner { RevertKeeps(s, s.(wtb := Stopped), env); }
    case WtbExpires => if s.cfg.owner { RevertKeeps(s, s.(wtr := Stopped), env); }
    case RapsNrRb => NrRbPendingKeeps(s, env);
    case RapsNr => YieldQuiet(s, pdu.value, env);
    case _ =>
  }

  // ----- posting and stepping -----

  lemma SoundDespiteFailure(s: NodeState, p: PortNo)
    ensures Sound(s.WithPort(p, s.Port(p).(failed := true))) == Sound(s)
  {
    hide PduOk;
  }

  lemma MarkKeeps(s: NodeState, p: PortNo, req: Request, top: Request)
    requires Robust(s)
    ensures var t := MarkFailed(s.(topreq := top), p, req);
            && Robust(t) && t.cfg == s.cfg && t.state == s.state && t.wtr == s.wtr && t.wtb == s.wtb
            && t.doubleStarts == s.doubleStarts
  {
    hide Sound;
    var s1 := s.(topreq := top);
    SoundElsewhere(s, s1);
    SoundDespiteFailure(s1, p);
  }

  lemma PostKeeps(s: NodeState, p: PortNo, req: Request, pdu: Option<Pdu>, env: Env)
    requires Robust(s) && (req.RapsNr? ==> pdu.Some?)
    requires (req.WtrExpires? ==> s.wtr.Stopped?) && (req.WtbExpires? ==> s.wtb.Stopped?)
    ensures KeepsRobust(s, Post(s, p, req, pdu, env))
  {
    hide Robust, MarkFailed, ResolvePriority;
    hide PostIdle, PostProtection, PostManualSwitch, PostForcedSwitch, PostPending;
    var top := ResolvePriority(s, req);
    if top.Some? {
      MarkKeeps(s, p, req, top.value);
      var s1 := MarkFailed(s.(topreq := top.value), p, req);
      match s.state
      case Idle => IdleKeeps(s1, p, req, pdu, env);
      case Protection => ProtectionKeeps(s1, p, req, env);
      case ManualSwitch => ManualSwitchKeeps(s1, p, req, env);
      case ForcedSwitch => ForcedSwitchKeeps(s1, p, req, env);
      case Pending => PendingKeeps(s1, p, req, pdu, env);
      case Uninit =>
    }
  }

  lemma LockAndPostKeeps(s: NodeState, p: PortNo, req: Request, pdu: Option<Pdu>, env: Env)
    requires Robust(s) && (req.RapsNr? ==> pdu.Some?)
    requires (req.WtrExpires? ==> s.wtr.Stopped?) && (req.WtbExpires? ==> s.wtb.Stopped?)
    ensures KeepsRobust(s, LockAndPost(s, p, req, pdu, env))
  {
    hide Post, Robust;
    PostKeeps(s, p, req, pdu, env);
  }

  lemma TxKeeps(s: NodeState, p: PortNo, env: Env)
    requires Robust(s)
    ensures KeepsRobust(s, Done(TxHandler(s, p, env))) && KeepsRobust(s, Done(RearmTx(s, p, env)))
  {
  }

  lemma StopOneKeeps(s: NodeState)
    requires Robust(s)
    ensures Robust(s.(wtr := Stopped)) && Robust(s.(wtb := Stopped)) && Robust(s.(guard := Stopped))
  {
  }

  lemma FlushKeeps(s: NodeState, env: Env)
    requires Robust(s)
    ensures KeepsRobust(s, Flush(s, env))
  {
  }

  /** Any event, with any foreign calls failing, keeps the node robust and hits no assertion. */
  lemma StepKeepsRobust(s: NodeState, ev: Event, env: Env)
    requires Robust(s)
    ensures KeepsRobust(s, Step(s, ev, env))
  {
    hide Robust, LockAndPost, TxHandler, RearmTx, Heard, Decode, IsOwnFrame, Flush;
    match ev
    case Local(p, cmd) => LockAndPostKeeps(s, p, cmd.Request(), None, env);
    case LinkDownExpires(p) => LockAndPostKeeps(s, p, Sf, None, env);
    case WtrFires =>
      StopOneKeeps(s);
      LockAndPostKeeps(s.(wtr := Stopped), 0, WtrExpires, None, env);
    case WtbFires =>
      StopOneKeeps(s);
      LockAndPostKeeps(s.(wtb := Stopped), 0, WtbExpires, None, env);
    case GuardExpires => StopOneKeeps(s);
    case TxFires(p) => TxKeeps(s, p, env);
    case IfaceUp(p) => TxKeeps(s, p, env);
    case Receive(p, pdu) =>
      HeardIsRemote(s, pdu, env);
      FlushKeeps(s, env);
      if Heard(s, pdu, env).Some? {
        LockAndPostKeeps(s, p, Heard(s, pdu, env).value, Some(pdu), env);
      }
  }

  lemma HeardIsRemote(s: NodeState, pdu: Pdu, env: Env)
    ensures Heard(s, pdu, env).Some? ==>
              Heard(s, pdu, env).value in {RapsFs, RapsSf, RapsMs, RapsNrRb, RapsNr}
  {
  }
}
