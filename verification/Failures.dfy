/** What a node is left with when foreign calls fail in the middle of a handler. */
module Failures {
  import opened Requests
  import opened Raps
  import opened NodeModel
  import opened Fsm
  import opened Events
  import opened Robustness

  // ----- one port -----

  /** What blocking or unblocking a port returns when it reaches the driver. */
  function Code(io: PortIo): int {
    match io
    case IoOk => 0
    case SetFails(err) => err
    case NoIface => -19
    case NoVlan => -19
  }

  /** Blocking, by its outcome: nothing changes but the flag and the driver state of the port, which
      change together; a port whose VLAN interface is missing is reported although it is blocked. */
  lemma BlockEnds(s: NodeState, p: PortNo, env: Env)
    ensures var o := Block(s, p, env);
            && o.node == s.WithPort(p, s.Port(p).(blocked := o.node.Blocked(p), enabled := o.node.Port(p).enabled))
            && (s.Blocked(p) ==> o == Done(s))
            && (!s.Blocked(p) ==>
                  && (o.node.Blocked(p) ==> !o.node.Port(p).enabled)
                  && (o.node.Blocked(p) <==> env.Io(p).IoOk? || env.Io(p).NoVlan?)
                  && (o.Done? <==> env.Io(p).IoOk?)
                  && o.Ret() == Code(env.Io(p)) && !o.Trap?)
  {
  }

  /** Unblocking likewise, except that the port is no longer marked as failed, whatever happens. */
  lemma UnblockEnds(s: NodeState, p: PortNo, env: Env)
    ensures var o := Unblock(s, p, env);
            && o.node == s.WithPort(p, s.Port(p).(failed := false, blocked := o.node.Blocked(p),
                                                  enabled := o.node.Port(p).enabled))
            && (!s.Blocked(p) ==> o.Done? && !o.node.Blocked(p) && o.node.Port(p).enabled == s.Port(p).enabled)
            && (s.Blocked(p) ==>
                  && (!o.node.Blocked(p) ==> o.node.Port(p).enabled)
                  && (!o.node.Blocked(p) <==> env.Io(p).IoOk? || env.Io(p).NoVlan?)
                  && (o.Done? <==> env.Io(p).IoOk?)
                  && o.Ret() == Code(env.Io(p)) && !o.Trap?)
  {
  }

  // ----- the last blocked port -----

  /** What is blocked is as it was. */
  predicate SameBlocked(s: NodeState, t: NodeState) {
    t.p0.blocked == s.p0.blocked && t.p1.blocked == s.p1.blocked
  }

  lemma CallsKeepBlocked(s: NodeState, reqState: bv8, status: bv8, env: Env)
    ensures SameBlocked(s, SchedTx(s, reqState, 0, status, env).node)
    ensures SameBlocked(s, Flush(s, env).node)
    ensures SameBlocked(s, StartWtr(s, env).node) && SameBlocked(s, StartWtb(s, env).node)
  {
  }

  /** The port that is to stay blocked is blocked before the other one is opened. */
  lemma FsSfMsKeepsOneBlocked(s: NodeState, p: PortNo, reqState: bv8, next: FsmState, env: Env)
    requires s.AnyBlocked()
    ensures FsSfMs(s, p, reqState, next, env).node.AnyBlocked()
  {
    hide Block, Unblock, SchedTx, Flush;
    var status := if s.Blocked(p) then DNF else 0;
    BlockEnds(s, p, env);
    var s1 := Block(s, p, env).node;
    CallsKeepBlocked(s1, reqState, status, env);
    var s2 := SchedTx(s1, reqState, 0, status, env).node;
    UnblockEnds(s2, Other(p), env);
    CallsKeepBlocked(Unblock(s2, Other(p), env).node, reqState, status, env);
  }

  lemma RevertKeepsOneBlocked(s: NodeState, env: Env)
    requires s.AnyBlocked()
    ensures BlockRplAndAnnounce(s, env).node.AnyBlocked()
  {
    hide Block, Unblock, SchedTx, Flush;
    var status := if s.p1.blocked then RB | DNF else RB;
    BlockEnds(s, 1, env);
    var s1 := Block(s, 1, env).node;
    CallsKeepBlocked(s1, NR, status, env);
    var s2 := SchedTx(s1, NR, 0, status, env).node;
    UnblockEnds(s2, 0, env);
    CallsKeepBlocked(Unblock(s2, 0, env).node, NR, status, env);
  }

  lemma OthersKeepBlocked(s: NodeState, p: PortNo, env: Env)
    requires s.AnyBlocked()
    ensures SameBlocked(s, ClearCommon(s, env).node) && SameBlocked(s, ClearSfProtection(s, env).node)
    ensures FsForcedSwitch(s, p, env).node.AnyBlocked()
  {
    hide Block, SchedTx, Flush, StartWtr, StartWtb;
    CallsKeepBlocked(StartGuard(s), NR, 0, env);
    CallsKeepBlocked(SchedTx(StartGuard(s), NR, 0, 0, env).node, NR, 0, env);
    BlockEnds(s, p, env);
    CallsKeepBlocked(Block(s, p, env).node, FS, 0, env);
    CallsKeepBlocked(SchedTx(Block(s, p, env).node, FS, 0, 0, env).node, FS, 0, env);
  }

  predicate IsRemote(req: Request) { req in {RapsFs, RapsSf, RapsMs, RapsNrRb, RapsNr} }

  lemma PendingKeepsOneBlocked(s: NodeState, p: PortNo, req: Request, pdu: Option<Pdu>, env: Env)
    requires s.AnyBlocked() && !IsRemote(req)
    ensures PostPending(s, p, req, pdu, env).node.AnyBlocked()
  {
    hide FsSfMs, BlockRplAndAnnounce;
    FsSfMsKeepsOneBlocked(s, p, FS, ForcedSwitch, env);
    FsSfMsKeepsOneBlocked(s, p, SF, Protection, env);
    FsSfMsKeepsOneBlocked(StopTimersIfOwner(s), p, MS, ManualSwitch, env);
    RevertKeepsOneBlocked(StopTimersIfOwner(s), env);
    RevertKeepsOneBlocked(s.(wtr := Stopped), env);
    RevertKeepsOneBlocked(s.(wtb := Stopped), env);
  }

  /** Whatever fails, no request of the node itself opens its last blocked port. */
  lemma PostKeepsLastBlocked(s: NodeState, p: PortNo, req: Request, pdu: Option<Pdu>, env: Env)
    requires s.AnyBlocked() && !IsRemote(req)
    ensures Post(s, p, req, pdu, env).node.AnyBlocked()
  {
    hide FsSfMs, ClearCommon, ClearSfProtection, FsForcedSwitch, PostPending, ResolvePriority;
    var top := ResolvePriority(s, req);
    if top.Some? {
      var s1 := MarkFailed(s.(topreq := top.value), p, req);
      FsSfMsKeepsOneBlocked(s1, p, FS, ForcedSwitch, env);
      FsSfMsKeepsOneBlocked(s1, p, SF, Protection, env);
      FsSfMsKeepsOneBlocked(s1, p, MS, ManualSwitch, env);
      OthersKeepBlocked(s1, p, env);
      PendingKeepsOneBlocked(s1, p, req, pdu, env);
    }
  }

  // ----- state, latch and timers after a failure -----

  /** A request that failed halfway has not changed the state. What it latched stays latched, except
      that a timer start latches the timer. In PENDING the owner has lost its timers if the request
      was CLEAR, MS or an expiry, and in no other case. */
  predicate FailsCleanly(s: NodeState, req: Request, o: Outcome) {
    o.Failed? ==>
      && o.node.state == s.state && o.node.cfg == s.cfg
      && (o.node.topreq == s.topreq || (Reverts(s) && o.node.topreq.IsRunning()))
      && (if s.state.Pending? && s.cfg.owner && req in {Clear, Ms, WtrExpires, WtbExpires}
          then o.node.wtr.Stopped? && o.node.wtb.Stopped?
          else o.node.wtr == s.wtr && o.node.wtb == s.wtb)
  }

  lemma SwitchingFailsCleanly(s: NodeState, p: PortNo, pdu: Option<Pdu>, env: Env)
    ensures forall req: Request :: !s.state.Pending? || !s.cfg.owner || req !in {Clear, Ms, WtrExpires, WtbExpires} ==>
              && FailsCleanly(s, req, FsSfMs(s, p, FS, ForcedSwitch, env))
              && FailsCleanly(s, req, FsSfMs(s, p, SF, Protection, env))
              && FailsCleanly(s, req, FsSfMs(s, p, MS, ManualSwitch, env))
              && FailsCleanly(s, req, UnblockAndStop(s, false, ForcedSwitch, env))
              && FailsCleanly(s, req, UnblockAndStop(s, true, Protection, env))
              && FailsCleanly(s, req, UnblockAndStop(s, true, ManualSwitch, env))
              && (pdu.Some? ==> FailsCleanly(s, req, MaybeUnblockAndStop(s, pdu, env)))
  {
    hide FsSfMs, UnblockAndStop, MaybeUnblockAndStop, Sound;
    FsSfMsMoves(s, p, FS, ForcedSwitch, env);
    FsSfMsMoves(s, p, SF, Protection, env);
    FsSfMsMoves(s, p, MS, ManualSwitch, env);
    UnblockAndStopMoves(s, false, ForcedSwitch, env);
    UnblockAndStopMoves(s, true, Protection, env);
    UnblockAndStopMoves(s, true, ManualSwitch, env);
    if pdu.Some? { YieldQuiet(s, pdu.value, env); }
  }

  lemma IdleFailsCleanly(s: NodeState, p: PortNo, req: Request, pdu: Option<Pdu>, env: Env)
    requires s.state.Idle? && (req.RapsNr? ==> pdu.Some?)
    ensures FailsCleanly(s, req, PostIdle(s, p, req, pdu, env))
  {
    hide FsSfMs, UnblockAndStop, MaybeUnblockAndStop, Unblock, Sound;
    SwitchingFailsCleanly(s, p, pdu, env);
    UnblockQuiet(s, 0, env);
  }

  lemma ProtectionFailsCleanly(s: NodeState, p: PortNo, req: Request, env: Env)
    requires s.state.Protection?
    ensures FailsCleanly(s, req, PostProtection(s, p, req, env))
  {
    hide FsSfMs, UnblockAndStop, SchedTx, Sound;
    SwitchingFailsCleanly(s, p, None, env);
    SchedTxQuiet(StartGuard(s), NR, 0, env);
  }

  lemma ManualSwitchFailsCleanly(s: NodeState, p: PortNo, req: Request, env: Env)
    requires s.state.ManualSwitch?
    ensures FailsCleanly(s, req, PostManualSwitch(s, p, req, env))
  {
    hide FsSfMs, UnblockAndStop, SchedTx, Sound;
    SwitchingFailsCleanly(s, p, None, env);
    SchedTxQuiet(StartGuard(s), NR, 0, env);
  }

  lemma ForcedSwitchFailsCleanly(s: NodeState, p: PortNo, req: Request, env: Env)
    requires s.state.ForcedSwitch?
    ensures FailsCleanly(s, req, PostForcedSwitch(s, p, req, env))
  {
    hide SchedTx, Block, Flush, Sound;
    BlockQuiet(s, p, env);
    var s1 := Block(s, p, env).node;
    SchedTxQuiet(s1, FS, 0, env);
    FlushQuiet(SchedTx(s1, FS, 0, 0, env).node, env);
    SchedTxQuiet(StartGuard(s), NR, 0, env);
  }

  lemma PendingRevertFailsCleanly(s: NodeState, p: PortNo, req: Request, pdu: Option<Pdu>, env: Env)
    requires Robust(s) && s.state.Pending? && req in {Clear, Ms, WtrExpires, WtbExpires}
    requires (req.WtrExpires? ==> s.wtr.Stopped?) && (req.WtbExpires? ==> s.wtb.Stopped?)
    ensures FailsCleanly(s, req, PostPending(s, p, req, pdu, env))
  {
    hide FsSfMs, BlockRplAndAnnounce, Sound;
    FsSfMsMoves(StopTimersIfOwner(s), p, MS, ManualSwitch, env);
    if s.p1.link.rpl {
      RevertMoves(StopTimersIfOwner(s), env);
      RevertMoves(s.(wtr := Stopped), env);
      RevertMoves(s.(wtb := Stopped), env);
    }
  }

  lemma NrRbFailsCleanly(s: NodeState, env: Env)
    requires s.state.Pending?
    ensures FailsCleanly(s, RapsNrRb, RapsNrRbPending(s, env))
  {
    hide Block, Unblock, UnblockAll, Sound;
    BlockQuiet(s, 1, env);
    UnblockQuiet(Block(s, 1, env).node, 0, env);
    UnblockAllQuiet(s, env);
  }

  lemma PendingFailsCleanly(s: NodeState, p: PortNo, req: Request, pdu: Option<Pdu>, env: Env)
    requires Robust(s) && s.state.Pending? && (req.RapsNr? ==> pdu.Some?)
    requires (req.WtrExpires? ==> s.wtr.Stopped?) && (req.WtbExpires? ==> s.wtb.Stopped?)
    ensures FailsCleanly(s, req, PostPending(s, p, req, pdu, env))
  {
    if req in {Clear, Ms, WtrExpires, WtbExpires} {
      PendingRevertFailsCleanly(s, p, req, pdu, env);
    } else {
      hide FsSfMs, UnblockAndStop, MaybeUnblockAndStop, RapsNrRbPending, BlockRplAndAnnounce, Robust;
      SwitchingFailsCleanly(s, p, pdu, env);
      NrRbFailsCleanly(s, env);
    }
  }

  /** What a failed post leaves, by request: see FailsCleanly. */
  lemma PostFailsCleanly(s: NodeState, p: PortNo, req: Request, pdu: Option<Pdu>, env: Env)
    requires Robust(s) && !s.state.Uninit? && (req.RapsNr? ==> pdu.Some?)
    requires (req.WtrExpires? ==> s.wtr.Stopped?) && (req.WtbExpires? ==> s.wtb.Stopped?)
    ensures ResolvePriority(s, req).Some? ==>
              FailsCleanly(s.(topreq := ResolvePriority(s, req).value), req, Post(s, p, req, pdu, env))
    ensures ResolvePriority(s, req).None? ==> Post(s, p, req, pdu, env) == Done(s)
  {
    hide Robust, ResolvePriority, MarkFailed;
    hide PostIdle, PostProtection, PostManualSwitch, PostForcedSwitch, PostPending;
    var top := ResolvePriority(s, req);
    if top.Some? {
      MarkKeeps(s, p, req, top.value);
      MarkKeepsLatch(s.(topreq := top.value), p, req);
      var s1 := MarkFailed(s.(topreq := top.value), p, req);
      match s.state
      case Idle => IdleFailsCleanly(s1, p, req, pdu, env);
      case Protection => ProtectionFailsCleanly(s1, p, req, env);
      case ManualSwitch => ManualSwitchFailsCleanly(s1, p, req, env);
      case ForcedSwitch => ForcedSwitchFailsCleanly(s1, p, req, env);
      case Pending => PendingFailsCleanly(s1, p, req, pdu, env);
    }
  }

  lemma MarkKeepsLatch(s: NodeState, p: PortNo, req: Request)
    ensures MarkFailed(s, p, req).topreq == s.topreq
  {
  }

  // ----- whole events -----

  /** When the lock is not obtained, or an interface is not found to begin with, nothing is posted. */
  lemma NothingIsPosted(s: NodeState, p: PortNo, cmd: Command, env: Env)
    ensures env.lock < 0 ==>
              && Step(s, Local(p, cmd), env) == Failed(s, env.lock)
              && Step(s, WtrFires, env) == Failed(s.(wtr := Stopped), env.lock)
              && Step(s, WtbFires, env) == Failed(s.(wtb := Stopped), env.lock)
    ensures env.lookup < 0 ==> Step(s, LinkDownExpires(p), env) == Done(s)
    ensures env.lookup == 0 && env.lock < 0 ==> Step(s, LinkDownExpires(p), env) == Failed(s, env.lock)
  {
    hide Post, Heard;
  }

  /** Exact: a revertive owner that waits in PENDING is still waiting after an event that failed if and
      only if the event is not CLEAR, MS or the expiry of its timer. */
  lemma FailedEventKeepsWaiting(s: NodeState, ev: Event, env: Env)
    requires Robust(s) && Reverts(s) && s.state.Pending? && (s.wtr.Running? || s.wtb.Running?)
    requires Enabled(s, ev) && Step(s, ev, env).Failed?
    ensures var t := Step(s, ev, env).node;
            && t.state.Pending?
            && (t.wtr.Running? || t.wtb.Running? <==>
                  !(ev.WtrFires? || ev.WtbFires?
                    || (ev.Local? && ev.cmd in {AdmClear, AdmManualSwitch} && env.lock == 0)))
  {
    hide Robust, Post, ResolvePriority, Heard, Decode, IsOwnFrame;
    StopOneKeeps(s);
    match ev
    case Local(p, cmd) => PostFailsCleanly(s, p, cmd.Request(), None, env); OneTimer(s);
    case LinkDownExpires(p) => PostFailsCleanly(s, p, Sf, None, env);
    case WtrFires => PostFailsCleanly(s.(wtr := Stopped), 0, WtrExpires, None, env); OneTimer(s);
    case WtbFires => PostFailsCleanly(s.(wtb := Stopped), 0, WtbExpires, None, env); OneTimer(s);
    case Receive(p, pdu) =>
      HeardIsRemote(s, pdu, env);
      if Heard(s, pdu, env).Some? { PostFailsCleanly(s, p, Heard(s, pdu, env).value, Some(pdu), env); }
    case _ =>
  }

  lemma OneTimer(s: NodeState)
    requires Robust(s)
    ensures !(s.wtr.Running? && s.wtb.Running?)
  {
  }
}
