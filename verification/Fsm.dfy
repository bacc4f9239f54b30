/** The node state machine as a function: what posting one request to a node does.
    The class in Node.dfy does the same in place and is proved against these functions. */
module Fsm {
  import opened Requests
  import opened NodeIds
  import opened Raps
  import opened NodeModel

  // ----- timers -----

  /** The nested post made while a timer is started: it only touches the latched request. */
  function NotePosted(s: NodeState, req: Request): NodeState
    requires req.IsRunning()
  {
    match ResolvePriority(s, req)
    case None => s
    case Some(top) => s.(topreq := top)
  }

  function StartWtr(s: NodeState, env: Env): Outcome {
    if s.wtr.Running? then Done(s.(doubleStarts := s.doubleStarts + 1))
    else
      var s1 := NotePosted(s, WtrRunning);
      if env.timer < 0 then Failed(s1, env.timer)
      else Done(s1.(wtr := Running(s.cfg.wtrMinutes * 60000)))
  }

  function StartWtb(s: NodeState, env: Env): Outcome {
    if s.wtb.Running? then Done(s.(doubleStarts := s.doubleStarts + 1))
    else
      var s1 := NotePosted(s, WtbRunning);
      if env.timer < 0 then Failed(s1, env.timer)
      else Done(s1.(wtb := Running(s.cfg.guardMs + 5000)))
  }

  // ----- handlers shared by several states -----

  /** FS, SF and MS outside FORCED_SWITCH: block the port, announce it, open the other one. */
  function FsSfMs(s: NodeState, p: PortNo, reqState: bv8, next: FsmState, env: Env): Outcome {
    var already := s.Blocked(p);
    var s1 :- if already then Done(s) else Block(s, p, env);
    var s2 :- SchedTx(s1, reqState, 0, if already then DNF else 0, env);
    var s3 :- Unblock(s2, Other(p), env);
    var s4 :- if already then Done(s3) else Flush(s3, env);
    Done(s4.(state := next))
  }

  function UnblockAndStop(s: NodeState, onlyNonFailed: bool, next: FsmState, env: Env): Outcome {
    var s1 :- if onlyNonFailed then UnblockNonFailed(s, env) else UnblockAll(s, env);
    Done(StopTx(s1).(state := next))
  }

  /** R-APS(NR): yield to a node with a higher identifier. */
  function MaybeUnblockAndStop(s: NodeState, pdu: Option<Pdu>, env: Env): Outcome {
    if pdu.None? then Trap(s)
    else if env.idErr < 0 then Failed(s, env.idErr)
    else if Memcmp(pdu.value.nodeId, s.cfg.id) <= 0 then Done(s)
    else
      var s1 :- UnblockNonFailed(s, env);
      Done(StopTx(s1))
  }

  function ClearCommon(s: NodeState, env: Env): Outcome {
    var s1 :- if !s.AnyBlocked() then Done(s)
              else
                var s1 :- SchedTx(StartGuard(s), NR, 0, 0, env);
                if Reverts(s) then StartWtb(s1, env) else Done(s1);
    Done(s1.(state := Pending))
  }

  /** The RPL is (re)blocked, R-APS(NR,RB) is sent and the other port is opened. */
  function BlockRplAndAnnounce(s: NodeState, env: Env): Outcome {
    if !s.p1.link.rpl then Trap(s)
    else
      var already := s.p1.blocked;
      var s1 :- if already then Done(s) else Block(s, 1, env);
      var s2 :- SchedTx(s1, NR, 0, if already then RB | DNF else RB, env);
      var s3 :- Unblock(s2, 0, env);
      var s4 :- if already then Done(s3) else Flush(s3, env);
      Done(s4.(state := Idle))
  }

  // ----- state A, IDLE -----

  function RapsNrRbIdle(s: NodeState, env: Env): Outcome {
    var s1 :- if s.p1.link.rpl then Unblock(s, 0, env) else Done(s);
    Done(if s.cfg.owner then s1 else StopTx(s1))
  }

  function RapsNrIdle(s: NodeState, pdu: Option<Pdu>, env: Env): Outcome {
    if s.cfg.owner || s.cfg.nbr then Done(s) else MaybeUnblockAndStop(s, pdu, env)
  }

  function PostIdle(s: NodeState, p: PortNo, req: Request, pdu: Option<Pdu>, env: Env): Outcome {
    match req
    case Clear | ClearSf | WtrExpires | WtrRunning | WtbExpires | WtbRunning => Done(s)
    case Fs => FsSfMs(s, p, FS, ForcedSwitch, env)
    case RapsFs => UnblockAndStop(s, false, ForcedSwitch, env)
    case Sf => FsSfMs(s, p, SF, Protection, env)
    case RapsSf => UnblockAndStop(s, true, Protection, env)
    case RapsMs => UnblockAndStop(s, true, ManualSwitch, env)
    case Ms => FsSfMs(s, p, MS, ManualSwitch, env)
    case RapsNrRb => RapsNrRbIdle(s, env)
    case RapsNr => RapsNrIdle(s, pdu, env)
    case Invalid => Failed(s, -EINVAL)
  }

  // ----- state B, PROTECTION -----

  function ClearSfProtection(s: NodeState, env: Env): Outcome {
    var s1 :- SchedTx(StartGuard(s), NR, 0, 0, env);
    var s2 :- if Reverts(s) then StartWtr(s1, env) else Done(s1);
    Done(s2.(state := Pending))
  }

  function RapsNrProtection(s: NodeState, rb: bool, env: Env): Outcome {
    var s1 :- if !rb && Reverts(s) then StartWtr(s, env) else Done(s);
    Done(s1.(state := Pending))
  }

  function PostProtection(s: NodeState, p: PortNo, req: Request, env: Env): Outcome {
    match req
    case Clear | RapsSf | RapsMs | Ms | WtrExpires | WtrRunning | WtbExpires | WtbRunning => Done(s)
    case Fs => FsSfMs(s, p, FS, ForcedSwitch, env)
    case RapsFs => UnblockAndStop(s, false, ForcedSwitch, env)
    case Sf => FsSfMs(s, p, SF, Protection, env)
    case ClearSf => ClearSfProtection(s, env)
    case RapsNrRb => RapsNrProtection(s, true, env)
    case RapsNr => RapsNrProtection(s, false, env)
    case Invalid => Failed(s, -EINVAL)
  }

  // ----- state C, MANUAL_SWITCH -----

  /** R-APS(MS) cancels a manual switch of this node; only a revertive owner leaves the state. */
  function RapsMsManualSwitch(s: NodeState, env: Env): Outcome {
    if !s.AnyBlocked() then Done(s)
    else
      var s1 :- SchedTx(StartGuard(s), NR, 0, 0, env);
      if Reverts(s) then
        var s2 :- StartWtb(s1, env);
        Done(s2.(state := Pending))
      else Done(s1)
  }

  /** R-APS(NR) and R-APS(NR,RB) in MANUAL_SWITCH and FORCED_SWITCH. */
  function RapsNrSwitched(s: NodeState, rb: bool, env: Env): Outcome {
    var s1 :- if !rb && Reverts(s) then StartWtb(s, env) else Done(s);
    Done(s1.(state := Pending))
  }

  function PostManualSwitch(s: NodeState, p: PortNo, req: Request, env: Env): Outcome {
    match req
    case ClearSf | Ms | WtrExpires | WtrRunning | WtbExpires | WtbRunning => Done(s)
    case Clear => ClearCommon(s, env)
    case Fs => FsSfMs(s, p, FS, ForcedSwitch, env)
    case RapsFs => UnblockAndStop(s, false, ForcedSwitch, env)
    case Sf => FsSfMs(s, p, SF, Protection, env)
    case RapsSf => UnblockAndStop(s, true, Protection, env)
    case RapsMs => RapsMsManualSwitch(s, env)
    case RapsNrRb => RapsNrSwitched(s, true, env)
    case RapsNr => RapsNrSwitched(s, false, env)
    case Invalid => Failed(s, -EINVAL)
  }

  // ----- state D, FORCED_SWITCH -----

  /** A second forced switch blocks one more port and opens none. */
  function FsForcedSwitch(s: NodeState, p: PortNo, env: Env): Outcome {
    var s1 :- Block(s, p, env);
    var s2 :- SchedTx(s1, FS, 0, 0, env);
    Flush(s2, env)
  }

  function PostForcedSwitch(s: NodeState, p: PortNo, req: Request, env: Env): Outcome {
    match req
    case RapsFs | Sf | ClearSf | RapsSf | RapsMs | Ms
    | WtrExpires | WtrRunning | WtbExpires | WtbRunning => Done(s)
    case Clear => ClearCommon(s, env)
    case Fs => FsForcedSwitch(s, p, env)
    case RapsNrRb => RapsNrSwitched(s, true, env)
    case RapsNr => RapsNrSwitched(s, false, env)
    case Invalid => Failed(s, -EINVAL)
  }

  // ----- state E, PENDING -----

  function ClearPending(s: NodeState, env: Env): Outcome {
    var s1 := StopTimersIfOwner(s);
    if s1.p1.link.rpl then BlockRplAndAnnounce(s1, env) else Done(s1.(state := Idle))
  }

  function ThenStopTimers(o: Outcome): Outcome {
    var s :- o;
    Done(StopTimersIfOwner(s))
  }

  function WtrExpiresPending(s: NodeState, env: Env): Outcome {
    if s.cfg.owner then BlockRplAndAnnounce(s.(wtb := Stopped), env) else Done(s)
  }

  function WtbExpiresPending(s: NodeState, env: Env): Outcome {
    if s.cfg.owner then BlockRplAndAnnounce(s.(wtr := Stopped), env) else Done(s)
  }

  function RapsNrRbPending(s: NodeState, env: Env): Outcome {
    var s1 :-
      if s.cfg.owner && s.cfg.nbr then Trap(s)
      else if s.cfg.owner then Done(StopTimersIfOwner(s))
      else if !s.cfg.nbr then
        var s1 :- UnblockAll(s, env);
        Done(StopTx(s1))
      else if !s.p1.link.rpl then Trap(s)
      else
        var s1 :- Block(s, 1, env);
        var s2 :- Unblock(s1, 0, env);
        Done(StopTx(s2));
    Done(s1.(state := Idle))
  }

  function PostPending(s: NodeState, p: PortNo, req: Request, pdu: Option<Pdu>, env: Env): Outcome {
    match req
    case ClearSf | WtrRunning | WtbRunning => Done(s)
    case Clear => ClearPending(s, env)
    case Fs => ThenStopTimers(FsSfMs(s, p, FS, ForcedSwitch, env))
    case RapsFs => ThenStopTimers(UnblockAndStop(s, false, ForcedSwitch, env))
    case Sf => ThenStopTimers(FsSfMs(s, p, SF, Protection, env))
    case RapsSf => ThenStopTimers(UnblockAndStop(s, true, Protection, env))
    case RapsMs => ThenStopTimers(UnblockAndStop(s, true, ManualSwitch, env))
    case Ms => FsSfMs(StopTimersIfOwner(s), p, MS, ManualSwitch, env)
    case WtrExpires => WtrExpiresPending(s, env)
    case WtbExpires => WtbExpiresPending(s, env)
    case RapsNrRb => RapsNrRbPending(s, env)
    case RapsNr => MaybeUnblockAndStop(s, pdu, env)
    case Invalid => Failed(s, -EINVAL)
  }

  // ----- posting a request -----

  function Dispatch(s: NodeState, p: PortNo, req: Request, pdu: Option<Pdu>, env: Env): Outcome {
    match s.state
    case Idle => PostIdle(s, p, req, pdu, env)
    case Protection => PostProtection(s, p, req, env)
    case ManualSwitch => PostManualSwitch(s, p, req, env)
    case ForcedSwitch => PostForcedSwitch(s, p, req, env)
    case Pending => PostPending(s, p, req, pdu, env)
    case Uninit => Done(s)
  }

  /** One request with the state machine locked. */
  function Post(s: NodeState, p: PortNo, req: Request, pdu: Option<Pdu>, env: Env): Outcome {
    match ResolvePriority(s, req)
    case None => Done(s)
    case Some(top) =>
      var s1 := MarkFailed(s.(topreq := top), p, req);
      if req.ClearSf? && s.Port(p).link.rpl && !s.state.Protection? then Done(s1)
      else Dispatch(s1, p, req, pdu, env)
  }

  /** A request from outside first has to get the lock. */
  function LockAndPost(s: NodeState, p: PortNo, req: Request, pdu: Option<Pdu>, env: Env): Outcome {
    if env.lock < 0 then Failed(s, env.lock) else Post(s, p, req, pdu, env)
  }

  /** Re-entrant posting: in every state the nested post of a timer-running request succeeds and
      changes nothing but the latched request; in particular it starts no further timer. */
  lemma NestedPostOnlyLatches(s: NodeState, p: PortNo, req: Request, env: Env)
    requires req.IsRunning()
    ensures Post(s, p, req, None, env) == Done(NotePosted(s, req))
    ensures NotePosted(s, req) == s.(topreq := if req.Rank() <= s.topreq.Rank() then req else s.topreq)
  {
  }
}
