/** In which order the handlers make their foreign calls: what has been done, and what has not, when
    one of them fails. */
module Stages {
  import opened Requests
  import opened NodeIds
  import opened Raps
  import opened NodeModel
  import opened Fsm
  import opened Events
  import opened Failures

  /** Arming the transmitters fails at the first interface that is up and refuses. */
  predicate ArmFails(env: Env) {
    (env.up0 && env.tx0 < 0) || (env.up1 && env.tx1 < 0)
  }

  function ArmCode(env: Env): int {
    if env.up0 && env.tx0 < 0 then env.tx0 else env.tx1
  }

  predicate FailsWith(o: Outcome, err: int) { o.Failed? && o.err == err }

  /** FS, SF and MS: first the port is blocked, then the request announced, then the other port opened
      and last the database flushed; each only if all before succeeded, and the state follows. */
  lemma SwitchStages(s: NodeState, p: PortNo, reqState: bv8, next: FsmState, env: Env)
    requires reqState in {FS, SF, MS}
    ensures var o := FsSfMs(s, p, reqState, next, env);
            var q := Other(p);
            var pdu := PduMut(reqState << 4, if s.Blocked(p) then DNF else 0);
            if !s.Blocked(p) && !env.Io(p).IoOk? then
              FailsWith(o, Code(env.Io(p))) && o.node == s.WithPort(p, o.node.Port(p))
            else
              && o.node.Blocked(p) && o.node.pdu == pdu
              && (if ArmFails(env) then
                    && FailsWith(o, ArmCode(env))
                    && o.node.Blocked(q) == s.Blocked(q) && o.node.Port(q).failed == s.Port(q).failed
                    && o.node.flushes == s.flushes && o.node.state == s.state
                  else if s.Blocked(q) && !env.Io(q).IoOk? then
                    && FailsWith(o, Code(env.Io(q))) && !o.node.Port(q).failed
                    && o.node.flushes == s.flushes && o.node.state == s.state
                  else
                    && !o.node.Blocked(q) && !o.node.Port(q).failed
                    && (if !s.Blocked(p) && env.flush < 0
                        then o == Failed(o.node, env.flush) && o.node.flushes == s.flushes && o.node.state == s.state
                        else o.Done? && o.node.state == next))
  {
    hide ArmAll, Block, Unblock, SchedTx, ArmFails, ArmCode, Code;
    BlockEnds(s, p, env);
    var s1 := if s.Blocked(p) then s else Block(s, p, env).node;
    var status := if s.Blocked(p) then DNF else 0;
    SchedulingEnds(s1, reqState, status, env);
    var s2 := SchedTx(s1, reqState, 0, status, env).node;
    UnblockEnds(s2, Other(p), env);
  }

  lemma SchedulingEnds(s: NodeState, reqState: bv8, status: bv8, env: Env)
    requires reqState in {NR, FS, SF, MS}
    ensures var o := SchedTx(s, reqState, 0, status, env);
            && (if ArmFails(env) then FailsWith(o, ArmCode(env)) else o.Done?)
            && o.node == s.(pdu := PduMut(reqState << 4, status), p0 := o.node.p0, p1 := o.node.p1)
            && o.node.p0 == s.p0.(tx := o.node.p0.tx, burst := o.node.p0.burst)
            && o.node.p1 == s.p1.(tx := o.node.p1.tx, burst := o.node.p1.burst)
  {
  }

  /** Reversion keeps to the same order. */
  lemma RevertStages(s: NodeState, env: Env)
    requires s.p1.link.rpl
    ensures var o := BlockRplAndAnnounce(s, env);
            if !s.p1.blocked && !env.io1.IoOk? then
              FailsWith(o, Code(env.io1)) && o.node == s.(p1 := o.node.p1)
            else
              && o.node.p1.blocked && o.node.pdu == PduMut(0x00, if s.p1.blocked then 0xc0 else 0x80)
              && (if ArmFails(env) then
                    && FailsWith(o, ArmCode(env))
                    && o.node.p0.blocked == s.p0.blocked && o.node.p0.failed == s.p0.failed
                    && o.node.flushes == s.flushes && o.node.state == s.state
                  else if s.p0.blocked && !env.io0.IoOk? then
                    && FailsWith(o, Code(env.io0)) && !o.node.p0.failed
                    && o.node.flushes == s.flushes && o.node.state == s.state
                  else
                    && !o.node.p0.blocked && !o.node.p0.failed
                    && (if !s.p1.blocked && env.flush < 0
                        then o == Failed(o.node, env.flush) && o.node.flushes == s.flushes && o.node.state == s.state
                        else o.Done? && o.node.state.Idle?))
  {
    hide ArmAll, Block, Unblock, SchedTx;
    BlockEnds(s, 1, env);
    var s1 := if s.p1.blocked then s else Block(s, 1, env).node;
    var status := if s.p1.blocked then RB | DNF else RB;
    SchedulingEnds(s1, NR, status, env);
    UnblockEnds(SchedTx(s1, NR, 0, status, env).node, 0, env);
  }

  /** Port 0 is opened before port 1, and the node falls silent only when both calls succeeded. */
  lemma OpenStages(s: NodeState, onlyNonFailed: bool, next: FsmState, env: Env)
    ensures var o := UnblockAndStop(s, onlyNonFailed, next, env);
            var opens0 := s.p0.blocked && !(onlyNonFailed && s.p0.failed);
            var opens1 := s.p1.blocked && !(onlyNonFailed && s.p1.failed);
            if opens0 && !env.io0.IoOk? then
              FailsWith(o, Code(env.io0)) && o.node == s.(p0 := o.node.p0) && o.node.p0.tx == s.p0.tx
            else if opens1 && !env.io1.IoOk? then
              && FailsWith(o, Code(env.io1)) && o.node == s.(p0 := o.node.p0, p1 := o.node.p1)
              && (opens0 ==> !o.node.p0.blocked) && o.node.p0.tx == s.p0.tx && o.node.p1.tx == s.p1.tx
            else o.Done? && !o.node.Transmitting() && o.node.state == next
  {
  }

  /** A node that yields opens its sound ports in order, and is only then silent. */
  lemma YieldStages(s: NodeState, pdu: Pdu, env: Env)
    ensures var o := MaybeUnblockAndStop(s, Some(pdu), env);
            var opens0, opens1 := s.p0.blocked && !s.p0.failed, s.p1.blocked && !s.p1.failed;
            if env.idErr < 0 then o == Failed(s, env.idErr)
            else if Value(pdu.nodeId) <= Value(s.cfg.id) then o == Done(s)
            else if opens0 && !env.io0.IoOk? then
              FailsWith(o, Code(env.io0)) && o.node == s.(p0 := o.node.p0) && o.node.p0.tx == s.p0.tx
            else if opens1 && !env.io1.IoOk? then
              && FailsWith(o, Code(env.io1)) && o.node == s.(p0 := o.node.p0, p1 := o.node.p1)
              && (opens0 ==> !o.node.p0.blocked) && o.node.p0.tx == s.p0.tx && o.node.p1.tx == s.p1.tx
            else o.Done? && !o.node.Transmitting() && o.node.state == s.state
  {
    hide Memcmp, Value;
    MemcmpOrdersByValue(pdu.nodeId, s.cfg.id);
  }

  /** R-APS(NR,RB) at an idle RPL node, and in PENDING at a node without RPL: only when the ports are
      open does the node fall silent. */
  lemma NrRbStages(s: NodeState, env: Env)
    ensures var o := RapsNrRbIdle(s, env);
            if s.p1.link.rpl && s.p0.blocked && !env.io0.IoOk? then
              FailsWith(o, Code(env.io0)) && o.node == s.(p0 := o.node.p0) && o.node.p0.tx == s.p0.tx
            else o.Done? && (!s.cfg.owner ==> !o.node.Transmitting())
    ensures !s.cfg.owner && !s.cfg.nbr ==> RapsNrRbPending(s, env) == UnblockAndStop(s, false, Idle, env)
  {
  }

  /** R-APS(NR) and (NR,RB) outside IDLE and PENDING: the timer of a revertive owner, then the state. */
  lemma NrStages(s: NodeState, rb: bool, env: Env)
    requires s.wtr.Stopped? && s.wtb.Stopped? && s.topreq.Invalid?
    ensures var starts := !rb && Reverts(s);
            && (if starts && env.timer < 0
                then RapsNrProtection(s, rb, env) == Failed(s.(topreq := WtrRunning), env.timer)
                else RapsNrProtection(s, rb, env)
                     == Done(if starts then s.(topreq := WtrRunning, state := Pending,
                                               wtr := Running(s.cfg.wtrMinutes * 60000))
                             else s.(state := Pending)))
            && (if starts && env.timer < 0
                then RapsNrSwitched(s, rb, env) == Failed(s.(topreq := WtbRunning), env.timer)
                else RapsNrSwitched(s, rb, env)
                     == Done(if starts then s.(topreq := WtbRunning, state := Pending,
                                               wtb := Running(s.cfg.guardMs + 5000))
                             else s.(state := Pending)))
  {
  }

  /** The neighbour blocks the RPL before it opens its other port. */
  lemma NeighbourStages(s: NodeState, env: Env)
    requires s.cfg.nbr && !s.cfg.owner && s.p1.link.rpl
    ensures var o := RapsNrRbPending(s, env);
            if !s.p1.blocked && !env.io1.IoOk? then
              FailsWith(o, Code(env.io1)) && o.node == s.(p1 := o.node.p1)
            else
              && o.node.p1.blocked
              && (if s.p0.blocked && !env.io0.IoOk?
                  then FailsWith(o, Code(env.io0)) && o.node.p0.tx == s.p0.tx && o.node.p1.tx == s.p1.tx
                       && o.node.state == s.state
                  else o.Done? && !o.node.p0.blocked && !o.node.Transmitting())
  {
  }

  /** CLEAR_SF in PROTECTION: guard timer, announcement, timer, state. */
  lemma ClearSfStages(s: NodeState, env: Env)
    requires s.wtr.Stopped? && s.topreq.Invalid?
    ensures var o := ClearSfProtection(s, env);
            && o.node.guard == Running(s.cfg.guardMs) && o.node.pdu == PduMut(0x00, 0)
            && (if ArmFails(env) then FailsWith(o, ArmCode(env)) && o.node.topreq.Invalid? && o.node.wtr.Stopped?
                else if Reverts(s) && env.timer < 0
                then o == Failed(o.node, env.timer) && o.node.topreq.WtrRunning? && o.node.wtr.Stopped?
                else o.Done? && o.node.wtr.Running? == Reverts(s))
            && o.node.state == if o.Done? then Pending else s.state
  {
    hide SchedTx;
    SchedulingEnds(StartGuard(s), NR, 0, env);
  }

  /** CLEAR of a switch, and R-APS(MS) in MANUAL_SWITCH, where something is blocked. */
  lemma ReleaseStages(s: NodeState, env: Env)
    requires s.wtb.Stopped? && s.topreq.Invalid? && s.AnyBlocked()
    ensures var o := ClearCommon(s, env);
            && o.node.guard == Running(s.cfg.guardMs) && o.node.pdu == PduMut(0x00, 0)
            && (if ArmFails(env) then FailsWith(o, ArmCode(env)) && o.node.topreq.Invalid? && o.node.wtb.Stopped?
                else if Reverts(s) && env.timer < 0
                then o == Failed(o.node, env.timer) && o.node.topreq.WtbRunning? && o.node.wtb.Stopped?
                else o.Done? && o.node.wtb.Running? == Reverts(s))
            && o.node.state == if o.Done? then Pending else s.state
    ensures var o := RapsMsManualSwitch(s, env);
            && o.node.(state := s.state) == ClearCommon(s, env).node.(state := s.state)
            && o.node.state == if o.Done? && Reverts(s) then Pending else s.state
  {
    hide SchedTx;
    SchedulingEnds(StartGuard(s), NR, 0, env);
  }

  /** A second forced switch: block, announce, flush. */
  lemma SecondSwitchStages(s: NodeState, p: PortNo, env: Env)
    ensures var o := FsForcedSwitch(s, p, env);
            if !s.Blocked(p) && !env.Io(p).IoOk? then
              FailsWith(o, Code(env.Io(p))) && o.node == s.WithPort(p, o.node.Port(p))
            else
              && o.node.Blocked(p) && o.node.pdu == PduMut(0xd0, 0)
              && (if ArmFails(env) then FailsWith(o, ArmCode(env)) && o.node.flushes == s.flushes
                  else if env.flush < 0 then o == Failed(o.node, env.flush) && o.node.flushes == s.flushes
                  else o.Done? && o.node.flushes == s.flushes + 1)
  {
    hide Block, SchedTx;
    BlockEnds(s, p, env);
    SchedulingEnds(Block(s, p, env).node, FS, 0, env);
  }

  /** Initialization: one port is blocked before the other is opened, and both before R-APS(NR) is sent. */
  lemma InitStages(s: NodeState, b: PortNo, env: Env)
    requires !s.Blocked(b)
    ensures var o := InitPorts(s, b, env);
            var q := Other(b);
            if !env.Io(b).IoOk? then FailsWith(o, Code(env.Io(b))) && o.node == s.WithPort(b, o.node.Port(b))
            else
              && o.node.Blocked(b)
              && (if !env.Io(q).IoOk? then
                    FailsWith(o, Code(env.Io(q))) && o.node.pdu == s.pdu && o.node.Port(b).tx == s.Port(b).tx
                  else !o.node.Blocked(q) && o.node.Port(q).enabled && o.node.pdu == PduMut(0x00, 0)
                       && (if ArmFails(env) then FailsWith(o, ArmCode(env)) else o.Done?))
  {
    hide Block, Unblock, SchedTx;
    BlockEnds(s, b, env);
    var s1 := Block(s, b, env).node;
    var s2 := s1.WithPort(Other(b), s1.Port(Other(b)).(blocked := true));
    UnblockEnds(s2, Other(b), env);
    SchedulingEnds(Unblock(s2, Other(b), env).node, NR, 0, env);
  }
}
