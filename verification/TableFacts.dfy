/** What the rows of the table do, in terms of what is blocked, sent and latched. */
module TableFacts {
  import opened Raps
  import opened NodeModel
  import opened Table

  /** Neither configuration, latched request nor timers change. */
  predicate SameControl(s: NodeState, t: NodeState) {
    && t.cfg == s.cfg && t.p0.link == s.p0.link && t.p1.link == s.p1.link
    && t.topreq == s.topreq && t.wtr == s.wtr && t.wtb == s.wtb
  }

  /** FS, SF and MS leave exactly the given port blocked, whatever was blocked before; other nodes
      are told not to flush exactly when this node did not, because the port was blocked already. */
  lemma SwitchToBlocksOne(s: NodeState, p: PortNo, reqState: bv8, next: FsmState, env: Env)
    ensures var t := SwitchTo(s, p, reqState, next, env);
            && SameControl(s, t) && t.state == next && t.guard == s.guard
            && t.Blocked(p) && !t.Blocked(Other(p))
            && t.Port(p).failed == s.Port(p).failed && !t.Port(Other(p)).failed
            && t.Transmitting() == (env.up0 || env.up1)
            && t.pdu == PduMut(RsSc(reqState, 0), if s.Blocked(p) then DNF else 0)
            && t.flushes == (if t.pdu.status == DNF then s.flushes else s.flushes + 1)
  {
  }

  /** A remote FS opens everything and silences the node. */
  lemma OpenAndMuteOpensAll(s: NodeState, next: FsmState)
    ensures var t := OpenAndMute(s, next);
            && SameControl(s, t) && t.state == next && t.guard == s.guard && t.pdu == s.pdu
            && !t.AnyBlocked() && !t.p0.failed && !t.p1.failed && !t.Transmitting()
  {
  }

  /** A remote SF or MS opens all ports but the failed ones and silences the node. */
  lemma OpenSoundKeepsFailed(s: NodeState, next: FsmState)
    ensures var t := OpenSoundAndMute(s, next);
            && SameControl(s, t) && t.state == next && t.guard == s.guard && t.pdu == s.pdu
            && t.p0.blocked == (s.p0.blocked && s.p0.failed) && t.p0.failed == s.p0.failed
            && t.p1.blocked == (s.p1.blocked && s.p1.failed) && t.p1.failed == s.p1.failed
            && !t.Transmitting()
  {
  }

  /** Reversion leaves exactly the RPL blocked and R-APS(NR,RB) being sent. */
  lemma RevertBlocksRpl(s: NodeState, env: Env)
    ensures var t := RevertToRpl(s, env);
            && SameControl(s, t) && t.state.Idle? && t.guard == s.guard
            && t.p1.blocked && !t.p0.blocked && !t.p0.failed && t.p1.failed == s.p1.failed
            && t.Transmitting() == (env.up0 || env.up1)
            && t.pdu == PduMut(RsSc(NR, 0), if s.p1.blocked then RB | DNF else RB)
            && t.flushes == (if s.p1.blocked then s.flushes else s.flushes + 1)
  {
  }

  lemma AnnounceKeepsPorts(s: NodeState, reqState: bv8, status: bv8, env: Env)
    ensures var t := Announce(s, reqState, status, env);
            && SameControl(s, t) && t.state == s.state && t.guard == s.guard && t.flushes == s.flushes
            && t.pdu == PduMut(RsSc(reqState, 0), status)
            && t.p0.blocked == s.p0.blocked && t.p1.blocked == s.p1.blocked
            && t.p0.failed == s.p0.failed && t.p1.failed == s.p1.failed
            && t.Transmitting() == (env.up0 || env.up1)
  {
  }

  /** Releasing a switch at a revertive owner with a port blocked: the WTB timer runs five
      seconds longer than the guard timer armed with it. */
  lemma ReleaseArmsTimers(s: NodeState, env: Env)
    requires s.AnyBlocked() && Reverts(s)
    ensures var t := Release(s, env);
            && t.state.Pending? && t.guard == Running(s.cfg.guardMs) && t.wtb == Running(s.cfg.guardMs + 5000)
            && t.pdu == PduMut(RsSc(NR, 0), 0) && t.p0.blocked == s.p0.blocked && t.p1.blocked == s.p1.blocked
  {
  }
}
