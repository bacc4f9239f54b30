/** Runs of a node: initialization and then any sequence of events. */
module Runs {
  import opened Requests
  import opened Raps
  import opened NodeModel
  import opened Events
  import opened Refinement
  import opened Robustness

  datatype Act = Act(ev: Event, env: Env)

  function After(s: NodeState, act: Act): NodeState {
    Step(s, act.ev, act.env).node
  }

  function Run(s: NodeState, acts: seq<Act>): NodeState
    decreases acts
  {
    if acts == [] then s else Run(After(s, acts[0]), acts[1..])
  }

  /** Every event of the run is enabled when it happens and meets the given side condition. */
  ghost predicate IsRun(s: NodeState, acts: seq<Act>, ok: (NodeState, Act) -> bool)
    decreases acts
  {
    acts == [] ||
    (Enabled(s, acts[0].ev) && ok(s, acts[0]) && IsRun(After(s, acts[0]), acts[1..], ok))
  }

  /** No side condition: any event, any foreign call failing. */
  ghost predicate Anything(s: NodeState, act: Act) { true }

  // ----- initialization -----

  /** What a successful initialization leaves: PENDING, one port blocked (the RPL if there is
      one), R-APS(NR) being sent, and at a revertive owner the WTR timer running. */
  predicate Booted(s: NodeState) {
    && Robust(s) && s.state.Pending?
    && s.pdu == PduMut(RsSc(NR, 0), 0)
    && (s.p1.blocked <==> s.p1.link.rpl) && s.p0.blocked == !s.p1.blocked
    && !s.p0.failed && !s.p1.failed
    && s.wtb.Stopped? && s.guard.Stopped?
    && (s.wtr.Running? <==> Reverts(s))
    && s.topreq == if Reverts(s) then WtrRunning else Invalid
  }

  lemma InitPortsLeaves(s: NodeState, b: PortNo, env: Env)
    requires InitPorts(s, b, env).Done?
    requires !s.Blocked(b) && !s.Blocked(Other(b))
    ensures var t := InitPorts(s, b, env).node;
            && t.cfg == s.cfg && t.state == s.state && t.topreq == s.topreq && t.wtr == s.wtr && t.wtb == s.wtb
            && t.guard == s.guard && t.pdu == PduMut(RsSc(NR, 0), 0) && t.doubleStarts == s.doubleStarts
    ensures var t := InitPorts(s, b, env).node;
            && t.Blocked(b) && !t.Blocked(Other(b))
            && !t.Port(b).enabled && t.Port(Other(b)).enabled
            && t.Port(b).failed == s.Port(b).failed && !t.Port(Other(b)).failed
            && t.p0.link == s.p0.link && t.p1.link == s.p1.link
            && t.p0.burst <= TX_BURST && t.p1.burst <= TX_BURST
  {
  }

  /** Whatever the cached flags and the driver agreed on before, a successful start makes
      them agree: disabling all ports first does not touch the flags, the forced unblock does. */
  lemma BootLeaves(s: NodeState, env0: Env, env: Env)
    requires Fresh(s) && Boot(s, env0, env).Done?
    ensures Booted(Boot(s, env0, env).node)
    ensures Boot(s, env0, env).node.cfg == s.cfg && Boot(s, env0, env).node.doubleStarts == s.doubleStarts
  {
    hide InitPorts;
    var s1 := BlockAll(s, env0).node.(guard := Stopped);
    InitPortsLeaves(s1, if s.cfg.owner || s.cfg.nbr then 1 else 0, env);
  }

  /** Disabling the ports in the driver is all that happens before initialization, and when it is
      reported to have succeeded both are disabled. */
  lemma AllPortsAreDisabled(s: NodeState, env: Env)
    ensures var o := BlockAll(s, env);
            && (o.Done? ==> o.node == s.(p0 := s.p0.(enabled := false), p1 := s.p1.(enabled := false)))
            && (o.Failed? ==> env.Reports(o.err))
            && (env.Succeeds() ==> o.Done?) && !o.Trap?
  {
  }

  /** The port that a start blocks or opens, armed to send every five seconds if its interface is up. */
  function StartedPort(link: Link, blocked: bool, up: bool): Port {
    Port(link, false, blocked, !blocked, 0, if up then TxDue(5000000) else TxOff)
  }

  /** A start that succeeds leaves exactly this: the RPL, or port 0 if there is none, blocked, the other
      port open, R-APS(NR) going out on every interface that is up, WTR running at a revertive owner. */
  function Started(s: NodeState, env: Env): NodeState {
    var rpl, waits := s.p1.link.rpl, s.cfg.owner && s.cfg.revertive;
    s.(state := Pending, pdu := PduMut(0x00, 0), guard := Stopped,
       p0 := StartedPort(s.p0.link, !rpl, env.up0), p1 := StartedPort(s.p1.link, rpl, env.up1),
       wtr := if waits then Running(s.cfg.wtrMinutes * 60000) else Stopped,
       topreq := if waits then WtrRunning else Invalid)
  }

  lemma InitPortsExactly(s: NodeState, b: PortNo, env: Env)
    requires !s.p0.failed && !s.p1.failed && !s.p0.blocked && !s.p1.blocked && s.pdu == PduMut(0, 0)
    ensures var o := InitPorts(s, b, env);
            && (o.Done? ==> o.node == s.(p0 := StartedPort(s.p0.link, b == 0, env.up0),
                                         p1 := StartedPort(s.p1.link, b == 1, env.up1)))
            && (o.Failed? ==> env.Reports(o.err)) && !o.Trap?
  {
  }

  lemma StartIsExact(s: NodeState, env0: Env, env: Env)
    requires Fresh(s)
    ensures var o := Boot(s, env0, env);
            && (o.Done? ==> o.node == Started(s, env))
            && (o.Failed? ==> env0.Reports(o.err) || env.Reports(o.err))
            && (env0.Succeeds() && env.Succeeds() ==> o.Done?) && !o.Trap?
  {
    hide InitPorts, StartedPort;
    AllPortsAreDisabled(s, env0);
    var s1 := BlockAll(s, env0).node.(guard := Stopped);
    if BlockAll(s, env0).Done? {
      InitPortsExactly(s1, if s.cfg.owner || s.cfg.nbr then 1 else 0, env);
    }
  }

  /** Even when a step of it fails the initialization of the state machine ends in PENDING. */
  lemma InitEndsPending(s: NodeState, env: Env)
    ensures FsmInit(s, env).node.state.Pending? && FsmInit(s, env).node.guard.Stopped?
  {
  }

  // ----- what every run keeps -----

  lemma {:induction false} RunKeepsRobust(s: NodeState, acts: seq<Act>, ok: (NodeState, Act) -> bool)
    requires Robust(s) && !s.state.Uninit?
    requires IsRun(s, acts, ok)
    ensures Robust(Run(s, acts)) && Run(s, acts).cfg == s.cfg && !Run(s, acts).state.Uninit?
    ensures Run(s, acts).doubleStarts == s.doubleStarts
    decreases acts
  {
    if acts != [] {
      hide Robust, Step;
      StepKeepsRobust(s, acts[0].ev, acts[0].env);
      RunKeepsRobust(After(s, acts[0]), acts[1..], ok);
    }
  }

  /** The timer, hardware and role discipline of a node: after a successful initialization, on
      every run, whatever foreign calls fail, the cached flags agree with the driver, WTR or WTB
      run only at a revertive owner in PENDING and never together, no start has ever found its timer
      running, the roles of the ports are intact, and the next event hits no assertion and no
      unreachable code. */
  lemma EveryRunIsRobust(s: NodeState, env0: Env, env: Env, acts: seq<Act>, next: Act)
    requires Fresh(s) && Boot(s, env0, env).Done?
    requires IsRun(Boot(s, env0, env).node, acts, Anything)
    ensures var t := Run(Boot(s, env0, env).node, acts);
            && HardwareOk(t) && TimersOk(t) && RoleOk(t) && PduOk(t.pdu) && BurstOk(t)
            && (!t.state.Pending? ==> t.wtr.Stopped? && t.wtb.Stopped?) && t.doubleStarts == s.doubleStarts
            && !Step(t, next.ev, next.env).Trap?
  {
    hide Boot, Run, Step, IsRun;
    BootLeaves(s, env0, env);
    RunKeepsRobust(Boot(s, env0, env).node, acts, Anything);
    StepKeepsRobust(Run(Boot(s, env0, env).node, acts), next.ev, next.env);
  }
}
