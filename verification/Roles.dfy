/** Choosing the ring protection link before initialization. */
module Roles {
  import opened Requests
  import opened NodeModel
  import opened Events
  import opened Runs

  const EPERM: int := 1
  const EBUSY: int := 16

  datatype Configured = Configured(node: NodeState, ret: int)

  /** An interface is given by its device; only clearing a role looks at null interfaces itself. */
  datatype RoleOp = SetAsRpl(dev: nat, isOwner: bool) | UnsetRpl(iface: Option<nat>)

  /** The port on a device; the first match wins, as in the lookup by interface. */
  function Lookup(s: NodeState, dev: nat): Option<PortNo> {
    if s.p0.link.dev == dev then Some(0)
    else if s.p1.link.dev == dev then Some(1)
    else None
  }

  function WithRpl(s: NodeState, p: PortNo, rpl: bool): NodeState {
    s.WithPort(p, s.Port(p).(link := s.Port(p).link.(rpl := rpl)))
  }

  /** Exchange the two ports and renumber them. */
  function SwapPorts(s: NodeState): NodeState {
    s.(p0 := s.p1.(link := s.p1.link.(idx := 0)), p1 := s.p0.(link := s.p0.link.(idx := 1)))
  }

  function SetRole(s: NodeState, dev: nat, isOwner: bool): Configured {
    match Lookup(s, dev)
    case None => Configured(s, -ENODEV)
    case Some(p) =>
      if !s.state.Uninit? then Configured(s, -EPERM)
      else if s.Port(Other(p)).link.rpl then Configured(s, -EBUSY)
      else
        var s1 := WithRpl(s.(cfg := s.cfg.(owner := isOwner, nbr := !isOwner)), p, true);
        Configured(if p == 1 then s1 else SwapPorts(s1), 0)
  }

  /** Clearing the role of a link; a link that is not the RPL is left alone. */
  function UnsetRole(s: NodeState, iface: Option<nat>): Configured
    requires iface.Some? ==> Lookup(s, iface.value).Some?
  {
    match iface
    case None => Configured(s, -ENODEV)
    case Some(dev) =>
      var p := Lookup(s, dev).value;
      if !s.state.Uninit? then Configured(s, -EPERM)
      else if s.Port(p).link.rpl
      then Configured(WithRpl(s.(cfg := s.cfg.(owner := false, nbr := false)), p, false), 0)
      else Configured(s, 0)
  }

  /** Clearing a role dereferences the link it looked up without a test. */
  predicate Defined(s: NodeState, op: RoleOp) {
    op.UnsetRpl? && op.iface.Some? ==> Lookup(s, op.iface.value).Some?
  }

  function Configure(s: NodeState, op: RoleOp): NodeState
    requires Defined(s, op)
  {
    match op
    case SetAsRpl(dev, isOwner) => SetRole(s, dev, isOwner).node
    case UnsetRpl(iface) => UnsetRole(s, iface).node
  }

  ghost predicate Known(s: NodeState, ops: seq<RoleOp>) {
    forall op :: op in ops ==> Defined(s, op)
  }

  predicate SameDevices(s: NodeState, t: NodeState) {
    {t.p0.link.dev, t.p1.link.dev} == {s.p0.link.dev, s.p1.link.dev}
  }

  lemma ConfigureOnce(s: NodeState, op: RoleOp)
    requires Fresh(s) && Defined(s, op)
    ensures var t := Configure(s, op);
            && Fresh(t) && SameDevices(s, t)
            && (forall other :: Defined(s, other) ==> Defined(t, other))
            && (op.SetAsRpl? && SetRole(s, op.dev, op.isOwner).ret == 0 ==>
                  t.p1.link.dev == op.dev && t.p1.link.rpl && t.cfg.owner == op.isOwner && t.cfg.nbr == !op.isOwner)
  {
  }

  /** Choosing the RPL, exactly: the device must be known, the node not initialized and the other link
      not the RPL already. Then the port on the device, with all its contents, becomes port 1 and
      the RPL, and the node owner or neighbour as asked; otherwise nothing changes. */
  lemma SetRoleIsExact(s: NodeState, dev: nat, isOwner: bool)
    requires Fresh(s) || !s.state.Uninit?
    ensures var known := dev in {s.p0.link.dev, s.p1.link.dev};
            var mine := if s.p0.link.dev == dev then s.p0 else s.p1;
            var other := if s.p0.link.dev == dev then s.p1 else s.p0;
            var r := SetRole(s, dev, isOwner);
            if !known then r == Configured(s, -19)
            else if !s.state.Uninit? then r == Configured(s, -1)
            else if other.link.rpl then r == Configured(s, -16)
            else
              && r.ret == 0 && r.node.cfg == s.cfg.(owner := isOwner, nbr := !isOwner)
              && r.node == s.(cfg := r.node.cfg, p0 := other.(link := Link(false, 0, other.link.dev)),
                              p1 := mine.(link := Link(true, 1, dev)))
  {
  }

  /** Clearing a role, exactly: if the device is that of the RPL, an uninitialized node is afterwards
      neither owner nor neighbour and has no RPL; otherwise nothing changes. */
  lemma UnsetRoleIsExact(s: NodeState, iface: Option<nat>)
    requires iface.Some? ==> Lookup(s, iface.value).Some?
    requires Fresh(s) || !s.state.Uninit?
    ensures var r := UnsetRole(s, iface);
            if iface.None? then r == Configured(s, -19)
            else if !s.state.Uninit? then r == Configured(s, -1)
            else if s.p0.link.dev != iface.value && s.p1.link.rpl then
              && r.ret == 0
              && r.node == s.(cfg := s.cfg.(owner := false, nbr := false),
                              p1 := s.p1.(link := s.p1.link.(rpl := false)))
            else r == Configured(s, 0)
  {
  }

  function ConfigureAll(s: NodeState, ops: seq<RoleOp>): NodeState
    requires Fresh(s) && Known(s, ops)
    decreases ops
  {
    if ops == [] then s
    else
      ConfigureOnce(s, ops[0]);
      ConfigureAll(Configure(s, ops[0]), ops[1..])
  }

  /** However the roles of a node are configured before initialization, the RPL is port 1 or absent,
      the node is owner or neighbour exactly when it has one and never both, and its two devices
      are at most exchanged. Hence no later run hits an assertion about the RPL. */
  lemma {:induction false} AnyConfigurationIsSound(s: NodeState, ops: seq<RoleOp>)
    requires Fresh(s) && Known(s, ops)
    ensures Fresh(ConfigureAll(s, ops)) && SameDevices(s, ConfigureAll(s, ops))
    decreases ops
  {
    if ops != [] {
      hide Fresh, Configure;
      ConfigureOnce(s, ops[0]);
      AnyConfigurationIsSound(Configure(s, ops[0]), ops[1..]);
    }
  }

  lemma ConfiguredRunsAreSound(s: NodeState, ops: seq<RoleOp>, env0: Env, env: Env, acts: seq<Act>, next: Act)
    requires Fresh(s) && Known(s, ops)
    requires Boot(ConfigureAll(s, ops), env0, env).Done?
    requires IsRun(Boot(ConfigureAll(s, ops), env0, env).node, acts, Anything)
    ensures var t := Run(Boot(ConfigureAll(s, ops), env0, env).node, acts);
            RoleOk(t) && !Step(t, next.ev, next.env).Trap?
  {
    hide Boot, Run, IsRun, Step, ConfigureAll, Fresh;
    AnyConfigurationIsSound(s, ops);
    EveryRunIsRobust(ConfigureAll(s, ops), env0, env, acts, next);
  }
}
