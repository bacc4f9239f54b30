/** Everything that can happen to an initialized node, and its initialization. */
module Events {
  import opened Requests
  import opened Raps
  import opened NodeModel
  import opened Fsm

  datatype Event =
    | Local(p: PortNo, cmd: Command)
    | LinkDownExpires(p: PortNo)
    | WtrFires
    | WtbFires
    | GuardExpires
    | TxFires(p: PortNo)
    | IfaceUp(p: PortNo)
    | Receive(p: PortNo, pdu: Pdu)

  /** A timer can only fire while it is running. */
  predicate Enabled(s: NodeState, ev: Event) {
    match ev
    case WtrFires => s.wtr.Running?
    case WtbFires => s.wtb.Running?
    case GuardExpires => s.guard.Running?
    case TxFires(p) => s.Port(p).tx.TxDue?
    case _ => true
  }

  // ----- reception -----

  /** What a received PDU asks for. */
  datatype Decoded = Drop | FlushEvent | Ask(req: Request)

  function Decode(pdu: Pdu, ver: bv8): Decoded {
    var rs := pdu.ReqState();
    if pdu.opcode != OPCODE then Drop
    else if rs == NR then Ask(if pdu.Rb() then RapsNrRb else RapsNr)
    else if rs == MS then if ver == VERSION_1 then Drop else Ask(RapsMs)
    else if rs == SF then Ask(RapsSf)
    else if rs == FS then if ver == VERSION_1 then Drop else Ask(RapsFs)
    else if rs == EVENT then
      if pdu.Subcode() != SC_FLUSH_REQ || pdu.status != 0 then Drop else FlushEvent
    else Drop
  }

  /** The node's own frames come back around the ring and are dropped, unless its address
      cannot be read. */
  predicate IsOwnFrame(s: NodeState, pdu: Pdu, env: Env) {
    env.lookup == 0 && pdu.nodeId == s.cfg.id
  }

  /** The request that a frame makes to the state machine, after the drops of the receive path. */
  function Heard(s: NodeState, pdu: Pdu, env: Env): Option<Request> {
    if IsOwnFrame(s, pdu, env) then None
    else match Decode(pdu, s.cfg.ver)
      case Ask(req) => if s.guard.Running? then None else Some(req)
      case _ => None
  }

  function ReceivePdu(s: NodeState, p: PortNo, pdu: Pdu, env: Env): Outcome {
    match Heard(s, pdu, env)
    case Some(req) => LockAndPost(s, p, req, Some(pdu), env)
    case None =>
      if !IsOwnFrame(s, pdu, env) && Decode(pdu, s.cfg.ver).FlushEvent? then Flush(s, env) else Done(s)
  }

  // ----- transmission -----

  /** The PDU that the node sends in its present state. */
  function CurrentPdu(s: NodeState): Pdu {
    var bpr := s.state.Protection? && s.p1.blocked;
    Pdu((s.cfg.mel << 5) | s.cfg.ver, OPCODE, FLAGS, TLV_OFFSET,
        s.pdu.rsSc, if bpr then s.pdu.status | BPR else s.pdu.status, s.cfg.id)
  }

  /** The transmit handler of one port: it sends the current PDU and re-arms itself. */
  function TxHandler(s: NodeState, p: PortNo, env: Env): NodeState {
    var port := s.Port(p);
    var burst := if port.burst > 0 then port.burst - 1 else 0;
    var tx := if env.Tx(p) < 0 then TxOff else TxDue(TxDelay(port.burst));
    s.WithPort(p, port.(burst := burst, tx := tx))
  }

  /** The interface-up callback re-arms the transmitter of a port, whatever it last sent. */
  function RearmTx(s: NodeState, p: PortNo, env: Env): NodeState {
    if env.Tx(p) < 0 then s
    else s.WithPort(p, s.Port(p).(tx := TxDue(TxDelay(s.Port(p).burst))))
  }

  // ----- steps -----

  function Step(s: NodeState, ev: Event, env: Env): Outcome {
    match ev
    case Local(p, cmd) => LockAndPost(s, p, cmd.Request(), None, env)
    case LinkDownExpires(p) => if env.lookup < 0 then Done(s) else LockAndPost(s, p, Sf, None, env)
    case WtrFires => LockAndPost(s.(wtr := Stopped), 0, WtrExpires, None, env)
    case WtbFires => LockAndPost(s.(wtb := Stopped), 0, WtbExpires, None, env)
    case GuardExpires => Done(s.(guard := Stopped))
    case TxFires(p) => Done(TxHandler(s, p, env))
    case IfaceUp(p) => Done(RearmTx(s, p, env))
    case Receive(p, pdu) => ReceivePdu(s, p, pdu, env)
  }

  /** The request an event posts to the state machine, if any. */
  function Posted(s: NodeState, ev: Event, env: Env): Option<Request> {
    match ev
    case Local(p, cmd) => Some(cmd.Request())
    case LinkDownExpires(p) => if env.lookup < 0 then None else Some(Sf)
    case WtrFires => Some(WtrExpires)
    case WtbFires => Some(WtbExpires)
    case Receive(p, pdu) => Heard(s, pdu, env)
    case _ => None
  }

  // ----- initialization -----

  /** Port roles as configured: the RPL, if any, is port 1, and makes the node owner or neighbour. */
  predicate RoleOk(s: NodeState) {
    && s.p0.link.idx == 0 && s.p1.link.idx == 1
    && !s.p0.link.rpl
    && (s.p1.link.rpl <==> s.cfg.owner || s.cfg.nbr)
    && !(s.cfg.owner && s.cfg.nbr)
  }

  /** A configured node before initialization, as static storage leaves it. */
  predicate Fresh(s: NodeState) {
    && RoleOk(s)
    && s.state.Uninit? && s.topreq == Invalid && s.pdu == PduMut(0, 0)
    && s.wtr.Stopped? && s.wtb.Stopped?
    && !s.p0.failed && !s.p1.failed && !s.p0.blocked && !s.p1.blocked
    && s.p0.burst == 0 && s.p1.burst == 0 && s.p0.tx.TxOff? && s.p1.tx.TxOff?
  }

  /** Disable one port in the driver without telling the node. */
  function DisablePort(s: NodeState, p: PortNo, env: Env): Outcome {
    match env.Io(p)
    case NoIface => Failed(s, -ENODEV)
    case SetFails(err) => Failed(s, err)
    case _ => Done(s.WithPort(p, s.Port(p).(enabled := false)))
  }

  function BlockAll(s: NodeState, env: Env): Outcome {
    var s1 :- DisablePort(s, 0, env);
    DisablePort(s1, 1, env)
  }

  function InitPorts(s: NodeState, blockPort: PortNo, env: Env): Outcome {
    var s1 :- Block(s, blockPort, env);
    var s2 :- UnblockForce(s1, Other(blockPort), env);
    SchedTx(s2, NR, 0, 0, env)
  }

  function InitByRole(s: NodeState, env: Env): Outcome {
    if s.cfg.owner || s.cfg.nbr then
      if !s.p1.link.rpl then Trap(s)
      else
        var s1 :- InitPorts(s, 1, env);
        if Reverts(s) then StartWtr(s1, env) else Done(s1)
    else InitPorts(s, 0, env)
  }

  /** The node enters PENDING even when a step of its initialization fails. */
  function FsmInit(s: NodeState, env: Env): Outcome {
    var o := InitByRole(s.(guard := Stopped), env);
    o.(node := o.node.(state := Pending))
  }

  /** System start: all ports are disabled in the driver, then the node is initialized. */
  function Boot(s: NodeState, env0: Env, env: Env): Outcome {
    var s1 :- BlockAll(s, env0);
    FsmInit(s1, env)
  }
}
