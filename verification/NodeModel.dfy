/** The state of one ring node as a value, the outcomes of the foreign calls it makes, and
    the primitive operations on it: blocking ports, scheduling transmission, timers. */
module NodeModel {
  import opened Requests
  import opened NodeIds
  import opened Raps

  /** A port number; the ring protection link, if the node has one, is port 1. */
  type PortNo = i: nat | i < 2

  const TX_BURST: nat := 2
  const TX_PERIOD_US: nat := 5000000
  const TX_BURST_PERIOD_US: nat := 1

  const ENODEV: int := 19
  const EINVAL: int := 22

  datatype FsmState = Idle | Protection | ManualSwitch | ForcedSwitch | Pending | Uninit

  datatype Timer = Stopped | Running(ms: nat)

  datatype TxWork = TxOff | TxDue(delayUs: nat)

  /** The configured part of a port. */
  datatype Link = Link(rpl: bool, idx: nat, dev: nat)

  /** `enabled` is the port's state in the driver, which the node only changes through foreign calls. */
  datatype Port = Port(link: Link, failed: bool, blocked: bool, enabled: bool, burst: nat, tx: TxWork)

  /** What is fixed once the node is initialized. */
  datatype Config = Config(revertive: bool, owner: bool, nbr: bool, ver: bv8, mel: bv8,
                           id: NodeId, wtrMinutes: nat, guardMs: nat)

  /** `flushes` counts the flushes of the forwarding database that the state machine made, and
      `doubleStarts` the starts of WTR or WTB that found the timer running. */
  datatype NodeState = NodeState(
    cfg: Config, state: FsmState, topreq: Request, pdu: PduMut, p0: Port, p1: Port,
    wtr: Timer, wtb: Timer, guard: Timer, flushes: nat, doubleStarts: nat)
  {
    function Port(p: PortNo): Port {
      if p == 0 then p0 else p1
    }

    function WithPort(p: PortNo, port: Port): NodeState {
      if p == 0 then this.(p0 := port) else this.(p1 := port)
    }

    predicate Blocked(p: PortNo) { Port(p).blocked }

    predicate AnyBlocked() { p0.blocked || p1.blocked }

    /** The periodic transmitter is armed on some port. */
    predicate Transmitting() { p0.tx.TxDue? || p1.tx.TxDue? }
  }

  function Other(p: PortNo): PortNo {
    if p == 0 then 1 else 0
  }

  /** How the foreign calls made to block or unblock one port end: all succeed, no
      interface is found, the driver refuses, or the port changes but no VLAN interface is found. */
  datatype PortIo = IoOk | NoIface | SetFails(err: Errno) | NoVlan

  type Errno = e: int | e < 0 witness -1

  type Status = e: int | e <= 0 witness 0

  /** The outcomes of all foreign calls made during one step. No step blocks or unblocks
      a port twice, nor makes any other of these calls twice on one port. `lookup` is the lookup
      an event begins with, `lock` taking the mutex, `send` building and sending one frame. */
  datatype Env = Env(io0: PortIo, io1: PortIo, up0: bool, up1: bool, tx0: Status, tx1: Status,
                     timer: Status, flush: Status, idErr: Status, lookup: Status, lock: Status, send: Status)
  {
    function Io(p: PortNo): PortIo { if p == 0 then io0 else io1 }

    predicate Up(p: PortNo) { if p == 0 then up0 else up1 }

    function Tx(p: PortNo): Status { if p == 0 then tx0 else tx1 }

    /** No foreign call fails; the interfaces may be up or down. */
    predicate Succeeds() {
      && io0.IoOk? && io1.IoOk?
      && tx0 == 0 && tx1 == 0 && timer == 0 && flush == 0 && idErr == 0 && lookup == 0 && lock == 0 && send == 0
    }

    /** An error code that one of the calls of a post made while the lock is held returned. */
    predicate Reports(err: int) {
      || (err == -ENODEV && (io0.NoIface? || io0.NoVlan? || io1.NoIface? || io1.NoVlan?))
      || (io0.SetFails? && err == io0.err) || (io1.SetFails? && err == io1.err)
      || (err < 0 && err in {tx0, tx1, timer, flush, idErr})
    }

    /** Moreover what is scheduled is sent, as some interface is up. */
    predicate Audible() { Succeeds() && (up0 || up1) }
  }

  /** A step of a handler: it completes, stops at a failed foreign call, or hits an
      assertion or a code path marked unreachable. */
  datatype Outcome =
    | Done(node: NodeState)
    | Failed(node: NodeState, err: Errno)
    | Trap(node: NodeState)
  {
    predicate IsFailure() { !Done? }

    function PropagateFailure(): Outcome
      requires IsFailure()
    {
      this
    }

    function Extract(): NodeState
      requires Done?
    {
      node
    }

    /** The C return value. */
    function Ret(): int {
      match this
      case Done(_) => 0
      case Failed(_, err) => err
      case Trap(_) => 0
    }
  }

  function Block(s: NodeState, p: PortNo, env: Env): Outcome {
    var port := s.Port(p);
    var blocked := s.WithPort(p, port.(blocked := true, enabled := false));
    if port.blocked then Done(s)
    else match env.Io(p)
      case NoIface => Failed(s, -ENODEV)
      case SetFails(err) => Failed(s, err)
      case NoVlan => Failed(blocked, -ENODEV)
      case IoOk => Done(blocked)
  }

  function Unblock(s: NodeState, p: PortNo, env: Env): Outcome {
    var port := s.Port(p).(failed := false);
    var s1 := s.WithPort(p, port);
    var unblocked := s.WithPort(p, port.(blocked := false, enabled := true));
    if !port.blocked then Done(s1)
    else match env.Io(p)
      case NoIface => Failed(s1, -ENODEV)
      case SetFails(err) => Failed(s1, err)
      case NoVlan => Failed(unblocked, -ENODEV)
      case IoOk => Done(unblocked)
  }

  /** Unblock without trusting the cached flag; used once, at initialization. */
  function UnblockForce(s: NodeState, p: PortNo, env: Env): Outcome {
    Unblock(s.WithPort(p, s.Port(p).(blocked := true)), p, env)
  }

  function UnblockAll(s: NodeState, env: Env): Outcome {
    var s1 :- Unblock(s, 0, env);
    Unblock(s1, 1, env)
  }

  function UnblockUnlessFailed(s: NodeState, p: PortNo, env: Env): Outcome {
    if s.Port(p).failed then Done(s) else Unblock(s, p, env)
  }

  function UnblockNonFailed(s: NodeState, env: Env): Outcome {
    var s1 :- UnblockUnlessFailed(s, 0, env);
    UnblockUnlessFailed(s1, 1, env)
  }

  function TxDelay(burst: nat): nat {
    if burst > 0 then TX_BURST_PERIOD_US else TX_PERIOD_US
  }

  /** Arm the transmitter of one port; a port whose interface is down is skipped. */
  function ArmTx(s: NodeState, p: PortNo, env: Env): Outcome {
    if !env.Up(p) then Done(s)
    else if env.Tx(p) < 0 then Failed(s, env.Tx(p))
    else Done(s.WithPort(p, s.Port(p).(tx := TxDue(TxDelay(s.Port(p).burst)))))
  }

  function ArmAll(s: NodeState, env: Env): Outcome {
    var s1 :- ArmTx(s, 0, env);
    ArmTx(s1, 1, env)
  }

  predicate ValidReqState(reqState: bv8) {
    reqState == NR || reqState == MS || reqState == SF || reqState == FS || reqState == EVENT
  }

  /** Replace the PDU to send; a PDU that differs from the previous one is sent in a burst. */
  function SchedTx(s: NodeState, reqState: bv8, subcode: bv8, status: bv8, env: Env): Outcome {
    if !ValidReqState(reqState) || (subcode != 0 && reqState != EVENT) then Failed(s, -EINVAL)
    else
      var pdu := PduMut(RsSc(reqState, subcode), status);
      var burst := if pdu != s.pdu then TX_BURST else 0;
      var s1 := s.(pdu := pdu,
                   p0 := s.p0.(tx := TxOff, burst := burst),
                   p1 := s.p1.(tx := TxOff, burst := burst));
      ArmAll(s1, env)
  }

  function StopTx(s: NodeState): NodeState {
    s.(p0 := s.p0.(tx := TxOff), p1 := s.p1.(tx := TxOff))
  }

  function Flush(s: NodeState, env: Env): Outcome {
    if env.flush < 0 then Failed(s, env.flush) else Done(s.(flushes := s.flushes + 1))
  }

  /** The node is the owner of a ring that reverts by itself. */
  predicate Reverts(s: NodeState) { s.cfg.owner && s.cfg.revertive }

  function StartGuard(s: NodeState): NodeState {
    s.(guard := Running(s.cfg.guardMs))
  }

  /** Only the RPL owner has timers to stop. */
  function StopTimersIfOwner(s: NodeState): NodeState {
    if s.cfg.owner then s.(wtr := Stopped, wtb := Stopped) else s
  }

  /** Section 10.1.9: may a local CLEAR be passed on? The top request is compared with
      CLEAR itself, so the branch that would refuse it for a remote top request is dead. */
  predicate ClearValid(cfg: Config, topreq: Request) {
    || topreq.Fs? || topreq.Ms?
    || (var top := if Request.Clear.Rank() < topreq.Rank() then Request.Clear else topreq;
        !top.RapsFs? && !top.RapsMs? && cfg.owner)
  }

  /** An accepted signal failure marks its port as failed. */
  function MarkFailed(s: NodeState, p: PortNo, req: Request): NodeState {
    if req.Sf? then s.WithPort(p, s.Port(p).(failed := true)) else s
  }

  /** The priority logic: the latched request it leaves, or None when the request is ignored. */
  function ResolvePriority(s: NodeState, req: Request): Option<Request> {
    if req.Clear? && !ClearValid(s.cfg, s.topreq) then None
    else
      var top := if req.ClearSf? && s.topreq.Sf? then Invalid else s.topreq;
      if req.Rank() > top.Rank() then None
      else Some(if req.IsLatched() then req else Invalid)
  }
}
