/** A ring node as an object whose fields are updated in place, statement by statement as in the
    C sources, and proved against the state machine of Fsm.dfy for every outcome of its foreign calls. */
module RingNode {
  import opened Requests
  import opened NodeIds
  import opened Raps
  import opened NodeModel
  import opened Events
  import opened Robustness
  import opened Reception
  import opened Runs
  import opened Roles
  import F = Fsm

  class Node {
    var cfg: Config
    var state: FsmState
    var topreq: Request
    var pdu: PduMut
    const ports: array<Port>
    var wtr: Timer
    var wtb: Timer
    var guard: Timer
    var flushes: nat
    ghost var doubleStarts: nat

    ghost function State(): NodeState
      requires ports.Length == 2
      reads this, ports
    {
      NodeState(cfg, state, topreq, pdu, ports[0], ports[1], wtr, wtb, guard, flushes, doubleStarts)
    }

    /** An initialized node, with all that no failure can break. */
    ghost predicate Valid()
      reads this, ports
    {
      ports.Length == 2 && Robust(State()) && !state.Uninit?
    }

    /** The node is as an outcome says, so is the return value, and no assertion was hit. */
    ghost predicate Is(o: Outcome, ret: int)
      requires ports.Length == 2
      reads this, ports
    {
      State() == o.node && ret == o.Ret() && !o.Trap?
    }

    // ----- blocking and unblocking -----

    method BlockLink(p: PortNo, env: Env) returns (ret: int)
      requires ports.Length == 2
      modifies ports
      ensures Is(Block(old(State()), p, env), ret)
    {
      if ports[p].blocked {
        return 0;
      }
      if env.Io(p).NoIface? {
        return -ENODEV;
      }
      if env.Io(p).SetFails? {
        return env.Io(p).err;
      }
      ports[p] := ports[p].(enabled := false);
      ports[p] := ports[p].(blocked := true);
      if env.Io(p).NoVlan? {
        return -ENODEV;
      }
      return 0;
    }

    method UnblockLink(p: PortNo, env: Env) returns (ret: int)
      requires ports.Length == 2
      modifies ports
      ensures Is(Unblock(old(State()), p, env), ret)
    {
      ports[p] := ports[p].(failed := false);
      if !ports[p].blocked {
        return 0;
      }
      if env.Io(p).NoIface? {
        return -ENODEV;
      }
      if env.Io(p).SetFails? {
        return env.Io(p).err;
      }
      ports[p] := ports[p].(enabled := true);
      ports[p] := ports[p].(blocked := false);
      if env.Io(p).NoVlan? {
        return -ENODEV;
      }
      return 0;
    }

    method UnblockLinkForce(p: PortNo, env: Env) returns (ret: int)
      requires ports.Length == 2
      modifies ports
      ensures Is(UnblockForce(old(State()), p, env), ret)
    {
      ports[p] := ports[p].(blocked := true);
      ret := UnblockLink(p, env);
    }

    method UnblockAllLinks(env: Env) returns (ret: int)
      requires ports.Length == 2
      modifies ports
      ensures Is(UnblockAll(old(State()), env), ret)
    {
      hide Unblock;
      ret := 0;
      var i := 0;
      while ret == 0 && i < 2
        invariant 0 <= i <= 2
        invariant i == 0 ==> Is(Done(old(State())), ret)
        invariant i == 1 ==> Is(Unblock(old(State()), 0, env), ret)
        invariant i == 2 ==> Is(UnblockAll(old(State()), env), ret)
      {
        ret := UnblockLink(i, env);
        i := i + 1;
      }
    }

    method UnblockNonFailedLinks(env: Env) returns (ret: int)
      requires ports.Length == 2
      modifies ports
      ensures Is(UnblockNonFailed(old(State()), env), ret)
    {
      hide Unblock;
      ret := 0;
      var i := 0;
      while ret == 0 && i < 2
        invariant 0 <= i <= 2
        invariant i == 0 ==> Is(Done(old(State())), ret)
        invariant i == 1 ==> Is(UnblockUnlessFailed(old(State()), 0, env), ret)
        invariant i == 2 ==> Is(UnblockNonFailed(old(State()), env), ret)
      {
        if !ports[i].failed {
          ret := UnblockLink(i, env);
        }
        i := i + 1;
      }
    }

    // ----- transmission -----

    method ArmTransmitters(env: Env) returns (ret: int)
      requires ports.Length == 2
      modifies ports
      ensures Is(ArmAll(old(State()), env), ret)
    {
      hide ArmTx;
      ret := 0;
      var i := 0;
      while ret >= 0 && i < 2
        invariant 0 <= i <= 2
        invariant i == 0 ==> Is(Done(old(State())), ret)
        invariant i == 1 ==> Is(ArmTx(old(State()), 0, env), ret)
        invariant i == 2 ==> Is(ArmAll(old(State()), env), ret)
      {
        ret := ArmTransmitter(i, env);
        i := i + 1;
      }
    }

    method ArmTransmitter(p: PortNo, env: Env) returns (ret: int)
      requires ports.Length == 2
      modifies ports
      ensures Is(ArmTx(old(State()), p, env), ret)
    {
      if !env.Up(p) {
        return 0;
      }
      if env.Tx(p) < 0 {
        return env.Tx(p);
      }
      ports[p] := ports[p].(tx := TxDue(if ports[p].burst > 0 then TX_BURST_PERIOD_US else TX_PERIOD_US));
      return 0;
    }

    method ReplacePdu(rsSc: bv8, status: bv8) returns (burst: nat)
      modifies `pdu
      ensures pdu == PduMut(rsSc, status)
      ensures burst == if pdu != old(pdu) then TX_BURST else 0
    {
      burst := 0;
      if pdu.rsSc != rsSc {
        pdu := pdu.(rsSc := rsSc);
        burst := TX_BURST;
      }
      if pdu.status != status {
        pdu := pdu.(status := status);
        burst := TX_BURST;
      }
    }

    method ScheduleTx(reqState: bv8, subcode: bv8, status: bv8, env: Env) returns (ret: int)
      requires ports.Length == 2
      modifies `pdu, ports
      ensures Is(SchedTx(old(State()), reqState, subcode, status, env), ret)
    {
      hide ArmAll, RsSc;
      if !ValidReqState(reqState) {
        return -EINVAL;
      }
      if subcode != 0 && reqState != EVENT {
        return -EINVAL;
      }
      ports[0] := ports[0].(tx := TxOff);
      ports[1] := ports[1].(tx := TxOff);
      var burst := ReplacePdu(RsSc(reqState, subcode), status);
      ports[0] := ports[0].(burst := burst);
      ports[1] := ports[1].(burst := burst);
      assert ports[0] == old(ports[0]).(tx := TxOff, burst := burst);
      assert ports[1] == old(ports[1]).(tx := TxOff, burst := burst);
      ret := ArmTransmitters(env);
    }

    method StopTransmission()
      requires ports.Length == 2
      modifies ports
      ensures State() == StopTx(old(State()))
    {
      ports[0] := ports[0].(tx := TxOff);
      ports[1] := ports[1].(tx := TxOff);
    }

    method FlushFdb(env: Env) returns (ret: int)
      requires ports.Length == 2
      modifies `flushes
      ensures Is(Flush(old(State()), env), ret)
    {
      if env.flush < 0 {
        return env.flush;
      }
      flushes := flushes + 1;
      return 0;
    }

    // ----- timers -----

    method StartGuardTimer()
      requires ports.Length == 2
      modifies `guard
      ensures State() == StartGuard(old(State()))
    {
      guard := Running(cfg.guardMs);
    }

    method StopWtrAndWtbIfOwner()
      requires ports.Length == 2
      modifies `wtr, `wtb
      ensures State() == StopTimersIfOwner(old(State()))
    {
      if cfg.owner {
        wtr := Stopped;
        wtb := Stopped;
      }
    }

    /** Starting a timer posts a request to the state machine from within the state machine. */
    method StartTimer(isWtr: bool, env: Env) returns (ret: int)
      requires ports.Length == 2
      modifies this, ports
      ensures Is(if isWtr then F.StartWtr(old(State()), env) else F.StartWtb(old(State()), env), ret)
      decreases 1, 0
    {
      if (if isWtr then wtr else wtb).Running? {
        doubleStarts := doubleStarts + 1;
        return 0;
      }
      var req := if isWtr then WtrRunning else WtbRunning;
      F.NestedPostOnlyLatches(State(), 0, req, env);
      hide F.Post, ResolvePriority;
      var posted := PostLocked(0, req, None, env);
      if env.timer < 0 {
        return env.timer;
      }
      if isWtr {
        wtr := Running(cfg.wtrMinutes * 60000);
      } else {
        wtb := Running(cfg.guardMs + 5000);
      }
      return 0;
    }

    // ----- handlers shared by several states -----

    method FsSfMs(p: PortNo, reqState: bv8, next: FsmState, env: Env) returns (ret: int)
      requires ports.Length == 2
      modifies this, ports
      ensures Is(F.FsSfMs(old(State()), p, reqState, next, env), ret)
    {
      hide Block, Unblock, SchedTx, Flush;
      ret := 0;
      var status := DNF;
      if !ports[p].blocked {
        ret := BlockLink(p, env);
        status := 0;
      }
      if ret == 0 {
        ret := ScheduleTx(reqState, 0, status, env);
      }
      if ret == 0 {
        ret := UnblockLink(Other(p), env);
      }
      if ret == 0 && status == 0 {
        ret := FlushFdb(env);
      }
      if ret == 0 {
        state := next;
      }
    }

    method UnblockAndStop(onlyNonFailed: bool, next: FsmState, env: Env) returns (ret: int)
      requires ports.Length == 2
      modifies this, ports
      ensures Is(F.UnblockAndStop(old(State()), onlyNonFailed, next, env), ret)
    {
      hide UnblockAll, UnblockNonFailed;
      if onlyNonFailed {
        ret := UnblockNonFailedLinks(env);
      } else {
        ret := UnblockAllLinks(env);
      }
      if ret == 0 {
        StopTransmission();
        state := next;
      }
    }

    method MaybeUnblockAndStop(frame: Option<Pdu>, env: Env) returns (ret: int)
      requires ports.Length == 2 && frame.Some?
      modifies this, ports
      ensures Is(F.MaybeUnblockAndStop(old(State()), frame, env), ret)
    {
      hide UnblockNonFailed, Memcmp;
      if env.idErr < 0 {
        return env.idErr;
      }
      if Memcmp(frame.value.nodeId, cfg.id) <= 0 {
        return 0;
      }
      ret := UnblockNonFailedLinks(env);
      if ret == 0 {
        StopTransmission();
      }
    }

    method ClearCommon(env: Env) returns (ret: int)
      requires ports.Length == 2
      modifies this, ports
      ensures Is(F.ClearCommon(old(State()), env), ret)
      decreases 1, 1
    {
      hide SchedTx, F.StartWtb;
      ret := 0;
      if ports[0].blocked || ports[1].blocked {
        StartGuardTimer();
        ret := ScheduleTx(NR, 0, 0, env);
        if ret == 0 && cfg.owner && cfg.revertive {
          ret := StartTimer(false, env);
        }
      }
      if ret == 0 {
        state := Pending;
      }
    }

    method BlockRplAndAnnounce(env: Env) returns (ret: int)
      requires ports.Length == 2 && ports[1].link.rpl
      modifies this, ports
      ensures Is(F.BlockRplAndAnnounce(old(State()), env), ret)
    {
      hide Block, Unblock, SchedTx, Flush;
      ret := 0;
      var status := RB | DNF;
      if !ports[1].blocked {
        ret := BlockLink(1, env);
        status := status & !DNF;
      }
      if ret == 0 {
        ret := ScheduleTx(NR, 0, status, env);
      }
      if ret == 0 {
        ret := UnblockLink(0, env);
      }
      if ret == 0 && status & DNF == 0 {
        ret := FlushFdb(env);
      }
      if ret == 0 {
        state := Idle;
      }
    }

    // ----- state A, IDLE -----

    method RapsNrRbIdle(env: Env) returns (ret: int)
      requires ports.Length == 2
      modifies this, ports
      ensures Is(F.RapsNrRbIdle(old(State()), env), ret)
    {
      hide Unblock;
      ret := 0;
      if ports[1].link.rpl {
        ret := UnblockLink(0, env);
      }
      if ret == 0 && !cfg.owner {
        StopTransmission();
      }
    }

    method PostIdle(p: PortNo, req: Request, frame: Option<Pdu>, env: Env) returns (ret: int)
      requires ports.Length == 2 && (req.RapsNr? ==> frame.Some?)
      modifies this, ports
      ensures Is(F.PostIdle(old(State()), p, req, frame, env), ret)
    {
      hide F.FsSfMs, F.UnblockAndStop, F.MaybeUnblockAndStop, F.RapsNrRbIdle;
      ret := 0;
      match req
      case Fs => ret := FsSfMs(p, FS, ForcedSwitch, env);
      case RapsFs => ret := UnblockAndStop(false, ForcedSwitch, env);
      case Sf => ret := FsSfMs(p, SF, Protection, env);
      case RapsSf => ret := UnblockAndStop(true, Protection, env);
      case RapsMs => ret := UnblockAndStop(true, ManualSwitch, env);
      case Ms => ret := FsSfMs(p, MS, ManualSwitch, env);
      case RapsNrRb => ret := RapsNrRbIdle(env);
      case RapsNr =>
        if !cfg.owner && !cfg.nbr {
          ret := MaybeUnblockAndStop(frame, env);
        }
      case Invalid => ret := -EINVAL;
      case _ =>
    }

    // ----- state B, PROTECTION -----

    method ClearSfProtection(env: Env) returns (ret: int)
      requires ports.Length == 2
      modifies this, ports
      ensures Is(F.ClearSfProtection(old(State()), env), ret)
      decreases 1, 1
    {
      hide SchedTx, F.StartWtr;
      StartGuardTimer();
      ret := ScheduleTx(NR, 0, 0, env);
      if ret == 0 && cfg.owner && cfg.revertive {
        ret := StartTimer(true, env);
      }
      if ret == 0 {
        state := Pending;
      }
    }

    method RapsNrProtection(rb: bool, env: Env) returns (ret: int)
      requires ports.Length == 2
      modifies this, ports
      ensures Is(F.RapsNrProtection(old(State()), rb, env), ret)
      decreases 1, 1
    {
      hide F.StartWtr;
      ret := 0;
      if !rb && cfg.owner && cfg.revertive {
        ret := StartTimer(true, env);
      }
      if ret == 0 {
        state := Pending;
      }
    }

    method PostProtection(p: PortNo, req: Request, env: Env) returns (ret: int)
      requires ports.Length == 2
      modifies this, ports
      ensures Is(F.PostProtection(old(State()), p, req, env), ret)
      decreases Depth(req), 2
    {
      hide F.FsSfMs, F.UnblockAndStop, F.ClearSfProtection, F.RapsNrProtection;
      ret := 0;
      match req
      case Fs => ret := FsSfMs(p, FS, ForcedSwitch, env);
      case RapsFs => ret := UnblockAndStop(false, ForcedSwitch, env);
      case Sf => ret := FsSfMs(p, SF, Protection, env);
      case ClearSf => ret := ClearSfProtection(env);
      case RapsNrRb => ret := RapsNrProtection(true, env);
      case RapsNr => ret := RapsNrProtection(false, env);
      case Invalid => ret := -EINVAL;
      case _ =>
    }

    // ----- state C, MANUAL_SWITCH -----

    method RapsMsManualSwitch(env: Env) returns (ret: int)
      requires ports.Length == 2 && state.ManualSwitch?
      modifies this, ports
      ensures Is(F.RapsMsManualSwitch(old(State()), env), ret)
      decreases 1, 1
    {
      hide SchedTx, F.StartWtb;
      ret := 0;
      var next := ManualSwitch;
      if ports[0].blocked || ports[1].blocked {
        StartGuardTimer();
        ret := ScheduleTx(NR, 0, 0, env);
        if ret == 0 && cfg.owner && cfg.revertive {
          ret := StartTimer(false, env);
          next := Pending;
        }
      }
      if ret == 0 {
        state := next;
      }
    }

    /** R-APS(NR) and R-APS(NR,RB) in MANUAL_SWITCH and FORCED_SWITCH. */
    method RapsNrSwitched(rb: bool, env: Env) returns (ret: int)
      requires ports.Length == 2
      modifies this, ports
      ensures Is(F.RapsNrSwitched(old(State()), rb, env), ret)
      decreases 1, 1
    {
      hide F.StartWtb;
      ret := 0;
      if !rb && cfg.owner && cfg.revertive {
        ret := StartTimer(false, env);
      }
      if ret == 0 {
        state := Pending;
      }
    }

    method PostManualSwitch(p: PortNo, req: Request, env: Env) returns (ret: int)
      requires ports.Length == 2 && state.ManualSwitch?
      modifies this, ports
      ensures Is(F.PostManualSwitch(old(State()), p, req, env), ret)
      decreases Depth(req), 2
    {
      hide F.FsSfMs, F.UnblockAndStop, F.ClearCommon, F.RapsMsManualSwitch, F.RapsNrSwitched;
      ret := 0;
      match req
      case Clear => ret := ClearCommon(env);
      case Fs => ret := FsSfMs(p, FS, ForcedSwitch, env);
      case RapsFs => ret := UnblockAndStop(false, ForcedSwitch, env);
      case Sf => ret := FsSfMs(p, SF, Protection, env);
      case RapsSf => ret := UnblockAndStop(true, Protection, env);
      case RapsMs => ret := RapsMsManualSwitch(env);
      case RapsNrRb => ret := RapsNrSwitched(true, env);
      case RapsNr => ret := RapsNrSwitched(false, env);
      case Invalid => ret := -EINVAL;
      case _ =>
    }

    // ----- state D, FORCED_SWITCH -----

    method FsForcedSwitch(p: PortNo, env: Env) returns (ret: int)
      requires ports.Length == 2
      modifies this, ports
      ensures Is(F.FsForcedSwitch(old(State()), p, env), ret)
    {
      hide Block, SchedTx, Flush;
      ret := BlockLink(p, env);
      if ret == 0 {
        ret := ScheduleTx(FS, 0, 0, env);
      }
      if ret == 0 {
        ret := FlushFdb(env);
      }
    }

    method PostForcedSwitch(p: PortNo, req: Request, env: Env) returns (ret: int)
      requires ports.Length == 2
      modifies this, ports
      ensures Is(F.PostForcedSwitch(old(State()), p, req, env), ret)
      decreases Depth(req), 2
    {
      hide F.ClearCommon, F.FsForcedSwitch, F.RapsNrSwitched;
      ret := 0;
      match req
      case Clear => ret := ClearCommon(env);
      case Fs => ret := FsForcedSwitch(p, env);
      case RapsNrRb => ret := RapsNrSwitched(true, env);
      case RapsNr => ret := RapsNrSwitched(false, env);
      case Invalid => ret := -EINVAL;
      case _ =>
    }

    // ----- state E, PENDING -----

    method ClearPending(env: Env) returns (ret: int)
      requires ports.Length == 2
      modifies this, ports
      ensures Is(F.ClearPending(old(State()), env), ret)
    {
      hide F.BlockRplAndAnnounce;
      StopWtrAndWtbIfOwner();
      ret := 0;
      if ports[1].link.rpl {
        ret := BlockRplAndAnnounce(env);
      } else {
        state := Idle;
      }
    }

    method ExpiresPending(isWtr: bool, env: Env) returns (ret: int)
      requires ports.Length == 2 && (cfg.owner ==> ports[1].link.rpl)
      modifies this, ports
      ensures Is(if isWtr then F.WtrExpiresPending(old(State()), env) else F.WtbExpiresPending(old(State()), env), ret)
    {
      hide F.BlockRplAndAnnounce;
      ret := 0;
      if cfg.owner {
        if isWtr {
          wtb := Stopped;
        } else {
          wtr := Stopped;
        }
        ret := BlockRplAndAnnounce(env);
      }
    }

    method RapsNrRbPending(env: Env) returns (ret: int)
      requires ports.Length == 2 && RoleOk(State())
      modifies this, ports
      ensures Is(F.RapsNrRbPending(old(State()), env), ret)
    {
      hide Block, Unblock, UnblockAll;
      ret := 0;
      if cfg.owner {
        StopWtrAndWtbIfOwner();
      } else if !cfg.nbr {
        ret := UnblockAllLinks(env);
        if ret == 0 {
          StopTransmission();
        }
      } else {
        ret := BlockLink(1, env);
        if ret == 0 {
          ret := UnblockLink(0, env);
        }
        if ret == 0 {
          StopTransmission();
        }
      }
      if ret == 0 {
        state := Idle;
      }
    }

    method PostPending(p: PortNo, req: Request, frame: Option<Pdu>, env: Env) returns (ret: int)
      requires ports.Length == 2 && (req.IsRunning() || RoleOk(State())) && (req.RapsNr? ==> frame.Some?)
      modifies this, ports
      ensures Is(F.PostPending(old(State()), p, req, frame, env), ret)
    {
      hide F.FsSfMs, F.UnblockAndStop, F.MaybeUnblockAndStop, F.ClearPending, F.RapsNrRbPending;
      hide F.WtrExpiresPending, F.WtbExpiresPending;
      ret := 0;
      match req {
        case Clear => ret := ClearPending(env);
        case Fs => ret := FsSfMs(p, FS, ForcedSwitch, env);
        case RapsFs => ret := UnblockAndStop(false, ForcedSwitch, env);
        case Sf => ret := FsSfMs(p, SF, Protection, env);
        case RapsSf => ret := UnblockAndStop(true, Protection, env);
        case RapsMs => ret := UnblockAndStop(true, ManualSwitch, env);
        case Ms =>
          StopWtrAndWtbIfOwner();
          ret := FsSfMs(p, MS, ManualSwitch, env);
        case WtrExpires => ret := ExpiresPending(true, env);
        case WtbExpires => ret := ExpiresPending(false, env);
        case RapsNrRb => ret := RapsNrRbPending(env);
        case RapsNr => ret := MaybeUnblockAndStop(frame, env);
        case Invalid => ret := -EINVAL;
        case _ =>
      }
      if ret == 0 && req in {Fs, RapsFs, Sf, RapsSf, RapsMs} {
        StopWtrAndWtbIfOwner();
      }
    }

    // ----- posting -----

    /** Table 10-1: false when the request is ignored. */
    method ResolveRequestPriority(req: Request) returns (accepted: bool)
      requires ports.Length == 2
      modifies `topreq
      ensures accepted == ResolvePriority(old(State()), req).Some?
      ensures State() == match ResolvePriority(old(State()), req)
                case Some(top) => old(State()).(topreq := top)
                case None => old(State())
    {
      if req.Clear? && !ClearValid(cfg, topreq) {
        return false;
      }
      if req.ClearSf? && topreq.Sf? {
        topreq := Invalid;
      }
      if req.Rank() > topreq.Rank() {
        return false;
      }
      topreq := if req.IsLatched() then req else Invalid;
      return true;
    }

    method PostLocked(p: PortNo, req: Request, frame: Option<Pdu>, env: Env) returns (ret: int)
      requires ports.Length == 2 && (req.IsRunning() || (RoleOk(State()) && (req.RapsNr? ==> frame.Some?)))
      modifies this, ports
      ensures Is(F.Post(old(State()), p, req, frame, env), ret)
      decreases Depth(req), 3
    {
      hide ResolvePriority;
      hide F.PostIdle, F.PostProtection, F.PostManualSwitch, F.PostForcedSwitch, F.PostPending;
      var accepted := ResolveRequestPriority(req);
      if !accepted {
        return 0;
      }
      if req.Sf? {
        ports[p] := ports[p].(failed := true);
      }
      if req.ClearSf? && ports[p].link.rpl && !state.Protection? {
        return 0;
      }
      ret := 0;
      match state
      case Idle => ret := PostIdle(p, req, frame, env);
      case Protection => ret := PostProtection(p, req, env);
      case ManualSwitch => ret := PostManualSwitch(p, req, env);
      case ForcedSwitch => ret := PostForcedSwitch(p, req, env);
      case Pending => ret := PostPending(p, req, frame, env);
      case Uninit =>
    }

    // ----- construction, roles and initialization -----

    /** A node as the devicetree describes it: the RPL, if there is one, is the second link. */
    constructor (revertive: bool, hasRpl: bool, isOwner: bool, ver: bv8, mel: bv8, id: NodeId,
                 wtrMinutes: nat, guardMs: nat, dev0: nat, dev1: nat)
      requires isOwner ==> hasRpl
      ensures fresh(ports) && ports.Length == 2
      ensures Fresh(State())
      ensures cfg == Config(revertive, isOwner, !isOwner && hasRpl, ver, mel, id, wtrMinutes, guardMs)
      ensures ports[0].link == Link(false, 0, dev0) && ports[1].link == Link(hasRpl, 1, dev1)
    {
      cfg := Config(revertive, isOwner, !isOwner && hasRpl, ver, mel, id, wtrMinutes, guardMs);
      state, topreq, pdu := Uninit, Invalid, PduMut(0, 0);
      wtr, wtb, guard, flushes := Stopped, Stopped, Stopped, 0;
      doubleStarts := 0;
      var a := new Port[2](i => Port(Link(i == 1 && hasRpl, i, if i == 0 then dev0 else dev1),
                                     false, false, false, 0, TxOff));
      ports := a;
    }

    method FindPort(dev: nat) returns (found: Option<PortNo>)
      requires ports.Length == 2
      ensures found == Lookup(State(), dev)
    {
      found := None;
      var i := 0;
      while found.None? && i < 2
        invariant 0 <= i <= 2
        invariant found.None? ==> forall j :: 0 <= j < i ==> ports[j].link.dev != dev
        invariant found.Some? ==> found == Lookup(State(), dev)
      {
        if ports[i].link.dev == dev {
          found := Some(i);
        }
        i := i + 1;
      }
    }

    method SetAsRpl(dev: nat, isOwner: bool) returns (ret: int)
      requires ports.Length == 2
      modifies `cfg, ports
      ensures Configured(State(), ret) == SetRole(old(State()), dev, isOwner)
    {
      var found := FindPort(dev);
      if found.None? {
        return -ENODEV;
      }
      var p := found.value;
      if !state.Uninit? {
        return -EPERM;
      }
      if ports[Other(p)].link.rpl {
        return -EBUSY;
      }
      cfg := cfg.(owner := isOwner, nbr := !isOwner);
      ports[p] := ports[p].(link := ports[p].link.(rpl := true));
      if p != 1 {
        var tmp := ports[p];
        ports[0] := ports[1];
        ports[1] := tmp;
        ports[0] := ports[0].(link := ports[0].link.(idx := 0));
        ports[1] := ports[1].(link := ports[1].link.(idx := 1));
      }
      return 0;
    }

    /** A null interface is reported; an interface of no ring is not, the caller must not pass it. */
    method UnsetRpl(dev: Option<nat>) returns (ret: int)
      requires ports.Length == 2 && (dev.Some? ==> Lookup(State(), dev.value).Some?)
      modifies `cfg, ports
      ensures Configured(State(), ret) == UnsetRole(old(State()), dev)
    {
      if dev.None? {
        return -ENODEV;
      }
      var found := FindPort(dev.value);
      var p := found.value;
      if !state.Uninit? {
        return -EPERM;
      }
      if ports[p].link.rpl {
        cfg := cfg.(owner := false, nbr := false);
        ports[p] := ports[p].(link := ports[p].link.(rpl := false));
      }
      return 0;
    }

    /** Disable both ports in the driver; the cached flags are not touched. */
    method DisableAllPorts(env: Env) returns (ret: int)
      requires ports.Length == 2
      modifies ports
      ensures Is(BlockAll(old(State()), env), ret)
    {
      ret := 0;
      var i := 0;
      while ret == 0 && i < 2
        invariant 0 <= i <= 2
        invariant i == 0 ==> Is(Done(old(State())), ret)
        invariant i == 1 ==> Is(DisablePort(old(State()), 0, env), ret)
        invariant i == 2 ==> Is(BlockAll(old(State()), env), ret)
      {
        match env.Io(i) {
          case NoIface => ret := -ENODEV;
          case SetFails(err) => ret := err;
          case _ => ports[i] := ports[i].(enabled := false);
        }
        i := i + 1;
      }
    }

    method InitializePorts(b: PortNo, env: Env) returns (ret: int)
      requires ports.Length == 2
      modifies `pdu, ports
      ensures Is(InitPorts(old(State()), b, env), ret)
    {
      hide Block, UnblockForce, SchedTx;
      ret := BlockLink(b, env);
      if ret == 0 {
        ret := UnblockLinkForce(Other(b), env);
      }
      if ret == 0 {
        ret := ScheduleTx(NR, 0, 0, env);
      }
    }

    method InitializeFsm(env: Env) returns (ret: int)
      requires ports.Length == 2 && RoleOk(State())
      modifies this, ports
      ensures Is(FsmInit(old(State()), env), ret)
    {
      hide InitPorts, F.StartWtr;
      guard := Stopped;
      if cfg.owner || cfg.nbr {
        ret := InitializePorts(1, env);
        if ret == 0 && cfg.owner && cfg.revertive {
          ret := StartTimer(true, env);
        }
      } else {
        ret := InitializePorts(0, env);
      }
      state := Pending;
    }

    /** System start. When it reports success the node is in PENDING with one port blocked, and the
        cached flags agree with the driver. */
    method Start(env0: Env, env: Env) returns (ret: int)
      requires ports.Length == 2 && Fresh(State())
      modifies this, ports
      ensures Is(Boot(old(State()), env0, env), ret)
      ensures ret == 0 ==> Valid() && Booted(State())
    {
      hide BlockAll, FsmInit, Booted;
      ret := DisableAllPorts(env0);
      DisabledPortsKeepRoles(old(State()), env0);
      if ret == 0 {
        ret := InitializeFsm(env);
        if ret == 0 {
          BootLeaves(old(State()), env0, env);
          BootedIsRobust(State());
        }
      }
    }

    static lemma DisabledPortsKeepRoles(s: NodeState, env: Env)
      requires Fresh(s)
      ensures RoleOk(BlockAll(s, env).node)
    {
    }

    static lemma BootedIsRobust(s: NodeState)
      requires Booted(s)
      ensures Robust(s) && !s.state.Uninit?
    {
    }

    // ----- entry points of an initialized node -----

    /** Take the lock and post a request. */
    method PostRequest(p: PortNo, req: Request, frame: Option<Pdu>, env: Env) returns (ret: int)
      requires Valid() && (req.RapsNr? ==> frame.Some?)
      requires (req.WtrExpires? ==> wtr.Stopped?) && (req.WtbExpires? ==> wtb.Stopped?)
      modifies this, ports
      ensures Valid() && Is(F.LockAndPost(old(State()), p, req, frame, env), ret)
    {
      hide F.Post, Sound;
      if env.lock < 0 {
        return env.lock;
      }
      PostKeeps(State(), p, req, frame, env);
      ret := PostLocked(p, req, frame, env);
    }

    /** The management entry point. */
    method Control(p: PortNo, cmd: Command, env: Env) returns (ret: int)
      requires Valid()
      modifies this, ports
      ensures Valid() && Is(Step(old(State()), Local(p, cmd), env), ret)
    {
      hide F.LockAndPost, Robust;
      var req;
      match cmd {
        case SignalFail => req := Sf;
        case ClearSignalFail => req := ClearSf;
        case AdmClear => req := Clear;
        case AdmForcedSwitch => req := Fs;
        case AdmManualSwitch => req := Ms;
      }
      ret := PostRequest(p, req, None, env);
    }

    method LinkDownWork(p: PortNo, env: Env)
      requires Valid()
      modifies this, ports
      ensures Valid() && State() == Step(old(State()), LinkDownExpires(p), env).node
    {
      hide F.LockAndPost, Robust;
      if env.lookup == 0 {
        var _ := PostRequest(p, Sf, None, env);
      }
    }

    /** The WTR and WTB handlers, entered with the timer no longer pending. */
    method WtrWork(env: Env)
      requires Valid() && wtr.Running?
      modifies this, ports
      ensures Valid() && State() == Step(old(State()), WtrFires, env).node
    {
      hide F.LockAndPost, Robust;
      StopOneKeeps(State());
      wtr := Stopped;
      var _ := PostRequest(0, WtrExpires, None, env);
    }

    method WtbWork(env: Env)
      requires Valid() && wtb.Running?
      modifies this, ports
      ensures Valid() && State() == Step(old(State()), WtbFires, env).node
    {
      hide F.LockAndPost, Robust;
      StopOneKeeps(State());
      wtb := Stopped;
      var _ := PostRequest(0, WtbExpires, None, env);
    }

    /** The transmit handler tries to send one frame if the interface is up; whether or not it
        succeeds, it re-arms itself. */
    method TxWork(p: PortNo, env: Env) returns (sent: Option<Pdu>)
      requires Valid() && ports[p].tx.TxDue?
      modifies ports
      ensures Valid() && State() == Step(old(State()), TxFires(p), env).node
      ensures sent == if env.lookup == 0 && env.Up(p) && env.send == 0 then Some(CurrentPdu(old(State()))) else None
    {
      hide Robust, CurrentPdu;
      sent := None;
      if env.lookup == 0 && env.Up(p) && env.send == 0 {
        sent := Some(MakePdu());
      }
      TxKeeps(State(), p, env);
      RearmPort(p, env);
    }

    method RearmPort(p: PortNo, env: Env)
      requires ports.Length == 2
      modifies ports
      ensures State() == TxHandler(old(State()), p, env)
    {
      var delay := TX_PERIOD_US;
      if ports[p].burst > 0 {
        delay := TX_BURST_PERIOD_US;
        ports[p] := ports[p].(burst := ports[p].burst - 1);
      }
      ports[p] := ports[p].(tx := if env.Tx(p) >= 0 then TxDue(delay) else TxOff);
    }

    function MakePdu(): Pdu
      requires ports.Length == 2
      reads this, ports
      ensures MakePdu() == CurrentPdu(State())
    {
      var bpr := state.Protection? && ports[1].blocked;
      Pdu((cfg.mel << 5) | cfg.ver, OPCODE, FLAGS, TLV_OFFSET,
          pdu.rsSc, if bpr then pdu.status | BPR else pdu.status, cfg.id)
    }

    /** Reception of a frame addressed to this ring; true when it is consumed. */
    method Receive(p: PortNo, frame: Pdu, env: Env) returns (consumed: bool)
      requires Valid()
      modifies this, ports
      ensures Valid() && State() == Step(old(State()), Event.Receive(p, frame), env).node
      ensures consumed <==>
                && !IsOwn(old(State()), frame, env)
                && (Heard(old(State()), frame, env).Some? || FlushRequest(frame))
                && Step(old(State()), Event.Receive(p, frame), env).Ret() == 0
    {
      hide F.LockAndPost, Robust, Decode, FlushRequest, Asks;
      if env.lookup == 0 && frame.nodeId == cfg.id {
        return false;
      }
      HeardIsRemote(State(), frame, env);
      HeardByValue(State(), frame, env);
      match Decode(frame, cfg.ver)
      case Drop =>
        consumed := false;
      case FlushEvent =>
        FlushKeeps(State(), env);
        var ret := FlushFdb(env);
        consumed := ret == 0;
      case Ask(req) =>
        if guard.Running? {
          return false;
        }
        var ret := PostRequest(p, req, Some(frame), env);
        consumed := ret == 0;
    }
  }

  /** Only the timer-running requests may be posted from inside a post. */
  function Depth(req: Request): nat {
    if req.IsRunning() then 0 else 1
  }
}
