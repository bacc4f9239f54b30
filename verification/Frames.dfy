/** What is on the wire: the PDU a node builds is understood by its receiver as the request that
    was scheduled; and how often it is sent. */
module Frames {
  import opened Requests
  import opened NodeIds
  import opened Raps
  import opened NodeModel
  import opened Events
  import opened Runs
  import Fsm

  // ----- byte layout -----

  const RFU_SIZE: nat := 24
  const PDU_SIZE: nat := 4 + TLV_OFFSET as nat + 1

  /** The transmitted bytes: common header, R-APS information with its reserved zeros, end TLV. */
  function Bytes(pdu: Pdu, endTlv: Octet): (b: seq<Octet>)
    ensures |b| == PDU_SIZE
  {
    [pdu.melVer as Octet, pdu.opcode as Octet, pdu.flags as Octet, pdu.tlvOff as Octet,
     pdu.rsSc as Octet, pdu.status as Octet] + pdu.nodeId + seq(RFU_SIZE, _ => 0) + [endTlv]
  }

  /** Reception ignores the reserved bytes, the end TLV and any padding after it. */
  function Parse(b: seq<Octet>): Option<Pdu> {
    if |b| < PDU_SIZE then None
    else Some(Pdu(b[0] as bv8, b[1] as bv8, b[2] as bv8, b[3] as bv8, b[4] as bv8, b[5] as bv8, b[6..12]))
  }

  lemma ByteRoundTrip(x: bv8)
    ensures (x as Octet) as bv8 == x
  {
  }

  lemma ParseBytes(pdu: Pdu, endTlv: Octet, padding: seq<Octet>)
    ensures Parse(Bytes(pdu, endTlv) + padding) == Some(pdu)
  {
    ByteRoundTrip(pdu.melVer);
    ByteRoundTrip(pdu.opcode);
    ByteRoundTrip(pdu.flags);
    ByteRoundTrip(pdu.tlvOff);
    ByteRoundTrip(pdu.rsSc);
    ByteRoundTrip(pdu.status);
    assert (Bytes(pdu, endTlv) + padding)[6..12] == pdu.nodeId;
  }

  /** Every octet of a transmitted frame but the first, in numbers. */
  lemma OctetsOnTheWire(s: NodeState, endTlv: Octet)
    ensures var b := Bytes(CurrentPdu(s), endTlv);
            && |b| == 37 && b[1] == 0x28 && b[2] == 0 && b[3] == 32
            && b[4] as bv8 == s.pdu.rsSc
            && b[5] as bv8 == (if s.state.Protection? && s.p1.blocked then s.pdu.status | 0x20 else s.pdu.status)
            && b[6..12] == s.cfg.id && (forall i :: 12 <= i < 36 ==> b[i] == 0) && b[36] == endTlv
  {
    ByteRoundTrip(CurrentPdu(s).rsSc);
    ByteRoundTrip(CurrentPdu(s).status);
  }

  /** The first octet: maintenance level in the upper three bits, version in the others. */
  lemma FirstOctet(s: NodeState, endTlv: Octet)
    requires s.cfg.mel <= 7 && s.cfg.ver <= 31
    ensures var b := Bytes(CurrentPdu(s), endTlv)[0] as bv8; b >> 5 == s.cfg.mel && b & 0x1f == s.cfg.ver
  {
    ByteRoundTrip(CurrentPdu(s).melVer);
    HeaderRoundTrip(s);
  }

  /** The codes of the requests and the status bits. */
  lemma CodesOnTheWire()
    ensures RsSc(NR, 0) == 0x00 && RsSc(MS, 0) == 0x70 && RsSc(SF, 0) == 0xb0 && RsSc(FS, 0) == 0xd0
    ensures RB == 0x80 && DNF == 0x40 && BPR == 0x20
  {
  }

  // ----- the meaning of a frame -----

  predicate Sendable(pdu: PduMut) {
    && pdu.rsSc in {RsSc(NR, 0), RsSc(MS, 0), RsSc(SF, 0), RsSc(FS, 0)}
    && pdu.status in {0, DNF, RB, RB | DNF}
  }

  /** What a request/state and status ask of a receiver of the given version. */
  function Meaning(pdu: PduMut, ver: bv8): Decoded
    requires Sendable(pdu)
  {
    if pdu.rsSc == RsSc(NR, 0) then Ask(if pdu.HasRb() then RapsNrRb else RapsNr)
    else if pdu.rsSc == RsSc(SF, 0) then Ask(RapsSf)
    else if ver == VERSION_1 then Drop
    else Ask(if pdu.rsSc == RsSc(MS, 0) then RapsMs else RapsFs)
  }

  /** The bytes that the node sends are understood: they decode to the meaning of its PDU, the RB
      and DNF bits survive, and the blocked port reference is there exactly in PROTECTION with port
      1 blocked. */
  ghost predicate Understood(s: NodeState, ver: bv8, endTlv: Octet, padding: seq<Octet>)
    requires Sendable(s.pdu)
  {
    var heard := Parse(Bytes(CurrentPdu(s), endTlv) + padding);
    && heard.Some?
    && Decode(heard.value, ver) == Meaning(s.pdu, ver)
    && (heard.value.Rb() <==> s.pdu.HasRb())
    && (heard.value.Dnf() <==> s.pdu.status & DNF != 0)
    && (heard.value.Bpr() <==> s.state.Protection? && s.p1.blocked)
    && heard.value.nodeId == s.cfg.id
  }

  /** Whatever its state, a node is understood. */
  lemma SendableIsDecoded(s: NodeState, ver: bv8, endTlv: Octet, padding: seq<Octet>)
    requires Sendable(s.pdu)
    ensures Understood(s, ver, endTlv, padding)
  {
    hide Bytes, Parse;
    ParseBytes(CurrentPdu(s), endTlv, padding);
    StatusBits(s.pdu);
  }

  lemma StatusBits(pdu: PduMut)
    requires Sendable(pdu)
    ensures RsSc(NR, 0) >> 4 == NR && RsSc(MS, 0) >> 4 == MS && RsSc(SF, 0) >> 4 == SF && RsSc(FS, 0) >> 4 == FS
    ensures var status := pdu.status;
            && status & BPR == 0 && (status | BPR) & BPR != 0
            && (status | BPR) & RB == status & RB && (status | BPR) & DNF == status & DNF
  {
  }

  /** What is scheduled is what is heard, from the moment it is scheduled and in every state that
      the node enters before something else is scheduled. */
  lemma ScheduledIsDecoded(s: NodeState, reqState: bv8, status: bv8, env: Env, later: NodeState,
                              ver: bv8, endTlv: Octet, padding: seq<Octet>)
    requires Sendable(PduMut(RsSc(reqState, 0), status)) && ValidReqState(reqState)
    requires later.pdu == SchedTx(s, reqState, 0, status, env).node.pdu
    ensures later.pdu == PduMut(RsSc(reqState, 0), status) && Understood(later, ver, endTlv, padding)
  {
    SendableIsDecoded(later, ver, endTlv, padding);
  }

  /** Every frame of every reachable sender is understood, whatever foreign calls failed since its
      successful start. */
  lemma EveryFrameIsDecoded(s: NodeState, env0: Env, env: Env, acts: seq<Act>, ver: bv8,
                               endTlv: Octet, padding: seq<Octet>)
    requires Fresh(s) && Boot(s, env0, env).Done?
    requires IsRun(Boot(s, env0, env).node, acts, Anything)
    ensures var t := Run(Boot(s, env0, env).node, acts);
            Sendable(t.pdu) && Understood(t, ver, endTlv, padding)
  {
    hide Boot, Run, IsRun, Understood;
    EveryRunIsRobust(s, env0, env, acts, Act(GuardExpires, env));
    SendableIsDecoded(Run(Boot(s, env0, env).node, acts), ver, endTlv, padding);
  }

  /** The header carries the sender's maintenance level and version. */
  lemma HeaderRoundTrip(s: NodeState)
    requires s.cfg.mel <= 7 && s.cfg.ver <= 31
    ensures CurrentPdu(s).melVer >> 5 == s.cfg.mel && CurrentPdu(s).melVer & 0x1f == s.cfg.ver
  {
  }

  // ----- how often a frame is sent -----

  /** Scheduling, exactly. A bad request/state or subcode is refused. Otherwise the PDU is replaced, and
      each port sends if and only if its interface is up, at once if the PDU is a new one. If arming
      a port fails its code is returned, and that port and the ones after it stay silent. */
  lemma SchedulingIsExact(s: NodeState, reqState: bv8, subcode: bv8, status: bv8, env: Env)
    ensures var o := SchedTx(s, reqState, subcode, status, env);
            if reqState !in {0x0, 0x7, 0xb, 0xd, 0xe} || (subcode != 0 && reqState != 0xe) then o == Failed(s, -22)
            else
              var pdu := PduMut((reqState << 4) | subcode, status);
              var armed := TxDue(if pdu != s.pdu then 1 else 5000000);
              var ok0, ok1 := !env.up0 || env.tx0 == 0, !env.up1 || env.tx1 == 0;
              && o.node == s.(pdu := pdu, p0 := o.node.p0, p1 := o.node.p1)
              && o.node.p0 == s.p0.(burst := if pdu != s.pdu then 2 else 0,
                                    tx := if env.up0 && ok0 then armed else TxOff)
              && o.node.p1 == s.p1.(burst := if pdu != s.pdu then 2 else 0,
                                    tx := if env.up1 && ok0 && ok1 then armed else TxOff)
              && o == (if !ok0 then Failed(o.node, env.tx0) else if !ok1 then Failed(o.node, env.tx1) else Done(o.node))
  {
  }

  /** An interface that comes up arms its own transmitter, and a transmitter that fires counts down its
      own burst; nothing else changes. */
  lemma TransmitterEventsAreExact(s: NodeState, p: PortNo, env: Env)
    ensures var due := TxDue(if s.Port(p).burst > 0 then 1 else 5000000);
            var burst := if s.Port(p).burst > 0 then s.Port(p).burst - 1 else 0;
            && Step(s, IfaceUp(p), env)
               == Done(if env.Tx(p) == 0 then s.WithPort(p, s.Port(p).(tx := due)) else s)
            && Step(s, TxFires(p), env)
               == Done(s.WithPort(p, s.Port(p).(burst := burst, tx := if env.Tx(p) == 0 then due else TxOff)))
            && Step(s, GuardExpires, env) == Done(s.(guard := Stopped))
  {
    hide Fsm.Post, Heard;
  }

  function Fire(s: NodeState, p: PortNo, env: Env, k: nat): NodeState {
    if k == 0 then s else TxHandler(Fire(s, p, env, k - 1), p, env)
  }

  /** A PDU that differs from the last one is sent three times one microsecond apart, and from then
      on every five seconds; an unchanged PDU is not sent in a burst. All copies are identical. */
  lemma {:induction false} BurstSchedule(s: NodeState, reqState: bv8, status: bv8, env: Env, p: PortNo, k: nat)
    requires reqState in {NR, MS, SF, FS} && env.Succeeds() && env.Up(p)
    ensures var t := SchedTx(s, reqState, 0, status, env).node;
            var u := Fire(t, p, env, k);
            var changed := PduMut(RsSc(reqState, 0), status) != s.pdu;
            && u.Port(p).tx == TxDue(if changed && k < 3 then 1 else 5000000)
            && u.Port(p).burst == (if changed && k < 2 then 2 - k else 0)
            && CurrentPdu(u) == CurrentPdu(t)
  {
    if k == 0 {
      BurstStarts(s, reqState, status, env, p);
    } else {
      hide SchedTx, CurrentPdu, TxHandler;
      BurstSchedule(s, reqState, status, env, p, k - 1);
      FireOnce(Fire(SchedTx(s, reqState, 0, status, env).node, p, env, k - 1), p, env);
    }
  }

  lemma BurstStarts(s: NodeState, reqState: bv8, status: bv8, env: Env, p: PortNo)
    requires reqState in {NR, MS, SF, FS} && env.Succeeds() && env.Up(p)
    ensures var t := SchedTx(s, reqState, 0, status, env).node;
            var changed := PduMut(RsSc(reqState, 0), status) != s.pdu;
            && t.Port(p).tx == TxDue(if changed then 1 else 5000000)
            && t.Port(p).burst == if changed then 2 else 0
  {
  }

  lemma FireOnce(s: NodeState, p: PortNo, env: Env)
    requires env.Succeeds() && env.Up(p)
    ensures var t := TxHandler(s, p, env);
            && t.Port(p).tx == TxDue(if s.Port(p).burst > 0 then 1 else 5000000)
            && t.Port(p).burst == (if s.Port(p).burst > 0 then s.Port(p).burst - 1 else 0)
            && CurrentPdu(t) == CurrentPdu(s)
  {
  }
}
