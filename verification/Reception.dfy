/** What a node makes of a received frame, in terms of the octets of the frame. */
module Reception {
  import opened Requests
  import opened Raps
  import opened NodeModel
  import opened Fsm
  import opened Events

  /** An R-APS event, subcode 0 and no status bits. */
  predicate FlushRequest(pdu: Pdu) {
    pdu.opcode == 0x28 && pdu.rsSc == 0xe0 && pdu.status == 0
  }

  /** The request of any other frame, if it has one: NR with or without the RB bit, SF, and unless the
      receiver only knows version 1 (number 0) also MS and FS. */
  function Asks(pdu: Pdu, ver: bv8): Option<Request> {
    var code := pdu.rsSc >> 4;
    if pdu.opcode != 0x28 then None
    else if code == 0x0 then Some(if pdu.status & 0x80 != 0 then RapsNrRb else RapsNr)
    else if code == 0xb then Some(RapsSf)
    else if code == 0x7 && ver != 0 then Some(RapsMs)
    else if code == 0xd && ver != 0 then Some(RapsFs)
    else None
  }

  /** A frame is its receiver's own if it carries the receiver's address, when that can be read. */
  predicate IsOwn(s: NodeState, pdu: Pdu, env: Env) {
    env.lookup == 0 && pdu.nodeId == s.cfg.id
  }

  lemma HeardByValue(s: NodeState, pdu: Pdu, env: Env)
    ensures Heard(s, pdu, env) ==
              if IsOwn(s, pdu, env) || s.guard.Running? then None else Asks(pdu, s.cfg.ver)
    ensures IsOwnFrame(s, pdu, env) <==> IsOwn(s, pdu, env)
    ensures Decode(pdu, s.cfg.ver).FlushEvent? <==> FlushRequest(pdu)
  {
    EventByValue(pdu);
  }

  lemma EventByValue(pdu: Pdu)
    ensures pdu.rsSc >> 4 == 0x0e && pdu.rsSc & 0x0f == 0 <==> pdu.rsSc == 0xe0
    ensures pdu.rsSc >> 4 == 0x0e ==> pdu.rsSc >> 4 !in {0x00, 0x07, 0x0b, 0x0d}
  {
  }

  /** Own frames and frames that are not understood change nothing. A flush request adds one flush, if
      that succeeds, and changes nothing else, the guard timer notwithstanding. */
  lemma OtherFramesOnlyFlush(s: NodeState, p: PortNo, pdu: Pdu, env: Env)
    ensures IsOwn(s, pdu, env) ==> Step(s, Receive(p, pdu), env) == Done(s)
    ensures !IsOwn(s, pdu, env) && FlushRequest(pdu) ==>
              Step(s, Receive(p, pdu), env)
              == if env.flush < 0 then Failed(s, env.flush) else Done(s.(flushes := s.flushes + 1))
    ensures !FlushRequest(pdu) && Asks(pdu, s.cfg.ver).None? ==> Step(s, Receive(p, pdu), env) == Done(s)
    ensures !FlushRequest(pdu) && s.guard.Running? ==> Step(s, Receive(p, pdu), env) == Done(s)
  {
    hide Heard, Decode, IsOwnFrame, Asks, FlushRequest;
    HeardByValue(s, pdu, env);
    FlushAsksNothing(pdu, s.cfg.ver);
  }

  lemma FlushAsksNothing(pdu: Pdu, ver: bv8)
    ensures FlushRequest(pdu) ==> Asks(pdu, ver).None?
  {
    EventByValue(pdu);
  }

  /** Any other frame is posted as what it asks, on the port that received it. */
  lemma RequestIsPosted(s: NodeState, p: PortNo, pdu: Pdu, env: Env)
    requires !IsOwn(s, pdu, env) && s.guard.Stopped? && Asks(pdu, s.cfg.ver).Some?
    ensures Step(s, Receive(p, pdu), env) == LockAndPost(s, p, Asks(pdu, s.cfg.ver).value, Some(pdu), env)
  {
    hide Heard, Decode, IsOwnFrame, Asks, LockAndPost;
    HeardByValue(s, pdu, env);
  }
}
