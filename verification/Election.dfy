/** Nodes in PENDING that exchange R-APS(NR): of those that do not wait to revert, only the one
    with the highest identifier of all speakers goes on speaking. */
module Election {
  import opened Requests
  import opened NodeIds
  import opened Raps
  import opened NodeModel
  import opened Events
  import opened TableFacts
  import opened Safety
  import opened SafeRuns
  import opened Ring
  import T = Table

  /** A node of the contest is pending, and what it sends, if it sends, is R-APS(NR). It may be
      silent, with any PDU left over, and it may be waiting for a timer to revert. */
  predicate Contestant(s: NodeState) {
    && ControlOk(s) && s.state.Pending?
    && (s.Transmitting() ==> s.pdu == PduMut(RsSc(NR, 0), s.pdu.status) && !s.pdu.HasRb())
  }

  ghost predicate Contest(r: seq<NodeState>) {
    WellConfigured(r) && forall i :: 0 <= i < |r| ==> Contestant(r[i])
  }

  ghost function Speakers(r: seq<NodeState>): set<nat> {
    set i | 0 <= i < |r| && r[i].Transmitting()
  }

  /** The speakers that wait to revert: they have a request of their own, the running timer. */
  ghost function Waiting(r: seq<NodeState>): set<nat> {
    set i | i in Speakers(r) && !r[i].topreq.Invalid?
  }

  /** A delivery that silences its receiver: it speaks, is not guarded, has no request of its own,
      and hears a higher node. */
  predicate Silences(r: seq<NodeState>, a: RingAct) {
    && a.Deliver? && RingEnabled(r, a)
    && r[a.to].Transmitting() && r[a.to].guard.Stopped? && r[a.to].topreq.Invalid?
    && Value(r[a.from].cfg.id) > Value(r[a.to].cfg.id)
  }

  /** The node that speaks with the numerically greatest address. */
  ghost predicate Champion(r: seq<NodeState>, c: nat) {
    c in Speakers(r) && forall i :: i in Speakers(r) && i != c ==> Value(r[i].cfg.id) < Value(r[c].cfg.id)
  }

  // ----- how rings come to such a contest -----

  /** A freshly initialized ring is such a contest. */
  lemma BootedRingContests(r: seq<NodeState>)
    requires RingBooted(r)
    ensures Contest(r)
  {
  }

  /** A node whose own signal failure has cleared takes part in such a contest. */
  lemma ClearedContests(s: NodeState, p: PortNo, env: Env)
    requires ControlOk(s) && s.state.Protection? && s.topreq.Sf? && env.Succeeds()
    ensures var t := Step(s, Local(p, ClearSignalFail), env).node;
            Contestant(t) && (t.Transmitting() <==> env.Audible()) && (t.topreq.Invalid? <==> !Reverts(s))
  {
    hide Step, T.Announce;
    StepIsReact(s, Local(p, ClearSignalFail), env);
    AnnounceKeepsPorts(s.(topreq := Invalid), NR, 0, env);
  }

  /** So does every node that was idle and heard of a failure and of its end, the owner included: it is
      silent, whatever PDU it sent before. */
  lemma FollowerContests(s: NodeState, p: PortNo, sf: Pdu, env: Env, q: PortNo, nr: Pdu, env': Env)
    requires ControlOk(s) && s.state.Idle? && env.Succeeds() && env'.Succeeds()
    requires Heard(s, sf, env) == Some(RapsSf) && Heard(s, nr, env') == Some(RapsNr)
    ensures var t := Step(Step(s, Receive(p, sf), env).node, Receive(q, nr), env').node;
            Contestant(t) && !t.Transmitting()
  {
    hide Step, Heard, ControlOk, Contestant;
    var s1 := Step(s, Receive(p, sf), env).node;
    IdleFollows(s, p, sf, env);
    HeardAlike(s, s1, nr, env');
    FollowerHearsNr(s1, q, nr, env');
  }

  lemma IdleFollows(s: NodeState, p: PortNo, sf: Pdu, env: Env)
    requires ControlOk(s) && s.state.Idle? && env.Succeeds() && Heard(s, sf, env) == Some(RapsSf)
    ensures var t := Step(s, Receive(p, sf), env).node;
            && ControlOk(t) && t.state.Protection? && t.topreq.Invalid? && !t.Transmitting()
            && t.cfg == s.cfg && t.guard == s.guard && t.pdu == s.pdu
  {
    hide Step, Heard, T.OpenSoundAndMute;
    StepIsReact(s, Receive(p, sf), env);
    OpenSoundKeepsFailed(s.(topreq := Invalid), Protection);
  }

  lemma FollowerHearsNr(s: NodeState, p: PortNo, nr: Pdu, env: Env)
    requires ControlOk(s) && s.state.Protection? && s.topreq.Invalid? && !s.Transmitting()
    requires env.Succeeds() && Heard(s, nr, env) == Some(RapsNr)
    ensures var t := Step(s, Receive(p, nr), env).node; Contestant(t) && !t.Transmitting()
  {
    hide Step, Heard;
    StepIsReact(s, Receive(p, nr), env);
  }

  /** At most one speaker waits, the owner. */
  lemma WaitingIsOwner(r: seq<NodeState>, i: nat, j: nat)
    requires Contest(r) && i in Waiting(r) && j in Waiting(r)
    ensures i == j && Reverts(r[i])
  {
    assert Contestant(r[i]) && Contestant(r[j]);
  }

  // ----- one step -----

  lemma ContestantSendsNr(s: NodeState)
    requires Contestant(s) && s.Transmitting()
    ensures var pdu := CurrentPdu(s);
            pdu.opcode == OPCODE && pdu.ReqState() == NR && !pdu.Rb() && pdu.nodeId == s.cfg.id
  {
  }

  /** Hearing R-APS(NR): a higher sender silences a node that waits for nothing and opens its sound
      ports, otherwise nothing changes at all. */
  lemma HearingNr(s: NodeState, p: PortNo, pdu: Pdu, env: Env)
    requires Contestant(s) && env.Succeeds()
    requires pdu.opcode == OPCODE && pdu.ReqState() == NR && !pdu.Rb()
    ensures var t := Step(s, Receive(p, pdu), env).node;
            && Contestant(t) && t.cfg == s.cfg
            && (if s.topreq.Invalid? && s.guard.Stopped? && Value(pdu.nodeId) > Value(s.cfg.id)
                then t == T.OpenSoundAndMute(s, Pending) else t == s)
  {
    hide Step, T.OpenSoundAndMute, Memcmp, Value, ControlOk;
    var ev := Receive(p, pdu);
    MemcmpOrdersByValue(pdu.nodeId, s.cfg.id);
    PendingLatch(s);
    if s.guard.Stopped? && pdu.nodeId != s.cfg.id {
      assert Heard(s, pdu, env) == Some(RapsNr);
      StepIsReact(s, ev, env);
      OpenSoundKeepsFailed(s, Pending);
      ContestantYields(s);
    } else {
      assert Heard(s, pdu, env) == None;
      NothingHeard(s, p, pdu, env);
    }
  }

  lemma PendingLatch(s: NodeState)
    requires ControlOk(s) && s.state.Pending?
    ensures s.topreq.Invalid? || s.topreq.IsRunning()
  {
  }

  lemma ContestantYields(s: NodeState)
    requires ControlOk(s) && s.state.Pending?
    ensures ControlOk(T.OpenSoundAndMute(s, Pending))
  {
  }

  /** One step: a speaker falls silent exactly when it waits for nothing and hears a higher node
      unguarded, no node starts to speak, and a node that is not silenced keeps its ports. */
  lemma ContestStep(r: seq<NodeState>, a: RingAct)
    requires Contest(r) && RingEnabled(r, a) && Chatter(r, a)
    ensures Contest(RingStep(r, a))
    ensures Speakers(RingStep(r, a)) == if Silences(r, a) then Speakers(r) - {Target(a)} else Speakers(r)
    ensures forall i :: 0 <= i < |r| ==> RingStep(r, a)[i].cfg == r[i].cfg
    ensures Waiting(RingStep(r, a)) == Waiting(r)
    ensures forall i :: i in Speakers(RingStep(r, a)) ==>
              && RingStep(r, a)[i].p0.blocked == r[i].p0.blocked
              && RingStep(r, a)[i].p1.blocked == r[i].p1.blocked
  {
    hide Step, Contestant, CurrentPdu, Value, T.OpenSoundAndMute;
    var s, ev := r[Target(a)], EventAt(r, a);
    var t := Step(s, ev, a.env).node;
    assert Contestant(s);
    if a.NodeEvent? {
      OtherStepsAreMinor(s, ev, a.env);
      MinorStaysContestant(s, t);
    } else {
      assert Contestant(r[a.from]);
      ContestantSendsNr(r[a.from]);
      HearingNr(s, a.port, ev.pdu, a.env);
      OpenSoundKeepsFailed(s, Pending);
    }
    assert Contestant(t);
  }

  lemma MinorStaysContestant(s: NodeState, t: NodeState)
    requires Contestant(s) && SameControl(s, t) && t.state == s.state && t.pdu == s.pdu
    requires t.Transmitting() <==> s.Transmitting()
    ensures Contestant(t)
  {
  }

  /** The champion survives every run with its ports as they were, speakers only ever fall silent. */
  lemma {:induction false} ChampionPrevails(r: seq<NodeState>, c: nat, acts: seq<RingAct>)
    requires IsRingRun(r, acts, Chatter)
    requires Contest(r) && Champion(r, c)
    ensures var t := RingRun(r, acts, Chatter);
            && Contest(t) && Champion(t, c) && Speakers(t) <= Speakers(r) && Waiting(t) == Waiting(r)
            && t[c].p0.blocked == r[c].p0.blocked && t[c].p1.blocked == r[c].p1.blocked
            && |t| == |r| && t[c].cfg == r[c].cfg
    decreases acts
  {
    hide RingEnabled, Chatter, Contest;
    if acts != [] {
      var r' := RingStep(r, acts[0]);
      StepKeepsChampion(r, c, acts[0]);
      ChampionPrevails(r', c, acts[1..]);
    }
  }

  lemma StepKeepsChampion(r: seq<NodeState>, c: nat, a: RingAct)
    requires Contest(r) && Champion(r, c) && RingEnabled(r, a) && Chatter(r, a)
    ensures var t := RingStep(r, a);
            && Contest(t) && Champion(t, c) && Speakers(t) <= Speakers(r) && Waiting(t) == Waiting(r)
            && t[c].p0.blocked == r[c].p0.blocked && t[c].p1.blocked == r[c].p1.blocked
            && |t| == |r| && t[c].cfg == r[c].cfg
  {
    hide Contestant, Value, Step, CurrentPdu;
    ContestStep(r, a);
    var t := RingStep(r, a);
    forall i | i in Speakers(t) && i != c
      ensures Value(t[i].cfg.id) < Value(t[c].cfg.id)
    {
      assert t[i].cfg == r[i].cfg;
    }
  }

  /** Distinct addresses: among the speakers there is always a champion. */
  lemma {:induction false} SomeChampion(r: seq<NodeState>, m: set<nat>) returns (c: nat)
    requires WellConfigured(r) && m != {} && m <= Speakers(r)
    ensures c in m && forall i :: i in m && i != c ==> Value(r[i].cfg.id) < Value(r[c].cfg.id)
    decreases m
  {
    hide Value;
    c :| c in m;
    if m != {c} {
      var d := SomeChampion(r, m - {c});
      MemcmpOrdersByValue(r[c].cfg.id, r[d].cfg.id);
      if Value(r[c].cfg.id) < Value(r[d].cfg.id) { c := d; }
    }
  }

  /** No guard timer runs and no delivery silences anyone. */
  ghost predicate Quiescent(r: seq<NodeState>) {
    && (forall i :: 0 <= i < |r| ==> r[i].guard.Stopped?)
    && forall a :: RingEnabled(r, a) && Chatter(r, a) ==> Speakers(RingStep(r, a)) == Speakers(r)
  }

  /** Election: when an exchange of R-APS(NR) among any number of nodes has come to rest, the speakers
      are the one whose identifier was the greatest among the initial speakers and, if it spoke
      and waited to revert, the owner. If no speaker waited, exactly one is left. */
  lemma HighestIdWins(r: seq<NodeState>, acts: seq<RingAct>, env: Env)
    requires Contest(r) && Speakers(r) != {} && IsRingRun(r, acts, Chatter) && env.Succeeds()
    requires Quiescent(RingRun(r, acts, Chatter))
    ensures exists c: nat :: Champion(r, c) && Speakers(RingRun(r, acts, Chatter)) == {c} + Waiting(r)
  {
    hide Contest, Chatter, IsRingRun, RingRun, Value;
    assert WellConfigured(r) by { ContestIsConfigured(r); }
    var c := SomeChampion(r, Speakers(r));
    assert Champion(r, c);
    ChampionPrevails(r, c, acts);
    RestMeansOne(RingRun(r, acts, Chatter), c, env);
  }

  lemma ContestIsConfigured(r: seq<NodeState>)
    requires Contest(r)
    ensures WellConfigured(r)
  {
  }

  lemma RestMeansOne(r: seq<NodeState>, c: nat, env: Env)
    requires Contest(r) && Champion(r, c) && Quiescent(r) && env.Succeeds()
    ensures Speakers(r) == {c} + Waiting(r)
  {
    hide Contest, Value, RingStep;
    if i: nat :| i in Speakers(r) && i != c && i !in Waiting(r) {
      ContestStep(r, Deliver(c, i, 0, env));
      assert false;
    }
  }
}
