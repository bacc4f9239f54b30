/** The two local events that loop freedom excludes do produce loops: a ring of two nodes in
    which, after either of them, no port is blocked. */
module Loops {
  import opened Requests
  import opened NodeIds
  import opened Raps
  import opened NodeModel
  import opened Events
  import opened Ring
  import Fsm
  import Refinement
  import T = Table

  const WORKING := Env(IoOk, IoOk, true, true, 0, 0, 0, 0, 0, 0, 0, 0)

  const LOW_ID: NodeId := [0, 0, 0, 0, 0, 1]
  const HIGH_ID: NodeId := [0, 0, 0, 0, 0, 2]

  /** A node with no RPL port and the RPL owner (not revertive), both just initialized. */
  const PLAIN := NodeState(
    Config(false, false, false, VERSION_2, 7, LOW_ID, 5, 500), Pending, Invalid, PduMut(RsSc(NR, 0), 0),
    Port(Link(false, 0, 0), false, true, false, 0, TxDue(TX_PERIOD_US)),
    Port(Link(false, 1, 1), false, false, true, 0, TxDue(TX_PERIOD_US)),
    Stopped, Stopped, Stopped, 0, 0)

  const OWNER := NodeState(
    Config(false, true, false, VERSION_2, 7, HIGH_ID, 5, 500), Pending, Invalid, PduMut(RsSc(NR, 0), 0),
    Port(Link(false, 0, 0), false, false, true, 0, TxDue(TX_PERIOD_US)),
    Port(Link(true, 1, 1), false, true, false, 0, TxDue(TX_PERIOD_US)),
    Stopped, Stopped, Stopped, 0, 0)

  /** The plain node fails and is then forced to its other port, the owner follows into
      PROTECTION, is exposed by the given event, and talks the plain node into opening. */
  function Scenario(exposing: Event): seq<RingAct> {
    [NodeEvent(0, Local(0, SignalFail), WORKING),
     Deliver(0, 1, 0, WORKING),
     NodeEvent(1, exposing, WORKING),
     NodeEvent(0, Local(1, AdmForcedSwitch), WORKING),
     NodeEvent(0, Local(1, AdmClear), WORKING),
     NodeEvent(0, GuardExpires, WORKING),
     Deliver(1, 0, 0, WORKING)]
  }

  ghost predicate Working(r: seq<NodeState>, a: RingAct) { a.env == WORKING }

  lemma BootedPair()
    ensures RingBooted([PLAIN, OWNER])
  {
  }

  // ----- the plain node -----

  function Failing(): NodeState { Step(PLAIN, Local(0, SignalFail), WORKING).node }

  function Forced(): NodeState { Step(Failing(), Local(1, AdmForcedSwitch), WORKING).node }

  function Cleared(): NodeState { Step(Forced(), Local(1, AdmClear), WORKING).node }

  function Listening(): NodeState { Step(Cleared(), GuardExpires, WORKING).node }

  lemma FailingSendsSf()
    ensures var s := Failing();
            && s.cfg == PLAIN.cfg && s.Transmitting() && s.pdu == PduMut(RsSc(SF, 0), DNF)
            && s.topreq.Sf? && s.state.Protection?
            && s.wtb.Stopped?
            && !s.p1.blocked && !s.p1.failed
  {
  }

  lemma ForcedHoldsPort1()
    ensures var s := Forced();
            && s.cfg == PLAIN.cfg && s.topreq.Fs? && s.state.ForcedSwitch? && s.wtb.Stopped?
            && s.p1.blocked && !s.p1.failed && !s.p0.blocked && !s.p0.failed
  {
    hide Failing, Memcmp;
    FailingSendsSf();
  }

  lemma ListeningIsOpenToNr()
    ensures Cleared().guard.Running?
    ensures var s := Listening();
            && s.cfg == PLAIN.cfg && s.topreq.Invalid? && s.state.Pending? && s.guard.Stopped?
            && s.p1.blocked && !s.p1.failed && !s.p0.blocked
  {
    hide Forced, Memcmp;
    ForcedHoldsPort1();
  }

  // ----- the owner -----

  function Follower(): NodeState { Step(OWNER, Receive(0, CurrentPdu(Failing())), WORKING).node }

  lemma FollowerIsOpenAndSilent()
    ensures var s := Follower();
            && s.cfg == OWNER.cfg && s.topreq.Invalid? && s.state.Protection?
            && !s.AnyBlocked() && !s.Transmitting() && s.pdu == PduMut(RsSc(NR, 0), 0)
            && s.wtr.Stopped?
  {
    hide Failing, Memcmp, Fsm.Post;
    FailingSendsSf();
    assert Heard(OWNER, CurrentPdu(Failing()), WORKING) == Some(RapsSf);
    OwnerFollows(CurrentPdu(Failing()));
  }

  lemma OwnerFollows(pdu: Pdu)
    ensures var s := Fsm.Post(OWNER, 0, RapsSf, Some(pdu), WORKING).node;
            && s.cfg == OWNER.cfg && s.topreq.Invalid? && s.state.Protection?
            && !s.AnyBlocked() && !s.Transmitting() && s.pdu == PduMut(RsSc(NR, 0), 0)
            && s.wtr.Stopped?
  {
  }

  predicate Exposing(ev: Event) {
    ev in {Local(0, ClearSignalFail), IfaceUp(0)}
  }

  lemma ExposedSpeaksNr(ev: Event)
    requires Exposing(ev)
    ensures var s := Step(Follower(), ev, WORKING).node;
            && s.cfg == OWNER.cfg && !s.AnyBlocked() && s.Transmitting() && s.pdu == PduMut(RsSc(NR, 0), 0)
  {
    hide Follower, Memcmp;
    FollowerIsOpenAndSilent();
  }

  lemma HighIdIsHigher()
    ensures Memcmp(HIGH_ID, LOW_ID) > 0
  {
  }

  /** A frame of the higher node makes the listening node open its last blocked port. */
  lemma ListenerOpens(s: NodeState, pdu: Pdu)
    requires s.cfg == PLAIN.cfg && s.topreq.Invalid? && s.state.Pending?
    requires s.p1.blocked && !s.p1.failed && !s.p0.blocked
    requires pdu.nodeId == HIGH_ID
    ensures !Fsm.Post(s, 0, RapsNr, Some(pdu), WORKING).node.AnyBlocked()
  {
    hide Memcmp, UnblockNonFailed, T.OpenUnlessFailed;
    HighIdIsHigher();
    Refinement.UnblockNonFailedRefines(s, WORKING);
    OpensSound(s.p0);
    OpensSound(s.p1);
  }

  lemma OpensSound(port: Port)
    ensures T.OpenUnlessFailed(port).blocked == (port.blocked && port.failed)
  {
  }

  function Exposed(ev: Event): NodeState { Step(Follower(), ev, WORKING).node }

  function Opened(ev: Event): NodeState { Step(Listening(), Receive(0, CurrentPdu(Exposed(ev))), WORKING).node }

  /** Where the last four steps lead, in which only the plain node changes. */
  lemma ScenarioEnds(ev: Event)
    requires Exposing(ev)
    ensures IsRingRun([Failing(), Exposed(ev)], Scenario(ev)[3..], Working)
    ensures RingRun([Failing(), Exposed(ev)], Scenario(ev)[3..], Working) == [Opened(ev), Exposed(ev)]
  {
    hide Step, CurrentPdu, IsRingRun, RingRun;
    ListeningIsOpenToNr();
    ExposedSpeaksNr(ev);
    var acts, exposed := Scenario(ev), Exposed(ev);
    EmptyRun([Opened(ev), exposed], Working);
    assert acts[7..] == [];
    StepBack([Listening(), exposed], [Opened(ev), exposed], acts, 6, Working);
    StepBack([Cleared(), exposed], [Listening(), exposed], acts, 5, Working);
    StepBack([Forced(), exposed], [Cleared(), exposed], acts, 4, Working);
    StepBack([Failing(), exposed], [Forced(), exposed], acts, 3, Working);
  }

  /** Where all seven steps lead. */
  lemma ScenarioRuns(ev: Event)
    requires Exposing(ev)
    ensures IsRingRun([PLAIN, OWNER], Scenario(ev), Working)
    ensures RingRun([PLAIN, OWNER], Scenario(ev), Working) == [Opened(ev), Exposed(ev)]
  {
    hide Step, CurrentPdu, IsRingRun, RingRun;
    FailingSendsSf();
    ScenarioEnds(ev);
    var acts, exposed := Scenario(ev), Exposed(ev);
    StepBack([Failing(), Follower()], [Failing(), exposed], acts, 2, Working);
    StepBack([Failing(), OWNER], [Failing(), Follower()], acts, 1, Working);
    StepBack([PLAIN, OWNER], [Failing(), OWNER], acts, 0, Working);
    assert acts[0..] == acts;
  }

  /** From a freshly initialized ring of two nodes, with every foreign call succeeding, a run of
      seven steps that contains one clearing of a signal failure (or one interface-up callback)
      at a node with nothing blocked ends with no port of the ring blocked. */
  lemma LoopWhenExposed(ev: Event)
    requires Exposing(ev)
    ensures RingBooted([PLAIN, OWNER])
    ensures IsRingRun([PLAIN, OWNER], Scenario(ev), Working)
    ensures !SomeBlocked(RingRun([PLAIN, OWNER], Scenario(ev), Working))
  {
    hide RingBooted, Scenario, Step, CurrentPdu, IsRingRun, RingRun;
    BootedPair();
    ScenarioRuns(ev);
    ExposedSpeaksNr(ev);
    LastStepOpens(Exposed(ev));
  }

  lemma LastStepOpens(exposed: NodeState)
    requires exposed.cfg == OWNER.cfg && exposed.pdu == PduMut(RsSc(NR, 0), 0)
    requires !exposed.AnyBlocked()
    ensures !Step(Listening(), Receive(0, CurrentPdu(exposed)), WORKING).node.AnyBlocked()
  {
    hide Listening, Fsm.Post, Memcmp;
    ListeningIsOpenToNr();
    assert Heard(Listening(), CurrentPdu(exposed), WORKING) == Some(RapsNr);
    ListenerOpens(Listening(), CurrentPdu(exposed));
  }
}
