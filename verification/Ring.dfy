/** A ring of nodes: any interleaving of events at the nodes and of deliveries of the PDU that
    some node is sending to another node. */
module Ring {
  import opened Requests
  import opened NodeModel
  import opened Events
  import opened Failures
  import opened Robustness
  import opened Runs
  import opened Safety
  import opened SafeRuns
  import Fsm
  import T = Table

  /** A delivery takes the current PDU of a sender; a receiver with its guard timer running drops it. */
  datatype RingAct =
    | NodeEvent(i: nat, ev: Event, env: Env)
    | Deliver(from: nat, to: nat, port: PortNo, env: Env)

  predicate RingEnabled(r: seq<NodeState>, a: RingAct) {
    match a
    case NodeEvent(i, ev, _) => i < |r| && !ev.Receive? && Enabled(r[i], ev)
    case Deliver(from, to, _, _) => from < |r| && to < |r| && r[from].Transmitting()
  }

  function Target(a: RingAct): nat {
    if a.NodeEvent? then a.i else a.to
  }

  /** The event that the target of a ring step experiences. */
  function EventAt(r: seq<NodeState>, a: RingAct): Event
    requires RingEnabled(r, a)
  {
    match a
    case NodeEvent(_, ev, _) => ev
    case Deliver(from, _, port, _) => Receive(port, CurrentPdu(r[from]))
  }

  function RingStep(r: seq<NodeState>, a: RingAct): seq<NodeState>
    requires RingEnabled(r, a)
  {
    r[Target(a) := Step(r[Target(a)], EventAt(r, a), a.env).node]
  }

  ghost predicate IsRingRun(r: seq<NodeState>, acts: seq<RingAct>, ok: (seq<NodeState>, RingAct) -> bool)
    decreases acts
  {
    acts == [] ||
    (RingEnabled(r, acts[0]) && ok(r, acts[0]) && IsRingRun(RingStep(r, acts[0]), acts[1..], ok))
  }

  ghost function RingRun(r: seq<NodeState>, acts: seq<RingAct>, ok: (seq<NodeState>, RingAct) -> bool): seq<NodeState>
    requires IsRingRun(r, acts, ok)
    decreases acts
  {
    if acts == [] then r else RingRun(RingStep(r, acts[0]), acts[1..], ok)
  }

  lemma EmptyRun(r: seq<NodeState>, ok: (seq<NodeState>, RingAct) -> bool)
    ensures IsRingRun(r, [], ok) && RingRun(r, [], ok) == r
  {
  }

  /** One more step at the front of a run. */
  lemma StepBack(r: seq<NodeState>, r': seq<NodeState>, acts: seq<RingAct>, k: nat,
                 ok: (seq<NodeState>, RingAct) -> bool)
    requires k < |acts| && RingEnabled(r, acts[k]) && ok(r, acts[k])
    requires IsRingRun(r', acts[k + 1..], ok) && r' == RingStep(r, acts[k])
    ensures IsRingRun(r, acts[k..], ok)
    ensures RingRun(r, acts[k..], ok) == RingRun(r', acts[k + 1..], ok)
  {
  }

  /** Distinct node identifiers and at most one owner and one neighbour of the RPL. */
  ghost predicate WellConfigured(r: seq<NodeState>) {
    forall i, j :: 0 <= i < j < |r| ==>
      && r[i].cfg.id != r[j].cfg.id
      && !(r[i].cfg.owner && r[j].cfg.owner)
      && !(r[i].cfg.nbr && r[j].cfg.nbr)
  }

  ghost predicate SomeBlocked(r: seq<NodeState>) {
    exists i :: 0 <= i < |r| && r[i].AnyBlocked()
  }

  predicate NodeSafe(s: NodeState) {
    ControlOk(s) && Robust(s) && SpeakOk(s) && OwnerRb(s) && SfBlocks(s)
  }

  ghost predicate RingSafe(r: seq<NodeState>) {
    && WellConfigured(r)
    && (forall i :: 0 <= i < |r| ==> NodeSafe(r[i]))
    && SomeBlocked(r)
  }

  /** Foreign calls succeed and no event exposes its node: with nothing blocked, a node in PROTECTION
      with an interface up is not told that a signal failure has cleared, and the interface-up
      callback is not taken. Deliveries are unrestricted. */
  ghost predicate Prudent(r: seq<NodeState>, a: RingAct) {
    a.env.Succeeds() && (a.NodeEvent? && a.i < |r| ==> !StepExposes(r[a.i], a.ev, a.env))
  }

  /** What a caller can see to: a signal failure is only cleared while it is latched, and the
      interface-up callback is not taken at a node with nothing blocked. */
  ghost predicate Tidy(r: seq<NodeState>, a: RingAct) {
    && a.env.Succeeds()
    && (a.NodeEvent? && a.i < |r| ==>
          && (a.ev.Local? && a.ev.cmd.ClearSignalFail? ==> r[a.i].topreq.Sf?)
          && (a.ev.IfaceUp? ==> r[a.i].AnyBlocked()))
  }

  /** Deliveries between any nodes, expiries of guard timers and transmissions. */
  ghost predicate Chatter(r: seq<NodeState>, a: RingAct) {
    a.env.Succeeds() && (a.NodeEvent? ==> a.ev.GuardExpires? || a.ev.TxFires?)
  }

  // ----- deliveries -----

  /** R-APS(NR,RB) is only heard from the owner, hence never by the owner. */
  lemma OwnerHearsNoRb(r: seq<NodeState>, a: RingAct)
    requires WellConfigured(r) && RingEnabled(r, a) && a.env.Succeeds()
    requires a.Deliver? ==> OwnerRb(r[a.from])
    ensures !HearsRbAsOwner(r[Target(a)], EventAt(r, a), a.env)
  {
  }

  /** No event at a node opens its last blocked port, whatever foreign calls fail, except hearing from
      another node. */
  lemma LocalEventKeepsLastBlocked(s: NodeState, ev: Event, env: Env)
    requires !ev.Receive? && s.AnyBlocked()
    ensures Step(s, ev, env).node.AnyBlocked()
  {
    hide Fsm.Post, Heard;
    match ev
    case Local(p, cmd) => PostKeepsLastBlocked(s, p, cmd.Request(), None, env);
    case LinkDownExpires(p) => PostKeepsLastBlocked(s, p, Sf, None, env);
    case WtrFires => PostKeepsLastBlocked(s.(wtr := Stopped), 0, WtrExpires, None, env);
    case WtbFires => PostKeepsLastBlocked(s.(wtb := Stopped), 0, WtbExpires, None, env);
    case _ =>
  }

  // ----- loop freedom -----

  lemma TargetStaysSafe(r: seq<NodeState>, a: RingAct)
    requires RingSafe(r) && RingEnabled(r, a) && a.env.Succeeds()
    ensures var t := Step(r[Target(a)], EventAt(r, a), a.env).node;
            (NodeSafe(t) <==> Prudent(r, a)) && t.cfg == r[Target(a)].cfg
  {
    hide Step, ControlOk, Robust, SpeakOk, OwnerRb, SfBlocks, StepExposes;
    var s, ev := r[Target(a)], EventAt(r, a);
    assert NodeSafe(s);
    StepKeepsSafe(s, ev, a.env);
    StepKeepsRobust(s, ev, a.env);
    if a.Deliver? {
      assert NodeSafe(r[a.from]);
      DeliveryExposesNone(r, a);
    }
  }

  lemma DeliveryExposesNone(r: seq<NodeState>, a: RingAct)
    requires WellConfigured(r) && RingEnabled(r, a) && a.Deliver? && a.env.Succeeds() && OwnerRb(r[a.from])
    ensures !StepExposes(r[a.to], EventAt(r, a), a.env)
  {
    hide CurrentPdu, Heard, T.Accepts;
    OwnerHearsNoRb(r, a);
    HeardIsRemote(r[a.to], EventAt(r, a).pdu, a.env);
  }

  /** Exact: with working foreign calls one step keeps the ring safe if and only if it is prudent. */
  lemma RingStepKeepsSafe(r: seq<NodeState>, a: RingAct)
    requires RingSafe(r) && RingEnabled(r, a) && a.env.Succeeds()
    ensures RingSafe(RingStep(r, a)) <==> Prudent(r, a)
  {
    hide Step, NodeSafe, CurrentPdu, Prudent;
    var s, ev := r[Target(a)], EventAt(r, a);
    var r' := RingStep(r, a);
    TargetStaysSafe(r, a);
    assert r'[Target(a)] == Step(s, ev, a.env).node;
    assert NodeSafe(s);
    if a.NodeEvent? {
      var i :| 0 <= i < |r| && r[i].AnyBlocked();
      if i == a.i { LocalEventKeepsLastBlocked(s, ev, a.env); }
      assert r'[i].AnyBlocked();
    } else if a.from == a.to {
      OwnFrameIgnored(s, ev, a.env);
      assert r' == r;
    } else {
      assert NodeSafe(r[a.from]);
      SpeakerIsBlocked(r[a.from]);
      assert r'[a.from].AnyBlocked();
    }
  }

  lemma TidyIsPrudent(r: seq<NodeState>, a: RingAct)
    requires RingSafe(r) && RingEnabled(r, a) && Tidy(r, a)
    ensures Prudent(r, a)
  {
    assert NodeSafe(r[Target(a)]);
  }

  lemma SpeakerIsBlocked(s: NodeState)
    requires NodeSafe(s) && s.Transmitting()
    ensures s.AnyBlocked()
  {
  }

  lemma OwnFrameIgnored(s: NodeState, ev: Event, env: Env)
    requires ev.Receive? && ev.pdu == CurrentPdu(s) && env.Succeeds()
    ensures Step(s, ev, env).node == s
  {
  }

  lemma {:induction false} RingRunKeepsSafe(r: seq<NodeState>, acts: seq<RingAct>,
                                            ok: (seq<NodeState>, RingAct) -> bool)
    requires RingSafe(r) && IsRingRun(r, acts, ok)
    requires forall r', a :: RingSafe(r') && RingEnabled(r', a) && ok(r', a) ==> Prudent(r', a)
    ensures RingSafe(RingRun(r, acts, ok))
    decreases acts
  {
    if acts != [] {
      hide RingSafe, RingStep, StepExposes;
      RingStepKeepsSafe(r, acts[0]);
      RingRunKeepsSafe(RingStep(r, acts[0]), acts[1..], ok);
    }
  }

  /** A ring whose nodes have just been initialized. */
  ghost predicate RingBooted(r: seq<NodeState>) {
    r != [] && WellConfigured(r) && forall i :: 0 <= i < |r| ==> Booted(r[i])
  }

  lemma BootedRingIsSafe(r: seq<NodeState>)
    requires RingBooted(r)
    ensures RingSafe(r)
  {
    hide Booted, NodeSafe;
    forall i | 0 <= i < |r|
      ensures NodeSafe(r[i]) && r[i].AnyBlocked()
    {
      BootedNodeIsSafe(r[i]);
    }
    assert r[0].AnyBlocked();
  }

  lemma BootedNodeIsSafe(s: NodeState)
    requires Booted(s)
    ensures NodeSafe(s) && s.AnyBlocked()
  {
  }

  /** Loop freedom: in a ring of any size, after any prudent run, some port is blocked. */
  lemma LoopFreedom(r: seq<NodeState>, acts: seq<RingAct>)
    requires RingBooted(r) && IsRingRun(r, acts, Prudent)
    ensures SomeBlocked(RingRun(r, acts, Prudent))
  {
    hide RingBooted, IsRingRun, RingRun, Prudent;
    BootedRingIsSafe(r);
    RingRunKeepsSafe(r, acts, Prudent);
  }

  /** The same for callers that clear a signal failure only while it is latched. */
  lemma TidyLoopFreedom(r: seq<NodeState>, acts: seq<RingAct>)
    requires RingBooted(r) && IsRingRun(r, acts, Tidy)
    ensures SomeBlocked(RingRun(r, acts, Tidy))
  {
    hide RingBooted, IsRingRun, RingRun, Prudent, Tidy;
    BootedRingIsSafe(r);
    forall r', a | RingSafe(r') && RingEnabled(r', a) && Tidy(r', a)
      ensures Prudent(r', a)
    {
      TidyIsPrudent(r', a);
    }
    RingRunKeepsSafe(r, acts, Tidy);
  }
}
