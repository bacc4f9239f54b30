/** Invariants over whole runs of a node whose foreign calls succeed. */
module SafeRuns {
  import opened Requests
  import opened NodeIds
  import opened Raps
  import opened NodeModel
  import opened Events
  import opened Refinement
  import opened Robustness
  import opened Runs
  import opened TableFacts
  import opened Safety
  import Fsm
  import T = Table

  // ----- one step -----

  /** The node as an event finds it: a timer that fires is no longer running. */
  function Found(s: NodeState, ev: Event): NodeState {
    match ev
    case WtrFires => s.(wtr := Stopped)
    case WtbFires => s.(wtb := Stopped)
    case _ => s
  }

  function PortOf(ev: Event): PortNo {
    match ev
    case Local(p, _) => p
    case LinkDownExpires(p) => p
    case Receive(p, _) => p
    case _ => 0
  }

  function Sender(s: NodeState, ev: Event): NodeId {
    match ev
    case Receive(_, pdu) => pdu.nodeId
    case _ => s.cfg.id
  }

  lemma PostedIsReady(s: NodeState, ev: Event, env: Env)
    requires ControlOk(s) && Enabled(s, ev) && Posted(s, ev, env).Some?
    ensures Ready(Found(s, ev), Posted(s, ev, env).value)
    ensures RoleOk(Found(s, ev)) && TimersOk(Found(s, ev)) && !ev.IfaceUp?
  {
  }

  /** An event that posts a request changes the node as the table says. */
  lemma StepIsReact(s: NodeState, ev: Event, env: Env)
    requires ControlOk(s) && Enabled(s, ev) && env.Succeeds() && Posted(s, ev, env).Some?
    ensures Step(s, ev, env)
         == Done(T.React(Found(s, ev), PortOf(ev), Posted(s, ev, env).value, Sender(s, ev), env))
  {
    hide Heard, T.React, Fsm.Post, Ready;
    PostedIsReady(s, ev, env);
    if ev.Receive? { HeardIsRemote(s, ev.pdu, env); }
    PostRefinesTable(Found(s, ev), PortOf(ev), Posted(s, ev, env).value,
                     if ev.Receive? then Some(ev.pdu) else None, Sender(s, ev), env);
  }

  /** An event that posts nothing only touches the guard timer and the transmitters. */
  lemma OtherStepsAreMinor(s: NodeState, ev: Event, env: Env)
    requires Enabled(s, ev) && env.Succeeds() && Posted(s, ev, env).None?
    ensures var o := Step(s, ev, env);
            && o.Done?
            && o.node == s.(p0 := o.node.p0, p1 := o.node.p1, guard := o.node.guard, flushes := o.node.flushes)
            && o.node.p0 == s.p0.(burst := o.node.p0.burst, tx := o.node.p0.tx)
            && o.node.p1 == s.p1.(burst := o.node.p1.burst, tx := o.node.p1.tx)
            && (o.node.Transmitting() <==> s.Transmitting() || ev.IfaceUp?)
            && (o.node.guard == if ev.GuardExpires? then Stopped else s.guard)
  {
  }

  /** The three situations in which an event makes the node speak with nothing blocked. */
  predicate StepExposes(s: NodeState, ev: Event, env: Env) {
    match Posted(s, ev, env)
    case Some(req) => T.Accepts(s, req) && Exposes(s, req, env)
    case None => ev.IfaceUp? && !s.AnyBlocked()
  }

  predicate HearsRbAsOwner(s: NodeState, ev: Event, env: Env) {
    s.cfg.owner && Posted(s, ev, env) == Some(RapsNrRb)
  }

  /** The PDU the node last sent says RB, but this is no longer so. */
  predicate StaleRb(s: NodeState) {
    s.pdu.HasRb() && !(s.state.Idle? && s.p1.blocked && !s.p0.blocked)
  }

  /** One event in a working environment. Two clauses are exact: the node starts to speak with no
      port blocked if and only if the event is one of the three that expose it, and the RB bit
      lies if and only if the interface-up callback repeats a stale PDU. */
  lemma StepKeepsSafe(s: NodeState, ev: Event, env: Env)
    requires ControlOk(s) && Enabled(s, ev) && env.Succeeds()
    ensures Step(s, ev, env).Done? && ControlOk(Step(s, ev, env).node) && Step(s, ev, env).node.cfg == s.cfg
    ensures OwnerRb(s) ==> OwnerRb(Step(s, ev, env).node)
    ensures SfBlocks(s) ==> SfBlocks(Step(s, ev, env).node)
    ensures RbOk(s) ==> (RbOk(Step(s, ev, env).node) <==> !(ev.IfaceUp? && StaleRb(s)))
    ensures SpeakOk(s) ==> (SpeakOk(Step(s, ev, env).node) <==> !StepExposes(s, ev, env))
    ensures IdleOk(s) && !ev.IfaceUp? && !HearsRbAsOwner(s, ev, env) ==> IdleOk(Step(s, ev, env).node)
    ensures OwnerSpeaks(s) && env.Audible() && !HearsRbAsOwner(s, ev, env) ==> OwnerSpeaks(Step(s, ev, env).node)
  {
    hide Step, T.React, Posted, ControlOk, Ready;
    match Posted(s, ev, env)
    case Some(req) =>
      PostedIsReady(s, ev, env);
      StepIsReact(s, ev, env);
      ReactKeeps(Found(s, ev), PortOf(ev), req, Sender(s, ev), env);
      FoundAlike(s, ev, req, env);
    case None =>
      OtherStepsAreMinor(s, ev, env);
      MinorKeepsControl(s, Step(s, ev, env).node);
  }

  lemma FoundAlike(s: NodeState, ev: Event, req: Request, env: Env)
    ensures var f := Found(s, ev);
            && RbOk(f) == RbOk(s) && OwnerRb(f) == OwnerRb(s) && SpeakOk(f) == SpeakOk(s) && IdleOk(f) == IdleOk(s)
            && OwnerSpeaks(f) == OwnerSpeaks(s) && SfBlocks(f) == SfBlocks(s)
            && T.Accepts(f, req) == T.Accepts(s, req) && Exposes(f, req, env) == Exposes(s, req, env)
            && f.cfg == s.cfg
  {
  }

  lemma HeardAlike(s: NodeState, t: NodeState, pdu: Pdu, env: Env)
    requires t.cfg == s.cfg && t.guard == s.guard
    ensures Heard(t, pdu, env) == Heard(s, pdu, env)
  {
  }

  lemma NothingHeard(s: NodeState, p: PortNo, pdu: Pdu, env: Env)
    requires Heard(s, pdu, env).None? && pdu.ReqState() != EVENT
    ensures Step(s, Receive(p, pdu), env).node == s
  {
  }

  lemma MinorKeepsControl(s: NodeState, t: NodeState)
    requires ControlOk(s)
    requires SameControl(s, t) && t.state == s.state
    ensures ControlOk(t)
  {
  }

  // ----- runs -----

  /** Foreign calls succeed and the interface-up callback does not repeat a stale RB bit. */
  ghost predicate Honest(s: NodeState, act: Act) {
    act.env.Succeeds() && !(act.ev.IfaceUp? && StaleRb(s))
  }

  /** Foreign calls succeed and no event exposes the node. */
  ghost predicate Careful(s: NodeState, act: Act) {
    act.env.Succeeds() && !StepExposes(s, act.ev, act.env)
  }

  /** Foreign calls succeed, the interface-up callback is not taken, and R-APS(NR,RB) does not
      reach its own sender. */
  ghost predicate Calm(s: NodeState, act: Act) {
    act.env.Succeeds() && !act.ev.IfaceUp? && !HearsRbAsOwner(s, act.ev, act.env)
  }

  /** As before, and some interface is up; the callback may be taken. */
  ghost predicate Up(s: NodeState, act: Act) {
    act.env.Audible() && !HearsRbAsOwner(s, act.ev, act.env)
  }

  /** A freshly initialized node meets every invariant below. */
  lemma BootedIsSafe(s: NodeState)
    requires Booted(s)
    ensures ControlOk(s) && SpeakOk(s) && RbOk(s) && IdleOk(s) && OwnerSpeaks(s) && SfBlocks(s)
  {
  }

  /** The latched request is one of six and fits the state, the RB bit is only ever set at the
      owner and is true while it is sent. */
  lemma {:induction false} HonestRunsKeepRb(s: NodeState, acts: seq<Act>)
    requires ControlOk(s) && RbOk(s) && IsRun(s, acts, Honest)
    ensures ControlOk(Run(s, acts)) && RbOk(Run(s, acts))
    decreases acts
  {
    if acts != [] {
      hide Step, ControlOk, RbOk, StaleRb;
      StepKeepsSafe(s, acts[0].ev, acts[0].env);
      HonestRunsKeepRb(After(s, acts[0]), acts[1..]);
    }
  }

  /** Only a blocked node speaks. */
  lemma {:induction false} CarefulRunsKeepSpeak(s: NodeState, acts: seq<Act>)
    requires ControlOk(s) && SpeakOk(s) && IsRun(s, acts, Careful)
    ensures ControlOk(Run(s, acts)) && SpeakOk(Run(s, acts))
    decreases acts
  {
    if acts != [] {
      hide Step, ControlOk, SpeakOk, StepExposes;
      StepKeepsSafe(s, acts[0].ev, acts[0].env);
      CarefulRunsKeepSpeak(After(s, acts[0]), acts[1..]);
    }
  }

  /** IDLE means: no port blocked and silence at an ordinary node, exactly the RPL blocked and
      silence at the neighbour, exactly the RPL blocked and R-APS(NR,RB) as PDU at the owner. */
  lemma {:induction false} CalmRunsKeepIdle(s: NodeState, acts: seq<Act>)
    requires ControlOk(s) && IdleOk(s) && IsRun(s, acts, Calm)
    ensures ControlOk(Run(s, acts)) && IdleOk(Run(s, acts))
    decreases acts
  {
    if acts != [] {
      hide Step, ControlOk, IdleOk, HearsRbAsOwner;
      StepKeepsSafe(s, acts[0].ev, acts[0].env);
      CalmRunsKeepIdle(After(s, acts[0]), acts[1..]);
    }
  }

  /** The owner in IDLE is always sending R-APS(NR,RB), as long as an interface is up. */
  lemma {:induction false} UpRunsKeepOwnerSpeaking(s: NodeState, acts: seq<Act>)
    requires ControlOk(s) && OwnerSpeaks(s) && IsRun(s, acts, Up)
    ensures ControlOk(Run(s, acts)) && OwnerSpeaks(Run(s, acts))
    decreases acts
  {
    if acts != [] {
      hide Step, ControlOk, OwnerSpeaks, HearsRbAsOwner;
      StepKeepsSafe(s, acts[0].ev, acts[0].env);
      UpRunsKeepOwnerSpeaking(After(s, acts[0]), acts[1..]);
    }
  }
}
