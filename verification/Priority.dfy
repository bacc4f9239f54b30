/** The priority logic spelled out by name, with no reference to the order of the requests. */
module Priority {
  import opened Requests
  import opened NodeIds
  import opened Raps
  import opened NodeModel
  import opened Events
  import opened Refinement
  import opened TableFacts
  import opened Safety
  import opened SafeRuns
  import Fsm
  import T = Table

  /** Which requests pass while a request is latched. CLEAR passes at the owner, and wherever FS or MS
      is latched. */
  predicate Passes(s: NodeState, req: Request) {
    if req.Clear? then s.cfg.owner || s.topreq in {Fs, Ms}
    else match s.topreq
      case Fs => req.Fs?
      case Sf => req in {Fs, RapsFs, Sf, ClearSf}
      case Ms => req in {Fs, RapsFs, Sf, ClearSf, RapsSf, RapsMs, Ms}
      case WtrRunning => req in {Fs, RapsFs, Sf, ClearSf, RapsSf, RapsMs, Ms, WtrExpires, WtrRunning}
      case WtbRunning => req !in {RapsNrRb, RapsNr, Invalid}
      case _ => true
  }

  /** What passes, and what is latched afterwards. */
  lemma PriorityByName(s: NodeState, req: Request)
    requires s.topreq in {Fs, Sf, Ms, WtrRunning, WtbRunning, Invalid}
    ensures T.Accepts(s, req) <==> Passes(s, req)
    ensures ResolvePriority(s, req) ==
              if !Passes(s, req) then None
              else Some(if req in {Fs, Sf, Ms, WtrRunning, WtbRunning} then req else Invalid)
  {
  }

  /** One post that reports success: a request that does not pass changes nothing. Any other is latched,
      a signal failure marks its port, and then the row of the state is applied, except that a
      cleared signal failure of the RPL has no further effect outside PROTECTION. */
  lemma PostByName(s: NodeState, p: PortNo, req: Request, pdu: Option<Pdu>, from: NodeId, env: Env)
    requires RoleOk(s) && TimersOk(s) && s.topreq in {Fs, Sf, Ms, WtrRunning, WtbRunning, Invalid}
    requires !req.Invalid? && if pdu.Some? then from == pdu.value.nodeId else !req.RapsNr?
    ensures var o := Fsm.Post(s, p, req, pdu, env);
            var port := s.Port(p).(failed := s.Port(p).failed || req.Sf?);
            var top := if req in {Fs, Sf, Ms, WtrRunning, WtbRunning} then req else Invalid;
            var s1 := s.(topreq := top).WithPort(p, port);
            o.Done? ==> o.node == (if !Passes(s, req) then s
                                   else if req.ClearSf? && s.Port(p).link.rpl && !s.state.Protection? then s1
                                   else T.Row(s1, p, req, from, env))
  {
    hide Fsm.Post, T.Row, T.Accepts, Passes, ResolvePriority;
    PriorityByName(s, req);
    PostRefinesTable(s, p, req, pdu, from, env);
  }

  /** The number that stands for no request is refused in every state. */
  lemma InvalidIsRefused(s: NodeState, p: PortNo, pdu: Option<Pdu>, env: Env)
    requires s.topreq.Invalid? && !s.state.Uninit?
    ensures Fsm.Post(s, p, Invalid, pdu, env) == Failed(s, -22)
  {
  }

  /** R-APS(MS) cancels a manual switch of this node: no longer latched, R-APS(NR) instead of R-APS(MS),
      and a guard time during which no frame is heard. Only a revertive owner also goes to PENDING. */
  lemma MsYieldsToRapsMs(s: NodeState, p: PortNo, pdu: Pdu, env: Env)
    requires ControlOk(s) && s.state.ManualSwitch? && s.topreq.Ms? && s.AnyBlocked() && env.Succeeds()
    requires Heard(s, pdu, env) == Some(RapsMs)
    ensures var t := Step(s, Receive(p, pdu), env).node;
            && t.topreq == (if Reverts(s) then WtbRunning else Invalid)
            && t.state == (if Reverts(s) then Pending else ManualSwitch)
            && t.pdu == PduMut(0x00, 0) && t.guard == Running(s.cfg.guardMs)
            && t.p0.blocked == s.p0.blocked && t.p1.blocked == s.p1.blocked
            && (Reverts(s) ==> t.wtb == Running(s.cfg.guardMs + 5000))
  {
    hide Step, Heard, T.Announce;
    StepIsReact(s, Receive(p, pdu), env);
    AnnounceKeepsPorts(s.(topreq := Invalid), NR, 0, env);
  }

  /** A signal failure in FORCED_SWITCH is only noted, and under a forced switch of this node not even
      that: otherwise it is latched and exactly its port marked as failed. */
  lemma SfInForcedSwitch(s: NodeState, p: PortNo, ev: Event, env: Env)
    requires ControlOk(s) && s.state.ForcedSwitch? && env.Succeeds()
    requires ev in {Local(p, SignalFail), LinkDownExpires(p)}
    ensures var t := Step(s, ev, env).node;
            && (s.topreq.Fs? ==> t == s)
            && (!s.topreq.Fs? ==> && t.topreq.Sf? && t.Port(p) == s.Port(p).(failed := true)
                                  && t == s.(topreq := Sf, p0 := t.p0, p1 := t.p1)
                                  && t.Port(Other(p)) == s.Port(Other(p)))
  {
    hide Step;
    StepIsReact(s, ev, env);
  }
}
