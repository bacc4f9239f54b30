/** What each request does in each state, in terms of what can be observed of a node: its state, what
    it has latched, which ports are blocked and marked as failed, what it sends, and its timers. */
module Effects {
  import opened Requests
  import opened NodeIds
  import opened Raps
  import opened NodeModel
  import opened Events
  import opened Refinement
  import opened Table
  import opened TableFacts

  // ----- vocabulary -----

  /** Exactly port p is blocked and the other one not marked as failed; a PDU with the given code is
      being sent, and the database was flushed unless p was blocked before. */
  predicate SwitchedTo(s: NodeState, t: NodeState, p: PortNo, code: bv8, env: Env) {
    && t.Blocked(p) && !t.Blocked(Other(p)) && !t.Port(Other(p)).failed
    && t.pdu == PduMut(code, if s.Blocked(p) then 0x40 else 0)
    && t.Transmitting() == (env.up0 || env.up1)
    && t.flushes == (if s.Blocked(p) then s.flushes else s.flushes + 1)
    && t.guard == s.guard
  }

  /** The owner of a ring that is configured to revert. */
  predicate AutoReverts(s: NodeState) { s.cfg.owner && s.cfg.revertive }

  /** Silence, with nothing blocked or failed. */
  predicate Opened(s: NodeState, t: NodeState) {
    && !t.AnyBlocked() && !t.p0.failed && !t.p1.failed && !t.Transmitting()
    && t.pdu == s.pdu && t.flushes == s.flushes && t.guard == s.guard
  }

  /** Silence, with only those ports blocked that were blocked and failed. */
  predicate OpenedSound(s: NodeState, t: NodeState) {
    && t.p0.blocked == (s.p0.blocked && s.p0.failed) && t.p1.blocked == (s.p1.blocked && s.p1.failed)
    && t.p0.failed == s.p0.failed && t.p1.failed == s.p1.failed && !t.Transmitting()
    && t.pdu == s.pdu && t.flushes == s.flushes && t.guard == s.guard
  }

  /** Ports as they were. */
  predicate SamePorts(s: NodeState, t: NodeState) {
    && t.p0.blocked == s.p0.blocked && t.p1.blocked == s.p1.blocked
    && t.p0.failed == s.p0.failed && t.p1.failed == s.p1.failed && t.flushes == s.flushes
  }

  /** R-APS(NR) is sent, the guard timer runs. */
  predicate Announces(s: NodeState, t: NodeState, env: Env) {
    SamePorts(s, t) && t.pdu == PduMut(0x00, 0) && t.guard == Running(s.cfg.guardMs)
    && t.Transmitting() == (env.up0 || env.up1)
  }

  /** Only state, latched request and timers may be different. */
  predicate Quietly(s: NodeState, t: NodeState) {
    t == s.(state := t.state, topreq := t.topreq, wtr := t.wtr, wtb := t.wtb)
  }

  predicate Timers(t: NodeState, wtr: Timer, wtb: Timer) { t.wtr == wtr && t.wtb == wtb }

  /** Exactly the RPL is blocked and R-APS(NR,RB) is sent. */
  predicate RevertedTo(s: NodeState, t: NodeState, env: Env) {
    && t.state.Idle? && t.p1.blocked && !t.p0.blocked && !t.p0.failed && t.p1.failed == s.p1.failed
    && t.pdu == PduMut(0x00, if s.p1.blocked then 0xc0 else 0x80)
    && t.Transmitting() == (env.up0 || env.up1)
    && t.flushes == (if s.p1.blocked then s.flushes else s.flushes + 1) && t.guard == s.guard
  }

  /** The node yields to a higher identifier and otherwise does nothing. */
  predicate Yields(s: NodeState, t: NodeState, from: NodeId) {
    && t.state == s.state
    && (if Value(from) > Value(s.cfg.id) then OpenedSound(s, t) else Quietly(s, t))
  }

  // ----- FS, SF and MS, and what other nodes send, outside FORCED_SWITCH -----

  lemma SwitchEffect(s: NodeState, p: PortNo, env: Env)
    ensures var t := SwitchTo(s, p, FS, ForcedSwitch, env);
            t.state.ForcedSwitch? && SwitchedTo(s, t, p, 0xd0, env) && SameControl(s, t)
    ensures var t := SwitchTo(s, p, SF, Protection, env);
            && t.state.Protection? && SwitchedTo(s, t, p, 0xb0, env) && SameControl(s, t)
            && t.Port(p).failed == s.Port(p).failed
    ensures var t := SwitchTo(s, p, MS, ManualSwitch, env);
            t.state.ManualSwitch? && SwitchedTo(s, t, p, 0x70, env) && SameControl(s, t)
  {
    hide SwitchTo;
    SwitchToBlocksOne(s, p, FS, ForcedSwitch, env);
    SwitchToBlocksOne(s, p, SF, Protection, env);
    SwitchToBlocksOne(s, p, MS, ManualSwitch, env);
  }

  lemma OpenEffect(s: NodeState, next: FsmState)
    ensures var t := OpenAndMute(s, next); t.state == next && Opened(s, t) && SameControl(s, t)
    ensures var t := OpenSoundAndMute(s, next); t.state == next && OpenedSound(s, t) && SameControl(s, t)
  {
  }

  lemma YieldEffect(s: NodeState, from: NodeId)
    ensures Yields(s, YieldTo(s, from), from) && SameControl(s, YieldTo(s, from))
  {
    hide OpenSoundAndMute, Memcmp, Value;
    MemcmpOrdersByValue(from, s.cfg.id);
    OpenEffect(s, s.state);
  }

  // ----- the five states; s is the node with the request already latched -----

  lemma IdleEffects(s: NodeState, p: PortNo, req: Request, from: NodeId, env: Env)
    requires s.state.Idle?
    ensures var t := Row(s, p, req, from, env);
            && t.topreq == s.topreq && Timers(t, s.wtr, s.wtb)
            && match req
               case Fs => t.state.ForcedSwitch? && SwitchedTo(s, t, p, 0xd0, env)
               case Sf => t.state.Protection? && SwitchedTo(s, t, p, 0xb0, env) && t.Port(p).failed == s.Port(p).failed
               case Ms => t.state.ManualSwitch? && SwitchedTo(s, t, p, 0x70, env)
               case RapsFs => t.state.ForcedSwitch? && Opened(s, t)
               case RapsSf => t.state.Protection? && OpenedSound(s, t)
               case RapsMs => t.state.ManualSwitch? && OpenedSound(s, t)
               case RapsNrRb =>
                 && t.state.Idle? && t.pdu == s.pdu && t.flushes == s.flushes && t.guard == s.guard
                 && t.p1.blocked == s.p1.blocked && t.p1.failed == s.p1.failed
                 && t.p0.blocked == (s.p0.blocked && !s.p1.link.rpl)
                 && t.p0.failed == (s.p0.failed && !s.p1.link.rpl)
                 && t.Transmitting() == (s.Transmitting() && s.cfg.owner)
               case RapsNr => if s.cfg.owner || s.cfg.nbr then t == s else Yields(s, t, from)
               case _ => t == s
  {
    hide SwitchTo, OpenAndMute, OpenSoundAndMute, YieldTo, Value, Memcmp;
    SwitchEffect(s, p, env);
    OpenEffect(s, ForcedSwitch);
    OpenEffect(s, Protection);
    OpenEffect(s, ManualSwitch);
    YieldEffect(s, from);
  }

  lemma ProtectionEffects(s: NodeState, p: PortNo, req: Request, from: NodeId, env: Env)
    requires s.state.Protection? && s.topreq == (if req.IsLatched() then req else Invalid)
    ensures var t := Row(s, p, req, from, env);
            && (if req in {ClearSf, RapsNr} && AutoReverts(s)
                then Timers(t, Running(s.cfg.wtrMinutes * 60000), s.wtb) && t.topreq.WtrRunning?
                else Timers(t, s.wtr, s.wtb) && t.topreq == s.topreq)
            && match req
               case Fs => t.state.ForcedSwitch? && SwitchedTo(s, t, p, 0xd0, env)
               case Sf => t.state.Protection? && SwitchedTo(s, t, p, 0xb0, env) && t.Port(p).failed == s.Port(p).failed
               case RapsFs => t.state.ForcedSwitch? && Opened(s, t)
               case ClearSf => t.state.Pending? && Announces(s, t, env)
               case RapsNr | RapsNrRb => t.state.Pending? && Quietly(s, t)
               case _ => t == s
  {
    hide SwitchTo, OpenAndMute, Announce;
    SwitchEffect(s, p, env);
    OpenEffect(s, ForcedSwitch);
    AnnounceKeepsPorts(s, NR, 0, env);
  }

  /** CLEAR of a switch: only if something is blocked here is it announced, and does a revertive
      owner start WTB. */
  lemma ReleaseEffect(s: NodeState, env: Env)
    requires s.topreq.Invalid?
    ensures var t := Release(s, env);
            && t.state.Pending?
            && (if s.AnyBlocked() then Announces(s, t, env) else Quietly(s, t))
            && (if s.AnyBlocked() && AutoReverts(s)
                then Timers(t, s.wtr, Running(s.cfg.guardMs + 5000)) && t.topreq.WtbRunning?
                else Timers(t, s.wtr, s.wtb) && t.topreq.Invalid?)
  {
    hide Announce;
    AnnounceKeepsPorts(s, NR, 0, env);
  }

  lemma ManualSwitchEffects(s: NodeState, p: PortNo, req: Request, from: NodeId, env: Env)
    requires s.state.ManualSwitch? && s.topreq == (if req.IsLatched() then req else Invalid)
    ensures var t := Row(s, p, req, from, env);
            var startsWtb := AutoReverts(s) && (req.RapsNr? || (req in {Clear, RapsMs} && s.AnyBlocked()));
            && (if startsWtb then Timers(t, s.wtr, Running(s.cfg.guardMs + 5000)) && t.topreq.WtbRunning?
                else Timers(t, s.wtr, s.wtb) && t.topreq == s.topreq)
            && match req
               case Clear => t.state.Pending? && (if s.AnyBlocked() then Announces(s, t, env) else Quietly(s, t))
               case Fs => t.state.ForcedSwitch? && SwitchedTo(s, t, p, 0xd0, env)
               case Sf => t.state.Protection? && SwitchedTo(s, t, p, 0xb0, env) && t.Port(p).failed == s.Port(p).failed
               case RapsFs => t.state.ForcedSwitch? && Opened(s, t)
               case RapsSf => t.state.Protection? && OpenedSound(s, t)
               case RapsMs =>
                 if !s.AnyBlocked() then t == s
                 else Announces(s, t, env) && t.state == if AutoReverts(s) then Pending else ManualSwitch
               case RapsNr | RapsNrRb => t.state.Pending? && Quietly(s, t)
               case _ => t == s
  {
    hide SwitchTo, OpenAndMute, OpenSoundAndMute, Announce, Release, Open, Close, Mute;
    SwitchEffect(s, p, env);
    OpenEffect(s, ForcedSwitch);
    OpenEffect(s, Protection);
    AnnounceKeepsPorts(s, NR, 0, env);
    if req.Clear? { ReleaseEffect(s, env); }
  }

  lemma ForcedSwitchEffects(s: NodeState, p: PortNo, req: Request, from: NodeId, env: Env)
    requires s.state.ForcedSwitch? && s.topreq == (if req.IsLatched() then req else Invalid)
    ensures var t := Row(s, p, req, from, env);
            var startsWtb := AutoReverts(s) && (req.RapsNr? || (req.Clear? && s.AnyBlocked()));
            && (if startsWtb then Timers(t, s.wtr, Running(s.cfg.guardMs + 5000)) && t.topreq.WtbRunning?
                else Timers(t, s.wtr, s.wtb) && t.topreq == s.topreq)
            && match req
               case Clear => t.state.Pending? && (if s.AnyBlocked() then Announces(s, t, env) else Quietly(s, t))
               case Fs =>
                 && t.state.ForcedSwitch? && t.Blocked(p) && t.Blocked(Other(p)) == s.Blocked(Other(p))
                 && t.p0.failed == s.p0.failed && t.p1.failed == s.p1.failed
                 && t.pdu == PduMut(0xd0, 0) && t.Transmitting() == (env.up0 || env.up1)
                 && t.flushes == s.flushes + 1 && t.guard == s.guard
               case RapsNr | RapsNrRb => t.state.Pending? && Quietly(s, t)
               case _ => t == s
  {
    hide Announce, Release;
    AnnounceKeepsPorts(s, FS, 0, env);
    if req.Clear? { ReleaseEffect(s, env); }
  }

  lemma PendingSwitchEffects(s: NodeState, p: PortNo, req: Request, from: NodeId, env: Env)
    requires s.state.Pending? && RoleOk(s) && TimersOk(s)
    ensures var t := Row(s, p, req, from, env);
            && (req in {Fs, Sf, Ms, RapsFs, RapsSf, RapsMs} ==> t.topreq == s.topreq && Timers(t, Stopped, Stopped))
            && match req
               case Fs => t.state.ForcedSwitch? && SwitchedTo(s, t, p, 0xd0, env)
               case Sf => t.state.Protection? && SwitchedTo(s, t, p, 0xb0, env) && t.Port(p).failed == s.Port(p).failed
               case Ms => t.state.ManualSwitch? && SwitchedTo(s, t, p, 0x70, env)
               case RapsFs => t.state.ForcedSwitch? && Opened(s, t)
               case RapsSf => t.state.Protection? && OpenedSound(s, t)
               case RapsMs => t.state.ManualSwitch? && OpenedSound(s, t)
               case _ => true
  {
    hide SwitchTo, OpenAndMute, OpenSoundAndMute, YieldTo, RevertToRpl, Open, Close, Mute;
    SwitchEffect(s, p, env);
    OpenEffect(s, ForcedSwitch);
    OpenEffect(s, Protection);
    OpenEffect(s, ManualSwitch);
  }

  lemma PendingEffects(s: NodeState, p: PortNo, req: Request, from: NodeId, env: Env)
    requires s.state.Pending? && RoleOk(s) && TimersOk(s)
    requires req !in {Fs, Sf, Ms, RapsFs, RapsSf, RapsMs, RapsNrRb}
    requires (req.WtrExpires? || req.WtbExpires?) ==> s.wtr.Stopped? && s.wtb.Stopped?
    ensures var t := Row(s, p, req, from, env);
            && t.topreq == s.topreq
            && (if req in {Clear, WtrExpires, WtbExpires}
                then Timers(t, Stopped, Stopped) else Timers(t, s.wtr, s.wtb))
            && match req
               case Clear => if s.p1.link.rpl then RevertedTo(s, t, env) else t.state.Idle? && Quietly(s, t)
               case WtrExpires | WtbExpires => if s.cfg.owner then RevertedTo(s, t, env) else t == s
               case RapsNr => Yields(s, t, from)
               case _ => t == s
  {
    hide SwitchTo, OpenAndMute, OpenSoundAndMute, YieldTo, RevertToRpl, Value, Memcmp, Open, Close, Mute;
    YieldEffect(s, from);
    RevertBlocksRpl(WithoutTimers(s), env);
    RevertBlocksRpl(s.(wtb := Stopped), env);
    RevertBlocksRpl(s.(wtr := Stopped), env);
  }

  lemma PendingNrRbEffects(s: NodeState, p: PortNo, from: NodeId, env: Env)
    requires s.state.Pending? && RoleOk(s) && TimersOk(s)
    ensures var t := Row(s, p, RapsNrRb, from, env);
            && t.topreq == s.topreq && t.state.Idle?
            && t.pdu == s.pdu && t.flushes == s.flushes && t.guard == s.guard
            && (if s.cfg.owner then Quietly(s, t) && Timers(t, Stopped, Stopped)
                else Timers(t, s.wtr, s.wtb) && (if s.cfg.nbr
                then t.p1.blocked && !t.p0.blocked && !t.p0.failed && t.p1.failed == s.p1.failed && !t.Transmitting()
                else Opened(s, t)))
  {
    hide OpenAndMute;
    OpenEffect(s, Idle);
  }
}
