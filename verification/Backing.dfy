/** What a node sends and what it has latched: a node that is not the owner sends R-APS(SF) and
    R-APS(FS) only while the failure or the command is its own and in effect. */
module Backing {
  import opened Requests
  import opened NodeIds
  import opened Raps
  import opened NodeModel
  import opened Events
  import opened TableFacts
  import opened Safety
  import opened SafeRuns
  import T = Table

  /** The PDU fits what is latched. */
  predicate BackedPdu(s: NodeState) {
    && (s.pdu.rsSc == RsSc(SF, 0) ==> s.topreq.Sf? && s.state.Protection?)
    && (s.pdu.rsSc == RsSc(FS, 0) ==> s.topreq.Fs? && s.state.ForcedSwitch? && s.AnyBlocked())
  }

  /** The owner is an exception, as it may be told to CLEAR at any time. */
  predicate Backed(s: NodeState) {
    s.Transmitting() && !s.cfg.owner ==> BackedPdu(s)
  }

  /** The same of a node that has just latched a request instead. */
  predicate WasBacked(s: NodeState, req: Request) {
    s.Transmitting() && !s.cfg.owner ==>
      && (s.pdu.rsSc == RsSc(SF, 0) ==> s.state.Protection? && req in {Fs, RapsFs, Sf, ClearSf})
      && (s.pdu.rsSc == RsSc(FS, 0) ==> s.state.ForcedSwitch? && s.AnyBlocked() && req in {Clear, Fs})
  }

  lemma SwitchIsBacked(s: NodeState, p: PortNo, env: Env)
    ensures s.topreq.Fs? ==> Backed(T.SwitchTo(s, p, FS, ForcedSwitch, env))
    ensures s.topreq.Sf? ==> Backed(T.SwitchTo(s, p, SF, Protection, env))
    ensures Backed(T.SwitchTo(s, p, MS, ManualSwitch, env))
    ensures Backed(T.OpenAndMute(s, ForcedSwitch))
    ensures Backed(T.OpenSoundAndMute(s, Protection)) && Backed(T.OpenSoundAndMute(s, ManualSwitch))
    ensures Backed(T.OpenSoundAndMute(s, s.state))
  {
    hide T.SwitchTo, T.OpenAndMute, T.OpenSoundAndMute;
    SwitchToBlocksOne(s, p, FS, ForcedSwitch, env);
    SwitchToBlocksOne(s, p, SF, Protection, env);
    SwitchToBlocksOne(s, p, MS, ManualSwitch, env);
    OpenAndMuteOpensAll(s, ForcedSwitch);
    OpenSoundKeepsFailed(s, Protection);
    OpenSoundKeepsFailed(s, ManualSwitch);
    OpenSoundKeepsFailed(s, s.state);
  }

  lemma UnprotectedRowIsBacked(s: NodeState, p: PortNo, req: Request, from: NodeId, env: Env)
    requires Latched(s, req) && WasBacked(s, req) && (s.state.Idle? || s.state.ManualSwitch?)
    ensures Backed(T.Row(s, p, req, from, env))
  {
    hide T.SwitchTo, T.OpenAndMute, T.OpenSoundAndMute, T.Announce, Memcmp;
    SwitchIsBacked(s, p, env);
    AnnounceKeepsPorts(s, NR, 0, env);
  }

  lemma ProtectedRowIsBacked(s: NodeState, p: PortNo, req: Request, from: NodeId, env: Env)
    requires Latched(s, req) && WasBacked(s, req) && (s.state.Protection? || s.state.ForcedSwitch?)
    ensures Backed(T.Row(s, p, req, from, env))
  {
    hide T.SwitchTo, T.OpenAndMute, T.OpenSoundAndMute, T.Announce;
    SwitchIsBacked(s, p, env);
    AnnounceKeepsPorts(s, NR, 0, env);
    AnnounceKeepsPorts(s, FS, 0, env);
  }

  lemma PendingRowIsBacked(s: NodeState, p: PortNo, req: Request, from: NodeId, env: Env)
    requires Latched(s, req) && WasBacked(s, req) && s.state.Pending?
    ensures Backed(T.Row(s, p, req, from, env))
  {
    hide T.SwitchTo, T.OpenAndMute, T.OpenSoundAndMute, T.RevertToRpl, Memcmp;
    SwitchIsBacked(s, p, env);
    SwitchIsBacked(T.WithoutTimers(s), p, env);
    TimersCommute(s, p, env);
    RevertBlocksRpl(T.WithoutTimers(s), env);
    RevertBlocksRpl(s.(wtb := Stopped), env);
    RevertBlocksRpl(s.(wtr := Stopped), env);
    OpenAndMuteOpensAll(s, Idle);
  }

  lemma RowIsBacked(s: NodeState, p: PortNo, req: Request, from: NodeId, env: Env)
    requires Latched(s, req) && WasBacked(s, req) && !s.state.Uninit?
    ensures Backed(T.Row(s, p, req, from, env))
  {
    hide T.Row, Latched, WasBacked, Backed;
    match s.state
    case Idle | ManualSwitch => UnprotectedRowIsBacked(s, p, req, from, env);
    case Protection | ForcedSwitch => ProtectedRowIsBacked(s, p, req, from, env);
    case Pending => PendingRowIsBacked(s, p, req, from, env);
  }

  lemma ReactIsBacked(s: NodeState, p: PortNo, req: Request, from: NodeId, env: Env)
    requires Ready(s, req) && Backed(s)
    ensures Backed(T.React(s, p, req, from, env))
  {
    hide T.Row;
    if T.Accepts(s, req) {
      RowIsBacked(T.Latch(s, p, req), p, req, from, env);
    }
  }

  /** Exact: with working foreign calls the discipline is broken if and only if the interface-up
      callback repeats a stale R-APS(SF) or R-APS(FS). */
  lemma StepKeepsBacked(s: NodeState, ev: Event, env: Env)
    requires ControlOk(s) && Backed(s) && Enabled(s, ev) && env.Succeeds()
    ensures Backed(Step(s, ev, env).node) <==> !(ev.IfaceUp? && !s.cfg.owner && !BackedPdu(s))
  {
    hide Step, T.React, ControlOk, Ready;
    if Posted(s, ev, env).Some? {
      PostedIsReady(s, ev, env);
      StepIsReact(s, ev, env);
      ReactIsBacked(Found(s, ev), PortOf(ev), Posted(s, ev, env).value, Sender(s, ev), env);
    } else {
      OtherStepsAreMinor(s, ev, env);
    }
  }
}
