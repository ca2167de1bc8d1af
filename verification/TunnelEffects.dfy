/** The tunnel machine as the routes see it: what each of its steps can mean for the routes in its tunnel. */
module TunnelEffects {
  import opened Base
  import opened Platform
  import Tun = TunnelMachine
  import TS = TunnelSafety
  import TI = TunnelInvariants

  /** What a step of the tunnel machine can mean for routes: nothing, the end of the tunnel with all its
      routes, or its beginning. */
  ghost predicate TunnelSame(t: Tun.World, v: Tun.World) {
    && TS.Mine(v) == TS.Mine(t) && v.log.deleted == t.log.deleted
    && (forall r :: r in t.platform.used && r in v.platform.routes ==> r in t.platform.routes)
    && (TS.Mine(t).Some? ==>
          && (forall r :: r in t.platform.routes && t.platform.routes[r].tunnelID == TS.Mine(t).value ==>
                r in v.platform.routes && v.platform.routes[r] == t.platform.routes[r])
          && (forall r :: r in v.platform.routes && v.platform.routes[r].tunnelID == TS.Mine(t).value ==>
                r in t.platform.routes && v.platform.routes[r] == t.platform.routes[r]))
  }

  ghost predicate TunnelDies(t: Tun.World, v: Tun.World) {
    && TS.Mine(t).Some? && TS.Mine(v).None? && t.log.deleted == 0 && v.log.deleted == 1
    && (forall r :: r in v.platform.routes ==>
          r in t.platform.routes && v.platform.routes[r] == t.platform.routes[r]
          && t.platform.routes[r].tunnelID != TS.Mine(t).value)
  }

  ghost predicate TunnelBorn(t: Tun.World, v: Tun.World) {
    && TS.Mine(t).None? && TS.Mine(v).Some? && t.log.deleted == 0 && v.log.deleted == 0
    && v.platform.routes == t.platform.routes && TS.Mine(v).value !in t.platform.used
  }

  /** The object never comes back, and a recorded id is never forgotten. */
  ghost predicate IdStays(t: Tun.World, v: Tun.World) {
    v.obj.Some? ==>
      t.obj.Some? && (t.obj.value.status.tunnelID != "" ==> v.obj.value.status.tunnelID != "")
  }

  ghost predicate TunnelEffect(t: Tun.World, v: Tun.World) {
    && v.uid == t.uid && t.platform.used <= v.platform.used && v.log.reached >= t.log.reached
    && v.log.panelDeletes == t.log.panelDeletes
    && (forall id :: id in t.platform.used && id in v.platform.tunnels ==>
          id in t.platform.tunnels && v.platform.tunnels[id].externalID == t.platform.tunnels[id].externalID)
    && IdStays(t, v)
    && (TunnelSame(t, v) || TunnelDies(t, v) || TunnelBorn(t, v))
  }

  lemma QuietEffect(t: Tun.World, v: Tun.World)
    requires v.platform == t.platform && v.uid == t.uid && v.log.deleted == t.log.deleted
    requires v.log.reached == t.log.reached && v.log.panelDeletes == t.log.panelDeletes
    requires IdStays(t, v)
    ensures TunnelEffect(t, v)
  {
  }

  lemma OthersEffect(t: Tun.World, q: Platform)
    requires TS.Structure(t) && OthersOnly(t.platform, q, t.uid)
    ensures TunnelEffect(t, t.(platform := q))
  {
  }

  /** Changing a token or a connection state is nothing to a route. */
  lemma SameTunnelsEffect(t: Tun.World, v: Tun.World)
    requires v.platform == t.platform.(tunnels := v.platform.tunnels, issued := v.platform.issued)
    requires v.platform.tunnels.Keys == t.platform.tunnels.Keys
    requires forall id :: id in t.platform.tunnels ==>
             v.platform.tunnels[id].externalID == t.platform.tunnels[id].externalID
    requires v.uid == t.uid && v.log.deleted == t.log.deleted && IdStays(t, v)
    requires v.log.reached == t.log.reached && v.log.panelDeletes == t.log.panelDeletes
    ensures TunnelEffect(t, v)
  {
  }

  lemma StoreActionEffect(t: Tun.World, a: Tun.Action)
    requires Tun.Enabled(t, a) && (a.UserDelete? || a.EditSpec? || a.SetForeign?)
    ensures TunnelEffect(t, Tun.Apply(t, a))
  {
    QuietEffect(t, Tun.Apply(t, a));
  }

  lemma EnvironmentEffect(t: Tun.World, a: Tun.Action)
    requires TI.Inv(t) && Tun.Enabled(t, a) && !a.PanelDelete? && !a.Begin? && !a.Go? && !a.Crash?
    ensures TunnelEffect(t, Tun.Apply(t, a))
  {
    hide TI.Rest, TS.Structure, TunnelEffect, OthersOnly;
    match a
    case Others(q) => OthersEffect(t, q);
    case OnlineChange(_) => SameTunnelsEffect(t, Tun.Apply(t, a));
    case PanelRotate(_) => SameTunnelsEffect(t, Tun.Apply(t, a));
    case UserDelete => StoreActionEffect(t, a);
    case EditSpec => StoreActionEffect(t, a);
    case SetForeign(_) => StoreActionEffect(t, a);
    case SetCredential(_) => QuietEffect(t, Tun.Apply(t, a));
    case TamperSecret(_) => QuietEffect(t, Tun.Apply(t, a));
    case AgentChange(_) => QuietEffect(t, Tun.Apply(t, a));
  }

  lemma CreateEffect(t: Tun.World, s: Tun.TunnelObject, out: Tun.Outcome)
    requires TI.Inv(t) && t.worker == Tun.Create(s) && Tun.PossibleOutcome(t, out)
    ensures TunnelEffect(t, Tun.GoCreate(t, s, out))
  {
  }

  lemma RotateEffect(t: Tun.World, s: Tun.TunnelObject, remote: Tun.Remote, out: Tun.Outcome)
    requires t.worker == Tun.Rotate(s, remote)
    ensures TunnelEffect(t, Tun.GoRotate(t, s, remote, out))
  {
    SameTunnelsEffect(t, Tun.GoRotate(t, s, remote, out));
  }

  lemma DeleteEffect(t: Tun.World, s: Tun.TunnelObject, id: string, out: Tun.Outcome)
    requires TI.Inv(t) && t.worker == Tun.DeleteRemote(s, id)
    ensures TunnelEffect(t, Tun.GoDeleteRemote(t, s, id, out))
  {
  }

  lemma StoreGoEffect(t: Tun.World, out: Tun.Outcome)
    requires TS.Structure(t)
    requires t.worker.AddFinalizer? || t.worker.RecordMarker? || t.worker.WriteStatus? || t.worker.Release?
    ensures TunnelEffect(t, Tun.Advance(t, out))
  {
    QuietEffect(t, Tun.Advance(t, out));
  }

  lemma ReadGoEffect(t: Tun.World, out: Tun.Outcome)
    requires t.worker.NeedClient? || t.worker.GetKnown? || t.worker.GetCreated? || t.worker.CheckSecret?
          || t.worker.DeleteClient? || t.worker.DeleteFind?
    ensures TunnelEffect(t, Tun.Advance(t, out))
  {
    QuietEffect(t, Tun.Advance(t, out));
  }

  lemma ClusterGoEffect(t: Tun.World, out: Tun.Outcome)
    requires t.worker.WriteSecret? || t.worker.Deploy?
    ensures TunnelEffect(t, Tun.Advance(t, out))
  {
    QuietEffect(t, Tun.Advance(t, out));
  }

  lemma GoEffect(t: Tun.World, out: Tun.Outcome)
    requires TI.Inv(t) && !t.worker.Idle? && Tun.PossibleOutcome(t, out)
    ensures TunnelEffect(t, Tun.Advance(t, out))
  {
    hide TunnelEffect, TS.Structure, TI.Rest;
    match t.worker
    case Create(s) => CreateEffect(t, s, out);
    case Rotate(s, remote) => RotateEffect(t, s, remote, out);
    case DeleteRemote(s, id) => DeleteEffect(t, s, id, out);
    case AddFinalizer(_) => StoreGoEffect(t, out);
    case RecordMarker(_) => StoreGoEffect(t, out);
    case WriteStatus(_, _, _) => StoreGoEffect(t, out);
    case Release(_) => StoreGoEffect(t, out);
    case WriteSecret(_, _, _) => ClusterGoEffect(t, out);
    case Deploy(_, _, _) => ClusterGoEffect(t, out);
    case _ => ReadGoEffect(t, out);
  }

  lemma StepEffect(t: Tun.World, a: Tun.Action)
    requires TI.Inv(t) && Tun.Enabled(t, a) && !a.PanelDelete?
    ensures TunnelEffect(t, Tun.Apply(t, a))
  {
    hide TunnelEffect, TS.Structure, TI.Rest, Tun.Advance, Tun.Start;
    match a
    case Begin => QuietEffect(t, Tun.Apply(t, a));
    case Crash => QuietEffect(t, Tun.Apply(t, a));
    case Go(out) => GoEffect(t, out);
    case _ => EnvironmentEffect(t, a);
  }
}
