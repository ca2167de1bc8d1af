/** From nothing to a published route, through both controllers. */
module EndToEnd {
  import opened Base
  import opened RouteSpec
  import opened Upstream
  import opened RouteMachine
  import opened RouteConvergence
  import Tun = TunnelMachine
  import TS = TunnelSafety
  import TC = TunnelConvergence

  /** Actions of the tunnel machine as actions of the whole system. */
  function Lifted(actions: seq<Tun.Action>): seq<Action> {
    if actions == [] then [] else [Tunnel(actions[0])] + Lifted(actions[1..])
  }

  /** A run of the tunnel machine is a run of the whole system that leaves the route objects alone. */
  lemma {:induction false} LiftedRun(w: Sys, actions: seq<Tun.Action>, t: Tun.World)
    requires Tun.Run(w.t, actions, t) && forall a :: a in actions ==> !a.PanelDelete?
    ensures Run(w, Lifted(actions), w.(t := t))
    decreases |actions|
  {
    hide Tun.Enabled, Tun.Apply;
    if actions != [] {
      LiftedRun(w.(t := Tun.Apply(w.t, actions[0])), actions[1..], t);
      assert Lifted(actions)[1..] == Lifted(actions[1..]);
    }
  }

  /** A fresh Tunnel with a readable credential, one uninterrupted reconcile of it, and a route object: the tunnel
      is there, its id is recorded, and the route object is waiting for its first reconcile. */
  lemma TunnelComesUp(w0: Sys, out: Tun.Outcome, name: string, spec: Spec)
    returns (actions: seq<Action>, w: Sys, tid: string)
    requires Init(w0) && w0.t.credential && TC.Answers(w0.t, out) && ValidSpec(spec)
    ensures Run(w0, actions, w)
    ensures w.services == w0.services && w.namespace == w0.namespace && w.domain == w0.domain
    ensures TunnelID(w) == Some(tid) && tid != "" && TS.Mine(w.t) == Some(tid) && w.t.credential
    ensures name in w.objects && w.objects[name].worker.Idle? && w.objects[name].obj.Some?
    ensures w.objects[name].obj.value.spec == spec && !w.objects[name].obj.value.deleting
  {
    hide TC.Reconcile, Tun.Run, Run, TS.WorkerOk, TS.StatusOk;
    TS.StructureInit(w0.t);
    TC.FromStart(w0.t, out);
    var steps := TC.ReconcileIsRun(w0.t, out);
    var t := TC.Reconcile(w0.t, out);
    LiftedRun(w0, steps, t);
    var up := w0.(t := t);
    RunThen(w0, Lifted(steps), up, Apply(name, spec));
    actions, w := Lifted(steps) + [Apply(name, spec)], Step(up, Apply(name, spec));
    tid := t.obj.value.status.tunnelID;
  }

  /** What the first reconcile of the route object leaves. */
  ghost predicate FirstPublished(v: Sys, name: string, spec: Spec, tid: string, at: Address) {
    && name in v.objects && v.objects[name].obj.Some? && v.objects[name].obj.value.status.ready.True()
    && v.objects[name].obj.value.status.routeID in v.t.platform.routes
    && Asked(v.t.platform.routes[v.objects[name].obj.value.status.routeID], spec, tid, at.host, at.port)
  }

  /** And if the spec resolves in this cluster then, whatever the platform mints and however it lists the routes, the
      first uninterrupted reconcile of the route object publishes exactly the route the spec asks for and says so. */
  lemma FreshClusterPublishes(w0: Sys, out: Tun.Outcome, name: string, spec: Spec, at: Address)
    returns (actions: seq<Action>, w: Sys, tid: string)
    requires Init(w0) && w0.t.credential && TC.Answers(w0.t, out) && ValidSpec(spec)
    requires Resolve(spec, ServiceOf(w0, spec), w0.domain) == Some(at)
    ensures Run(w0, actions, w) && TS.Mine(w.t) == Some(tid) && name in w.objects
    ensures forall answer: Outcome ::
              && answer.Done? && answer.id != "" && answer.id !in w.t.platform.used
              && IsListing(answer.listing, w.t.platform.routes, tid)
              ==> FirstPublished(Reconcile(w, name, answer), name, spec, tid, at)
  {
    hide Run, Init, Reconcile, Asked, IsListing, Resolve, Tun.Init, TC.Answers, ServiceOf;
    actions, w, tid := TunnelComesUp(w0, out, name, spec);
    SameServices(w0, w, spec);
    forall answer: Outcome | && answer.Done? && answer.id != "" && answer.id !in w.t.platform.used
                             && IsListing(answer.listing, w.t.platform.routes, tid)
      ensures FirstPublished(Reconcile(w, name, answer), name, spec, tid, at)
    {
      RouteConverges(w0, actions, w, name, tid, at, answer);
    }
  }
}
