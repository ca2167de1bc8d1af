/** The two reconcilers as they are written, and what every execution of them keeps.

    `Valid()` says that the world a reconciler holds is the end of a run of the machine. That is not assumed of it: the
    constructor establishes it and every method ensures it, each call being a step of the machine, so it holds wherever
    an execution stands. The lemmas here only put the theorems about runs in those terms. */
module Executions {
  import opened Base
  import Tun = TunnelMachine
  import TR = TunnelReconciler
  import TT = TunnelTheorems
  import TI = TunnelInvariants
  import RM = RouteMachine
  import RR = RouteReconciler
  import RouteTheorems
  import RouteSafety

  /** Wherever an execution of the tunnel reconciler stands, with any outcomes and any interference so far: no
      tunnel is orphaned, and the stored token is the valid one. */
  lemma TunnelExecutionIsSafe(r: TR.Reconciler)
    requires r.Valid() && Tun.Init(r.start) && TT.PanelDeletes(r.trace) == 0
    ensures TT.Covered(r.world)
    ensures TT.PanelRotations(r.trace) == 0 && Tun.Usable(r.world.secret) && r.world.uid in r.world.platform.owners ==>
            TI.TokenOf(r.world) == Some(r.world.secret.value.token)
  {
    TT.NoOrphanTunnel(r.start, r.trace, r.world);
    TT.RunFromInit(r.start, r.trace, r.world);
  }

  /** And of a route reconcile, among any number of others: every route in the tunnel belongs to exactly one
      object, which still carries the finalizer. */
  lemma RouteExecutionIsSafe(r: RR.Reconciler)
    requires r.Valid() && RM.Init(r.start)
    ensures forall id :: RouteTheorems.InTunnel(r.sys, id) ==> exists name :: RouteTheorems.Covers(r.sys, name, id)
    ensures forall id, a, b :: RouteTheorems.Covers(r.sys, a, id) && RouteTheorems.Covers(r.sys, b, id) ==> a == b
    ensures r.sys.objects[r.name].obj.Some? ==> RouteSafety.RollupOk(r.sys.objects[r.name].obj.value.status)
  {
    RouteTheorems.NoOrphanRoute(r.start, r.trace, r.sys);
    if r.sys.objects[r.name].obj.Some? {
      RouteTheorems.RouteReadyRollup(r.start, r.trace, r.sys, r.name);
    }
  }
}
