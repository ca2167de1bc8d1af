/** The invariant of the whole system, tunnel and routes together, over every run. */
module RouteSystem {
  import opened Base
  import opened Platform
  import opened RouteSpec
  import opened RouteMachine
  import opened RouteSafety
  import Tun = TunnelMachine
  import TS = TunnelSafety
  import TI = TunnelInvariants

  /** The tunnel id a reconcile carries around, or "". */
  function TidOf(worker: Worker): string {
    match worker
    case AddFinalizer(_, tid) => tid
    case NeedUpstream(_, tid) => tid
    case NeedClient(_, tid, _) => tid
    case List(_, tid, _) => tid
    case Replace(_, tid, _, _) => tid
    case Create(_, tid, _) => tid
    case Update(_, tid, _, _, _) => tid
    case DeleteTunnelRead(_, tid) => tid
    case DeleteClient(_, tid) => tid
    case DeleteList(_, tid) => tid
    case DeleteRemote(_, tid, _) => tid
    case _ => ""
  }

  /** The id was read from the Tunnel object: it is the object's own tunnel and stays recorded. */
  ghost predicate TidHeld(t: Tun.World, tid: string) {
    tid != "" ==> TS.Own(t, tid) && Recorded(t)
  }

  ghost predicate Recorded(t: Tun.World) {
    t.obj.Some? ==> t.obj.value.status.tunnelID != ""
  }

  /** Nobody else writes routes into this tunnel, and every route written is remembered. */
  ghost predicate BooksOk(w: Sys) {
    && (forall id :: id in w.makers ==> id in w.t.platform.used && w.makers[id] in w.objects && Recorded(w.t))
    && (forall id :: id in w.t.platform.routes && TS.Mine(w.t) == Some(w.t.platform.routes[id].tunnelID) ==>
          id in w.makers)
  }

  predicate SameRouteKey(a: PRoute, b: PRoute) {
    a.hostname == b.hostname && a.pathPrefix == b.pathPrefix
  }

  /** No object but `name` claims the key of this spec, or of this route. */
  ghost predicate SpecFree(n: Net, objects: map<string, Local>, name: string, spec: Spec) {
    && (forall b :: b in objects && b != name && objects[b].obj.Some? ==> !SameSpecKey(objects[b].obj.value.spec, spec))
    && (forall id :: id in n.live && !Has(n, name, id) ==> !SameKey(n.live[id], spec))
  }

  ghost predicate RouteFree(n: Net, objects: map<string, Local>, name: string, route: PRoute) {
    && (forall b :: b in objects && b != name && objects[b].obj.Some? ==> !SameKey(route, objects[b].obj.value.spec))
    && (forall id :: id in n.live && !Has(n, name, id) ==> !SameRouteKey(n.live[id], route))
  }

  /** Hostname and prefix belong to at most one object, by its spec or by its live route. */
  ghost predicate ClaimsOk(n: Net, objects: map<string, Local>) {
    && (forall a :: a in objects && objects[a].obj.Some? ==> SpecFree(n, objects, a, objects[a].obj.value.spec))
    && (forall id :: id in n.live && id in n.makers ==> RouteFree(n, objects, n.makers[id], n.live[id]))
  }

  ghost predicate ObjectsOk(w: Sys) {
    forall name :: name in w.objects ==>
      LocalOk(NetOf(w), w.rv, name, w.objects[name]) && TidHeld(w.t, TidOf(w.objects[name].worker))
  }

  ghost predicate SysInv(w: Sys) {
    && TI.Inv(w.t) && w.t.log.panelDeletes == 0
    && BooksOk(w) && NetOk(NetOf(w)) && ClaimsOk(NetOf(w), w.objects) && ObjectsOk(w)
  }

  lemma InitSysInv(w: Sys)
    requires Init(w)
    ensures SysInv(w)
  {
    TI.InitInv(w.t);
  }

  // ---------------------------------------------------------------- what a step of one object amounts to

  /** Routes change, nothing else on the platform does. */
  ghost predicate RoutesOnly(p: Platform, q: Platform) {
    && q == p.(routes := q.routes, used := q.used) && p.used <= q.used && q.Valid()
  }

  lemma RoutesOnlyKeepsTunnel(t: Tun.World, q: Platform)
    requires TI.Inv(t) && RoutesOnly(t.platform, q)
    ensures TI.Inv(t.(platform := q))
    ensures forall tid :: TidHeld(t, tid) ==> TidHeld(t.(platform := q), tid)
  {
    var v := t.(platform := q);
    assert TS.Rely(t, v);
    TS.RelyKeepsStructure(t, v);
    RoutesOnlyKeepsRest(t, q);
  }

  lemma RoutesOnlyKeepsRest(t: Tun.World, q: Platform)
    requires TI.Rest(t) && RoutesOnly(t.platform, q)
    ensures TI.Rest(t.(platform := q))
  {
  }

  /** A step of the object `name`: its own reconcile, or a user's action on it. */
  ghost predicate ObjectStep(w: Sys, v: Sys, name: string) {
    && name in v.objects && v.objects == w.objects[name := v.objects[name]] && v.rv >= w.rv
    && v.domain == w.domain && v.namespace == w.namespace && v.services == w.services
    && v.t == w.t.(platform := v.t.platform) && RoutesOnly(w.t.platform, v.t.platform)
    && BooksOk(v) && NetOk(NetOf(v)) && Touches(NetOf(w), NetOf(v), name)
    && LocalOk(NetOf(v), v.rv, name, v.objects[name]) && TidHeld(v.t, TidOf(v.objects[name].worker))
    && ClaimsKept(NetOf(w), NetOf(v), w.objects, name, v.objects[name])
  }

  /** The keys `name` claims afterwards were claimed by nobody else. */
  ghost predicate ClaimsKept(n: Net, m: Net, objects: map<string, Local>, name: string, l: Local) {
    && (l.obj.Some? ==> SpecFree(n, objects, name, l.obj.value.spec))
    && (forall id :: Has(m, name, id) ==> RouteFree(n, objects, name, m.live[id]))
  }

  lemma ClaimsStay(n: Net, m: Net, objects: map<string, Local>, name: string, l: Local)
    requires NetOk(n) && NetOk(m) && Touches(n, m, name) && ClaimsOk(n, objects) && ClaimsKept(n, m, objects, name, l)
    ensures ClaimsOk(m, objects[name := l])
  {
    var after := objects[name := l];
    forall a | a in after && after[a].obj.Some?
      ensures SpecFree(m, after, a, after[a].obj.value.spec)
    {
      SpecStaysFree(n, m, objects, name, l, a);
    }
    forall id | id in m.live && id in m.makers
      ensures RouteFree(m, after, m.makers[id], m.live[id])
    {
      RouteStaysFree(n, m, objects, name, l, id);
    }
  }

  lemma SpecStaysFree(n: Net, m: Net, objects: map<string, Local>, name: string, l: Local, a: string)
    requires NetOk(n) && NetOk(m) && Touches(n, m, name) && ClaimsOk(n, objects) && ClaimsKept(n, m, objects, name, l)
    requires a in objects[name := l] && objects[name := l][a].obj.Some?
    ensures SpecFree(m, objects[name := l], a, objects[name := l][a].obj.value.spec)
  {
    if a != name {
      assert SpecFree(n, objects, a, objects[a].obj.value.spec);
      forall id | id in m.live && !Has(m, a, id)
        ensures !SameKey(m.live[id], objects[a].obj.value.spec)
      {
        if Has(m, name, id) {
          assert RouteFree(n, objects, name, m.live[id]);
        } else {
          TouchesKeepsHas(n, m, name, a, id);
        }
      }
    }
  }

  lemma RouteStaysFree(n: Net, m: Net, objects: map<string, Local>, name: string, l: Local, id: string)
    requires NetOk(n) && NetOk(m) && Touches(n, m, name) && ClaimsOk(n, objects) && ClaimsKept(n, m, objects, name, l)
    requires id in m.live && id in m.makers
    ensures RouteFree(m, objects[name := l], m.makers[id], m.live[id])
  {
    var a := m.makers[id];
    if a == name {
      assert RouteFree(n, objects, name, m.live[id]);
    } else {
      TouchesKeepsHas(n, m, name, a, id);
      assert RouteFree(n, objects, a, n.live[id]);
      if l.obj.Some? {
        assert SpecFree(n, objects, name, l.obj.value.spec);
      }
      forall x | x in m.live && !Has(m, a, x)
        ensures !SameRouteKey(m.live[x], m.live[id])
      {
        if Has(m, name, x) {
          assert RouteFree(n, objects, name, m.live[x]);
          assert !Has(n, name, id);
        } else {
          TouchesKeepsHas(n, m, name, a, x);
        }
      }
    }
  }

  lemma VersionsGrow(n: Net, rv: nat, rv': nat, name: string, l: Local)
    requires LocalOk(n, rv, name, l) && rv <= rv'
    ensures LocalOk(n, rv', name, l)
  {
  }

  lemma ObjectStepKeepsInv(w: Sys, v: Sys, name: string)
    requires SysInv(w) && ObjectStep(w, v, name)
    ensures SysInv(v)
  {
    RoutesOnlyKeepsTunnel(w.t, v.t.platform);
    ClaimsStay(NetOf(w), NetOf(v), w.objects, name, v.objects[name]);
    forall other | other in v.objects && other != name
      ensures LocalOk(NetOf(v), v.rv, other, v.objects[other]) && TidHeld(v.t, TidOf(v.objects[other].worker))
    {
      var l := w.objects[other];
      assert LocalOk(NetOf(w), w.rv, other, l) && TidHeld(w.t, TidOf(l.worker));
      TouchesKeepsLocal(NetOf(w), NetOf(v), w.rv, name, other, l);
      VersionsGrow(NetOf(v), w.rv, v.rv, other, l);
    }
  }
}
