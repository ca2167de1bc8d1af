/** Every action on one route object is an ObjectStep, so the invariant of the whole system survives it. */
module RouteSteps {
  import opened Base
  import opened Errors
  import opened Platform
  import opened RouteSpec
  import opened Upstream
  import opened RouteMachine
  import opened RouteSafety
  import opened RouteSystem
  import Tun = TunnelMachine
  import TS = TunnelSafety
  import TI = TunnelInvariants

  /** A step that touches nothing but the object itself and its worker. */
  lemma QuietStep(w: Sys, v: Sys, name: string, l: Local)
    requires SysInv(w) && v == w.(objects := w.objects[name := l], rv := v.rv) && v.rv >= w.rv
    requires LocalOk(NetOf(w), v.rv, name, l) && TidHeld(w.t, TidOf(l.worker))
    requires l.obj.Some? ==> SpecFree(NetOf(w), w.objects, name, l.obj.value.spec)
    ensures ObjectStep(w, v, name)
  {
    hide LocalOk, TI.Rest, SpecFree, RouteFree;
    var n := NetOf(w);
    assert NetOf(v) == n;
    forall id | Has(n, name, id)
      ensures RouteFree(n, w.objects, name, n.live[id])
    {
      assert id in n.live && id in n.makers;
    }
  }

  /** A step that only moves the worker on. */
  lemma ReadStep(w: Sys, name: string, worker: Worker)
    requires SysInv(w) && name in w.objects
    requires LocalOk(NetOf(w), w.rv, name, w.objects[name].(worker := worker)) && TidHeld(w.t, TidOf(worker))
    ensures ObjectStep(w, At(w, name, w.objects[name].(worker := worker)), name)
  {
    hide LocalOk, TI.Inv, SpecFree, RouteFree, BooksOk, NetOk;
    QuietStep(w, At(w, name, w.objects[name].(worker := worker)), name, w.objects[name].(worker := worker));
  }

  /** A step that writes one's own routes on the platform. */
  lemma PlatformStep(w: Sys, v: Sys, name: string, l: Local)
    requires SysInv(w) && name in w.objects && l.obj == w.objects[name].obj
    requires v == w.(t := w.t.(platform := v.t.platform), makers := v.makers, objects := w.objects[name := l])
    requires RoutesOnly(w.t.platform, v.t.platform) && BooksOk(v)
    requires NetOk(NetOf(v)) && Touches(NetOf(w), NetOf(v), name) && LocalOk(NetOf(v), w.rv, name, l)
    requires TidHeld(w.t, TidOf(l.worker))
    requires forall id :: Has(NetOf(v), name, id) ==> RouteFree(NetOf(w), w.objects, name, NetOf(v).live[id])
    ensures ObjectStep(w, v, name)
  {
    hide LocalOk, SpecFree, RouteFree, BooksOk, NetOk, Touches, TI.Inv, TidHeld, RoutesOnly;
    RoutesOnlyKeepsTunnel(w.t, v.t.platform);
  }

  lemma OwnRouteFree(w: Sys, name: string, id: string)
    requires SysInv(w) && Has(NetOf(w), name, id)
    ensures RouteFree(NetOf(w), w.objects, name, NetOf(w).live[id])
  {
    hide RouteFree, SpecFree, TI.Inv, ObjectsOk, BooksOk;
  }

  /** A route under a key that is free is free itself. */
  lemma SameKeyFree(n: Net, objects: map<string, Local>, name: string, spec: Spec, route: PRoute)
    requires SpecFree(n, objects, name, spec) && SameKey(route, spec)
    ensures RouteFree(n, objects, name, route)
  {
  }

  lemma SameRouteKeyFree(n: Net, objects: map<string, Local>, name: string, before: PRoute, route: PRoute)
    requires RouteFree(n, objects, name, before) && SameRouteKey(before, route)
    ensures RouteFree(n, objects, name, route)
  {
  }

  // ---------------------------------------------------------------- reads

  lemma TunnelView(w: Sys)
    requires SysInv(w)
    ensures ViewOk(w, NetOf(w))
    ensures w.t.obj.Some? ==> TidHeld(w.t, w.t.obj.value.status.tunnelID)
  {
  }

  /** The tunnel id a worker carries names the tunnel, or a tunnel that is gone. */
  lemma TidMeans(w: Sys, tid: string)
    requires SysInv(w) && TidHeld(w.t, tid) && TidOk(NetOf(w), tid)
    ensures tid in w.t.platform.tunnels ==> !NetOf(w).dead && NetOf(w).tunnel == Some(tid)
    ensures NetOf(w).dead ==> tid !in w.t.platform.tunnels
  {
  }

  lemma ListingMeans(w: Sys, tid: string, listing: seq<Listed>, routeID: string, spec: Spec)
    requires SysInv(w) && TidHeld(w.t, tid) && TidOk(NetOf(w), tid)
    requires IsListing(listing, w.t.platform.routes, tid)
    ensures FoundMeans(NetOf(w), routeID, spec, FindRoute(listing, routeID, spec))
  {
    hide IsListing, FindRoute, ObjectsOk, ClaimsOk;
    TidMeans(w, tid);
    FindRouteMeans(listing, w.t.platform.routes, tid, routeID, spec);
  }

  lemma OwnsKey(w: Sys, name: string)
    requires SysInv(w) && name in w.objects
    ensures KeyOwned(NetOf(w), name, w.objects[name])
  {
    hide TI.Inv, ObjectsOk, BooksOk, NetOk, RouteFree;
    if w.objects[name].obj.Some? {
      assert SpecFree(NetOf(w), w.objects, name, w.objects[name].obj.value.spec);
    }
  }

  lemma ReadGo(w: Sys, name: string, out: Outcome)
    requires SysInv(w) && name in w.objects
    requires w.objects[name].worker.NeedTunnel? || w.objects[name].worker.NeedUpstream?
          || w.objects[name].worker.NeedClient?
          || w.objects[name].worker.DeleteTunnelRead? || w.objects[name].worker.DeleteClient?
    ensures ObjectStep(w, At(w, name, w.objects[name].(worker := NextAfterRead(w, w.objects[name], out))), name)
  {
    hide LocalOk, TI.Inv, BooksOk, NetOk, ClaimsOk, ViewOk, TidHeld, Resolve, SuccessStatus, ObjectStep;
    var n, l := NetOf(w), w.objects[name];
    var next := NextAfterRead(w, l, out);
    assert LocalOk(n, w.rv, name, l) && TidHeld(w.t, TidOf(l.worker));
    TunnelView(w);
    StopKeepsLocal(n, w.rv, name, l);
    NoTid(w.t);
    match l.worker {
      case NeedTunnel(s) => NeedTunnelKeepsLocal(w, n, w.rv, name, l, s);
      case NeedUpstream(s, tid) => NeedUpstreamKeepsLocal(w, n, w.rv, name, l, s, tid, out);
      case NeedClient(s, tid, at) => NeedClientKeepsLocal(w, n, w.rv, name, l, s, tid, at, out);
      case DeleteTunnelRead(s, tid) => DeleteReadKeepsLocal(w, n, w.rv, name, l, out);
      case DeleteClient(s, tid) => DeleteReadKeepsLocal(w, n, w.rv, name, l, out);
    }
    ReadStep(w, name, next);
  }

  lemma NoTid(t: Tun.World)
    ensures TidHeld(t, "")
  {
  }

  lemma DeleteReadKeepsLocal(w: Sys, n: Net, rv: nat, name: string, l: Local, out: Outcome)
    requires LocalOk(n, rv, name, l) && (l.worker.DeleteTunnelRead? || l.worker.DeleteClient?)
    ensures LocalOk(n, rv, name, l.(worker := NextAfterRead(w, l, out)))
  {
  }

  lemma ListGo(w: Sys, name: string, out: Outcome)
    requires SysInv(w) && name in w.objects && w.objects[name].worker.List? && PossibleOutcome(w, w.objects[name], out)
    ensures ObjectStep(w, At(w, name, w.objects[name].(worker := NextAfterRead(w, w.objects[name], out))), name)
  {
    hide TI.Inv, BooksOk, NetOk, ClaimsOk, TidHeld, ObjectStep, IsListing, FindRoute, VersionOk, ObjectOk, FoundMeans,
      IdentityChanged, FailStatus, Drift, SuccessStatus, KeyOwned, SnapshotOk, Held, IdentityKnown, NotOvertaken;
    var n, l := NetOf(w), w.objects[name];
    var s, tid, at := l.worker.s, l.worker.tid, l.worker.at;
    assert LocalOk(n, w.rv, name, l) && TidHeld(w.t, tid);
    NoTid(w.t);
    if out.Done? {
      ListingMeans(w, tid, out.listing, s.status.routeID, s.spec);
      OwnsKey(w, name);
      match FindRoute(out.listing, s.status.routeID, s.spec)
      case None => ListNoneKeepsLocal(n, w.rv, name, l, s, tid, at);
      case Some(x) => ListFoundKeepsLocal(n, w.rv, name, l, s, tid, at, x);
    } else {
      FailKeepsLocal(n, w.rv, name, l, s, out.err);
    }
    ReadStep(w, name, NextAfterRead(w, l, out));
  }

  lemma DeleteListGo(w: Sys, name: string, out: Outcome)
    requires SysInv(w) && name in w.objects && w.objects[name].worker.DeleteList?
    requires PossibleOutcome(w, w.objects[name], out)
    ensures ObjectStep(w, At(w, name, w.objects[name].(worker := NextAfterRead(w, w.objects[name], out))), name)
  {
    hide TI.Inv, BooksOk, NetOk, ClaimsOk, TidHeld, ObjectStep, IsListing, FindRoute, VersionOk, ObjectOk, FoundMeans,
      KeyOwned, SnapshotOk, Held;
    var n, l := NetOf(w), w.objects[name];
    var s, tid := l.worker.s, l.worker.tid;
    assert LocalOk(n, w.rv, name, l) && TidHeld(w.t, tid);
    NoTid(w.t);
    StopKeepsLocal(n, w.rv, name, l);
    if out.Done? {
      ListingMeans(w, tid, out.listing, s.status.routeID, s.spec);
      OwnsKey(w, name);
      DeleteListKeepsLocal(n, w.rv, name, l, s, tid, FindRoute(out.listing, s.status.routeID, s.spec));
    }
    ReadStep(w, name, NextAfterRead(w, l, out));
  }

  // ---------------------------------------------------------------- writes to the object store

  lemma StopStep(w: Sys, name: string)
    requires SysInv(w) && name in w.objects
    ensures ObjectStep(w, At(w, name, w.objects[name].(worker := Idle)), name)
  {
    hide LocalOk, TI.Inv, BooksOk, NetOk, ClaimsOk, TidHeld, ObjectStep;
    assert LocalOk(NetOf(w), w.rv, name, w.objects[name]);
    StopKeepsLocal(NetOf(w), w.rv, name, w.objects[name]);
    NoTid(w.t);
    ReadStep(w, name, Idle);
  }

  /** Writing the object with a spec whose key is nobody else's. */
  lemma PutStep(w: Sys, name: string, o: RouteObject, worker: Worker)
    requires SysInv(w) && LocalOk(NetOf(w), w.rv + 1, name, Local(Some(o.(rv := w.rv + 1)), worker))
    requires TidHeld(w.t, TidOf(worker)) && SpecFree(NetOf(w), w.objects, name, o.spec)
    ensures ObjectStep(w, Put(w, name, o, worker), name)
  {
    hide LocalOk, TI.Inv, BooksOk, NetOk, ClaimsOk, TidHeld, ObjectStep, SpecFree;
    QuietStep(w, Put(w, name, o, worker), name, Local(Some(o.(rv := w.rv + 1)), worker));
  }

  lemma GoneStep(w: Sys, name: string, worker: Worker)
    requires SysInv(w) && LocalOk(NetOf(w), w.rv, name, Local(None, worker)) && TidHeld(w.t, TidOf(worker))
    ensures ObjectStep(w, At(w, name, Local(None, worker)), name)
  {
    hide LocalOk, TI.Inv, BooksOk, NetOk, ClaimsOk, TidHeld, ObjectStep, SpecFree;
    QuietStep(w, At(w, name, Local(None, worker)), name, Local(None, worker));
  }

  lemma OwnSpecFree(w: Sys, name: string)
    requires SysInv(w) && name in w.objects && w.objects[name].obj.Some?
    ensures SpecFree(NetOf(w), w.objects, name, w.objects[name].obj.value.spec)
  {
    hide TI.Inv, BooksOk, NetOk, ObjectsOk, SpecFree;
  }

  lemma AddFinalizerGo(w: Sys, name: string, s: RouteObject, tid: string, out: Outcome)
    requires SysInv(w) && name in w.objects && w.objects[name].worker == AddFinalizer(s, tid)
    ensures ObjectStep(w, GoAddFinalizer(w, name, w.objects[name], s, tid, out), name)
  {
    hide TI.Inv, BooksOk, NetOk, ClaimsOk, TidHeld, ObjectStep, SpecFree, WorkerOk, ObjectOk, RollupKept;
    var l := w.objects[name];
    assert LocalOk(NetOf(w), w.rv, name, l) && TidHeld(w.t, TidOf(l.worker));
    if out.Refused? || !Current(l, s) {
      StopStep(w, name);
    } else {
      var worker := if out.Done? then AfterFinalizer(s.(finalizer := true, rv := w.rv + 1), tid) else Idle;
      AddFinalizerKeepsLocal(NetOf(w), w.rv, name, l, s, tid, worker);
      OwnSpecFree(w, name);
      NoTid(w.t);
      PutStep(w, name, s.(finalizer := true), worker);
    }
  }

  lemma WriteStatusGo(w: Sys, name: string, s: RouteObject, next: RouteStatus, out: Outcome)
    requires SysInv(w) && name in w.objects && w.objects[name].worker == WriteStatus(s, next)
    ensures ObjectStep(w, GoWriteStatus(w, name, w.objects[name], s, next, out), name)
  {
    hide TI.Inv, BooksOk, NetOk, ClaimsOk, TidHeld, ObjectStep, SpecFree, WorkerOk, ObjectOk, RollupKept;
    var l := w.objects[name];
    assert LocalOk(NetOf(w), w.rv, name, l);
    if out.Refused? || !Current(l, s) {
      StopStep(w, name);
    } else {
      WriteStatusKeepsLocal(NetOf(w), w.rv, name, l, s, next);
      OwnSpecFree(w, name);
      NoTid(w.t);
      PutStep(w, name, s.(status := next), Idle);
    }
  }

  lemma ReleaseGo(w: Sys, name: string, s: RouteObject, out: Outcome)
    requires SysInv(w) && name in w.objects && w.objects[name].worker == Release(s)
    ensures ObjectStep(w, GoRelease(w, name, w.objects[name], s, out), name)
  {
    hide TI.Inv, BooksOk, NetOk, ClaimsOk, TidHeld, ObjectStep, SpecFree, WorkerOk, ObjectOk, RollupKept;
    var l := w.objects[name];
    assert LocalOk(NetOf(w), w.rv, name, l);
    NoTid(w.t);
    if out.Refused? || !Current(l, s) {
      StopStep(w, name);
    } else {
      ReleaseKeepsLocal(NetOf(w), w.rv, name, l, s);
      OwnSpecFree(w, name);
      if s.foreign {
        PutStep(w, name, s.(finalizer := false), Idle);
      } else {
        GoneStep(w, name, Idle);
      }
    }
  }

  // ---------------------------------------------------------------- writes to the platform

  lemma DeleteMeansRemoved(w: Sys, v: Sys, name: string, tid: string, id: string)
    requires SysInv(w) && TidHeld(w.t, tid) && TidOk(NetOf(w), tid) && OwnId(NetOf(w), name, id)
    requires v.t == w.t.(platform := w.t.platform.DeleteRoute(tid, id)) && v.makers == w.makers
    ensures Removed(NetOf(w), NetOf(v), name, id)
  {
    hide ObjectsOk, ClaimsOk, BooksOk, TI.Rest;
  }

  lemma DeleteKeepsBooks(w: Sys, v: Sys, tid: string, id: string)
    requires SysInv(w) && v == w.(t := v.t, objects := v.objects) && w.objects.Keys <= v.objects.Keys
    requires v.t == w.t.(platform := w.t.platform.DeleteRoute(tid, id))
    ensures BooksOk(v) && RoutesOnly(w.t.platform, v.t.platform)
  {
    hide ObjectsOk, ClaimsOk, TI.Rest, NetOk;
  }

  /** Deleting one's own route, whatever the worker does next. */
  lemma DeleteStep(w: Sys, name: string, tid: string, id: string, l: Local)
    requires SysInv(w) && name in w.objects && l.obj == w.objects[name].obj
    requires TidHeld(w.t, tid) && TidOk(NetOf(w), tid) && OwnId(NetOf(w), name, id) && TidHeld(w.t, TidOf(l.worker))
    requires forall m :: Removed(NetOf(w), m, name, id) ==> LocalOk(m, w.rv, name, l)
    ensures ObjectStep(w, At(SetPlatform(w, w.t.platform.DeleteRoute(tid, id)), name, l), name)
  {
    hide LocalOk, TI.Inv, SpecFree, RouteFree, ObjectStep, TidOk, BooksOk, RoutesOnly, ObjectsOk, ClaimsOk, TidHeld,
      Touches, OwnId, NetOk;
    var v := At(SetPlatform(w, w.t.platform.DeleteRoute(tid, id)), name, l);
    DeleteMeansRemoved(w, v, name, tid, id);
    DeleteKeepsBooks(w, v, tid, id);
    RemovedTouches(NetOf(w), NetOf(v), name, id);
    forall x | Has(NetOf(v), name, x)
      ensures RouteFree(NetOf(w), w.objects, name, NetOf(v).live[x])
    {
      OwnRouteFree(w, name, x);
    }
    PlatformStep(w, v, name, l);
  }

  lemma ReplaceGo(w: Sys, name: string, s: RouteObject, tid: string, at: Address, id: string, out: Outcome)
    requires SysInv(w) && name in w.objects && w.objects[name].worker == Replace(s, tid, at, id)
    ensures ObjectStep(w, GoReplace(w, name, w.objects[name], s, tid, at, id, out), name)
  {
    hide TI.Inv, BooksOk, NetOk, ClaimsOk, TidHeld, ObjectStep, VersionOk, ObjectOk, FailStatus,
      SnapshotOk, Held, IdentityKnown, NotOvertaken, Removed, RollupOk;
    var n, l := NetOf(w), w.objects[name];
    assert LocalOk(n, w.rv, name, l) && TidHeld(w.t, tid);
    NoTid(w.t);
    if out.Refused? {
      FailKeepsLocal(n, w.rv, name, l, s, Wrapped(out.err));
      ReadStep(w, name, WriteStatus(s, FailStatus(s, Wrapped(out.err))));
    } else {
      var worker := if out.Done? then Create(s, tid, at) else WriteStatus(s, FailStatus(s, Wrapped(out.err)));
      forall m | Removed(n, m, name, id)
        ensures LocalOk(m, w.rv, name, l.(worker := worker))
      {
        ReplacedKeepsLocal(n, m, w.rv, name, l, s, tid, at, id);
        if out.Lost? {
          FailKeepsLocal(m, w.rv, name, l, s, Wrapped(out.err));
        }
      }
      DeleteStep(w, name, tid, id, l.(worker := worker));
    }
  }

  lemma ReplacedKeepsLocal(n: Net, m: Net, rv: nat, name: string, l: Local, s: RouteObject, tid: string, at: Address,
                           id: string)
    requires NetOk(n) && LocalOk(n, rv, name, l) && l.worker == Replace(s, tid, at, id) && Removed(n, m, name, id)
    ensures LocalOk(m, rv, name, l.(worker := Create(s, tid, at)))
    ensures ObjectOk(m, name, l) && Working(m, name, l, s)
  {
    if n.dead {
      RemovedTouches(n, m, name, id);
    } else {
      ReplaceKeepsLocal(n, m, rv, name, l, s, tid, at, id);
    }
  }

  lemma DeleteRemoteGo(w: Sys, name: string, s: RouteObject, tid: string, id: string, out: Outcome)
    requires SysInv(w) && name in w.objects && w.objects[name].worker == DeleteRemote(s, tid, id)
    ensures ObjectStep(w, GoDeleteRemote(w, name, w.objects[name], s, tid, id, out), name)
  {
    hide TI.Inv, BooksOk, NetOk, ClaimsOk, TidHeld, ObjectStep, VersionOk, ObjectOk, RollupKept,
      SnapshotOk, Held, Removed;
    var n, l := NetOf(w), w.objects[name];
    assert LocalOk(n, w.rv, name, l) && TidHeld(w.t, tid);
    NoTid(w.t);
    if out.Refused? {
      StopStep(w, name);
    } else {
      var worker := if out.Done? then Release(s) else Idle;
      forall m | Removed(n, m, name, id)
        ensures LocalOk(m, w.rv, name, l.(worker := worker))
      {
        DeleteRemoteKeepsLocal(n, m, w.rv, name, l, s, tid, id);
      }
      DeleteStep(w, name, tid, id, l.(worker := worker));
    }
  }

  lemma CreateMeansAdded(w: Sys, v: Sys, name: string, tid: string, id: string, route: PRoute)
    requires SysInv(w) && name in w.objects && id != "" && id !in w.t.platform.used
    requires tid in w.t.platform.tunnels && route.tunnelID == tid && TidHeld(w.t, tid) && TidOk(NetOf(w), tid)
    requires v.t == w.t.(platform := w.t.platform.CreateRoute(id, route)) && v.makers == w.makers[id := name]
    ensures Added(NetOf(w), NetOf(v), name, id, route) && !NetOf(w).dead
  {
    hide SysInv, NetOf, TidHeld, TidOk;
    TidMeans(w, tid);
    NewIsNew(w, id);
    NetAfterCreate(w, v, name, id, route);
  }

  lemma NewIsNew(w: Sys, id: string)
    requires SysInv(w) && id !in w.t.platform.used
    ensures id !in w.makers && id !in w.t.platform.routes && id !in NetOf(w).live && id !in NetOf(w).makers
  {
    hide ObjectsOk, ClaimsOk, TI.Rest, TS.WorkerOk, TS.StatusOk, TS.Own, NetOk;
  }

  lemma NetAfterCreate(w: Sys, v: Sys, name: string, id: string, route: PRoute)
    requires v.t == w.t.(platform := w.t.platform.CreateRoute(id, route)) && v.makers == w.makers[id := name]
    ensures NetOf(v) == NetOf(w).(live := NetOf(w).live[id := route], makers := NetOf(w).makers[id := name])
  {
    assert NetOf(v).live == NetOf(w).live[id := route];
  }

  lemma CreateRoutesOnly(p: Platform, id: string, route: PRoute)
    requires p.Valid() && id != "" && route.tunnelID in p.tunnels
    ensures RoutesOnly(p, p.CreateRoute(id, route))
  {
  }

  lemma CreateKeepsBooks(w: Sys, v: Sys, name: string, tid: string, id: string, route: PRoute)
    requires TS.Structure(w.t) && BooksOk(w) && name in w.objects && id !in w.t.platform.used
    requires tid in w.t.platform.tunnels && route.tunnelID == tid && TidHeld(w.t, tid) && tid != ""
    requires v.t == w.t.(platform := w.t.platform.CreateRoute(id, route)) && v.makers == w.makers[id := name]
    requires v.objects.Keys >= w.objects.Keys
    requires id != ""
    ensures BooksOk(v) && RoutesOnly(w.t.platform, v.t.platform)
  {
    hide TS.WorkerOk, TS.Own, TS.StatusOk, RoutesOnly;
    CreateRoutesOnly(w.t.platform, id, route);
  }

  lemma CreateGo(w: Sys, name: string, s: RouteObject, tid: string, at: Address, out: Outcome)
    requires SysInv(w) && name in w.objects && w.objects[name].worker == Create(s, tid, at)
    requires PossibleOutcome(w, w.objects[name], out)
    ensures ObjectStep(w, GoCreate(w, name, w.objects[name], s, tid, at, out), name)
  {
    hide TI.Inv, BooksOk, NetOk, ClaimsOk, TidHeld, ObjectStep, VersionOk, ObjectOk, FailStatus, Stored, Drift,
      SnapshotOk, Held, IdentityKnown, NotOvertaken, Added, RollupOk, SuccessStatus, RouteFree, SpecFree, CreateBody,
      RoutesOnly, Touches;
    var n, l := NetOf(w), w.objects[name];
    assert LocalOk(n, w.rv, name, l) && TidHeld(w.t, tid);
    NoTid(w.t);
    if out.Refused? || tid !in w.t.platform.tunnels {
      var err := if out.Refused? then out.err else APIError(404, CodeNotFound);
      FailKeepsLocal(n, w.rv, name, l, s, err);
      ReadStep(w, name, WriteStatus(s, FailStatus(s, err)));
    } else {
      CreateMade(w, name, s, tid, at, out);
    }
  }

  lemma CreateMade(w: Sys, name: string, s: RouteObject, tid: string, at: Address, out: Outcome)
    requires SysInv(w) && name in w.objects && w.objects[name].worker == Create(s, tid, at)
    requires PossibleOutcome(w, w.objects[name], out) && !out.Refused? && tid in w.t.platform.tunnels
    ensures ObjectStep(w, GoCreate(w, name, w.objects[name], s, tid, at, out), name)
  {
    hide TI.Rest, TS.Structure, BooksOk, ClaimsOk, TidHeld, ObjectStep, VersionOk, ObjectOk, FailStatus, Drift,
      SnapshotOk, Held, IdentityKnown, NotOvertaken, RollupOk, SuccessStatus, RouteFree, SpecFree, CreateBody,
      RoutesOnly, Touches;
    var n, l := NetOf(w), w.objects[name];
    assert LocalOk(n, w.rv, name, l) && TidHeld(w.t, tid);
    var route := Stored(tid, CreateBody(s.spec, at.host, at.port));
    var v := GoCreate(w, name, l, s, tid, at, out);
    var m := NetOf(v);
    CreateMeansAdded(w, v, name, tid, out.id, route);
    CreateKeepsBooks(w, v, name, tid, out.id, route);
    CreateKeepsLocal(n, m, w.rv, name, l, s, tid, at, out.id);
    NoTid(w.t);
    if out.Done? {
      CompareKeepsLocal(m, w.rv, name, l, s, tid, at, out.id, route);
    } else {
      FailKeepsLocal(m, w.rv, name, l, s, out.err);
    }
    forall x | Has(m, name, x)
      ensures RouteFree(n, w.objects, name, m.live[x])
    {
      assert x == out.id;
      OwnSpecFree(w, name);
      SameKeyFree(n, w.objects, name, l.obj.value.spec, m.live[x]);
    }
    PlatformStep(w, v, name, v.objects[name]);
  }

  lemma UpdateMeansChanged(w: Sys, v: Sys, name: string, tid: string, id: string, input: UpdateInput)
    requires SysInv(w) && OwnId(NetOf(w), name, id) && id in w.t.platform.routes
    requires w.t.platform.routes[id].tunnelID == tid
    requires v.t == w.t.(platform := w.t.platform.(routes :=
                 w.t.platform.routes[id := Updated(w.t.platform.routes[id], input)]))
    requires v.makers == w.makers
    ensures Changed(NetOf(w), NetOf(v), name, id)
  {
    hide ObjectsOk, ClaimsOk, TI.Inv, BooksOk;
    assert NetOf(v).live.Keys == NetOf(w).live.Keys;
  }

  lemma UpdateRoutesOnly(p: Platform, id: string, input: UpdateInput)
    requires p.Valid() && id in p.routes
    ensures RoutesOnly(p, p.(routes := p.routes[id := Updated(p.routes[id], input)]))
    ensures Updated(p.routes[id], input).tunnelID == p.routes[id].tunnelID
  {
  }

  lemma UpdateKeepsBooks(w: Sys, v: Sys, id: string, input: UpdateInput)
    requires TS.Structure(w.t) && BooksOk(w) && id in w.t.platform.routes
    requires v.t == w.t.(platform := w.t.platform.(routes :=
                 w.t.platform.routes[id := Updated(w.t.platform.routes[id], input)]))
    requires v.makers == w.makers && v.objects.Keys >= w.objects.Keys
    ensures BooksOk(v) && RoutesOnly(w.t.platform, v.t.platform)
  {
    hide TS.WorkerOk, TS.Own, TS.StatusOk, RoutesOnly, Updated;
    UpdateRoutesOnly(w.t.platform, id, input);
  }

  lemma UpdateMade(w: Sys, name: string, s: RouteObject, tid: string, at: Address, id: string, input: UpdateInput,
                   out: Outcome)
    requires SysInv(w) && name in w.objects && w.objects[name].worker == Update(s, tid, at, id, input)
    requires !out.Refused? && id in w.t.platform.routes && w.t.platform.routes[id].tunnelID == tid
    ensures ObjectStep(w, GoUpdate(w, name, w.objects[name], s, tid, at, id, input, out), name)
  {
    hide TI.Rest, TS.Structure, BooksOk, ClaimsOk, TidHeld, ObjectStep, VersionOk, ObjectOk, FailStatus, Updated, NetOk,
      SnapshotOk, Held, IdentityKnown, NotOvertaken, RollupOk, SuccessStatus, RouteFree, SpecFree,
      RoutesOnly, Touches;
    var n, l := NetOf(w), w.objects[name];
    assert LocalOk(n, w.rv, name, l) && TidHeld(w.t, tid);
    var v := GoUpdate(w, name, l, s, tid, at, id, input, out);
    var m := NetOf(v);
    UpdateMeansChanged(w, v, name, tid, id, input);
    UpdateKeepsBooks(w, v, id, input);
    UpdateKeepsLocal(n, m, w.rv, name, l, s, id);
    NoTid(w.t);
    if out.Done? {
      SuccessKeepsLocal(m, w.rv, name, l, s, tid, at, id);
    } else {
      FailKeepsLocal(m, w.rv, name, l, s, out.err);
    }
    ChangedFree(w, v, name, id);
    PlatformStep(w, v, name, v.objects[name]);
  }

  lemma ChangedFree(w: Sys, v: Sys, name: string, id: string)
    requires SysInv(w) && Changed(NetOf(w), NetOf(v), name, id)
    ensures forall x :: Has(NetOf(v), name, x) ==> RouteFree(NetOf(w), w.objects, name, NetOf(v).live[x])
  {
    hide SysInv, RouteFree, NetOf;
    var n, m := NetOf(w), NetOf(v);
    forall x | Has(m, name, x)
      ensures RouteFree(n, w.objects, name, m.live[x])
    {
      OwnRouteFree(w, name, x);
      SameRouteKeyFree(n, w.objects, name, n.live[x], m.live[x]);
    }
  }

  lemma UpdateGo(w: Sys, name: string, s: RouteObject, tid: string, at: Address, id: string, input: UpdateInput,
                 out: Outcome)
    requires SysInv(w) && name in w.objects && w.objects[name].worker == Update(s, tid, at, id, input)
    ensures ObjectStep(w, GoUpdate(w, name, w.objects[name], s, tid, at, id, input, out), name)
  {
    hide TI.Inv, BooksOk, NetOk, ClaimsOk, TidHeld, ObjectStep, VersionOk, ObjectOk, FailStatus, Updated,
      SnapshotOk, Held, IdentityKnown, NotOvertaken, RollupOk, SuccessStatus;
    var n, l := NetOf(w), w.objects[name];
    assert LocalOk(n, w.rv, name, l) && TidHeld(w.t, tid);
    NoTid(w.t);
    if out.Refused? || id !in w.t.platform.routes || w.t.platform.routes[id].tunnelID != tid {
      var err := if out.Refused? then out.err else APIError(404, CodeNotFound);
      FailKeepsLocal(n, w.rv, name, l, s, err);
      ReadStep(w, name, WriteStatus(s, FailStatus(s, err)));
    } else {
      UpdateMade(w, name, s, tid, at, id, input, out);
    }
  }

  lemma GoStep(w: Sys, name: string, out: Outcome)
    requires SysInv(w) && name in w.objects && !w.objects[name].worker.Idle? && PossibleOutcome(w, w.objects[name], out)
    ensures ObjectStep(w, Advance(w, name, out), name)
  {
    hide SysInv, ObjectStep, PossibleOutcome, NextAfterRead, GoAddFinalizer, GoReplace, GoCreate, GoUpdate,
      GoWriteStatus, GoDeleteRemote, GoRelease;
    match w.objects[name].worker
    case AddFinalizer(s, tid) => AddFinalizerGo(w, name, s, tid, out);
    case Replace(s, tid, at, id) => ReplaceGo(w, name, s, tid, at, id, out);
    case Create(s, tid, at) => CreateGo(w, name, s, tid, at, out);
    case Update(s, tid, at, id, input) => UpdateGo(w, name, s, tid, at, id, input, out);
    case WriteStatus(s, next) => WriteStatusGo(w, name, s, next, out);
    case DeleteRemote(s, tid, id) => DeleteRemoteGo(w, name, s, tid, id, out);
    case Release(s) => ReleaseGo(w, name, s, out);
    case List(_, _, _) => ListGo(w, name, out);
    case DeleteList(_, _) => DeleteListGo(w, name, out);
    case _ => ReadGo(w, name, out);
  }

  // ---------------------------------------------------------------- what users do

  lemma BeginStep(w: Sys, name: string)
    requires SysInv(w) && name in w.objects && w.objects[name].worker.Idle?
    ensures ObjectStep(w, Step(w, Begin(name)), name)
  {
    hide LocalOk, TI.Inv, BooksOk, NetOk, ClaimsOk, TidHeld, ObjectStep;
    var l := w.objects[name];
    assert LocalOk(NetOf(w), w.rv, name, l);
    BeginKeepsLocal(NetOf(w), w.rv, name, l);
    NoTid(w.t);
    ReadStep(w, name, Start(l));
  }

  lemma SettleStep(w: Sys, name: string, o: RouteObject, worker: Worker)
    requires SysInv(w) && TidHeld(w.t, TidOf(worker)) && SpecFree(NetOf(w), w.objects, name, o.spec)
    requires LocalOk(NetOf(w), w.rv + 1, name, Local(Some(o.(rv := w.rv + 1)), worker))
    requires !o.finalizer ==> LocalOk(NetOf(w), w.rv, name, Local(None, worker))
    ensures ObjectStep(w, Settle(w, name, o, worker), name)
  {
    hide LocalOk, TI.Inv, BooksOk, NetOk, ClaimsOk, TidHeld, ObjectStep, SpecFree, Put;
    if o.deleting && !o.finalizer && !o.foreign {
      GoneStep(w, name, worker);
    } else {
      PutStep(w, name, o, worker);
    }
  }

  /** The guards, in terms of what a reconcile can see. */
  lemma SettledMeans(w: Sys, name: string)
    requires SysInv(w) && name in w.objects && Settled(w, name, w.objects[name])
    ensures NetSettled(NetOf(w), name, w.objects[name])
  {
    hide TI.Rest, TS.WorkerOk, TS.StatusOk, TS.Own, ClaimsOk, NetOk, ObjectOk, VersionOk, RollupKept;
    var n, l := NetOf(w), w.objects[name];
    assert LocalOk(n, w.rv, name, l);
    assert forall id :: Has(n, name, id) <==> Made(w, name, id);
    if Heading(l.worker) {
      HeadingSnapshot(n, name, l);
    }
  }

  lemma HeadingSnapshot(n: Net, name: string, l: Local)
    requires WorkerOk(n, name, l) && Heading(l.worker)
    ensures SnapshotOk(n, name, l.worker.s)
  {
  }

  lemma UserDeleteStep(w: Sys, name: string)
    requires SysInv(w) && Enabled(w, UserDelete(name))
    ensures ObjectStep(w, Step(w, UserDelete(name)), name)
  {
    hide LocalOk, TI.Inv, BooksOk, NetOk, ClaimsOk, TidHeld, ObjectStep, SpecFree, Settle, Settled, NetSettled;
    var n, l := NetOf(w), w.objects[name];
    assert LocalOk(n, w.rv, name, l) && TidHeld(w.t, TidOf(l.worker));
    var o := l.obj.value;
    OwnSpecFree(w, name);
    if Settled(w, name, l) {
      SettledMeans(w, name);
    }
    UserDeleteKeepsLocal(n, w.rv, name, l);
    if !o.finalizer {
      GoneKeepsLocal(n, w.rv, name, l);
    }
    SettleStep(w, name, o.(deleting := true), l.worker);
  }

  lemma SetForeignStep(w: Sys, name: string, present: bool)
    requires SysInv(w) && Enabled(w, SetForeign(name, present))
    ensures ObjectStep(w, Step(w, SetForeign(name, present)), name)
  {
    hide LocalOk, TI.Inv, BooksOk, NetOk, ClaimsOk, TidHeld, ObjectStep, SpecFree, Settle;
    var n, l := NetOf(w), w.objects[name];
    assert LocalOk(n, w.rv, name, l) && TidHeld(w.t, TidOf(l.worker));
    OwnSpecFree(w, name);
    ForeignKeepsLocal(n, w.rv, name, l, present);
    if !l.obj.value.finalizer {
      GoneKeepsLocal(n, w.rv, name, l);
    }
    SettleStep(w, name, l.obj.value.(foreign := present), l.worker);
  }

  lemma KeyFreeMeans(w: Sys, name: string, spec: Spec)
    requires KeyFree(w, name, spec)
    ensures SpecFree(NetOf(w), w.objects, name, spec)
  {
  }

  lemma SameIdentityFree(n: Net, objects: map<string, Local>, name: string, a: Spec, b: Spec)
    requires SpecFree(n, objects, name, a) && SpecIdentity(a) == SpecIdentity(b)
    ensures SpecFree(n, objects, name, b)
  {
  }

  lemma EditStep(w: Sys, name: string, spec: Spec)
    requires SysInv(w) && Enabled(w, Edit(name, spec))
    ensures ObjectStep(w, Step(w, Edit(name, spec)), name)
  {
    hide LocalOk, TI.Inv, BooksOk, NetOk, ClaimsOk, TidHeld, ObjectStep, SpecFree, Put, KeyFree, Settled, NetSettled;
    var n, l := NetOf(w), w.objects[name];
    assert LocalOk(n, w.rv, name, l) && TidHeld(w.t, TidOf(l.worker));
    var o := l.obj.value.(spec := spec, generation := l.obj.value.generation + 1);
    if SpecIdentity(spec) == SpecIdentity(l.obj.value.spec) {
      OwnSpecFree(w, name);
      SameIdentityFree(n, w.objects, name, l.obj.value.spec, spec);
    } else {
      SettledMeans(w, name);
      KeyFreeMeans(w, name, spec);
    }
    EditKeepsLocal(n, w.rv, name, l, spec);
    PutStep(w, name, o, l.worker);
  }

  lemma ApplyStep(w: Sys, name: string, spec: Spec)
    requires SysInv(w) && Enabled(w, Apply(name, spec))
    ensures ObjectStep(w, Step(w, Apply(name, spec)), name)
  {
    hide TI.Inv, NetOk, ClaimsOk, ObjectStep, SpecFree, KeyFree;
    KeyFreeMeans(w, name, spec);
    NoTid(w.t);
    var o := RouteObject(0, 1, false, false, false, spec, RouteMachine.NO_STATUS);
    assert forall id :: !Has(NetOf(w), name, id);
    PutStep(w, name, o, Idle);
  }

  lemma EveryObjectStep(w: Sys, a: Action)
    requires SysInv(w) && Enabled(w, a) && a.OnObject()
    ensures ObjectStep(w, Step(w, a), a.name)
  {
    hide SysInv, ObjectStep, Advance, Settle, Put, EditAllowed, DeleteAllowed, KeyFree, PossibleOutcome;
    match a
    case Apply(name, spec) => ApplyStep(w, name, spec);
    case Begin(name) => BeginStep(w, name);
    case Go(name, out) => GoStep(w, name, out);
    case Crash(name) => StopStep(w, name);
    case UserDelete(name) => UserDeleteStep(w, name);
    case Edit(name, spec) => EditStep(w, name, spec);
    case SetForeign(name, present) => SetForeignStep(w, name, present);
  }
}
