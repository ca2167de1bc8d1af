/** A reconcile that goes on after a user wrote the object under it: its last write is refused, but what it did on the
    platform stays. */
module RouteOvertaken {
  import opened Base
  import opened Platform
  import opened RouteSpec
  import opened Upstream
  import opened RouteMachine
  import opened RouteSafety
  import opened RouteSystem
  import opened RouteSteps
  import opened RouteConvergence
  import TS = TunnelSafety
  import TI = TunnelInvariants

  /** A route made for this object that its status does not name. */
  ghost predicate Unnamed(w: Sys, name: string, id: string) {
    && name in w.objects && w.objects[name].obj.Some? && Made(w, name, id)
    && w.objects[name].obj.value.status.routeID != id
  }

  /** The tunnel is there, and the reconcile in flight has every call answered from here on. */
  ghost predicate Answered(w: Sys, name: string, tid: string, out: Outcome) {
    && name in w.objects && TunnelID(w) == Some(tid) && tid != "" && TS.Mine(w.t).Some? && w.t.credential
    && out.Done? && out.id != "" && out.id !in w.t.platform.used && IsListing(out.listing, w.t.platform.routes, tid)
    && var worker := w.objects[name].worker;
       (worker.NeedTunnel? || worker.NeedUpstream? ==>
          Resolve(worker.s.spec, ServiceOf(w, worker.s.spec), w.domain).Some?)
  }

  /** A reconcile that may make a route, and no other route than the recorded one: then its lookup finds none that
      it keeps. */
  lemma LookupMakes(w: Sys, name: string, tid: string, out: Outcome)
    requires SysInv(w) && Answered(w, name, tid, out) && MayCreate(w, w.objects[name]) && w.objects[name].obj.Some?
    requires !w.objects[name].worker.Replace? && !w.objects[name].worker.Create?
    requires forall id :: !Unnamed(w, name, id)
    ensures Makes(w.objects[name].worker.s, out)
  {
    hide TI.Inv, ClaimsOk, IsListing, FindRoute, VersionOk, RollupKept, ObjectOk, BooksOk, Resolve;
    var n, l := NetOf(w), w.objects[name];
    var s := l.worker.s;
    assert LocalOk(n, w.rv, name, l);
    HeadingSnapshot(n, name, l);
    TunnelView(w);
    ListingMeans(w, tid, out.listing, s.status.routeID, s.spec);
    OwnsKey(w, name);
    UsedHoldsRoutes(w);
    forall id | Has(n, name, id)
      ensures id == l.obj.value.status.routeID
    {
      assert !Unnamed(w, name, id);
    }
  }

  /** What such a reconcile leaves once the object was written under it: a new route of the identity it read, while
      the object stays as the user left it. */
  ghost predicate LeavesNew(w: Sys, v: Sys, name: string, o: Option<RouteObject>, s: RouteObject, tid: string,
                            id: string) {
    && Stands(v, name, o, Idle) && v.makers == w.makers[id := name]
    && id in v.t.platform.routes && RouteIdentity(v.t.platform.routes[id]) == SpecIdentity(s.spec)
    && v.t.platform.routes[id].tunnelID == tid
    && v.t == w.t.(platform := w.t.platform.(routes := v.t.platform.routes, used := v.t.platform.used))
  }

  lemma DeliveredLeavesNew(w: Sys, v: Sys, name: string, o: Option<RouteObject>, s: RouteObject, tid: string,
                           at: Address,
                           id: string, routes: map<string, PRoute>)
    requires Delivered(w, v, name, o, s, tid, at, id, routes, w.makers[id := name]) && (o.Some? ==> o.value.rv != s.rv)
    requires id in routes && routes[id] == Desired(s.spec, tid, at.host, at.port)
    ensures LeavesNew(w, v, name, o, s, tid, id)
  {
  }

  lemma AdjustedIsDesired(routes: map<string, PRoute>, id: string, spec: Spec, tid: string, at: Address)
    ensures var route := Stored(tid, CreateBody(spec, at.host, at.port));
            var after := Adjusted(routes[id := route], id, route, spec, at);
            id in after && after[id] == Desired(spec, tid, at.host, at.port)
  {
    DriftExact(Stored(tid, CreateBody(spec, at.host, at.port)), spec, tid, at.host, at.port);
  }

  /** From the lookup: no route that it keeps is found, so one is made. */
  lemma EnsureMakes(w: Sys, s: RouteObject, tid: string, at: Address, out: Outcome)
    requires out.Done? && Makes(s, out) && IsListing(out.listing, w.t.platform.routes, tid)
    requires out.id !in w.t.platform.routes
    ensures var e := EnsureAt(w, s, tid, at, out);
            e.id == out.id && e.id in e.routes && e.routes[e.id] == Desired(s.spec, tid, at.host, at.port)
  {
    hide IsListing, FindRoute, Desired, Drift, Updated, Stored;
    EnsureRouteRealises(w.t.platform.routes, out.listing, tid, s.status.routeID, s.spec, at.host, at.port, out.id);
  }

  /** `d` is the world `w` after the object was written under the reconcile in flight, which now has an old copy. */
  ghost predicate Overtaken(w: Sys, d: Sys, name: string, worker: Worker) {
    && d == w.(objects := d.objects, rv := d.rv) && name in d.objects && d.objects[name].worker == worker
    && !worker.Idle? && d.objects[name].obj.Some? && d.objects[name].obj.value.rv != worker.s.rv
  }

  /** What the platform answers with, apart from what is found. */
  predicate Supplied(w: Sys, tid: string, out: Outcome) {
    && out.Done? && out.id != "" && out.id !in w.t.platform.used && out.id !in w.t.platform.routes
    && tid in w.t.platform.tunnels && IsListing(out.listing, w.t.platform.routes, tid)
  }

  lemma CreateLeavesNew(w: Sys, d: Sys, name: string, s: RouteObject, tid: string, at: Address, out: Outcome, fuel: nat)
    requires Overtaken(w, d, name, Create(s, tid, at)) && Supplied(w, tid, out) && fuel >= 3
    ensures Proceeds(d, name, out, fuel)
    ensures LeavesNew(w, Finish(d, name, out, fuel), name, d.objects[name].obj, s, tid, out.id)
  {
    hide Finish, Proceeds, Stored, CreateBody, Adjusted, Delivered, IsListing;
    var route := Stored(tid, CreateBody(s.spec, at.host, at.port));
    FromCreate(d, name, d.objects[name].obj, s, tid, at, out, fuel);
    AdjustedIsDesired(w.t.platform.routes, out.id, s.spec, tid, at);
    DeliveredLeavesNew(d, Finish(d, name, out, fuel), name, d.objects[name].obj, s, tid, at, out.id,
                       Adjusted(w.t.platform.routes[out.id := route], out.id, route, s.spec, at));
  }

  lemma ReplaceLeavesNew(w: Sys, d: Sys, name: string, s: RouteObject, tid: string, at: Address, id: string,
                         out: Outcome, fuel: nat)
    requires Overtaken(w, d, name, Replace(s, tid, at, id)) && Supplied(w, tid, out) && fuel >= 4
    requires id in w.t.platform.routes && w.t.platform.routes[id].tunnelID == tid
    ensures Proceeds(d, name, out, fuel)
    ensures LeavesNew(w, Finish(d, name, out, fuel), name, d.objects[name].obj, s, tid, out.id)
  {
    hide Finish, Proceeds, Stored, CreateBody, Adjusted, Delivered, IsListing;
    var route := Stored(tid, CreateBody(s.spec, at.host, at.port));
    FromReplace(d, name, d.objects[name].obj, s, tid, at, id, out, fuel);
    AdjustedIsDesired(w.t.platform.routes - {id}, out.id, s.spec, tid, at);
    DeliveredLeavesNew(d, Finish(d, name, out, fuel), name, d.objects[name].obj, s, tid, at, out.id,
                       Adjusted((w.t.platform.routes - {id})[out.id := route], out.id, route, s.spec, at));
  }

  /** The steps up to the lookup end alike. */
  lemma LookupLeavesNew(w: Sys, d: Sys, v: Sys, name: string, worker: Worker, tid: string, at: Address, out: Outcome)
    requires Overtaken(w, d, name, worker) && Supplied(w, tid, out) && Makes(worker.s, out)
    requires var e := EnsureAt(d, worker.s, tid, at, out);
             Delivered(d, v, name, d.objects[name].obj, worker.s, tid, at, e.id, e.routes,
                       MakersAfter(d, name, worker.s, out))
    ensures LeavesNew(w, v, name, d.objects[name].obj, worker.s, tid, out.id)
  {
    hide IsListing, Delivered, Makes, EnsureRoute, LeavesNew;
    EnsureMakes(d, worker.s, tid, at, out);
    var e := EnsureAt(d, worker.s, tid, at, out);
    DeliveredLeavesNew(d, v, name, d.objects[name].obj, worker.s, tid, at, out.id, e.routes);
    SameLeavesNew(w, d, v, name, d.objects[name].obj, worker.s, tid, out.id);
  }

  lemma SameLeavesNew(w: Sys, d: Sys, v: Sys, name: string, o: Option<RouteObject>, s: RouteObject, tid: string,
                      id: string)
    requires d == w.(objects := d.objects, rv := d.rv) && LeavesNew(d, v, name, o, s, tid, id)
    ensures LeavesNew(w, v, name, o, s, tid, id)
  {
  }

  lemma ListLeavesNew(w: Sys, d: Sys, name: string, s: RouteObject, tid: string, at: Address, out: Outcome, fuel: nat)
    requires Overtaken(w, d, name, List(s, tid, at)) && Supplied(w, tid, out) && Makes(s, out) && fuel >= 5
    ensures Proceeds(d, name, out, fuel)
    ensures LeavesNew(w, Finish(d, name, out, fuel), name, d.objects[name].obj, s, tid, out.id)
  {
    hide Finish, Proceeds, IsListing, Delivered, Makes, EnsureRoute, LeavesNew;
    FromList(d, name, d.objects[name].obj, s, tid, at, out, fuel);
    LookupLeavesNew(w, d, Finish(d, name, out, fuel), name, List(s, tid, at), tid, at, out);
  }

  lemma ClientLeavesNew(w: Sys, d: Sys, name: string, s: RouteObject, tid: string, at: Address, out: Outcome, fuel: nat)
    requires Overtaken(w, d, name, NeedClient(s, tid, at)) && Supplied(w, tid, out) && Makes(s, out)
    requires w.t.credential && fuel >= 6
    ensures Proceeds(d, name, out, fuel)
    ensures LeavesNew(w, Finish(d, name, out, fuel), name, d.objects[name].obj, s, tid, out.id)
  {
    hide Finish, Proceeds, IsListing, Delivered, Makes, EnsureRoute, LeavesNew;
    FromNeedClient(d, name, d.objects[name].obj, s, tid, at, out, fuel);
    LookupLeavesNew(w, d, Finish(d, name, out, fuel), name, NeedClient(s, tid, at), tid, at, out);
  }

  lemma UpstreamLeavesNew(w: Sys, d: Sys, name: string, s: RouteObject, tid: string, out: Outcome, fuel: nat)
    requires Overtaken(w, d, name, NeedUpstream(s, tid)) && Supplied(w, tid, out) && Makes(s, out)
    requires w.t.credential && fuel >= 7 && Resolve(s.spec, ServiceOf(w, s.spec), w.domain).Some?
    ensures Proceeds(d, name, out, fuel)
    ensures LeavesNew(w, Finish(d, name, out, fuel), name, d.objects[name].obj, s, tid, out.id)
  {
    hide Finish, Proceeds, IsListing, Delivered, Makes, EnsureRoute, LeavesNew, Resolve, ServiceOf;
    SameServices(w, d, s.spec);
    var at := Resolve(s.spec, ServiceOf(w, s.spec), w.domain).value;
    FromNeedUpstream(d, name, d.objects[name].obj, s, tid, at, out, fuel);
    LookupLeavesNew(w, d, Finish(d, name, out, fuel), name, NeedUpstream(s, tid), tid, at, out);
  }

  lemma TunnelLeavesNew(w: Sys, d: Sys, name: string, s: RouteObject, tid: string, out: Outcome, fuel: nat)
    requires Overtaken(w, d, name, NeedTunnel(s)) && Supplied(w, tid, out) && Makes(s, out)
    requires w.t.credential && fuel >= 8 && Resolve(s.spec, ServiceOf(w, s.spec), w.domain).Some?
    requires TunnelID(w) == Some(tid) && tid != "" && !s.deleting && s.finalizer
    ensures Proceeds(d, name, out, fuel)
    ensures LeavesNew(w, Finish(d, name, out, fuel), name, d.objects[name].obj, s, tid, out.id)
  {
    hide IsListing, Makes, LeavesNew, Resolve, ServiceOf;
    var v := Advance(d, name, out);
    UpstreamLeavesNew(w, v, name, s, tid, out, fuel - 1);
  }

  /** A reconcile on its way holds the status and an older copy than any write from now on; it carries the tunnel's own
      id, and the identity of the object unless that of the recorded route; a route it replaces is there. */
  lemma HeadingFacts(w: Sys, name: string)
    requires SysInv(w) && name in w.objects && Heading(w.objects[name].worker)
    ensures var l := w.objects[name];
            && l.worker.s.rv <= w.rv && l.obj.Some? && l.obj.value.status == l.worker.s.status
            && (MayCreate(w, l) && w.t.log.deleted != 1 ==>
                  SpecIdentity(l.worker.s.spec) == SpecIdentity(l.obj.value.spec))
    ensures w.objects[name].obj.value.status.routeID != "" ==>
            w.objects[name].obj.value.status.routeID in w.t.platform.used
  {
    hide TI.Rest, TS.WorkerOk, TS.StatusOk, TS.Own, ClaimsOk, NetOk, RollupKept, TidOk;
    assert LocalOk(NetOf(w), w.rv, name, w.objects[name]);
  }

  lemma HeadingTid(w: Sys, name: string, tid: string)
    requires SysInv(w) && name in w.objects && Heading(w.objects[name].worker)
    requires TunnelID(w) == Some(tid) && tid != "" && TS.Mine(w.t).Some?
    ensures !w.objects[name].worker.NeedTunnel? ==> TidOf(w.objects[name].worker) == tid
    ensures w.objects[name].worker.Replace? ==>
            var id := w.objects[name].worker.id;
            id in w.t.platform.routes && w.t.platform.routes[id].tunnelID == tid
  {
    hide TI.Rest, TS.WorkerOk, ClaimsOk, BooksOk, ObjectOk, RollupKept, SnapshotOk, Held, IdentityKnown, NotOvertaken;
    SeenTunnel(w, tid);
    assert LocalOk(NetOf(w), w.rv, name, w.objects[name]);
  }

  lemma MayCreateIsHeading(w: Sys, l: Local)
    requires MayCreate(w, l)
    ensures Heading(l.worker)
    ensures l.worker.NeedTunnel? ==> !l.worker.s.deleting && l.worker.s.finalizer
    ensures l.worker.NeedTunnel? || l.worker.NeedUpstream? || l.worker.NeedClient? || l.worker.List?
         || l.worker.Replace? || l.worker.Create?
  {
  }

  /** The reconcile in flight goes on under an object that a user has just written: it makes a route and cannot
      record it. */
  lemma HeadingLeavesNew(w: Sys, d: Sys, name: string, tid: string, out: Outcome, fuel: nat)
    requires SysInv(w) && Answered(w, name, tid, out) && MayCreate(w, w.objects[name]) && w.objects[name].obj.Some?
    requires forall id :: !Unnamed(w, name, id)
    requires Overtaken(w, d, name, w.objects[name].worker) && fuel >= 8
    ensures Proceeds(d, name, out, fuel)
    ensures LeavesNew(w, Finish(d, name, out, fuel), name, d.objects[name].obj, w.objects[name].worker.s, tid, out.id)
  {
    hide SysInv, IsListing, FindRoute, Resolve, Proceeds, Finish, LeavesNew, Makes, ServiceOf, MayCreate, Unnamed,
      Overtaken, Heading;
    var l := w.objects[name];
    MayCreateIsHeading(w, l);
    HeadingTid(w, name, tid);
    SeenTunnel(w, tid);
    UsedHoldsRoutes(w);
    if !l.worker.Replace? && !l.worker.Create? {
      LookupMakes(w, name, tid, out);
    }
    match l.worker
    case Create(s, _, at) => CreateLeavesNew(w, d, name, s, tid, at, out, fuel);
    case Replace(s, _, at, id) => ReplaceLeavesNew(w, d, name, s, tid, at, id, out, fuel);
    case List(s, _, at) => ListLeavesNew(w, d, name, s, tid, at, out, fuel);
    case NeedClient(s, _, at) => ClientLeavesNew(w, d, name, s, tid, at, out, fuel);
    case NeedUpstream(s, _) => UpstreamLeavesNew(w, d, name, s, tid, out, fuel);
    case NeedTunnel(s) => TunnelLeavesNew(w, d, name, s, tid, out, fuel);
    case _ =>
  }
}
