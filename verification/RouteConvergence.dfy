/** Uninterrupted reconciles of a route object: the machine then does exactly what EnsureRoute says. */
module RouteConvergence {
  import opened Base
  import opened Platform
  import opened RouteSpec
  import opened Upstream
  import opened RouteMachine
  import opened RouteSafety
  import opened RouteSystem
  import opened RouteRuns
  import opened RouteTheorems
  import TS = TunnelSafety
  import TI = TunnelInvariants

  /** Let the reconcile in flight go on, every call answered, for at most `fuel` calls. */
  function Finish(w: Sys, name: string, out: Outcome, fuel: nat): Sys
    decreases fuel
  {
    if fuel == 0 || name !in w.objects || w.objects[name].worker.Idle? then w
    else Finish(Advance(w, name, out), name, out, fuel - 1)
  }

  /** The longest path through a reconcile makes nine calls. */
  const CALLS: nat := 9

  function Begun(w: Sys, name: string): Sys
    requires name in w.objects
  {
    At(w, name, w.objects[name].(worker := Start(w.objects[name])))
  }

  function Reconcile(w: Sys, name: string, out: Outcome): Sys
    requires name in w.objects
  {
    Finish(Begun(w, name), name, out, CALLS)
  }

  /** Every call of the reconcile may indeed be answered with `out`. */
  ghost predicate Proceeds(w: Sys, name: string, out: Outcome, fuel: nat)
    decreases fuel
  {
    fuel > 0 && name in w.objects && !w.objects[name].worker.Idle? ==>
      PossibleOutcome(w, w.objects[name], out) && Proceeds(Advance(w, name, out), name, out, fuel - 1)
  }

  /** The object `o` and its reconcile at `worker`. */
  ghost predicate Stands(w: Sys, name: string, o: Option<RouteObject>, worker: Worker) {
    name in w.objects && w.objects[name] == Local(o, worker)
  }

  /** The object after the status write of a reconcile that read `s`: a copy that is no longer current is refused. */
  function Written(w: Sys, o: Option<RouteObject>, s: RouteObject, next: RouteStatus): Option<RouteObject> {
    if o.Some? && o.value.rv == s.rv then Some(s.(status := next, rv := w.rv + 1)) else o
  }

  /** Where a reconcile that got everything done on the platform leaves the world. */
  ghost predicate Delivered(w: Sys, v: Sys, name: string, o: Option<RouteObject>, s: RouteObject, tid: string,
                            at: Address,
                            id: string, routes: map<string, PRoute>, makers: map<string, string>)
  {
    && Stands(v, name, Written(w, o, s, SuccessStatus(s, tid, at, id)), Idle)
    && v.t == w.t.(platform := w.t.platform.(routes := routes, used := v.t.platform.used)) && v.makers == makers
    && v.domain == w.domain && v.namespace == w.namespace && v.services == w.services
  }

  /** One call of it. */
  lemma GoOn(w: Sys, name: string, out: Outcome, fuel: nat)
    requires name in w.objects && !w.objects[name].worker.Idle? && fuel > 0 && PossibleOutcome(w, w.objects[name], out)
    ensures Finish(w, name, out, fuel) == Finish(Advance(w, name, out), name, out, fuel - 1)
    ensures Proceeds(Advance(w, name, out), name, out, fuel - 1) ==> Proceeds(w, name, out, fuel)
  {
    hide Advance, PossibleOutcome;
  }

  /** Routes may have been written on the way. */
  lemma DeliveredFrom(w: Sys, v: Sys, u: Sys, name: string, o: Option<RouteObject>, s: RouteObject, tid: string,
                      at: Address, id: string, routes: map<string, PRoute>, makers: map<string, string>)
    requires v.t == w.t.(platform := w.t.platform.(routes := v.t.platform.routes, used := v.t.platform.used))
    requires v.rv == w.rv && v.domain == w.domain && v.namespace == w.namespace && v.services == w.services
    requires Delivered(v, u, name, o, s, tid, at, id, routes, makers)
    ensures Delivered(w, u, name, o, s, tid, at, id, routes, makers)
  {
  }

  lemma FromWriteStatus(w: Sys, name: string, o: Option<RouteObject>, s: RouteObject, next: RouteStatus, out: Outcome,
                        fuel: nat)
    requires Stands(w, name, o, WriteStatus(s, next)) && out.Done? && fuel >= 1
    ensures var v := Finish(w, name, out, fuel);
            && Stands(v, name, Written(w, o, s, next), Idle) && v.t == w.t && v.makers == w.makers
            && v.domain == w.domain && v.namespace == w.namespace && v.services == w.services
    ensures Proceeds(w, name, out, fuel)
  {
    var v := Advance(w, name, out);
    assert Finish(v, name, out, fuel - 1) == v && Proceeds(v, name, out, fuel - 1);
  }

  /** The update of a route that is there. */
  function Adjusted(routes: map<string, PRoute>, id: string, route: PRoute, spec: Spec, at: Address)
    : map<string, PRoute>
  {
    var (input, changed) := Drift(route, spec, at.host, at.port);
    if changed then routes[id := Updated(route, input)] else routes
  }

  lemma FromCompare(w: Sys, name: string, o: Option<RouteObject>, s: RouteObject, tid: string, at: Address, id: string,
                    route: PRoute, out: Outcome, fuel: nat)
    requires Stands(w, name, o, Compare(s, tid, at, id, route)) && out.Done? && fuel >= 2
    requires id in w.t.platform.routes && w.t.platform.routes[id] == route && route.tunnelID == tid
    ensures Delivered(w, Finish(w, name, out, fuel), name, o, s, tid, at, id,
                      Adjusted(w.t.platform.routes, id, route, s.spec, at), w.makers)
    ensures Proceeds(w, name, out, fuel)
  {
    hide SuccessStatus, Drift, Updated;
    var (input, changed) := Drift(route, s.spec, at.host, at.port);
    if changed {
      var v := Advance(w, name, out);
      FromWriteStatus(v, name, o, s, SuccessStatus(s, tid, at, id), out, fuel - 1);
    } else {
      FromWriteStatus(w, name, o, s, SuccessStatus(s, tid, at, id), out, fuel);
    }
  }

  lemma FromCreate(w: Sys, name: string, o: Option<RouteObject>, s: RouteObject, tid: string, at: Address, out: Outcome,
                   fuel: nat)
    requires Stands(w, name, o, Create(s, tid, at)) && out.Done? && fuel >= 3
    requires out.id != "" && out.id !in w.t.platform.used && tid in w.t.platform.tunnels
    ensures var route := Stored(tid, CreateBody(s.spec, at.host, at.port));
            Delivered(w, Finish(w, name, out, fuel), name, o, s, tid, at, out.id,
                      Adjusted(w.t.platform.routes[out.id := route], out.id, route, s.spec, at),
                      w.makers[out.id := name])
    ensures Proceeds(w, name, out, fuel)
  {
    hide SuccessStatus, FailStatus, Compare, Adjusted, CreateBody, Finish, Proceeds, Delivered;
    var route := Stored(tid, CreateBody(s.spec, at.host, at.port));
    var v := Advance(w, name, out);
    GoOn(w, name, out, fuel);
    FromCompare(v, name, o, s, tid, at, out.id, route, out, fuel - 1);
    DeliveredFrom(w, v, Finish(v, name, out, fuel - 1), name, o, s, tid, at, out.id,
                  Adjusted(v.t.platform.routes, out.id, route, s.spec, at), v.makers);
  }

  lemma FromReplace(w: Sys, name: string, o: Option<RouteObject>, s: RouteObject, tid: string, at: Address, id: string,
                    out: Outcome, fuel: nat)
    requires Stands(w, name, o, Replace(s, tid, at, id)) && out.Done? && fuel >= 4
    requires out.id != "" && out.id !in w.t.platform.used && tid in w.t.platform.tunnels
    requires id in w.t.platform.routes && w.t.platform.routes[id].tunnelID == tid
    ensures var route := Stored(tid, CreateBody(s.spec, at.host, at.port));
            Delivered(w, Finish(w, name, out, fuel), name, o, s, tid, at, out.id,
                      Adjusted((w.t.platform.routes - {id})[out.id := route], out.id, route, s.spec, at),
                      w.makers[out.id := name])
    ensures Proceeds(w, name, out, fuel)
  {
    hide SuccessStatus, FailStatus, Adjusted, CreateBody, Stored, Finish, Proceeds, Delivered;
    var route := Stored(tid, CreateBody(s.spec, at.host, at.port));
    var v := Advance(w, name, out);
    GoOn(w, name, out, fuel);
    FromCreate(v, name, o, s, tid, at, out, fuel - 1);
    DeliveredFrom(w, v, Finish(v, name, out, fuel - 1), name, o, s, tid, at, out.id,
                  Adjusted(v.t.platform.routes[out.id := route], out.id, route, s.spec, at), v.makers[out.id := name]);
  }

  /** What ensureRoute was called with and answered. */
  function EnsureAt(w: Sys, s: RouteObject, tid: string, at: Address, out: Outcome): Ensured
    requires out.Done?
  {
    EnsureRoute(w.t.platform.routes, out.listing, tid, s.status.routeID, s.spec, at.host, at.port, out.id)
  }

  /** The lookup finds no route that can be kept. */
  predicate Makes(s: RouteObject, out: Outcome)
    requires out.Done?
  {
    var found := FindRoute(out.listing, s.status.routeID, s.spec);
    found.None? || IdentityChanged(found.value.route, s.spec)
  }

  function MakersAfter(w: Sys, name: string, s: RouteObject, out: Outcome): map<string, string>
    requires out.Done?
  {
    if Makes(s, out) then w.makers[out.id := name] else w.makers
  }

  lemma FromList(w: Sys, name: string, o: Option<RouteObject>, s: RouteObject, tid: string, at: Address, out: Outcome,
                 fuel: nat)
    requires Stands(w, name, o, List(s, tid, at)) && out.Done? && fuel >= 5
    requires out.id != "" && out.id !in w.t.platform.used && tid in w.t.platform.tunnels
    requires IsListing(out.listing, w.t.platform.routes, tid)
    ensures var e := EnsureAt(w, s, tid, at, out);
            Delivered(w, Finish(w, name, out, fuel), name, o, s, tid, at, e.id, e.routes, MakersAfter(w, name, s, out))
    ensures Proceeds(w, name, out, fuel)
  {
    hide SuccessStatus, CreateBody, Stored, Compare, Drift, Updated, IsListing, Delivered, FindRoute, IdentityChanged;
    FindRouteMeans(out.listing, w.t.platform.routes, tid, s.status.routeID, s.spec);
    var v := Advance(w, name, out);
    SameDelivered(w, v, name);
    match FindRoute(out.listing, s.status.routeID, s.spec)
    case None => FromCreate(v, name, o, s, tid, at, out, fuel - 1);
    case Some(x) =>
      if IdentityChanged(x.route, s.spec) {
        FromReplace(v, name, o, s, tid, at, x.id, out, fuel - 1);
      } else {
        FromCompare(v, name, o, s, tid, at, x.id, x.route, out, fuel - 1);
      }
  }

  lemma SameDelivered(w: Sys, v: Sys, name: string)
    requires v.t == w.t && v.rv == w.rv
    requires v.domain == w.domain && v.namespace == w.namespace && v.services == w.services
    ensures forall u, o, s, tid, at, id, routes, makers ::
            Delivered(v, u, name, o, s, tid, at, id, routes, makers) ==>
            Delivered(w, u, name, o, s, tid, at, id, routes, makers)
  {
  }

  lemma FromNeedClient(w: Sys, name: string, o: Option<RouteObject>, s: RouteObject, tid: string, at: Address,
                       out: Outcome, fuel: nat)
    requires Stands(w, name, o, NeedClient(s, tid, at)) && out.Done? && fuel >= 6 && w.t.credential
    requires out.id != "" && out.id !in w.t.platform.used && tid in w.t.platform.tunnels
    requires IsListing(out.listing, w.t.platform.routes, tid)
    ensures var e := EnsureAt(w, s, tid, at, out);
            Delivered(w, Finish(w, name, out, fuel), name, o, s, tid, at, e.id, e.routes, MakersAfter(w, name, s, out))
    ensures Proceeds(w, name, out, fuel)
  {
    hide EnsureRoute, IsListing, Delivered, NextAfterList, Makes;
    var v := Advance(w, name, out);
    FromList(v, name, o, s, tid, at, out, fuel - 1);
    SameDelivered(w, v, name);
  }

  lemma FromNeedUpstream(w: Sys, name: string, o: Option<RouteObject>, s: RouteObject, tid: string, at: Address,
                         out: Outcome, fuel: nat)
    requires Stands(w, name, o, NeedUpstream(s, tid)) && out.Done? && fuel >= 7 && w.t.credential
    requires Resolve(s.spec, ServiceOf(w, s.spec), w.domain) == Some(at)
    requires out.id != "" && out.id !in w.t.platform.used && tid in w.t.platform.tunnels
    requires IsListing(out.listing, w.t.platform.routes, tid)
    ensures var e := EnsureAt(w, s, tid, at, out);
            Delivered(w, Finish(w, name, out, fuel), name, o, s, tid, at, e.id, e.routes, MakersAfter(w, name, s, out))
    ensures Proceeds(w, name, out, fuel)
  {
    hide Resolve, EnsureRoute, IsListing, Delivered, NextAfterList, Makes, ServiceOf;
    var v := Advance(w, name, out);
    FromNeedClient(v, name, o, s, tid, at, out, fuel - 1);
    SameDelivered(w, v, name);
  }

  /** A live route object whose tunnel exists, whose credential is readable and whose upstream resolves to
      `at`, no reconcile of it being in flight. */
  ghost predicate Publishable(w: Sys, name: string, tid: string, at: Address, out: Outcome) {
    && name in w.objects && w.objects[name].worker.Idle?
    && w.objects[name].obj.Some? && !w.objects[name].obj.value.deleting
    && TunnelID(w) == Some(tid) && TS.Mine(w.t).Some? && w.t.credential
    && Resolve(w.objects[name].obj.value.spec, ServiceOf(w, w.objects[name].obj.value.spec), w.domain) == Some(at)
    && out.Done? && out.id != "" && out.id !in w.t.platform.used && IsListing(out.listing, w.t.platform.routes, tid)
  }

  /** What the object and the platform look like once ensureRoute answered `e` and its id was recorded. */
  ghost predicate Closed(w: Sys, v: Sys, name: string, o: RouteObject, tid: string, at: Address, e: Ensured) {
    && name in v.objects && v.objects[name].worker.Idle? && v.objects[name].obj.Some?
    && v.objects[name].obj.value ==
         o.(rv := v.objects[name].obj.value.rv, finalizer := true, status := SuccessStatus(o, tid, at, e.id))
    && v.t == w.t.(platform := w.t.platform.(routes := e.routes, used := v.t.platform.used))
    && v.domain == w.domain && v.namespace == w.namespace && v.services == w.services
  }

  lemma FromNeedTunnel(w: Sys, name: string, o: RouteObject, tid: string, at: Address, out: Outcome, fuel: nat)
    requires Stands(w, name, Some(o), NeedTunnel(o)) && out.Done? && fuel >= 9 && !o.deleting
    requires TunnelID(w) == Some(tid) && tid != "" && w.t.credential
    requires Resolve(o.spec, ServiceOf(w, o.spec), w.domain) == Some(at)
    requires out.id != "" && out.id !in w.t.platform.used && tid in w.t.platform.tunnels
    requires IsListing(out.listing, w.t.platform.routes, tid)
    ensures Closed(w, Finish(w, name, out, fuel), name, o, tid, at, EnsureAt(w, o, tid, at, out))
    ensures name in Finish(w, name, out, fuel).objects
            && Finish(w, name, out, fuel).makers == MakersAfter(w, name, o, out)
    ensures Proceeds(w, name, out, fuel)
  {
    hide Resolve, IsListing, EnsureRoute, Makes, Finish, Proceeds, SuccessStatus, ServiceOf;
    var v1 := Advance(w, name, out);
    SameServices(w, v1, o.spec);
    GoOn(w, name, out, fuel);
    if o.finalizer {
      FromNeedUpstream(v1, name, Some(o), o, tid, at, out, fuel - 1);
    } else {
      var f := o.(finalizer := true, rv := w.rv + 1);
      var v2 := Advance(v1, name, out);
      SameServices(w, v2, o.spec);
      GoOn(v1, name, out, fuel - 1);
      FromNeedUpstream(v2, name, Some(f), f, tid, at, out, fuel - 2);
      SameMakes(o, f, out);
      SameSuccess(o, f, tid, at, EnsureAt(w, o, tid, at, out).id);
    }
  }

  lemma SameSuccess(o: RouteObject, f: RouteObject, tid: string, at: Address, id: string)
    requires f.status == o.status && f.generation == o.generation
    ensures SuccessStatus(f, tid, at, id) == SuccessStatus(o, tid, at, id)
  {
  }

  lemma SameMakes(o: RouteObject, f: RouteObject, out: Outcome)
    requires out.Done? && f.spec == o.spec && f.status == o.status
    ensures Makes(o, out) == Makes(f, out)
  {
  }

  /** The whole reconcile is ensureRoute, with the id it answers recorded. */
  lemma ReconcileEnsures(w: Sys, name: string, tid: string, at: Address, out: Outcome)
    requires Publishable(w, name, tid, at, out) && tid != "" && tid in w.t.platform.tunnels
    ensures Closed(w, Reconcile(w, name, out), name, w.objects[name].obj.value, tid, at,
                   EnsureAt(w, w.objects[name].obj.value, tid, at, out))
    ensures Reconcile(w, name, out).makers == MakersAfter(w, name, w.objects[name].obj.value, out)
    ensures Proceeds(Begun(w, name), name, out, CALLS)
  {
    hide Resolve, IsListing, EnsureRoute, Finish, Proceeds, Makes, ServiceOf;
    SameServices(w, Begun(w, name), w.objects[name].obj.value.spec);
    FromNeedTunnel(Begun(w, name), name, w.objects[name].obj.value, tid, at, out, CALLS);
  }

  lemma SameServices(w: Sys, v: Sys, spec: Spec)
    requires v.services == w.services && v.namespace == w.namespace
    ensures ServiceOf(v, spec) == ServiceOf(w, spec)
  {
  }

  /** Such a reconcile is a run of the machine. */
  lemma {:induction false} FinishKeepsInv(w: Sys, name: string, out: Outcome, fuel: nat)
    requires SysInv(w) && Proceeds(w, name, out, fuel)
    ensures SysInv(Finish(w, name, out, fuel))
    decreases fuel
  {
    hide SysInv, Advance, PossibleOutcome;
    if fuel > 0 && name in w.objects && !w.objects[name].worker.Idle? {
      StepKeepsSysInv(w, Go(name, out));
      FinishKeepsInv(Advance(w, name, out), name, out, fuel - 1);
    }
  }

  lemma ReconcileKeepsInv(w: Sys, name: string, out: Outcome)
    requires SysInv(w) && name in w.objects && w.objects[name].worker.Idle?
    requires Proceeds(Begun(w, name), name, out, CALLS)
    ensures SysInv(Reconcile(w, name, out))
  {
    hide SysInv, Advance, Proceeds, Finish;
    StepKeepsSysInv(w, Begin(name));
    FinishKeepsInv(Begun(w, name), name, out, CALLS);
  }

  /** The tunnel a route reconcile sees is the platform's. */
  lemma SeenTunnel(w: Sys, tid: string)
    requires SysInv(w) && TunnelID(w) == Some(tid) && TS.Mine(w.t).Some? && tid != ""
    ensures TS.Mine(w.t) == Some(tid) && tid in w.t.platform.tunnels
  {
    hide ObjectsOk, ClaimsOk, BooksOk;
  }

  /** Exactly one route is made for the object. It is the one the user asked for on every field, its id is recorded,
      the object is Ready, and every other route is as it was. */
  ghost predicate Converged(w: Sys, v: Sys, name: string, spec: Spec, tid: string, at: Address) {
    && name in v.objects && v.objects[name].obj.Some? && v.objects[name].worker.Idle?
    && var o := v.objects[name].obj.value;
       && o.spec == spec && o.finalizer && o.status.ready.True()
       && (forall id :: Made(v, name, id) <==> id == o.status.routeID)
       && o.status.routeID in v.t.platform.routes
       && Asked(v.t.platform.routes[o.status.routeID], spec, tid, at.host, at.port)
       && (forall id :: id in w.t.platform.routes && !Made(w, name, id) ==>
             id in v.t.platform.routes && v.t.platform.routes[id] == w.t.platform.routes[id])
  }

  lemma ConvergesFromInv(w: Sys, name: string, tid: string, at: Address, out: Outcome)
    requires SysInv(w) && Publishable(w, name, tid, at, out) && tid != ""
    ensures Converged(w, Reconcile(w, name, out), name, w.objects[name].obj.value.spec, tid, at)
  {
    hide SysInv, Resolve, IsListing, EnsureRoute, Reconcile, Proceeds, Desired, Asked, Replaced, Makes;
    SeenTunnel(w, tid);
    ReconcileEnsures(w, name, tid, at, out);
    ReconcileKeepsInv(w, name, out);
    var v := Reconcile(w, name, out);
    var o := w.objects[name].obj.value;
    UsedHoldsRoutes(w);
    EnsureRouteRealises(w.t.platform.routes, out.listing, tid, o.status.routeID, o.spec, at.host, at.port, out.id);
    var e := EnsureAt(w, o, tid, at, out);
    DesiredTunnel(o.spec, tid, at);
    OneMade(v, name, e.id);
    OthersKept(w, name, tid, at, out);
  }

  /** From every reachable state, however many interrupted replacements and lost answers came before, one
      uninterrupted reconcile converges. */
  lemma RouteConverges(w0: Sys, actions: seq<Action>, w: Sys, name: string, tid: string, at: Address, out: Outcome)
    requires Init(w0) && Run(w0, actions, w) && Publishable(w, name, tid, at, out) && tid != ""
    ensures Converged(w, Reconcile(w, name, out), name, w.objects[name].obj.value.spec, tid, at)
  {
    hide Run, Init, SysInv, Publishable, Reconcile, Converged;
    ReachableInv(w0, actions, w);
    ConvergesFromInv(w, name, tid, at, out);
  }

  lemma DesiredTunnel(spec: Spec, tid: string, at: Address)
    ensures Desired(spec, tid, at.host, at.port).tunnelID == tid
  {
  }

  lemma UsedHoldsRoutes(w: Sys)
    requires SysInv(w)
    ensures forall id :: id in w.t.platform.routes ==> id in w.t.platform.used
    ensures "" !in w.t.platform.routes
  {
    hide ObjectsOk, ClaimsOk, BooksOk, TI.Rest, NetOk;
  }

  lemma OneMade(v: Sys, name: string, id: string)
    requires SysInv(v) && name in v.objects && v.objects[name].obj.Some?
    requires v.objects[name].obj.value.status.routeID == id
    requires InTunnel(v, id)
    ensures forall x :: Made(v, name, x) <==> x == id
  {
    hide TI.Inv, ClaimsOk, WorkerOk, VersionOk, RollupKept, NetOk, BooksOk;
    KeyOrIdIsMade(v, name, id);
    assert LocalOk(NetOf(v), v.rv, name, v.objects[name]);
    forall x | Made(v, name, x)
      ensures x == id
    {
      assert Has(NetOf(v), name, x) && Has(NetOf(v), name, id);
    }
  }

  lemma OthersKept(w: Sys, name: string, tid: string, at: Address, out: Outcome)
    requires SysInv(w) && Publishable(w, name, tid, at, out) && tid != "" && TS.Mine(w.t) == Some(tid)
    ensures var e := EnsureAt(w, w.objects[name].obj.value, tid, at, out);
            forall id :: id in w.t.platform.routes && !Made(w, name, id) ==>
                    id in e.routes && e.routes[id] == w.t.platform.routes[id]
  {
    hide SysInv, Resolve, IsListing, FindRoute, Drift, Updated;
    var o := w.objects[name].obj.value;
    UsedHoldsRoutes(w);
    FindRouteMeans(out.listing, w.t.platform.routes, tid, o.status.routeID, o.spec);
    var found := FindRoute(out.listing, o.status.routeID, o.spec);
    if found.Some? {
      KeyOrIdIsMade(w, name, found.value.id);
    }
  }

  /** A second reconcile on top changes nothing on the platform. */
  lemma SecondReconcileIsQuiet(w: Sys, name: string, tid: string, at: Address, out: Outcome, again: Outcome)
    requires SysInv(w) && Publishable(w, name, tid, at, out) && tid != ""
    requires Publishable(Reconcile(w, name, out), name, tid, at, again)
    ensures var v := Reconcile(w, name, out); var u := Reconcile(v, name, again);
            && u.t.platform.routes == v.t.platform.routes
            && name in u.objects && u.objects[name].obj.Some?
            && u.objects[name].obj.value.status == v.objects[name].obj.value.status
  {
    hide SysInv, Resolve, IsListing, EnsureRoute, Reconcile, Proceeds;
    var v := Reconcile(w, name, out);
    var o := w.objects[name].obj.value;
    SeenTunnel(w, tid);
    ReconcileEnsures(w, name, tid, at, out);
    UsedHoldsRoutes(w);
    SecondEnsureIsQuiet(w.t.platform.routes, out.listing, tid, o.status.routeID, o.spec, at.host, at.port, out.id,
                        again.listing, again.id);
    ReconcileEnsures(v, name, tid, at, again);
  }
}
