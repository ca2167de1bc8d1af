/** Why a hostname and prefix must not be claimed while a live route of another object still has them, even one that
    its object no longer asks for: the lookup by hostname and prefix finds that route. */
module RouteClaims {
  import opened Base
  import opened Platform
  import opened RouteSpec
  import opened Upstream
  import opened RouteMachine
  import opened RouteSafety
  import opened RouteSystem
  import opened RouteRuns
  import opened RouteTheorems
  import opened RouteConvergence
  import opened RouteStranded
  import TS = TunnelSafety
  import TI = TunnelInvariants

  /** What the invariant says of the platform and its books, whoever claims what. */
  ghost predicate Orderly(w: Sys) {
    w.t.platform.Valid() && BooksOk(w) && NetOk(NetOf(w))
  }

  /** The object recorded nothing or a route of its own, and no other route was made for it. */
  ghost predicate Recording(w: Sys, name: string) {
    && name in w.objects && w.objects[name].obj.Some? && ValidSpec(w.objects[name].obj.value.spec)
    && (w.objects[name].obj.value.status.routeID in w.t.platform.routes ==>
          Made(w, name, w.objects[name].obj.value.status.routeID))
    && (forall id :: Made(w, name, id) ==> id == w.objects[name].obj.value.status.routeID)
  }

  /** The object has a live route. */
  predicate Holds(w: Sys, name: string) {
    name in w.objects && w.objects[name].obj.Some? && Made(w, name, w.objects[name].obj.value.status.routeID)
  }

  /** It recorded a route that was made for another object. */
  predicate Stolen(w: Sys, name: string) {
    && name in w.objects && w.objects[name].obj.Some?
    && var id := w.objects[name].obj.value.status.routeID;
       id in w.t.platform.routes && id in w.makers && w.makers[id] != name
  }

  /** It recorded a route, and another one in the tunnel has the same hostname and prefix. */
  ghost predicate Doubled(w: Sys, name: string) {
    && name in w.objects && w.objects[name].obj.Some?
    && var id := w.objects[name].obj.value.status.routeID;
       InTunnel(w, id) && exists other :: TwinOf(w, id, other)
  }

  predicate TwinOf(w: Sys, id: string, other: string) {
    && id in w.t.platform.routes && InTunnel(w, other) && other != id
    && SameRouteKey(w.t.platform.routes[id], w.t.platform.routes[other])
  }

  // ---------------------------------------------------------------- one reconcile of the claiming object

  /** A route of another object under the spec's hostname and prefix. */
  ghost predicate Rival(w: Sys, name: string, spec: Spec, id: string) {
    id in w.t.platform.routes && id in w.makers && w.makers[id] != name && SameKey(w.t.platform.routes[id], spec)
  }

  lemma RivalIsThere(w: Sys, name: string, spec: Spec, tid: string, id: string)
    requires Orderly(w) && TS.Mine(w.t) == Some(tid) && id in w.t.platform.routes
    ensures id in w.makers ==> w.t.platform.routes[id].tunnelID == tid && WellTyped(w.t.platform.routes[id])
    ensures w.t.platform.routes[id].tunnelID == tid ==> id in w.makers
  {
    assert id in w.makers ==> id in NetOf(w).live;
  }

  lemma OrderlyRoutes(w: Sys)
    requires Orderly(w)
    ensures w.t.platform.Valid() && "" !in w.t.platform.routes
  {
  }

  /** What the reconcile's lookup finds: the object's own live route if it has one, otherwise a rival if there is
      one. */
  lemma LookupFinds(w: Sys, name: string, tid: string, listing: seq<Listed>)
    requires Orderly(w) && Recording(w, name) && TS.Mine(w.t) == Some(tid)
    requires IsListing(listing, w.t.platform.routes, tid)
    ensures var o := w.objects[name].obj.value; var found := FindRoute(listing, o.status.routeID, o.spec);
            if Holds(w, name) then found.Some? && found.value.id == o.status.routeID
            else match found
              case None => RoutesDistinct(w, name, o.spec)
              case Some(x) => Rival(w, name, o.spec, x.id) && !IdentityChanged(x.route, o.spec)
  {
    hide IsListing, FindRoute, Orderly, IdentityChanged;
    var o := w.objects[name].obj.value;
    FindRouteMeans(listing, w.t.platform.routes, tid, o.status.routeID, o.spec);
    forall id | id in w.t.platform.routes
      ensures id in w.makers ==> w.t.platform.routes[id].tunnelID == tid && WellTyped(w.t.platform.routes[id])
      ensures w.t.platform.routes[id].tunnelID == tid ==> id in w.makers
    {
      RivalIsThere(w, name, o.spec, tid, id);
    }
    OrderlyRoutes(w);
    var found := FindRoute(listing, o.status.routeID, o.spec);
    if !Holds(w, name) && found.Some? {
      KeyDeterminesIdentity(found.value.route, o.spec);
      assert !Made(w, name, found.value.id);
    }
  }

  /** Without a live route of its own, the claiming object ends up with another object's route exactly when there is a
      rival; with one, it ends up beside a route of the same hostname and prefix exactly then. */
  lemma ClaimExactlyWhen(w: Sys, name: string, tid: string, at: Address, out: Outcome)
    requires Orderly(w) && Recording(w, name) && Publishable(w, name, tid, at, out) && tid != ""
    requires TS.Mine(w.t) == Some(tid) && tid in w.t.platform.tunnels
    ensures var u := Reconcile(w, name, out); var spec := w.objects[name].obj.value.spec;
            if Holds(w, name) then Doubled(u, name) <==> !RoutesDistinct(w, name, spec)
            else Stolen(u, name) <==> !RoutesDistinct(w, name, spec)
  {
    hide Orderly, Recording, IsListing, FindRoute, Reconcile, Proceeds, EnsureRoute, Resolve, ServiceOf,
      IdentityChanged, Stolen, Doubled, RoutesDistinct, Replaced, Desired;
    var o := w.objects[name].obj.value;
    LookupFinds(w, name, tid, out.listing);
    ReconcileEnsures(w, name, tid, at, out);
    FreshIsNew(w, out.id);
    EnsureRouteRealises(w.t.platform.routes, out.listing, tid, o.status.routeID, o.spec, at.host, at.port, out.id);
    EnsureTouches(w.t.platform.routes, out.listing, tid, o.status.routeID, o.spec, at.host, at.port, out.id);
    KeptId(w.t.platform.routes, out.listing, tid, o.status.routeID, o.spec, at.host, at.port, out.id);
    DesiredKey(o.spec, tid, at);
    var u := Reconcile(w, name, out);
    var e := EnsureAt(w, o, tid, at, out);
    if Holds(w, name) {
      HeldClaim(w, u, name, o.spec, tid, e.id, out.id);
    } else {
      UnheldClaim(w, u, name, o.spec, out);
    }
  }

  lemma FreshIsNew(w: Sys, id: string)
    requires Orderly(w) && id !in w.t.platform.used
    ensures id !in w.makers && id !in w.t.platform.routes
  {
    hide NetOk;
  }

  lemma DesiredKey(spec: Spec, tid: string, at: Address)
    ensures var r := Desired(spec, tid, at.host, at.port); r.tunnelID == tid && SameKey(r, spec)
    ensures RouteIdentity(Desired(spec, tid, at.host, at.port)) == SpecIdentity(spec)
  {
  }

  /** Which id ensureRoute answers. */
  lemma KeptId(routes: map<string, PRoute>, listing: seq<Listed>, tid: string, routeID: string,
               spec: Spec, host: string, port: int, newID: string)
    ensures var e := EnsureRoute(routes, listing, tid, routeID, spec, host, port, newID);
            match FindRoute(listing, routeID, spec)
            case None => e.id == newID
            case Some(x) =>
              if IdentityChanged(x.route, spec)
              then e.id == newID && Replaced(listing, routeID, spec) == Some(x.id)
              else e.id == x.id && Replaced(listing, routeID, spec).None?
  {
    hide FindRoute, Drift, Updated, Stored, IdentityChanged;
  }

  lemma UnheldClaim(w: Sys, u: Sys, name: string, spec: Spec, out: Outcome)
    requires name in w.objects && w.objects[name].obj.Some? && out.Done? && out.id !in w.makers
    requires spec == w.objects[name].obj.value.spec
    requires name in u.objects && u.objects[name].obj.Some?
    requires var id := u.objects[name].obj.value.status.routeID;
             && u.makers == MakersAfter(w, name, w.objects[name].obj.value, out) && id in u.t.platform.routes
             && match FindRoute(out.listing, w.objects[name].obj.value.status.routeID, spec)
                case None => id == out.id && RoutesDistinct(w, name, spec)
                case Some(x) => id == x.id && Rival(w, name, spec, x.id) && !IdentityChanged(x.route, spec)
    ensures Stolen(u, name) <==> !RoutesDistinct(w, name, spec)
  {
    hide FindRoute, IdentityChanged;
  }

  lemma HeldClaim(w: Sys, u: Sys, name: string, spec: Spec, tid: string, kept: string, minted: string)
    requires Orderly(w) && Recording(w, name) && Holds(w, name) && spec == w.objects[name].obj.value.spec
    requires TS.Mine(w.t) == Some(tid) && TS.Mine(u.t) == Some(tid)
    requires name in u.objects && u.objects[name].obj.Some? && u.objects[name].obj.value.status.routeID == kept
    requires kept == minted || kept == w.objects[name].obj.value.status.routeID
    requires minted !in w.t.platform.routes && kept in u.t.platform.routes
    requires SameKey(u.t.platform.routes[kept], spec) && u.t.platform.routes[kept].tunnelID == tid
    requires kept != w.objects[name].obj.value.status.routeID ==>
               w.objects[name].obj.value.status.routeID !in u.t.platform.routes
    requires forall id :: id != kept && id != w.objects[name].obj.value.status.routeID ==>
               && (id in w.t.platform.routes <==> id in u.t.platform.routes)
               && (id in w.t.platform.routes ==> u.t.platform.routes[id] == w.t.platform.routes[id])
    ensures Doubled(u, name) <==> !RoutesDistinct(w, name, spec)
  {
    hide Orderly;
    var own := w.objects[name].obj.value.status.routeID;
    forall id
      ensures TwinOf(u, kept, id) <==> Rival(w, name, spec, id)
    {
      assert Made(w, name, id) ==> id == own;
      if id in w.t.platform.routes {
        RivalIsThere(w, name, spec, tid, id);
      }
    }
    if !RoutesDistinct(w, name, spec) {
      var id :| id in w.t.platform.routes && id in w.makers && w.makers[id] != name
                && SameKey(w.t.platform.routes[id], spec);
      assert Rival(w, name, spec, id);
      assert TwinOf(u, kept, id);
    }
    if other :| TwinOf(u, kept, other) {
      assert Rival(w, name, spec, other);
    }
  }

  // ---------------------------------------------------------------- users claiming a hostname and prefix

  lemma InvIsOrderly(w: Sys, v: Sys)
    requires SysInv(w) && v.t == w.t && v.makers == w.makers && w.objects.Keys <= v.objects.Keys
    ensures Orderly(v)
  {
    hide ObjectsOk, ClaimsOk, TI.Rest, TS.WorkerOk, TS.StatusOk, TS.Own;
    assert NetOf(v) == NetOf(w);
  }

  lemma SeenIsOurs(w: Sys, tid: string)
    requires SysInv(w) && TunnelID(w) == Some(tid) && TS.Mine(w.t).Some? && tid != ""
    ensures TS.Mine(w.t) == Some(tid) && tid in w.t.platform.tunnels
  {
    hide SysInv;
    SeenTunnel(w, tid);
  }

  /** A new object whose hostname and prefix no other spec asks for: its first uninterrupted reconcile records a route
      that was made for another object if and only if a live one has them. */
  lemma ApplyTakesRouteExactlyWhen(w: Sys, name: string, spec: Spec, tid: string, at: Address, out: Outcome)
    requires SysInv(w) && name !in w.objects && ValidSpec(spec) && tid != ""
    requires Publishable(Applied(w, name, spec), name, tid, at, out)
    ensures Stolen(Reconcile(Applied(w, name, spec), name, out), name) <==> !RoutesDistinct(w, name, spec)
  {
    hide SysInv, Orderly, IsListing, Resolve, Reconcile, Stolen;
    var d := Applied(w, name, spec);
    InvIsOrderly(w, d);
    SeenIsOurs(w, tid);
    NobodyMade(w, name);
    NoEmptyRoute(w);
    assert forall id :: Made(d, name, id) <==> Made(w, name, id);
    ClaimExactlyWhen(d, name, tid, at, out);
    assert RoutesDistinct(d, name, spec) <==> RoutesDistinct(w, name, spec);
  }

  lemma NobodyMade(w: Sys, name: string)
    requires SysInv(w) && name !in w.objects
    ensures forall id :: !Made(w, name, id)
  {
    hide TI.Inv, ObjectsOk, ClaimsOk, NetOk;
  }

  lemma NoEmptyRoute(w: Sys)
    requires SysInv(w)
    ensures "" !in w.t.platform.routes
  {
    hide SysInv;
    UsedHoldsRoutes(w);
  }

  /** An edit of a settled object between reconciles, to a hostname and prefix that no other spec asks for: an object
      without a live route then records another object's if and only if one has them; an object with a live route then
      publishes a second route under them if and only if one has them. */
  lemma EditTakesKeyExactlyWhen(w: Sys, name: string, spec: Spec, tid: string, at: Address, out: Outcome)
    requires SysInv(w) && name in w.objects && w.objects[name].obj.Some? && Settled(w, name, w.objects[name])
    requires ValidSpec(spec) && tid != "" && Publishable(Edited(w, name, spec), name, tid, at, out)
    ensures var u := Reconcile(Edited(w, name, spec), name, out);
            if Holds(w, name) then Doubled(u, name) <==> !RoutesDistinct(w, name, spec)
            else Stolen(u, name) <==> !RoutesDistinct(w, name, spec)
  {
    hide SysInv, Orderly, IsListing, Resolve, Reconcile, Stolen, Doubled, MayCreate;
    var d := Edited(w, name, spec);
    InvIsOrderly(w, d);
    SeenIsOurs(w, tid);
    StillAlive(w);
    RecordedIsMade(w, name);
    assert forall id :: Made(d, name, id) <==> Made(w, name, id);
    ClaimExactlyWhen(d, name, tid, at, out);
    assert RoutesDistinct(d, name, spec) <==> RoutesDistinct(w, name, spec);
    assert Holds(d, name) <==> Holds(w, name);
  }

  lemma StillAlive(w: Sys)
    requires SysInv(w) && TS.Mine(w.t).Some?
    ensures w.t.log.deleted != 1
  {
    hide ObjectsOk, ClaimsOk, BooksOk, NetOk, TS.Structure;
  }

  lemma RecordedIsMade(w: Sys, name: string)
    requires SysInv(w) && name in w.objects && w.objects[name].obj.Some?
    ensures var id := w.objects[name].obj.value.status.routeID;
            id in w.t.platform.routes ==> Made(w, name, id)
  {
    hide TI.Inv, ClaimsOk, NetOk, BooksOk, WorkerOk, VersionOk, RollupKept;
    NoEmptyRoute(w);
    assert LocalOk(NetOf(w), w.rv, name, w.objects[name]);
  }

  // ---------------------------------------------------------------- moving a hostname

  lemma {:induction false} FinishElsewhere(w: Sys, name: string, out: Outcome, fuel: nat, other: string)
    requires other in w.objects && other != name
    ensures other in Finish(w, name, out, fuel).objects && Finish(w, name, out, fuel).objects[other] == w.objects[other]
    decreases fuel
  {
    hide Advance;
    if fuel > 0 && name in w.objects && !w.objects[name].worker.Idle? {
      AdvanceElsewhere(w, name, out, other);
      FinishElsewhere(Advance(w, name, out), name, out, fuel - 1, other);
    }
  }

  lemma ReconcileElsewhere(w: Sys, name: string, out: Outcome, other: string)
    requires name in w.objects && other in w.objects && other != name
    ensures other in Reconcile(w, name, out).objects && Reconcile(w, name, out).objects[other] == w.objects[other]
  {
    hide Finish;
    FinishElsewhere(Begun(w, name), name, out, CALLS, other);
  }

  /** An object's reconcile deletes its recorded route when that is no longer what it asks for. */
  lemma ReconcileReplaces(w: Sys, name: string, tid: string, at: Address, out: Outcome)
    requires Publishable(w, name, tid, at, out) && tid != "" && w.t.platform.Valid() && tid in w.t.platform.tunnels
    requires var id := w.objects[name].obj.value.status.routeID;
             && id in w.t.platform.routes && w.t.platform.routes[id].tunnelID == tid
             && RouteIdentity(w.t.platform.routes[id]) != SpecIdentity(w.objects[name].obj.value.spec)
    ensures w.objects[name].obj.value.status.routeID !in Reconcile(w, name, out).t.platform.routes
  {
    hide IsListing, FindRoute, Reconcile, Proceeds, EnsureRoute, Resolve, ServiceOf;
    var o := w.objects[name].obj.value;
    ReconcileEnsures(w, name, tid, at, out);
    EnsureRouteRealises(w.t.platform.routes, out.listing, tid, o.status.routeID, o.spec, at.host, at.port, out.id);
    FindRouteMeans(out.listing, w.t.platform.routes, tid, o.status.routeID, o.spec);
    KeptId(w.t.platform.routes, out.listing, tid, o.status.routeID, o.spec, at.host, at.port, out.id);
  }

  /** The ordinary act of moving a hostname from one object to another in one go, all specs distinct at every moment:
      `a` is edited away from the hostname and prefix of its live route, and before its reconcile `b` is applied with
      them. If `b` is reconciled first it takes the route over and says it is published; then the reconcile of `a`
      deletes the route under it. */
  lemma MovedHostnameIsTakenDown(w: Sys, a: string, specA: Spec, b: string, specB: Spec, tid: string, atB: Address,
                                 outB: Outcome, atA: Address, outA: Outcome)
    requires SysInv(w) && Enabled(w, Edit(a, specA)) && Holds(w, a) && w.objects[a].worker.Idle?
    requires var x := w.objects[a].obj.value.status.routeID;
             && SameKey(w.t.platform.routes[x], specB) && !SameKey(w.t.platform.routes[x], specA)
    requires b !in w.objects && ValidSpec(specB) && SpecsDistinct(Edited(w, a, specA), b, specB) && tid != ""
    requires Publishable(Applied(Edited(w, a, specA), b, specB), b, tid, atB, outB)
    requires var u := Reconcile(Applied(Edited(w, a, specA), b, specB), b, outB);
             Publishable(u, a, tid, atA, outA)
    ensures var x := w.objects[a].obj.value.status.routeID;
            var u := Reconcile(Applied(Edited(w, a, specA), b, specB), b, outB);
            var v := Reconcile(u, a, outA);
            && b in u.objects && u.objects[b].obj.Some?
            && u.objects[b].obj.value.status.routeID == x && u.objects[b].obj.value.status.ready.True()
            && x in u.t.platform.routes && Asked(u.t.platform.routes[x], specB, tid, atB.host, atB.port)
            && b in v.objects && v.objects[b] == u.objects[b] && x !in v.t.platform.routes
  {
    hide SysInv, Enabled, Orderly, IsListing, Resolve, Reconcile, Proceeds, Settled, KeyFree, FindRoute, EnsureRoute,
      Desired, SpecsDistinct, ServiceOf, Recording, Asked;
    var x := w.objects[a].obj.value.status.routeID;
    var d := Edited(w, a, specA);
    var c := Applied(d, b, specB);
    StepKeepsSysInv(w, Edit(a, specA));
    SeenIsOurs(w, tid);
    ApplyTakes(d, b, specB, x, tid, atB, outB);
    var u := Reconcile(c, b, outB);
    ReconcileElsewhere(c, b, outB, a);
    DesiredKey(specB, tid, atB);
    DifferentKeys(w.t.platform.routes[x], specA, specB);
    ReconcileReplaces(u, a, tid, atA, outA);
    ReconcileElsewhere(u, a, outA, b);
  }

  lemma DifferentKeys(r: PRoute, specA: Spec, specB: Spec)
    requires SameKey(r, specB) && !SameKey(r, specA)
    ensures SpecIdentity(specA) != SpecIdentity(specB)
  {
  }

  /** The taking over, in detail. */
  lemma ApplyTakes(w: Sys, name: string, spec: Spec, x: string, tid: string, at: Address, out: Outcome)
    requires SysInv(w) && name !in w.objects && ValidSpec(spec) && tid != "" && TS.Mine(w.t) == Some(tid)
    requires x in w.t.platform.routes && x in w.makers && SameKey(w.t.platform.routes[x], spec)
    requires tid in w.t.platform.tunnels && Publishable(Applied(w, name, spec), name, tid, at, out)
    ensures var u := Reconcile(Applied(w, name, spec), name, out);
            && name in u.objects && u.objects[name].obj.Some?
            && u.objects[name].obj.value.status.routeID == x && u.objects[name].obj.value.status.ready.True()
            && x in u.t.platform.routes && Asked(u.t.platform.routes[x], spec, tid, at.host, at.port)
            && RouteIdentity(u.t.platform.routes[x]) == SpecIdentity(spec) && u.t.platform.routes[x].tunnelID == tid
            && u.t.platform.Valid() && TS.Mine(u.t) == Some(tid) && tid in u.t.platform.tunnels
  {
    hide SysInv, Orderly, IsListing, Resolve, Reconcile, Proceeds, FindRoute, EnsureRoute, Desired, ServiceOf, Asked;
    var d := Applied(w, name, spec);
    InvIsOrderly(w, d);
    NobodyMade(w, name);
    NoEmptyRoute(w);
    DesiredKey(spec, tid, at);
    OrderlyRoutes(d);
    assert forall id :: Made(d, name, id) <==> Made(w, name, id);
    assert !Made(w, name, x) && Rival(d, name, spec, x);
    LookupFinds(d, name, tid, out.listing);
    ReconcileEnsures(d, name, tid, at, out);
    FreshIsNew(d, out.id);
    EnsureRouteRealises(d.t.platform.routes, out.listing, tid, "", spec, at.host, at.port, out.id);
    KeptId(d.t.platform.routes, out.listing, tid, "", spec, at.host, at.port, out.id);
    OneRoutePerKey(w, x, EnsureAt(d, d.objects[name].obj.value, tid, at, out).id, spec);
    ReconcileKeepsValid(d, name, out);
  }

  /** Under the invariant only one live route has a given hostname and prefix. */
  lemma OneRoutePerKey(w: Sys, x: string, y: string, spec: Spec)
    requires SysInv(w) && x in w.t.platform.routes && y in w.t.platform.routes && x in w.makers && y in w.makers
    requires SameKey(w.t.platform.routes[x], spec) && SameKey(w.t.platform.routes[y], spec)
    ensures x == y
  {
    hide TI.Inv, WorkerOk, VersionOk, RollupKept, SpecFree, NetOk, BooksOk;
    var n := NetOf(w);
    assert RouteFree(n, w.objects, w.makers[x], n.live[x]);
    assert Has(n, w.makers[x], x);
    if Has(n, w.makers[x], y) {
      MadeOnce(w, w.makers[x], x, y);
    }
  }

  lemma MadeOnce(w: Sys, name: string, x: string, y: string)
    requires SysInv(w) && Made(w, name, x) && Made(w, name, y)
    ensures x == y
  {
    hide TI.Inv, WorkerOk, VersionOk, RollupKept, ClaimsOk, NetOk;
    assert LocalOk(NetOf(w), w.rv, name, w.objects[name]);
    assert Has(NetOf(w), name, x) && Has(NetOf(w), name, y);
  }

  lemma ReconcileKeepsValid(w: Sys, name: string, out: Outcome)
    requires name in w.objects && w.t.platform.Valid() && Proceeds(Begun(w, name), name, out, CALLS)
    ensures Reconcile(w, name, out).t.platform.Valid()
  {
    hide Finish, Proceeds;
    FinishKeepsValid(Begun(w, name), name, out, CALLS);
  }
}
