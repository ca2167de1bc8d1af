/** What the two reconcilers together guarantee about routes, over every run. */
module RouteTheorems {
  import opened Base
  import opened RouteSpec
  import opened Upstream
  import opened RouteMachine
  import opened RouteSafety
  import opened RouteSystem
  import opened RouteSteps
  import opened RouteRuns
  import Tun = TunnelMachine
  import TS = TunnelSafety
  import TI = TunnelInvariants

  /** A route in this object's tunnel, as the platform tells it. */
  predicate InTunnel(w: Sys, id: string) {
    id in w.t.platform.routes && TS.Mine(w.t) == Some(w.t.platform.routes[id].tunnelID)
  }

  /** The route object that will find this route again: it carries the finalizer, and either recorded the id
      or asks for exactly this type, hostname and prefix. */
  ghost predicate Covers(w: Sys, name: string, id: string) {
    && name in w.objects && w.objects[name].obj.Some? && InTunnel(w, id)
    && var o := w.objects[name].obj.value;
       o.finalizer && (o.status.routeID == id || RouteIdentity(w.t.platform.routes[id]) == SpecIdentity(o.spec))
  }

  /** `name` is the object the route was made for. */
  lemma MakerCovers(w: Sys, id: string)
    requires SysInv(w) && InTunnel(w, id)
    ensures id in w.makers && Covers(w, w.makers[id], id) && WellTyped(w.t.platform.routes[id])
  {
    hide TI.Inv, ClaimsOk;
    var name := w.makers[id];
    assert LocalOk(NetOf(w), w.rv, name, w.objects[name]);
    assert Has(NetOf(w), name, id);
  }

  /** And nobody else covers it, by recorded id or by hostname and prefix. */
  lemma OnlyMakerCovers(w: Sys, name: string, id: string)
    requires SysInv(w) && InTunnel(w, id) && Covers(w, name, id)
    ensures w.makers[id] == name
  {
    hide TI.Inv;
    MakerCovers(w, id);
    assert LocalOk(NetOf(w), w.rv, name, w.objects[name]);
    if w.objects[name].obj.value.status.routeID != id {
      assert RouteFree(NetOf(w), w.objects, w.makers[id], NetOf(w).live[id]);
    } else {
      assert id in NetOf(w).makers && id != "";
    }
  }

  /** No orphan route: in every interleaving of both controllers, each route the platform holds in the tunnel
      has exactly one object that covers it, and each object covers at most one route. */
  lemma NoOrphanRoute(w0: Sys, actions: seq<Action>, w: Sys)
    requires Init(w0) && Run(w0, actions, w)
    ensures forall id :: InTunnel(w, id) ==> exists name :: Covers(w, name, id)
    ensures forall id, a, b :: Covers(w, a, id) && Covers(w, b, id) ==> a == b
    ensures forall name, x, y :: Covers(w, name, x) && Covers(w, name, y) ==> x == y
  {
    hide SysInv, Run, Init, InTunnel, Covers;
    ReachableInv(w0, actions, w);
    forall id | InTunnel(w, id)
      ensures exists name :: Covers(w, name, id)
    {
      MakerCovers(w, id);
    }
    forall id, a, b | Covers(w, a, id) && Covers(w, b, id)
      ensures a == b
    {
      CoversInTunnel(w, a, id);
      OnlyMakerCovers(w, a, id);
      OnlyMakerCovers(w, b, id);
    }
    forall name, x, y | Covers(w, name, x) && Covers(w, name, y)
      ensures x == y
    {
      CoversOne(w, name, x, y);
    }
  }

  lemma CoversInTunnel(w: Sys, name: string, id: string)
    requires Covers(w, name, id)
    ensures InTunnel(w, id)
  {
  }

  lemma CoversOne(w: Sys, name: string, x: string, y: string)
    requires SysInv(w) && Covers(w, name, x) && Covers(w, name, y)
    ensures x == y
  {
    hide TI.Inv, ClaimsOk, WorkerOk, VersionOk, RollupKept;
    OnlyMakerCovers(w, name, x);
    OnlyMakerCovers(w, name, y);
    assert LocalOk(NetOf(w), w.rv, name, w.objects[name]);
    assert Has(NetOf(w), name, x) && Has(NetOf(w), name, y);
  }

  /** Once the tunnel is gone the platform holds no route the operator ever made. */
  lemma TunnelTakesItsRoutes(w0: Sys, actions: seq<Action>, w: Sys)
    requires Init(w0) && Run(w0, actions, w) && TS.Mine(w.t).None?
    ensures forall id :: id in w.makers ==> id !in w.t.platform.routes
  {
    hide Run, Init, TI.Inv, ObjectsOk, ClaimsOk, BooksOk;
    ReachableInv(w0, actions, w);
    assert forall id :: id in w.makers && id in w.t.platform.routes ==> id in NetOf(w).live;
  }

  /** The moment a route object's finalizer goes. */
  ghost predicate Releases(w: Sys, a: Action, name: string) {
    && a.Go? && a.name == name && name in w.objects && !a.outcome.Refused?
    && w.objects[name].worker.Release? && Current(w.objects[name], w.objects[name].worker.s)
  }

  /** Whichever of the three exits of the delete path was taken (no Tunnel object, no recorded tunnel id, or
      the remote delete done), when the finalizer goes the platform holds no route made for the object, none
      under its recorded id in the tunnel, and none under its hostname and prefix there. */
  lemma ReleaseLeavesNoRoute(w0: Sys, actions: seq<Action>, w: Sys, a: Action, name: string)
    requires Init(w0) && Run(w0, actions, w) && Enabled(w, a) && Releases(w, a, name)
    ensures forall id :: !Made(w, name, id)
    ensures forall id :: InTunnel(w, id) ==>
            id != w.objects[name].obj.value.status.routeID
            && !SameKey(w.t.platform.routes[id], w.objects[name].obj.value.spec)
  {
    hide Run, Init, SysInv, Enabled, SameKey;
    ReachableInv(w0, actions, w);
    NoneMadeAtRelease(w, name);
    forall id | InTunnel(w, id)
      ensures id != w.objects[name].obj.value.status.routeID
              && !SameKey(w.t.platform.routes[id], w.objects[name].obj.value.spec)
    {
      if id == w.objects[name].obj.value.status.routeID
         || SameKey(w.t.platform.routes[id], w.objects[name].obj.value.spec) {
        KeyOrIdIsMade(w, name, id);
      }
    }
  }

  lemma NoneMadeAtRelease(w: Sys, name: string)
    requires SysInv(w) && name in w.objects && w.objects[name].worker.Release?
    ensures forall id :: !Made(w, name, id)
  {
    hide TI.Inv, ClaimsOk, BooksOk, NetOk, ObjectOk, VersionOk, RollupKept, Removing;
    assert LocalOk(NetOf(w), w.rv, name, w.objects[name]);
    assert forall id :: Has(NetOf(w), name, id) <==> Made(w, name, id);
  }

  lemma KeyOrIdIsMade(w: Sys, name: string, id: string)
    requires SysInv(w) && name in w.objects && w.objects[name].obj.Some? && InTunnel(w, id)
    requires id == w.objects[name].obj.value.status.routeID
          || SameKey(w.t.platform.routes[id], w.objects[name].obj.value.spec)
    ensures Made(w, name, id)
  {
    hide TI.Inv, ClaimsOk, WorkerOk, VersionOk, RollupKept;
    OwnsKey(w, name);
    assert LocalOk(NetOf(w), w.rv, name, w.objects[name]);
    assert id in NetOf(w).live && id != "";
  }

  /** The finalizer of a deleting object goes in no other way. */
  lemma FinalizerOnlyReleased(w0: Sys, actions: seq<Action>, w: Sys, a: Action, name: string)
    requires Init(w0) && Run(w0, actions, w) && Enabled(w, a)
    requires name in w.objects && w.objects[name].obj.Some? && w.objects[name].obj.value.finalizer
    ensures name in Step(w, a).objects
    ensures var l := Step(w, a).objects[name]; (l.obj.Some? && l.obj.value.finalizer) <==> !Releases(w, a, name)
  {
    hide Run, Init, TI.Inv, BooksOk, NetOk, ClaimsOk, EditAllowed, DeleteAllowed, KeyFree, PossibleOutcome,
      Tun.Apply, Tun.Enabled, Advance, LocalOk, Put;
    ReachableInv(w0, actions, w);
    assert LocalOk(NetOf(w), w.rv, name, w.objects[name]);
    if a.Go? {
      if a.name == name {
        GoFinalizer(w, name, a.outcome);
      } else {
        StepElsewhere(w, a, name);
      }
    } else {
      NoGoFinalizer(w, a, name);
    }
  }

  lemma NoGoFinalizer(w: Sys, a: Action, name: string)
    requires Enabled(w, a) && !a.Go?
    requires name in w.objects && w.objects[name].obj.Some? && w.objects[name].obj.value.finalizer
    ensures name in Step(w, a).objects
    ensures var l := Step(w, a).objects[name]; l.obj.Some? && l.obj.value.finalizer
  {
    hide EditAllowed, DeleteAllowed, KeyFree, Tun.Apply, Tun.Enabled;
  }

  lemma StepElsewhere(w: Sys, a: Action, name: string)
    requires SysInv(w) && Enabled(w, a) && a.OnObject() && name != a.name && name in w.objects
    ensures name in Step(w, a).objects && Step(w, a).objects[name] == w.objects[name]
  {
    hide SysInv, Enabled, Step, RoutesOnly, BooksOk, NetOk, Touches, LocalOk, ClaimsKept;
    EveryObjectStep(w, a);
  }

  lemma GoFinalizer(w: Sys, name: string, out: Outcome)
    requires name in w.objects && w.objects[name].obj.Some? && w.objects[name].obj.value.finalizer
    requires !w.objects[name].worker.Idle? && LocalOk(NetOf(w), w.rv, name, w.objects[name])
    ensures name in Advance(w, name, out).objects
    ensures var l := Advance(w, name, out).objects[name];
            (l.obj.Some? && l.obj.value.finalizer) <==> !Releases(w, Go(name, out), name)
  {
    hide NextAfterRead, NetOf, IdentityKnown, NotOvertaken, RollupKept, SnapshotOk, Close, FailStatus, SuccessStatus,
      Compare, Stored, Updated, ObjectOk, AfterFinalizer, Has, OwnId, TidOk, CreateBody, GoReplace, GoCreate, GoUpdate,
      GoDeleteRemote;
    var l := w.objects[name];
    match l.worker
    case Replace(s, tid, at, id) => RemoteGoKeepsObject(w, name, out);
    case Create(s, tid, at) => RemoteGoKeepsObject(w, name, out);
    case Update(s, tid, at, id, input) => RemoteGoKeepsObject(w, name, out);
    case DeleteRemote(s, tid, id) => RemoteGoKeepsObject(w, name, out);
    case _ =>
  }

  lemma RemoteGoKeepsObject(w: Sys, name: string, out: Outcome)
    requires name in w.objects
    requires w.objects[name].worker.Replace? || w.objects[name].worker.Create? || w.objects[name].worker.Update?
          || w.objects[name].worker.DeleteRemote?
    ensures name in Advance(w, name, out).objects && Advance(w, name, out).objects[name].obj == w.objects[name].obj
  {
    hide FailStatus, SuccessStatus, Compare, Stored, Updated, CreateBody;
  }

  // ---------------------------------------------------------------- non-interference

  /** Every platform route, in this tunnel or anywhere else in the account, that was not made for `name`. */
  ghost predicate OthersUntouched(w: Sys, v: Sys, name: string) {
    && (forall id :: id in w.t.platform.routes && !Made(w, name, id) ==>
          id in v.t.platform.routes && v.t.platform.routes[id] == w.t.platform.routes[id])
    && (forall id :: id in v.t.platform.routes && !Made(v, name, id) ==> id in w.t.platform.routes)
    && v.t == w.t.(platform := w.t.platform.(routes := v.t.platform.routes, used := v.t.platform.used))
  }

  lemma DeleteUntouched(w: Sys, v: Sys, name: string, tid: string, id: string)
    requires OwnId(NetOf(w), name, id)
    requires v.t == w.t.(platform := w.t.platform.DeleteRoute(tid, id)) && v.makers == w.makers
    ensures OthersUntouched(w, v, name)
  {
  }

  lemma CreateUntouched(w: Sys, name: string, s: RouteObject, tid: string, at: Address, out: Outcome)
    requires name in w.objects
    requires !out.Refused? ==> out.id !in w.t.platform.routes
    ensures OthersUntouched(w, GoCreate(w, name, w.objects[name], s, tid, at, out), name)
  {
    hide FailStatus, Compare, Stored, CreateBody;
  }

  lemma UpdateUntouched(w: Sys, name: string, s: RouteObject, tid: string, at: Address, id: string,
                        input: UpdateInput, out: Outcome)
    requires name in w.objects && OwnId(NetOf(w), name, id)
    ensures OthersUntouched(w, GoUpdate(w, name, w.objects[name], s, tid, at, id, input, out), name)
  {
    hide FailStatus, SuccessStatus, Updated;
  }

  lemma ReplaceUntouched(w: Sys, name: string, s: RouteObject, tid: string, at: Address, id: string, out: Outcome)
    requires name in w.objects && OwnId(NetOf(w), name, id)
    ensures OthersUntouched(w, GoReplace(w, name, w.objects[name], s, tid, at, id, out), name)
  {
    hide FailStatus, OthersUntouched;
    var v := GoReplace(w, name, w.objects[name], s, tid, at, id, out);
    if out.Refused? {
      QuietUntouched(w, v, name);
    } else {
      DeleteUntouched(w, v, name, tid, id);
    }
  }

  lemma RemovalUntouched(w: Sys, name: string, s: RouteObject, tid: string, id: string, out: Outcome)
    requires name in w.objects && OwnId(NetOf(w), name, id)
    ensures OthersUntouched(w, GoDeleteRemote(w, name, w.objects[name], s, tid, id, out), name)
  {
    hide OthersUntouched;
    var v := GoDeleteRemote(w, name, w.objects[name], s, tid, id, out);
    if out.Refused? {
      QuietUntouched(w, v, name);
    } else {
      DeleteUntouched(w, v, name, tid, id);
    }
  }

  lemma QuietUntouched(w: Sys, v: Sys, name: string)
    requires v.t == w.t && v.makers == w.makers
    ensures OthersUntouched(w, v, name)
  {
  }

  lemma GoUntouched(w: Sys, name: string, out: Outcome)
    requires name in w.objects && !w.objects[name].worker.Idle? && WorkerOk(NetOf(w), name, w.objects[name])
    requires PossibleOutcome(w, w.objects[name], out) && w.t.platform.Valid()
    ensures OthersUntouched(w, Advance(w, name, out), name)
  {
    hide NextAfterRead, Close, IsListing, Working, Removing, TidOk, NetOf, OwnId, Has, GoCreate, GoUpdate, GoReplace,
      GoDeleteRemote, SnapshotOk, IdentityKnown, NotOvertaken, OthersUntouched, Current, AfterFinalizer;
    var v := Advance(w, name, out);
    match w.objects[name].worker
    case Replace(s, tid, at, id) => ReplaceUntouched(w, name, s, tid, at, id, out);
    case DeleteRemote(s, tid, id) => RemovalUntouched(w, name, s, tid, id, out);
    case Create(s, tid, at) => CreateUntouched(w, name, s, tid, at, out);
    case Update(s, tid, at, id, input) => UpdateUntouched(w, name, s, tid, at, id, input, out);
    case _ => QuietUntouched(w, v, name);
  }

  lemma LocalGivesWorker(n: Net, rv: nat, name: string, l: Local)
    requires LocalOk(n, rv, name, l)
    ensures WorkerOk(n, name, l)
  {
  }

  /** No step of one route object, of its reconcile or of its users, lost answers included, updates or deletes
      a route that was made for another object, or anything else on the platform. */
  lemma NonInterference(w0: Sys, actions: seq<Action>, w: Sys, a: Action)
    requires Init(w0) && Run(w0, actions, w) && Enabled(w, a) && a.OnObject()
    ensures OthersUntouched(w, Step(w, a), a.name)
  {
    hide Run, Init, TI.Rest, TS.WorkerOk, BooksOk, NetOk, ClaimsOk, EditAllowed, DeleteAllowed, KeyFree,
      Advance, LocalOk, PossibleOutcome, WorkerOk;
    ReachableInv(w0, actions, w);
    if a.Go? {
      assert LocalOk(NetOf(w), w.rv, a.name, w.objects[a.name]);
      LocalGivesWorker(NetOf(w), w.rv, a.name, w.objects[a.name]);
      GoUntouched(w, a.name, a.outcome);
    }
  }

  // ---------------------------------------------------------------- replacement

  /** At every micro-step, through any number of interrupted and retried replacements, the platform holds at
      most one route for an object, and no two routes of the tunnel share hostname and prefix. */
  lemma CrashSafeReplacement(w0: Sys, actions: seq<Action>, w: Sys)
    requires Init(w0) && Run(w0, actions, w)
    ensures forall name, x, y :: Made(w, name, x) && Made(w, name, y) ==> x == y
    ensures forall x, y | InTunnel(w, x) && InTunnel(w, y) ::
              SameRouteKey(w.t.platform.routes[x], w.t.platform.routes[y]) ==> x == y
  {
    hide Run, Init, TI.Inv, WorkerOk, VersionOk, RollupKept, SpecFree;
    ReachableInv(w0, actions, w);
    var n := NetOf(w);
    forall name, x, y | Made(w, name, x) && Made(w, name, y)
      ensures x == y
    {
      assert LocalOk(n, w.rv, name, w.objects[name]);
      assert Has(n, name, x) && Has(n, name, y);
    }
    forall x, y | InTunnel(w, x) && InTunnel(w, y) && SameRouteKey(w.t.platform.routes[x], w.t.platform.routes[y])
      ensures x == y
    {
      assert RouteFree(n, w.objects, w.makers[x], n.live[x]);
      assert Made(w, w.makers[x], x);
      assert Made(w, w.makers[x], y);
    }
  }

  /** Every route in the tunnel is of type host exactly when its prefix is "/", and a route found by hostname
      and prefix (its id not being the recorded one) has the identity the spec asks for: what a lost create left
      behind is adopted, never deleted and made again. */
  lemma LostCreateNeverReplaces(w0: Sys, actions: seq<Action>, w: Sys, name: string, listing: seq<Listed>)
    requires Init(w0) && Run(w0, actions, w)
    requires name in w.objects && w.objects[name].worker.List?
    requires IsListing(listing, w.t.platform.routes, w.objects[name].worker.tid)
    ensures forall id :: InTunnel(w, id) ==> WellTyped(w.t.platform.routes[id])
    ensures var s := w.objects[name].worker.s;
            var found := FindRoute(listing, s.status.routeID, s.spec);
            found.Some? && found.value.id != s.status.routeID ==>
            && !IdentityChanged(found.value.route, s.spec)
            && !NextAfterList(s, w.objects[name].worker.tid, w.objects[name].worker.at, listing).Replace?
  {
    hide Run, Init, TI.Inv, ClaimsOk, IsListing, FindRoute, ObjectOk, VersionOk, RollupKept, Held;
    ReachableInv(w0, actions, w);
    var l := w.objects[name];
    assert LocalOk(NetOf(w), w.rv, name, l) && TidHeld(w.t, l.worker.tid);
    forall id | InTunnel(w, id)
      ensures WellTyped(w.t.platform.routes[id])
    {
      assert id in NetOf(w).live;
    }
    var found := FindRoute(listing, l.worker.s.status.routeID, l.worker.s.spec);
    ListingMeans(w, l.worker.tid, listing, l.worker.s.status.routeID, l.worker.s.spec);
    if found.Some? && found.value.id != l.worker.s.status.routeID {
      FallbackNeverReplaces(NetOf(w), name, l, l.worker.s, found.value);
    }
  }

  // ---------------------------------------------------------------- the Ready roll-up

  /** In every persisted status, whatever exits and failed writes came before, Ready is True exactly when
      Resolved and Synced are, and then all of it is about the observed generation. */
  lemma RouteReadyRollup(w0: Sys, actions: seq<Action>, w: Sys, name: string)
    requires Init(w0) && Run(w0, actions, w) && name in w.objects && w.objects[name].obj.Some?
    ensures var st := w.objects[name].obj.value.status;
            && (st.ready.True() <==> st.resolved.True() && st.synced.True())
            && (st.ready.True() ==>
                  && st.ready.generation == st.observedGeneration
                  && st.resolved.generation == st.observedGeneration
                  && st.synced.generation == st.observedGeneration)
  {
    hide Run, Init, TI.Inv, ClaimsOk, BooksOk, NetOk, WorkerOk, VersionOk, ObjectOk;
    ReachableInv(w0, actions, w);
    assert LocalOk(NetOf(w), w.rv, name, w.objects[name]);
  }
}
