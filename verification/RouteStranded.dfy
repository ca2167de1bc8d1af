/** What becomes of a route that its object cannot find any more, and when exactly an edit or a delete brings that
    about. */
module RouteStranded {
  import opened Base
  import opened Platform
  import opened RouteSpec
  import opened Upstream
  import opened RouteMachine
  import opened RouteSafety
  import opened RouteSystem
  import opened RouteSteps
  import opened RouteRuns
  import opened RouteTheorems
  import opened RouteConvergence
  import opened RouteOvertaken
  import opened RouteLimits
  import TS = TunnelSafety
  import TI = TunnelInvariants

  /** The platform is in order, and this is a route of the tunnel like the operator makes them. */
  ghost predicate Sound(w: Sys, tid: string, id: string) {
    && w.t.platform.Valid() && TS.Mine(w.t) == Some(tid) && id in w.t.platform.routes
    && w.t.platform.routes[id].tunnelID == tid && WellTyped(w.t.platform.routes[id])
  }

  /** A live object never finds it again: the next reconcile records another route and leaves this one beside it. */
  lemma StrandedStaysBeside(w: Sys, name: string, x: string, tid: string, at: Address, out: Outcome)
    requires Publishable(w, name, tid, at, out) && tid != "" && Sound(w, tid, x) && Stranded(w, name, x)
    requires ValidSpec(w.objects[name].obj.value.spec)
    ensures var v := Reconcile(w, name, out);
            && Unnamed(v, name, x) && InTunnel(v, x) && v.t.platform.routes[x] == w.t.platform.routes[x]
            && InTunnel(v, v.objects[name].obj.value.status.routeID)
  {
    hide IsListing, FindRoute, Resolve, Reconcile, Proceeds, EnsureRoute, ServiceOf;
    var o := w.objects[name].obj.value;
    ReconcileEnsures(w, name, tid, at, out);
    EnsureRouteRealises(w.t.platform.routes, out.listing, tid, o.status.routeID, o.spec, at.host, at.port, out.id);
    FindRouteMeans(out.listing, w.t.platform.routes, tid, o.status.routeID, o.spec);
    KeyDeterminesIdentity(w.t.platform.routes[x], o.spec);
    EnsureTouches(w.t.platform.routes, out.listing, tid, o.status.routeID, o.spec, at.host, at.port, out.id);
  }

  /** ensureRoute answers, and replaces, only what the lookup found or the platform minted. */
  lemma EnsureTouches(routes: map<string, PRoute>, listing: seq<Listed>, tid: string, routeID: string,
                      spec: Spec, host: string, port: int, newID: string)
    ensures var e := EnsureRoute(routes, listing, tid, routeID, spec, host, port, newID);
            match FindRoute(listing, routeID, spec)
            case None => e.id == newID && Replaced(listing, routeID, spec).None?
            case Some(x) =>
              && (e.id == newID || e.id == x.id)
              && (Replaced(listing, routeID, spec).None? || Replaced(listing, routeID, spec) == Some(x.id))
  {
    hide FindRoute, Drift, Updated, Stored;
  }

  lemma FromRelease(w: Sys, name: string, s: RouteObject, out: Outcome, fuel: nat)
    requires Stands(w, name, Some(s), Release(s)) && out.Done? && fuel >= 1
    ensures var v := Finish(w, name, out, fuel);
            && v.t == w.t && v.makers == w.makers
            && name in v.objects && v.objects[name].worker.Idle?
            && !(v.objects[name].obj.Some? && v.objects[name].obj.value.finalizer)
  {
    var v := Advance(w, name, out);
    assert Finish(v, name, out, fuel - 1) == v;
  }

  lemma FromDeleteRemote(w: Sys, name: string, s: RouteObject, tid: string, id: string, out: Outcome, fuel: nat)
    requires Stands(w, name, Some(s), DeleteRemote(s, tid, id)) && out.Done? && fuel >= 2
    ensures var v := Finish(w, name, out, fuel);
            && v.t == w.t.(platform := w.t.platform.DeleteRoute(tid, id)) && v.makers == w.makers
            && name in v.objects && !(v.objects[name].obj.Some? && v.objects[name].obj.value.finalizer)
  {
    FromRelease(Advance(w, name, out), name, s, out, fuel - 1);
  }

  /** The id the delete path deletes, if any. */
  function Target(s: RouteObject, listing: seq<Listed>): Option<string> {
    if s.status.routeID != "" then Some(s.status.routeID)
    else match FindRoute(listing, "", s.spec)
      case None => None
      case Some(x) => Some(x.id)
  }

  lemma FromDeleteClient(w: Sys, name: string, s: RouteObject, tid: string, out: Outcome, fuel: nat)
    requires Stands(w, name, Some(s), DeleteClient(s, tid)) && out.Done? && fuel >= 4 && w.t.credential
    ensures var v := Finish(w, name, out, fuel);
            && v.makers == w.makers
            && v.t == (if Target(s, out.listing).None? then w.t
                       else w.t.(platform := w.t.platform.DeleteRoute(tid, Target(s, out.listing).value)))
            && name in v.objects && !(v.objects[name].obj.Some? && v.objects[name].obj.value.finalizer)
  {
    hide FindRoute;
    var v1 := Advance(w, name, out);
    if s.status.routeID != "" {
      FromDeleteRemote(v1, name, s, tid, s.status.routeID, out, fuel - 1);
    } else {
      var v2 := Advance(v1, name, out);
      assert Finish(w, name, out, fuel) == Finish(v2, name, out, fuel - 2);
      match FindRoute(out.listing, "", s.spec)
      case None => FromRelease(v2, name, s, out, fuel - 2);
      case Some(x) => FromDeleteRemote(v2, name, s, tid, x.id, out, fuel - 2);
    }
  }

  lemma FromDeleteStart(w: Sys, name: string, s: RouteObject, tid: string, out: Outcome, fuel: nat)
    requires Stands(w, name, Some(s), NeedTunnel(s)) && s.deleting && s.finalizer && out.Done? && fuel >= 6
    requires w.t.credential && TunnelID(w) == Some(tid) && tid != ""
    ensures var v := Finish(w, name, out, fuel);
            && v.makers == w.makers
            && v.t == (if Target(s, out.listing).None? then w.t
                       else w.t.(platform := w.t.platform.DeleteRoute(tid, Target(s, out.listing).value)))
            && name in v.objects && !(v.objects[name].obj.Some? && v.objects[name].obj.value.finalizer)
  {
    hide Target;
    var v1 := Advance(w, name, out);
    var v2 := Advance(v1, name, out);
    assert Finish(w, name, out, fuel) == Finish(v1, name, out, fuel - 1) == Finish(v2, name, out, fuel - 2);
    FromDeleteClient(v2, name, s, tid, out, fuel - 2);
  }

  /** An object that is being deleted, between reconciles, its tunnel there and every call answered. */
  ghost predicate Removable(w: Sys, name: string, tid: string, out: Outcome) {
    && name in w.objects && w.objects[name].worker.Idle? && w.objects[name].obj.Some?
    && w.objects[name].obj.value.deleting && w.objects[name].obj.value.finalizer
    && TunnelID(w) == Some(tid) && tid != "" && w.t.credential
    && out.Done? && IsListing(out.listing, w.t.platform.routes, tid)
  }

  /** And the delete path never finds it: the object is released and the route stays. */
  lemma StrandedStaysBehind(w: Sys, name: string, x: string, tid: string, out: Outcome)
    requires Removable(w, name, tid, out) && Sound(w, tid, x) && Stranded(w, name, x)
    requires ValidSpec(w.objects[name].obj.value.spec)
    ensures var v := Reconcile(w, name, out);
            && name in v.objects && !(v.objects[name].obj.Some? && v.objects[name].obj.value.finalizer)
            && Made(v, name, x)
  {
    hide IsListing, FindRoute, Finish;
    var s := w.objects[name].obj.value;
    FromDeleteStart(Begun(w, name), name, s, tid, out, CALLS);
    FindRouteMeans(out.listing, w.t.platform.routes, tid, "", s.spec);
    KeyDeterminesIdentity(w.t.platform.routes[x], s.spec);
  }

  /** An object that is being deleted and that we still hold, between reconciles, its calls answered if it makes any. */
  ghost predicate Terminating(w: Sys, name: string, out: Outcome) {
    && name in w.objects && w.objects[name].worker.Idle? && w.objects[name].obj.Some?
    && w.objects[name].obj.value.deleting && w.objects[name].obj.value.finalizer && out.Done?
    && (TunnelID(w).Some? && TunnelID(w) != Some("") ==>
          IsListing(out.listing, w.t.platform.routes, TunnelID(w).value))
  }

  lemma TunnellessRelease(w: Sys, name: string, s: RouteObject, out: Outcome, fuel: nat)
    requires Stands(w, name, Some(s), NeedTunnel(s)) && s.deleting && s.finalizer && out.Done? && fuel >= 2
    requires TunnelID(w).None? || TunnelID(w) == Some("")
    ensures var v := Finish(w, name, out, fuel);
            && v.t == w.t && name in v.objects && v.objects[name].worker.Idle?
            && !(v.objects[name].obj.Some? && v.objects[name].obj.value.finalizer)
  {
    var v := Advance(w, name, out);
    assert Finish(w, name, out, fuel) == Finish(v, name, out, fuel - 1);
    FromRelease(v, name, s, out, fuel - 1);
  }

  lemma WallHolds(w: Sys, name: string, s: RouteObject, tid: string, out: Outcome, fuel: nat)
    requires Stands(w, name, Some(s), NeedTunnel(s)) && s.deleting && s.finalizer && out.Done? && fuel >= 3
    requires TunnelID(w) == Some(tid) && tid != "" && !w.t.credential
    ensures Finish(w, name, out, fuel) == At(w, name, Local(Some(s), Idle))
  {
    var v1 := Advance(w, name, out);
    var v2 := Advance(v1, name, out);
    var v3 := Advance(v2, name, out);
    assert Finish(w, name, out, fuel) == Finish(v1, name, out, fuel - 1) == Finish(v2, name, out, fuel - 2)
           == Finish(v3, name, out, fuel - 3) == v3;
  }

  /** An uninterrupted delete lets the object go if and only if there is no Tunnel object, or no tunnel was recorded, or
      the credential can be read. Without a tunnel the platform is not asked for anything; when it does not let go,
      nothing changes. */
  lemma DeleteReleasesExactlyWhen(w: Sys, name: string, out: Outcome)
    requires Terminating(w, name, out)
    ensures var v := Reconcile(w, name, out);
            && name in v.objects
            && (!(v.objects[name].obj.Some? && v.objects[name].obj.value.finalizer)
                <==> TunnelID(w).None? || TunnelID(w) == Some("") || w.t.credential)
            && (TunnelID(w).None? || TunnelID(w) == Some("") ==> v.t == w.t)
            && (v.objects[name].obj.Some? && v.objects[name].obj.value.finalizer ==> v == w)
  {
    hide Finish, IsListing, Target;
    var s := w.objects[name].obj.value;
    var b := Begun(w, name);
    if TunnelID(w).None? || TunnelID(w) == Some("") {
      TunnellessRelease(b, name, s, out, CALLS);
    } else if w.t.credential {
      FromDeleteStart(b, name, s, TunnelID(w).value, out, CALLS);
    } else {
      WallHolds(b, name, s, TunnelID(w).value, out, CALLS);
      assert w.objects[name := w.objects[name]] == w.objects;
    }
  }

  // ---------------------------------------------------------------- between reconciles

  /** The routes the operator makes are sound. */
  lemma MadeIsSound(w: Sys, name: string, id: string, tid: string)
    requires SysInv(w) && Made(w, name, id) && TunnelID(w) == Some(tid) && tid != "" && TS.Mine(w.t).Some?
    ensures Sound(w, tid, id)
  {
    hide TI.Rest, TS.WorkerOk, TS.StatusOk, TS.Own, ClaimsOk, BooksOk, ObjectsOk;
    SeenTunnel(w, tid);
    assert id in NetOf(w).live;
  }

  /** An edit at any moment between reconciles, followed by an uninterrupted one: a second route is left beside the
      recorded one if and only if some live route is not the recorded one and has another hostname or prefix than
      the new spec. Nothing need have been recorded at all. */
  lemma EditLeavesSecondRouteExactlyWhen(w: Sys, name: string, spec: Spec, tid: string, at: Address, out: Outcome)
    requires SysInv(w) && name in w.objects && w.objects[name].obj.Some? && ValidSpec(spec) && KeyFree(w, name, spec)
    requires Publishable(Edited(w, name, spec), name, tid, at, out) && tid != ""
    ensures var v := Reconcile(Edited(w, name, spec), name, out);
            (exists x :: Unnamed(v, name, x))
            <==> (exists x :: Unnamed(w, name, x) && !SameKey(w.t.platform.routes[x], spec))
  {
    hide SysInv, KeyFree, Publishable, Reconcile, Converged, Sound;
    var d := Edited(w, name, spec);
    PublishableFacts(d, name, tid, at, out);
    if x :| Unnamed(w, name, x) && !SameKey(w.t.platform.routes[x], spec) {
      UnnamedFacts(w, name, x);
      MadeIsSound(w, name, x, tid);
      SoundKey(w, d, tid, x, spec);
      StrandedStaysBeside(d, name, x, tid, at, out);
    } else {
      EditIsAllowed(w, name, spec, tid);
      StepKeepsSysInv(w, Edit(name, spec));
      ConvergesFromInv(d, name, tid, at, out);
      ConvergedNames(d, Reconcile(d, name, out), name, spec, tid, at);
    }
  }

  lemma PublishableFacts(w: Sys, name: string, tid: string, at: Address, out: Outcome)
    requires Publishable(w, name, tid, at, out)
    ensures name in w.objects && w.objects[name].worker.Idle? && w.objects[name].obj.Some?
    ensures !w.objects[name].obj.value.deleting && TunnelID(w) == Some(tid) && TS.Mine(w.t).Some?
  {
  }

  lemma SoundKey(w: Sys, d: Sys, tid: string, x: string, spec: Spec)
    requires Sound(w, tid, x) && d.t == w.t && ValidSpec(spec)
    ensures Sound(d, tid, x)
    ensures SameKey(w.t.platform.routes[x], spec) <==> RouteIdentity(w.t.platform.routes[x]) == SpecIdentity(spec)
  {
    KeyDeterminesIdentity(w.t.platform.routes[x], spec);
  }

  lemma ConvergedNames(w: Sys, v: Sys, name: string, spec: Spec, tid: string, at: Address)
    requires Converged(w, v, name, spec, tid, at)
    ensures forall x :: !Unnamed(v, name, x)
  {
  }

  lemma EditIsAllowed(w: Sys, name: string, spec: Spec, tid: string)
    requires SysInv(w) && name in w.objects && w.objects[name].obj.Some? && w.objects[name].worker.Idle?
    requires ValidSpec(spec) && KeyFree(w, name, spec)
    requires TunnelID(w) == Some(tid) && tid != "" && TS.Mine(w.t).Some?
    requires forall x :: Unnamed(w, name, x) ==> SameKey(w.t.platform.routes[x], spec)
    ensures EditAllowed(w, name, w.objects[name], spec)
  {
    hide SysInv, KeyFree, Sound;
    if x :| Unnamed(w, name, x) {
      UnnamedFacts(w, name, x);
      MadeIsSound(w, name, x, tid);
      SoundKey(w, w, tid, x, spec);
    } else {
      assert forall id :: Made(w, name, id) && id != w.objects[name].obj.value.status.routeID ==> Unnamed(w, name, id);
    }
  }

  /** A delete at any moment between reconciles, with the tunnel there and every call answered, releases the object;
      and it leaves a route behind if and only if the status named another one at that moment. */
  lemma DeleteOrphansExactlyWhen(w: Sys, name: string, tid: string, out: Outcome)
    requires SysInv(w) && name in w.objects && w.objects[name].obj.Some? && TS.Mine(w.t).Some?
    requires Removable(Deleted(w, name), name, tid, out)
    ensures var v := Reconcile(Deleted(w, name), name, out);
            && name in v.objects && !(v.objects[name].obj.Some? && v.objects[name].obj.value.finalizer)
            && ((exists x :: Made(v, name, x))
                <==> w.objects[name].obj.value.status.routeID != "" && exists x :: Unnamed(w, name, x))
  {
    hide SysInv, Finish, IsListing, Target, Made, Unnamed;
    var d := Deleted(w, name);
    var s := d.objects[name].obj.value;
    FromDeleteStart(Begun(d, name), name, s, tid, out, CALLS);
    var v := Reconcile(d, name, out);
    forall id
      ensures Made(v, name, id) <==> Unnamed(w, name, id) && s.status.routeID != ""
    {
      LeftBehind(w, name, tid, out.listing, s, v, id);
    }
  }

  lemma LeftBehind(w: Sys, name: string, tid: string, listing: seq<Listed>, s: RouteObject, v: Sys, id: string)
    requires SysInv(w) && name in w.objects && w.objects[name].obj.Some? && TunnelID(w) == Some(tid) && tid != ""
    requires TS.Mine(w.t).Some? && IsListing(listing, w.t.platform.routes, tid)
    requires s.spec == w.objects[name].obj.value.spec && s.status == w.objects[name].obj.value.status
    requires v.makers == w.makers
    requires v.t == (if Target(s, listing).None? then w.t
                     else w.t.(platform := w.t.platform.DeleteRoute(tid, Target(s, listing).value)))
    ensures Made(v, name, id) <==> Unnamed(w, name, id) && s.status.routeID != ""
  {
    hide TI.Inv, ClaimsOk, BooksOk, WorkerOk, VersionOk, RollupKept, IsListing, FindRoute;
    SeenTunnel(w, tid);
    var n, l := NetOf(w), w.objects[name];
    assert LocalOk(n, w.rv, name, l);
    FindRouteMeans(listing, w.t.platform.routes, tid, "", s.spec);
    if Made(w, name, id) {
      assert Has(n, name, id);
      KeyDeterminesIdentity(n.live[id], s.spec);
      if s.status.routeID == "" {
        var x := FindRoute(listing, "", s.spec).value;
        KeyOrIdIsMade(w, name, x.id);
        assert Has(n, name, x.id);
      }
    }
  }

  // ---------------------------------------------------------------- during a reconcile

  lemma DeleteRoutesOnly(p: Platform, tid: string, id: string)
    requires p.Valid()
    ensures p.DeleteRoute(tid, id).Valid()
  {
  }

  lemma RemoteKeepsValid(w: Sys, name: string, out: Outcome)
    requires name in w.objects && w.t.platform.Valid() && PossibleOutcome(w, w.objects[name], out)
    requires w.objects[name].worker.Replace? || w.objects[name].worker.Create? || w.objects[name].worker.Update?
          || w.objects[name].worker.DeleteRemote?
    ensures Advance(w, name, out).t.platform.Valid()
  {
    hide FailStatus, SuccessStatus, Compare, CreateBody, Updated, IsListing, RoutesOnly;
    var p := w.t.platform;
    match w.objects[name].worker
    case Replace(_, tid, _, id) => DeleteRoutesOnly(p, tid, id);
    case DeleteRemote(_, tid, id) => DeleteRoutesOnly(p, tid, id);
    case Create(s, tid, at) =>
      if !out.Refused? && tid in p.tunnels {
        CreateRoutesOnly(p, out.id, Stored(tid, CreateBody(s.spec, at.host, at.port)));
        OnlyRoutes(p, p.CreateRoute(out.id, Stored(tid, CreateBody(s.spec, at.host, at.port))));
      }
    case Update(_, _, _, id, input) =>
      if id in p.routes {
        UpdateRoutesOnly(p, id, input);
        OnlyRoutes(p, p.(routes := p.routes[id := Updated(p.routes[id], input)]));
      }
  }

  lemma OnlyRoutes(p: Platform, q: Platform)
    requires RoutesOnly(p, q)
    ensures q.Valid()
  {
  }

  lemma AdvanceKeepsValid(w: Sys, name: string, out: Outcome)
    requires name in w.objects && !w.objects[name].worker.Idle? && PossibleOutcome(w, w.objects[name], out)
    requires w.t.platform.Valid()
    ensures Advance(w, name, out).t.platform.Valid()
  {
    hide NextAfterRead, AfterFinalizer, Current, PossibleOutcome, GoReplace, GoCreate, GoUpdate, GoDeleteRemote;
    match w.objects[name].worker
    case Replace(_, _, _, _) => RemoteKeepsValid(w, name, out);
    case Create(_, _, _) => RemoteKeepsValid(w, name, out);
    case Update(_, _, _, _, _) => RemoteKeepsValid(w, name, out);
    case DeleteRemote(_, _, _) => RemoteKeepsValid(w, name, out);
    case _ =>
  }

  lemma {:induction false} FinishKeepsValid(w: Sys, name: string, out: Outcome, fuel: nat)
    requires w.t.platform.Valid() && Proceeds(w, name, out, fuel)
    ensures Finish(w, name, out, fuel).t.platform.Valid()
    decreases fuel
  {
    hide Advance, PossibleOutcome;
    if fuel > 0 && name in w.objects && !w.objects[name].worker.Idle? {
      AdvanceKeepsValid(w, name, out);
      FinishKeepsValid(Advance(w, name, out), name, out, fuel - 1);
    }
  }

  /** The reconcile in flight may make a route, its calls are answered, and so far every route is recorded: a
      replacement is the typical case. */
  ghost predicate MidReconcile(w: Sys, name: string, tid: string, out: Outcome) {
    && SysInv(w) && Answered(w, name, tid, out) && MayCreate(w, w.objects[name]) && w.objects[name].obj.Some?
    && forall id :: !Unnamed(w, name, id)
  }

  lemma NewIsSound(w: Sys, d: Sys, name: string, tid: string, out: Outcome, o: RouteObject)
    requires MidReconcile(w, name, tid, out) && d == Put(w, name, o, w.objects[name].worker)
    ensures var v := Finish(d, name, out, CALLS);
            && Sound(v, tid, out.id) && Stands(v, name, Some(o.(rv := w.rv + 1)), Idle)
            && TunnelID(v) == Some(tid) && v.t.credential == w.t.credential
  {
    hide SysInv, Finish, Proceeds, MayCreate, Unnamed, IsListing, Resolve;
    OvertakenLeavesNew(w, d, name, tid, out, o);
    MayCreateIsHeading(w, w.objects[name]);
    ReadIsValid(w, name);
    FinishKeepsValid(d, name, out, CALLS);
    SeenTunnel(w, tid);
  }

  lemma ReadIsValid(w: Sys, name: string)
    requires SysInv(w) && name in w.objects && Heading(w.objects[name].worker)
    ensures ValidSpec(w.objects[name].worker.s.spec) && w.t.platform.Valid()
  {
    hide TI.Rest, TS.WorkerOk, TS.StatusOk, TS.Own, ClaimsOk, NetOk, BooksOk, ObjectOk, VersionOk, RollupKept;
    var n, l := NetOf(w), w.objects[name];
    assert LocalOk(n, w.rv, name, l);
    HeadingSnapshot(n, name, l);
  }

  /** An identity edit that falls into such a reconcile, although the status names the live route: the reconcile ends
      unable to record what it made, and the next one publishes a second route. */
  lemma EditDuringReconcileLeavesTwo(w: Sys, v: Sys, name: string, spec: Spec, tid: string, out: Outcome,
                                     at: Address, again: Outcome)
    requires MidReconcile(w, name, tid, out) && !w.objects[name].obj.value.deleting && ValidSpec(spec)
    requires SpecIdentity(spec) != SpecIdentity(w.objects[name].obj.value.spec)
    requires v == Finish(Edited(w, name, spec), name, out, CALLS) && Publishable(v, name, tid, at, again)
    ensures var u := Reconcile(v, name, again);
            && Unnamed(u, name, out.id) && InTunnel(u, out.id)
            && InTunnel(u, u.objects[name].obj.value.status.routeID)
  {
    hide SysInv, Finish, Reconcile, MayCreate, Unnamed, IsListing, Resolve, Sound, Proceeds;
    var o := w.objects[name].obj.value;
    NewIsSound(w, Edited(w, name, spec), name, tid, out, o.(spec := spec, generation := o.generation + 1));
    EditedMayCreate(w, name, spec, tid, out);
    StrandedStaysBeside(v, name, out.id, tid, at, again);
  }

  /** A delete that falls into such a reconcile of an object that recorded a route: the next one releases the object
      and the route stays. */
  lemma DeleteDuringReconcileOrphans(w: Sys, v: Sys, name: string, tid: string, out: Outcome, again: Outcome)
    requires MidReconcile(w, name, tid, out) && w.objects[name].obj.value.status.routeID != ""
    requires v == Finish(Deleted(w, name), name, out, CALLS) && Removable(v, name, tid, again)
    ensures var u := Reconcile(v, name, again);
            && name in u.objects && !(u.objects[name].obj.Some? && u.objects[name].obj.value.finalizer)
            && Made(u, name, out.id)
  {
    hide SysInv, Finish, Reconcile, MayCreate, Unnamed, IsListing, Resolve, Sound, Proceeds;
    var o := w.objects[name].obj.value;
    MayCreateIsHeading(w, w.objects[name]);
    HeadingHolds(w, name);
    StoredIsValid(w, name);
    NewIsSound(w, Deleted(w, name), name, tid, out, o.(deleting := true));
    DeletedMayCreate(w, name, tid, out);
    StrandedStaysBehind(v, name, out.id, tid, again);
  }

  lemma StoredIsValid(w: Sys, name: string)
    requires SysInv(w) && name in w.objects && w.objects[name].obj.Some?
    ensures ValidSpec(w.objects[name].obj.value.spec)
  {
    hide TI.Inv, ClaimsOk, NetOk, BooksOk, WorkerOk, VersionOk, RollupKept;
    assert LocalOk(NetOf(w), w.rv, name, w.objects[name]);
  }
}
