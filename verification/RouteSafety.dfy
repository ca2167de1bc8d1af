/** What every interleaving of route reconciles, tunnel reconciles, crashes, lost answers, edits and deletes
    keeps, for any number of route objects on one tunnel. */
module RouteSafety {
  import opened Base
  import opened Errors
  import opened Platform
  import opened RouteSpec
  import opened Upstream
  import opened RouteMachine

  /** All that one route object's reconcile can see of the others: the live routes the operator made, who
      they were made for, the tunnel they are in, and whether the operator deleted that tunnel. */
  datatype Net = Net(
    live: map<string, PRoute>, makers: map<string, string>, tunnel: Option<string>, dead: bool)

  function NetOf(w: Sys): Net {
    Net(map id | id in w.makers && id in w.t.platform.routes :: w.t.platform.routes[id],
        w.makers, w.t.platform.Find(w.t.uid), w.t.log.deleted == 1)
  }

  /** `id` names a live route made for `name`. */
  predicate Has(n: Net, name: string, id: string) {
    id in n.live && id in n.makers && n.makers[id] == name
  }

  /** `id` was minted for `name`, whether or not it is still live. */
  predicate OwnId(n: Net, name: string, id: string) {
    id in n.makers && n.makers[id] == name
  }

  ghost predicate NetOk(n: Net) {
    && "" !in n.makers
    && (forall id :: id in n.live ==>
          id in n.makers && n.tunnel == Some(n.live[id].tunnelID) && WellTyped(n.live[id]))
    && (n.dead ==> n.tunnel.None?)
    && (forall id :: id in n.makers ==> n.tunnel.Some? || n.dead)
  }

  // ---------------------------------------------------------------- one object

  /** Resource versions are never reused: a copy at the current version is the object itself. */
  ghost predicate VersionOk(rv: nat, l: Local) {
    && (l.obj.Some? ==> l.obj.value.rv <= rv)
    && (!l.worker.Idle? ==> l.worker.s.rv <= rv && (Current(l, l.worker.s) ==> l.obj.value == l.worker.s))
  }

  ghost predicate SnapshotOk(n: Net, name: string, s: RouteObject) {
    ValidSpec(s.spec) && (s.status.routeID != "" ==> OwnId(n, name, s.status.routeID))
  }

  /** The object still is what the worker read, up to what users may do to it meanwhile. */
  ghost predicate Held(l: Local, s: RouteObject) {
    && l.obj.Some? && l.obj.value.finalizer && s.finalizer && l.obj.value.status == s.status
    && (s.deleting ==> l.obj.value.deleting)
  }

  /** A delete path that has to look for the route looks by the object's own hostname and prefix. */
  ghost predicate SearchesOwn(n: Net, l: Local, s: RouteObject) {
    !n.dead && l.obj.Some? && s.deleting && s.finalizer && s.status.routeID == "" ==>
      SpecIdentity(s.spec) == SpecIdentity(l.obj.value.spec)
  }

  /** As far as a reconcile can see, the delete path will still look for the route. */
  predicate NetSearching(n: Net, worker: Worker) {
    && ((worker.NeedTunnel? && worker.s.deleting) || worker.DeleteTunnelRead? || worker.DeleteClient?
        || worker.DeleteList?)
    && worker.s.status.routeID == "" && worker.s.finalizer && !n.dead
  }

  /** The worker's identity is the object's, or that of the live route (an edit came after the read). */
  ghost predicate IdentityKnown(n: Net, l: Local, s: RouteObject) {
    || n.dead || l.obj.None?
    || SpecIdentity(s.spec) == SpecIdentity(l.obj.value.spec)
    || (s.status.routeID in n.live && RouteIdentity(n.live[s.status.routeID]) == SpecIdentity(s.spec))
  }

  /** An object deleted under a running reconcile recorded a route that the reconcile will not replace. */
  ghost predicate NotOvertaken(n: Net, l: Local, s: RouteObject) {
    l.obj.Some? && l.obj.value.deleting && !n.dead && s.status.routeID != "" ==>
      && s.status.routeID in n.live
      && RouteIdentity(n.live[s.status.routeID]) == SpecIdentity(s.spec)
  }

  ghost predicate Unfinalized(l: Local, s: RouteObject) {
    !s.finalizer && (l.obj.Some? ==> !l.obj.value.finalizer && l.obj.value.status == s.status)
  }

  /** On the main path, whatever users did to the object meanwhile. */
  ghost predicate Holding(n: Net, name: string, l: Local, s: RouteObject) {
    SnapshotOk(n, name, s) && Held(l, s) && !s.deleting
  }

  /** On its way to the lookup and beyond, to the point where a route is made. */
  ghost predicate Working(n: Net, name: string, l: Local, s: RouteObject) {
    Holding(n, name, l, s) && IdentityKnown(n, l, s) && NotOvertaken(n, l, s)
  }

  ghost predicate Removing(n: Net, name: string, l: Local, s: RouteObject) {
    SnapshotOk(n, name, s) && Held(l, s) && s.deleting
  }

  ghost predicate TidOk(n: Net, tid: string) {
    tid != "" && (n.dead || n.tunnel == Some(tid))
  }

  ghost predicate WorkerOk(n: Net, name: string, l: Local) {
    match l.worker
    case Idle => true
    case NeedTunnel(s) =>
      && SnapshotOk(n, name, s) && (Held(l, s) || Unfinalized(l, s))
      && SearchesOwn(n, l, s) && (!s.deleting && s.finalizer ==> IdentityKnown(n, l, s) && NotOvertaken(n, l, s))
    case AddFinalizer(s, tid) =>
      SnapshotOk(n, name, s) && Unfinalized(l, s) && !s.deleting && (tid != "" ==> TidOk(n, tid))
    case NeedUpstream(s, tid) => Working(n, name, l, s) && TidOk(n, tid)
    case NeedClient(s, tid, _) => Working(n, name, l, s) && TidOk(n, tid)
    case List(s, tid, _) => Working(n, name, l, s) && TidOk(n, tid)
    case Replace(s, tid, _, id) =>
      && Working(n, name, l, s) && TidOk(n, tid) && OwnId(n, name, id)
      && (!n.dead ==>
            && id == s.status.routeID && !l.obj.value.deleting
            && SpecIdentity(s.spec) == SpecIdentity(l.obj.value.spec)
            && id in n.live && RouteIdentity(n.live[id]) != SpecIdentity(s.spec))
    case Create(s, tid, _) =>
      && Working(n, name, l, s) && TidOk(n, tid)
      && (!n.dead ==>
            && (forall id :: !Has(n, name, id))
            && SpecIdentity(s.spec) == SpecIdentity(l.obj.value.spec)
            && (s.status.routeID != "" ==> !l.obj.value.deleting))
    case Update(s, tid, _, id, _) =>
      && Holding(n, name, l, s) && TidOk(n, tid) && OwnId(n, name, id) && (!n.dead ==> id in n.live)
    case WriteStatus(s, next) =>
      && SnapshotOk(n, name, s) && !s.deleting && (Held(l, s) || Unfinalized(l, s))
      && (next.routeID != s.status.routeID ==> OwnId(n, name, next.routeID) && (!n.dead ==> next.routeID in n.live))
    case DeleteTunnelRead(s, tid) => Removing(n, name, l, s) && SearchesOwn(n, l, s) && TidOk(n, tid)
    case DeleteClient(s, tid) => Removing(n, name, l, s) && SearchesOwn(n, l, s) && TidOk(n, tid)
    case DeleteList(s, tid) =>
      Removing(n, name, l, s) && SearchesOwn(n, l, s) && TidOk(n, tid) && s.status.routeID == ""
    case DeleteRemote(s, tid, id) =>
      && Removing(n, name, l, s) && TidOk(n, tid) && OwnId(n, name, id)
      && (forall x :: Has(n, name, x) ==> x == id)
    case Release(s) => Removing(n, name, l, s) && (forall x :: !Has(n, name, x))
  }

  ghost predicate ObjectOk(n: Net, name: string, l: Local) {
    && (l.obj.Some? ==>
          && ValidSpec(l.obj.value.spec)
          && (l.obj.value.status.routeID != "" ==> OwnId(n, name, l.obj.value.status.routeID)))
    && (forall id :: Has(n, name, id) ==>
          && l.obj.Some? && l.obj.value.finalizer
          && (l.obj.value.status.routeID != id ==>
                && RouteIdentity(n.live[id]) == SpecIdentity(l.obj.value.spec)
                && (l.obj.value.status.routeID != "" ==> !l.obj.value.deleting)))
    && (forall id, id' :: Has(n, name, id) && Has(n, name, id') ==> id == id')
  }

  /** In every persisted status Ready is exactly Resolved and Synced, and then the whole status is about one
      generation. */
  predicate RollupOk(st: RouteStatus) {
    && (st.ready.True() <==> st.resolved.True() && st.synced.True())
    && (st.ready.True() ==>
          && st.ready.generation == st.observedGeneration
          && st.resolved.generation == st.observedGeneration
          && st.synced.generation == st.observedGeneration)
  }

  ghost predicate RollupKept(l: Local) {
    && (l.obj.Some? ==> RollupOk(l.obj.value.status))
    && (!l.worker.Idle? ==> RollupOk(l.worker.s.status))
    && (l.worker.WriteStatus? ==> RollupOk(l.worker.next))
  }

  ghost predicate LocalOk(n: Net, rv: nat, name: string, l: Local) {
    VersionOk(rv, l) && ObjectOk(n, name, l) && WorkerOk(n, name, l) && RollupKept(l)
  }

  // ---------------------------------------------------------------- what one object does to the rest

  /** Only routes made for `name` differ. */
  ghost predicate Touches(n: Net, m: Net, name: string) {
    && m.tunnel == n.tunnel && m.dead == n.dead
    && (forall id :: id in n.makers ==> id in m.makers && m.makers[id] == n.makers[id])
    && (forall id :: id in m.makers && id !in n.makers ==> m.makers[id] == name && id !in n.live)
    && (forall id :: id in n.live && !Has(n, name, id) ==> id in m.live && m.live[id] == n.live[id])
    && (forall id :: id in m.live && !Has(m, name, id) ==> id in n.live && m.live[id] == n.live[id])
  }

  lemma TouchesKeepsHas(n: Net, m: Net, name: string, other: string, id: string)
    requires Touches(n, m, name) && NetOk(n) && NetOk(m) && other != name
    ensures Has(n, other, id) <==> Has(m, other, id)
    ensures Has(n, other, id) ==> n.live[id] == m.live[id]
    ensures OwnId(n, other, id) ==> OwnId(m, other, id)
  {
  }

  /** Nothing another object does disturbs this one. */
  lemma TouchesKeepsLocal(n: Net, m: Net, rv: nat, name: string, other: string, l: Local)
    requires Touches(n, m, name) && NetOk(n) && NetOk(m) && other != name && LocalOk(n, rv, other, l)
    ensures LocalOk(m, rv, other, l)
  {
    TouchesKeepsObject(n, m, name, other, l);
    TouchesKeepsWorker(n, m, name, other, l);
  }

  lemma TouchesKeepsObject(n: Net, m: Net, name: string, other: string, l: Local)
    requires Touches(n, m, name) && NetOk(n) && NetOk(m) && other != name && ObjectOk(n, other, l)
    ensures ObjectOk(m, other, l)
  {
    forall id
      ensures Has(n, other, id) <==> Has(m, other, id)
      ensures Has(n, other, id) ==> n.live[id] == m.live[id]
      ensures OwnId(n, other, id) ==> OwnId(m, other, id)
    {
      TouchesKeepsHas(n, m, name, other, id);
    }
  }

  lemma TouchesKeepsWorker(n: Net, m: Net, name: string, other: string, l: Local)
    requires Touches(n, m, name) && NetOk(n) && NetOk(m) && other != name && WorkerOk(n, other, l)
    ensures WorkerOk(m, other, l)
  {
    forall id
      ensures Has(n, other, id) <==> Has(m, other, id)
      ensures Has(n, other, id) ==> n.live[id] == m.live[id]
      ensures OwnId(n, other, id) ==> OwnId(m, other, id)
    {
      TouchesKeepsHas(n, m, name, other, id);
    }
  }

  // ---------------------------------------------------------------- the steps that only read

  lemma CloseRollup(s: RouteObject, st: RouteStatus, synced: bool, reason: Reason)
    requires synced ==> st.resolved == Condition(true, Resolved, s.generation)
    ensures RollupOk(Close(s, st, synced, reason))
  {
  }

  /** A reconcile that goes to its status write with nothing new to record. */
  lemma ToWriteStatus(n: Net, rv: nat, name: string, l: Local, s: RouteObject, next: RouteStatus)
    requires LocalOk(n, rv, name, l) && !l.worker.Idle? && l.worker.s == s
    requires SnapshotOk(n, name, s) && !s.deleting && (Held(l, s) || Unfinalized(l, s)) && RollupOk(s.status)
    requires next.routeID == s.status.routeID && RollupOk(next)
    ensures LocalOk(n, rv, name, l.(worker := WriteStatus(s, next)))
  {
  }

  lemma BeginKeepsLocal(n: Net, rv: nat, name: string, l: Local)
    requires LocalOk(n, rv, name, l) && l.worker.Idle?
    ensures LocalOk(n, rv, name, l.(worker := Start(l)))
  {
  }

  lemma StopKeepsLocal(n: Net, rv: nat, name: string, l: Local)
    requires LocalOk(n, rv, name, l)
    ensures LocalOk(n, rv, name, l.(worker := Idle))
  {
  }

  /** What a read of the Tunnel object tells about the routes. */
  ghost predicate ViewOk(w: Sys, n: Net) {
    match TunnelID(w)
    case None => n.live == map[]
    case Some(tid) => if tid == "" then n.live == map[] else TidOk(n, tid)
  }

  lemma NeedTunnelKeepsLocal(w: Sys, n: Net, rv: nat, name: string, l: Local, s: RouteObject)
    requires LocalOk(n, rv, name, l) && l.worker == NeedTunnel(s) && ViewOk(w, n)
    ensures LocalOk(n, rv, name, l.(worker := NextAfterTunnel(s, TunnelID(w))))
  {
    if !s.deleting {
      CloseRollup(s, s.status, false, TunnelNotFound);
      CloseRollup(s, s.status, false, TunnelNotReady);
    }
  }

  lemma NeedUpstreamKeepsLocal(w: Sys, n: Net, rv: nat, name: string, l: Local, s: RouteObject, tid: string,
                               out: Outcome)
    requires LocalOk(n, rv, name, l) && l.worker == NeedUpstream(s, tid)
    ensures LocalOk(n, rv, name, l.(worker := NextAfterRead(w, l, out)))
  {
    CloseRollup(s, s.status.(resolved := Condition(false, UpstreamUnresolved, s.generation)), false,
                UpstreamUnresolved);
    ToWriteStatus(n, rv, name, l, s, UnresolvedStatus(s));
  }

  lemma NeedClientKeepsLocal(w: Sys, n: Net, rv: nat, name: string, l: Local, s: RouteObject, tid: string,
                             at: Address, out: Outcome)
    requires LocalOk(n, rv, name, l) && l.worker == NeedClient(s, tid, at)
    ensures LocalOk(n, rv, name, l.(worker := NextAfterRead(w, l, out)))
  {
    CloseRollup(s, ResolvedStatus(s), false, CredentialUnreadable);
    ToWriteStatus(n, rv, name, l, s, Close(s, ResolvedStatus(s), false, CredentialUnreadable));
  }

  lemma FailKeepsLocal(n: Net, rv: nat, name: string, l: Local, s: RouteObject, err: Error)
    requires VersionOk(rv, l) && !l.worker.Idle? && l.worker.s == s
    requires ObjectOk(n, name, l) && RollupKept(l.(worker := Idle)) && Holding(n, name, l, s) && RollupOk(s.status)
    ensures LocalOk(n, rv, name, l.(worker := WriteStatus(s, FailStatus(s, err))))
  {
    CloseRollup(s, ResolvedStatus(s), false, Classify(err).reason);
  }

  /** What the lookup in a listing means for the routes the operator made. */
  ghost predicate FoundMeans(n: Net, routeID: string, spec: Spec, found: Option<Listed>) {
    if n.dead then found.None?
    else if routeID != "" && routeID in n.live then found == Some(Listed(routeID, n.live[routeID]))
    else match found
      case None => forall id :: id in n.live ==> !SameKey(n.live[id], spec)
      case Some(x) => x.id in n.live && n.live[x.id] == x.route && SameKey(x.route, spec)
  }

  /** No route made for another object has the key of this object. */
  ghost predicate KeyOwned(n: Net, name: string, l: Local) {
    l.obj.Some? ==> forall id :: id in n.live && SameKey(n.live[id], l.obj.value.spec) ==> Has(n, name, id)
  }

  /** A route found by hostname and prefix never has a changed identity: a lost create is adopted, never
      replaced. */
  lemma FallbackNeverReplaces(n: Net, name: string, l: Local, s: RouteObject, x: Listed)
    requires NetOk(n) && Working(n, name, l, s) && FoundMeans(n, s.status.routeID, s.spec, Some(x))
    requires x.id != s.status.routeID
    ensures !IdentityChanged(x.route, s.spec)
  {
    KeyDeterminesIdentity(x.route, s.spec);
  }

  lemma CompareKeepsLocal(n: Net, rv: nat, name: string, l: Local, s: RouteObject, tid: string, at: Address,
                          id: string, route: PRoute)
    requires VersionOk(rv, l) && !l.worker.Idle? && l.worker.s == s
    requires ObjectOk(n, name, l) && RollupKept(l.(worker := Idle)) && Holding(n, name, l, s) && TidOk(n, tid)
    requires RollupOk(s.status) && OwnId(n, name, id) && (!n.dead ==> id in n.live)
    ensures LocalOk(n, rv, name, l.(worker := Compare(s, tid, at, id, route)))
  {
    CloseRollup(s, ResolvedStatus(s).(routeID := id, tunnelID := tid, upstream := Some(at)), true, Synced);
  }

  lemma ListFoundKeepsLocal(n: Net, rv: nat, name: string, l: Local, s: RouteObject, tid: string, at: Address,
                            x: Listed)
    requires NetOk(n) && LocalOk(n, rv, name, l) && l.worker == List(s, tid, at) && KeyOwned(n, name, l)
    requires FoundMeans(n, s.status.routeID, s.spec, Some(x))
    ensures LocalOk(n, rv, name, l.(worker := if IdentityChanged(x.route, s.spec) then Replace(s, tid, at, x.id)
                                          else Compare(s, tid, at, x.id, x.route)))
  {
    KeyDeterminesIdentity(x.route, s.spec);
    if x.id != s.status.routeID {
      FallbackNeverReplaces(n, name, l, s, x);
      assert SameKey(x.route, l.obj.value.spec);
    }
    assert Has(n, name, x.id);
    if !IdentityChanged(x.route, s.spec) {
      CompareKeepsLocal(n, rv, name, l, s, tid, at, x.id, x.route);
    }
  }

  lemma ListNoneKeepsLocal(n: Net, rv: nat, name: string, l: Local, s: RouteObject, tid: string, at: Address)
    requires NetOk(n) && LocalOk(n, rv, name, l) && l.worker == List(s, tid, at)
    requires FoundMeans(n, s.status.routeID, s.spec, None)
    ensures LocalOk(n, rv, name, l.(worker := Create(s, tid, at)))
  {
    if !n.dead {
      forall id
        ensures !Has(n, name, id)
      {
        if Has(n, name, id) {
          KeyDeterminesIdentity(n.live[id], s.spec);
        }
      }
    }
  }

  lemma DeleteListKeepsLocal(n: Net, rv: nat, name: string, l: Local, s: RouteObject, tid: string,
                             found: Option<Listed>)
    requires NetOk(n) && LocalOk(n, rv, name, l) && l.worker == DeleteList(s, tid) && KeyOwned(n, name, l)
    requires FoundMeans(n, s.status.routeID, s.spec, found)
    ensures LocalOk(n, rv, name, l.(worker := if found.None? then Release(s) else DeleteRemote(s, tid, found.value.id)))
  {
    forall id | Has(n, name, id)
      ensures SameKey(n.live[id], s.spec)
    {
      KeyDeterminesIdentity(n.live[id], s.spec);
    }
  }

  // ---------------------------------------------------------------- the steps that write

  /** Writing the object at a new resource version, everything else being the same. */
  lemma WriteKeepsObject(n: Net, rv: nat, name: string, l: Local, o: RouteObject, worker: Worker)
    requires ObjectOk(n, name, l) && l.obj.Some? && ValidSpec(o.spec)
    requires o.status.routeID == l.obj.value.status.routeID && SpecIdentity(o.spec) == SpecIdentity(l.obj.value.spec)
    requires l.obj.value.finalizer ==> o.finalizer
    requires o.deleting == l.obj.value.deleting
    ensures ObjectOk(n, name, Local(Some(o.(rv := rv + 1)), worker))
  {
  }

  lemma AddFinalizerKeepsLocal(n: Net, rv: nat, name: string, l: Local, s: RouteObject, tid: string, worker: Worker)
    requires LocalOk(n, rv, name, l) && l.worker == AddFinalizer(s, tid) && Current(l, s)
    requires worker == Idle || worker == AfterFinalizer(s.(finalizer := true, rv := rv + 1), tid)
    ensures LocalOk(n, rv + 1, name, Local(Some(s.(finalizer := true, rv := rv + 1)), worker))
  {
    WriteKeepsObject(n, rv, name, l, s.(finalizer := true), worker);
    CloseRollup(s.(finalizer := true, rv := rv + 1), s.status, false, TunnelNotReady);
  }

  /** The object after its recorded id became that of the one live route, or stayed the same. */
  lemma WriteStatusKeepsLocal(n: Net, rv: nat, name: string, l: Local, s: RouteObject, next: RouteStatus)
    requires NetOk(n) && LocalOk(n, rv, name, l) && l.worker == WriteStatus(s, next) && Current(l, s)
    ensures LocalOk(n, rv + 1, name, Local(Some(s.(status := next, rv := rv + 1)), Idle))
  {
    if next.routeID != s.status.routeID && !n.dead {
      assert Has(n, name, next.routeID);
    }
  }

  /** Deleting one's own route. */
  ghost predicate Removed(n: Net, m: Net, name: string, id: string) {
    m == n.(live := m.live) && OwnId(n, name, id)
    && (forall x :: x in m.live <==> x in n.live && x != id)
    && (forall x :: x in m.live ==> m.live[x] == n.live[x])
  }

  lemma RemovedTouches(n: Net, m: Net, name: string, id: string)
    requires NetOk(n) && Removed(n, m, name, id)
    ensures NetOk(m) && Touches(n, m, name)
    ensures forall x :: Has(m, name, x) <==> Has(n, name, x) && x != id
  {
  }

  lemma ReplaceKeepsLocal(n: Net, m: Net, rv: nat, name: string, l: Local, s: RouteObject, tid: string, at: Address,
                          id: string)
    requires NetOk(n) && LocalOk(n, rv, name, l) && l.worker == Replace(s, tid, at, id) && !n.dead
    requires Removed(n, m, name, id)
    ensures LocalOk(m, rv, name, l.(worker := Create(s, tid, at)))
    ensures ObjectOk(m, name, l) && Working(m, name, l, s)
  {
    RemovedTouches(n, m, name, id);
  }

  lemma DeleteRemoteKeepsLocal(n: Net, m: Net, rv: nat, name: string, l: Local, s: RouteObject, tid: string, id: string)
    requires NetOk(n) && LocalOk(n, rv, name, l) && l.worker == DeleteRemote(s, tid, id)
    requires Removed(n, m, name, id)
    ensures LocalOk(m, rv, name, l.(worker := Release(s)))
    ensures LocalOk(m, rv, name, l.(worker := Idle))
  {
    RemovedTouches(n, m, name, id);
  }

  /** A new route for `name`. */
  ghost predicate Added(n: Net, m: Net, name: string, id: string, route: PRoute) {
    && id != "" && id !in n.makers && id !in n.live
    && m == n.(live := n.live[id := route], makers := n.makers[id := name])
  }

  lemma AddedTouches(n: Net, m: Net, name: string, id: string, route: PRoute)
    requires NetOk(n) && Added(n, m, name, id, route) && n.tunnel == Some(route.tunnelID) && WellTyped(route)
    ensures NetOk(m) && Touches(n, m, name)
    ensures forall x :: Has(m, name, x) <==> Has(n, name, x) || x == id
  {
  }

  lemma CreateKeepsLocal(n: Net, m: Net, rv: nat, name: string, l: Local, s: RouteObject, tid: string, at: Address,
                         id: string)
    requires NetOk(n) && LocalOk(n, rv, name, l) && l.worker == Create(s, tid, at) && !n.dead
    requires Added(n, m, name, id, Stored(tid, CreateBody(s.spec, at.host, at.port)))
    ensures NetOk(m) && Touches(n, m, name)
    ensures ObjectOk(m, name, l) && Working(m, name, l, s) && OwnId(m, name, id) && TidOk(m, tid)
    ensures SameKey(m.live[id], l.obj.value.spec)
  {
    AddedTouches(n, m, name, id, Stored(tid, CreateBody(s.spec, at.host, at.port)));
  }

  /** Updating one's own route: nothing of its identity changes. */
  ghost predicate Changed(n: Net, m: Net, name: string, id: string) {
    && Has(n, name, id) && m == n.(live := m.live) && m.live.Keys == n.live.Keys
    && (forall x :: x in m.live && x != id ==> m.live[x] == n.live[x])
    && RouteIdentity(m.live[id]) == RouteIdentity(n.live[id]) && m.live[id].tunnelID == n.live[id].tunnelID
  }

  lemma UpdateKeepsLocal(n: Net, m: Net, rv: nat, name: string, l: Local, s: RouteObject, id: string)
    requires NetOk(n) && LocalOk(n, rv, name, l) && l.worker.Update? && l.worker.s == s && l.worker.id == id
    requires Changed(n, m, name, id)
    ensures NetOk(m) && Touches(n, m, name)
    ensures ObjectOk(m, name, l) && Holding(m, name, l, s) && OwnId(m, name, id)
  {
    assert forall x :: Has(m, name, x) <==> Has(n, name, x);
  }

  lemma SuccessKeepsLocal(n: Net, rv: nat, name: string, l: Local, s: RouteObject, tid: string, at: Address, id: string)
    requires VersionOk(rv, l) && !l.worker.Idle? && l.worker.s == s
    requires ObjectOk(n, name, l) && RollupKept(l.(worker := Idle)) && Holding(n, name, l, s) && RollupOk(s.status)
    requires OwnId(n, name, id) && (!n.dead ==> id in n.live)
    ensures LocalOk(n, rv, name, l.(worker := WriteStatus(s, SuccessStatus(s, tid, at, id))))
  {
    CloseRollup(s, ResolvedStatus(s).(routeID := id, tunnelID := tid, upstream := Some(at)), true, Synced);
  }

  lemma ReleaseKeepsLocal(n: Net, rv: nat, name: string, l: Local, s: RouteObject)
    requires LocalOk(n, rv, name, l) && l.worker == Release(s) && Current(l, s)
    ensures LocalOk(n, rv + 1, name, Local(Some(s.(finalizer := false, rv := rv + 1)), Idle))
    ensures LocalOk(n, rv, name, Local(None, Idle))
  {
  }

  // ---------------------------------------------------------------- what users do to the object

  lemma ForeignKeepsLocal(n: Net, rv: nat, name: string, l: Local, present: bool)
    requires LocalOk(n, rv, name, l) && l.obj.Some?
    ensures LocalOk(n, rv + 1, name, Local(Some(l.obj.value.(foreign := present, rv := rv + 1)), l.worker))
  {
  }

  /** A deleting object without any finalizer has no route, so it may disappear. */
  lemma GoneKeepsLocal(n: Net, rv: nat, name: string, l: Local)
    requires LocalOk(n, rv, name, l) && l.obj.Some? && !l.obj.value.finalizer
    ensures LocalOk(n, rv, name, Local(None, l.worker))
  {
  }

  /** The two guards on users, as far as one object's reconcile can see. */
  ghost predicate NetSettled(n: Net, name: string, l: Local) {
    || n.dead
    || (&& l.obj.Some?
        && (forall id :: Has(n, name, id) ==> id == l.obj.value.status.routeID)
        && (Heading(l.worker) ==>
              && l.worker.s.status.routeID in n.live
              && RouteIdentity(n.live[l.worker.s.status.routeID]) == SpecIdentity(l.worker.s.spec)))
  }

  lemma UserDeleteKeepsLocal(n: Net, rv: nat, name: string, l: Local)
    requires NetOk(n) && LocalOk(n, rv, name, l) && l.obj.Some?
    requires l.obj.value.deleting || l.obj.value.status.routeID == "" || NetSettled(n, name, l)
    ensures LocalOk(n, rv + 1, name, Local(Some(l.obj.value.(deleting := true, rv := rv + 1)), l.worker))
  {
    if NetSettled(n, name, l) && !n.dead && Heading(l.worker) {
      RecordedIsOwn(n, name, l);
    }
  }

  lemma RecordedIsOwn(n: Net, name: string, l: Local)
    requires NetOk(n) && WorkerOk(n, name, l) && Heading(l.worker) && l.worker.s.status.routeID in n.live
    ensures Has(n, name, l.worker.s.status.routeID)
  {
  }

  lemma EditKeepsLocal(n: Net, rv: nat, name: string, l: Local, spec: Spec)
    requires NetOk(n) && LocalOk(n, rv, name, l) && l.obj.Some? && ValidSpec(spec)
    requires || SpecIdentity(spec) == SpecIdentity(l.obj.value.spec)
             || (NetSettled(n, name, l) && !NetSearching(n, l.worker))
    ensures LocalOk(n, rv + 1, name,
                    Local(Some(l.obj.value.(spec := spec, generation := l.obj.value.generation + 1, rv := rv + 1)),
                          l.worker))
  {
    if NetSettled(n, name, l) && !n.dead && Heading(l.worker) {
      RecordedIsOwn(n, name, l);
    }
  }
}
