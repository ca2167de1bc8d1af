/** internal/controller/tunnelroute_controller.go as a machine of micro-steps, composed with the tunnel
    machine: one Tunnel object, any number of TunnelRoute objects that refer to it, and the platform they
    share. The same standing assumptions as for the tunnel machine hold for every route object, and only
    the operator writes routes into the tunnel. */
module RouteMachine {
  import opened Base
  import opened Errors
  import opened Platform
  import opened RouteSpec
  import opened Upstream
  import Tun = TunnelMachine

  datatype RouteStatus = RouteStatus(
    routeID: string, tunnelID: string, upstream: Option<Address>, observedGeneration: nat,
    resolved: Condition, synced: Condition, ready: Condition)

  datatype RouteObject = RouteObject(
    rv: nat, generation: nat, deleting: bool, finalizer: bool, foreign: bool, spec: Spec, status: RouteStatus)

  /** `tid` is the tunnel id read from the Tunnel object, `at` the resolved upstream. */
  datatype Worker =
    | Idle
    | NeedTunnel(s: RouteObject)
    | AddFinalizer(s: RouteObject, tid: string)
    | NeedUpstream(s: RouteObject, tid: string)
    | NeedClient(s: RouteObject, tid: string, at: Address)
    | List(s: RouteObject, tid: string, at: Address)
    | Replace(s: RouteObject, tid: string, at: Address, id: string)
    | Create(s: RouteObject, tid: string, at: Address)
    | Update(s: RouteObject, tid: string, at: Address, id: string, input: UpdateInput)
    | WriteStatus(s: RouteObject, next: RouteStatus)
    | DeleteTunnelRead(s: RouteObject, tid: string)
    | DeleteClient(s: RouteObject, tid: string)
    | DeleteList(s: RouteObject, tid: string)
    | DeleteRemote(s: RouteObject, tid: string, id: string)
    | Release(s: RouteObject)
  {
    predicate Main() {
      !Idle? && !Deleting() && !NeedTunnel?
    }
    predicate Deleting() {
      DeleteTunnelRead? || DeleteClient? || DeleteList? || DeleteRemote? || Release?
    }
  }

  datatype Local = Local(obj: Option<RouteObject>, worker: Worker)

  /** `services` are the Services of the namespace with the ports they declare. `makers` remembers which object
      each platform route was created for; no step reads it. */
  datatype Sys = Sys(
    t: Tun.World, objects: map<string, Local>, makers: map<string, string>, rv: nat,
    services: map<string, seq<ServicePort>>, namespace: string, domain: string)

  /** `listing` answers a list call, `id` is what a create mints. */
  datatype Outcome =
    | Done(id: string, listing: seq<Listed>)
    | Refused(err: Error)
    | Lost(id: string, err: Error)

  datatype Action =
    | Tunnel(action: Tun.Action)
    | Apply(name: string, spec: Spec)
    | Begin(name: string)
    | Go(name: string, outcome: Outcome)
    | Crash(name: string)
    | UserDelete(name: string)
    | Edit(name: string, spec: Spec)
    | SetForeign(name: string, present: bool)
    | SetService(service: string, ports: Option<seq<ServicePort>>)
  {
    /** Actions of one route object's reconcile or of its users; the others have no `name`. */
    predicate OnObject() {
      !Tunnel? && !SetService?
    }
  }

  const NO_STATUS := RouteStatus("", "", None, 0, Unset, Unset, Unset)

  // ---------------------------------------------------------------- conditions

  function SetReady(st: RouteStatus, generation: nat): RouteStatus {
    st.(ready :=
      if !st.resolved.True() then Condition(false, UpstreamUnresolved, generation)
      else if !st.synced.True() then Condition(false, NotSynced, generation)
      else Condition(true, Published, generation))
  }

  /** Synced is set, Ready recomputed and the generation noted: how every exit ends. */
  function Close(s: RouteObject, st: RouteStatus, synced: bool, reason: Reason): RouteStatus {
    SetReady(st.(synced := Condition(synced, reason, s.generation)), s.generation)
      .(observedGeneration := s.generation)
  }

  function ResolvedStatus(s: RouteObject): RouteStatus {
    s.status.(resolved := Condition(true, Resolved, s.generation))
  }

  function UnresolvedStatus(s: RouteObject): RouteStatus {
    Close(s, s.status.(resolved := Condition(false, UpstreamUnresolved, s.generation)), false, UpstreamUnresolved)
  }

  function FailStatus(s: RouteObject, err: Error): RouteStatus {
    Close(s, ResolvedStatus(s), false, Classify(err).reason)
  }

  function SuccessStatus(s: RouteObject, tid: string, at: Address, id: string): RouteStatus {
    Close(s, ResolvedStatus(s).(routeID := id, tunnelID := tid, upstream := Some(at)), true, Synced)
  }

  // ---------------------------------------------------------------- shared state

  function At(w: Sys, name: string, l: Local): Sys {
    w.(objects := w.objects[name := l])
  }

  function SetPlatform(w: Sys, p: Platform): Sys {
    w.(t := w.t.(platform := p))
  }

  predicate Current(l: Local, s: RouteObject) {
    l.obj.Some? && l.obj.value.rv == s.rv
  }

  /** A compare-and-set write of a route object. */
  function Put(w: Sys, name: string, o: RouteObject, worker: Worker): Sys {
    w.(rv := w.rv + 1, objects := w.objects[name := Local(Some(o.(rv := w.rv + 1)), worker)])
  }

  /** The Tunnel object as a route reconcile sees it. */
  function TunnelID(w: Sys): Option<string> {
    if w.t.obj.Some? then Some(w.t.obj.value.status.tunnelID) else None
  }

  /** The Service the spec names, in the route's own namespace. */
  function ServiceOf(w: Sys, spec: Spec): Option<Service> {
    if spec.service.Some? && spec.service.value.name in w.services
    then Some(Service(spec.service.value.name, w.namespace, w.services[spec.service.value.name]))
    else None
  }

  /** What a read of it answers: failing to read it is finding none. */
  function ServiceRead(w: Sys, spec: Spec, out: Outcome): Option<Service> {
    if out.Done? then ServiceOf(w, spec) else None
  }

  // ---------------------------------------------------------------- steps of a reconcile

  function Start(l: Local): Worker {
    match l.obj
    case None => Idle
    case Some(s) => NeedTunnel(s)
  }

  function AfterFinalizer(s: RouteObject, tid: string): Worker {
    if tid == "" then WriteStatus(s, Close(s, s.status, false, TunnelNotReady)) else NeedUpstream(s, tid)
  }

  /** Once a route is known to exist with this content: compare, then update or finish. */
  function Compare(s: RouteObject, tid: string, at: Address, id: string, route: PRoute): Worker {
    var (input, changed) := Drift(route, s.spec, at.host, at.port);
    if changed then Update(s, tid, at, id, input) else WriteStatus(s, SuccessStatus(s, tid, at, id))
  }

  /** `view` is what reading the Tunnel object found: nothing, or its recorded tunnel id. */
  function NextAfterTunnel(s: RouteObject, view: Option<string>): Worker {
    if s.deleting then
      if !s.finalizer then Idle
      else match view
        case None => Release(s)
        case Some(tid) => if tid == "" then Release(s) else DeleteTunnelRead(s, tid)
    else match view
      case None => WriteStatus(s, Close(s, s.status, false, TunnelNotFound))
      case Some(tid) => if s.finalizer then AfterFinalizer(s, tid) else AddFinalizer(s, tid)
  }

  function NextAfterList(s: RouteObject, tid: string, at: Address, listing: seq<Listed>): Worker {
    match FindRoute(listing, s.status.routeID, s.spec)
    case None => Create(s, tid, at)
    case Some(x) =>
      if IdentityChanged(x.route, s.spec) then Replace(s, tid, at, x.id) else Compare(s, tid, at, x.id, x.route)
  }

  function NextAfterDeleteList(s: RouteObject, tid: string, listing: seq<Listed>): Worker {
    match FindRoute(listing, s.status.routeID, s.spec)
    case None => Release(s)
    case Some(x) => DeleteRemote(s, tid, x.id)
  }

  function GoAddFinalizer(w: Sys, name: string, l: Local, s: RouteObject, tid: string, out: Outcome): Sys {
    if out.Refused? || !Current(l, s) then At(w, name, l.(worker := Idle))
    else
      var o := s.(finalizer := true);
      Put(w, name, o, if out.Done? then AfterFinalizer(o.(rv := w.rv + 1), tid) else Idle)
  }

  function GoReplace(w: Sys, name: string, l: Local, s: RouteObject, tid: string, at: Address, id: string,
                     out: Outcome): Sys
  {
    match out
    case Refused(err) => At(w, name, l.(worker := WriteStatus(s, FailStatus(s, Wrapped(err)))))
    case Lost(_, err) =>
      At(SetPlatform(w, w.t.platform.DeleteRoute(tid, id)), name,
         l.(worker := WriteStatus(s, FailStatus(s, Wrapped(err)))))
    case Done(_, _) =>
      At(SetPlatform(w, w.t.platform.DeleteRoute(tid, id)), name, l.(worker := Create(s, tid, at)))
  }

  function GoCreate(w: Sys, name: string, l: Local, s: RouteObject, tid: string, at: Address, out: Outcome): Sys {
    if out.Refused? then At(w, name, l.(worker := WriteStatus(s, FailStatus(s, out.err))))
    else if tid !in w.t.platform.tunnels then
      At(w, name, l.(worker := WriteStatus(s, FailStatus(s, APIError(404, CodeNotFound)))))
    else
      var route := Stored(tid, CreateBody(s.spec, at.host, at.port));
      var v := SetPlatform(w, w.t.platform.CreateRoute(out.id, route)).(makers := w.makers[out.id := name]);
      At(v, name, l.(worker := if out.Done? then Compare(s, tid, at, out.id, route)
                               else WriteStatus(s, FailStatus(s, out.err))))
  }

  function GoUpdate(w: Sys, name: string, l: Local, s: RouteObject, tid: string, at: Address, id: string,
                    input: UpdateInput, out: Outcome): Sys
  {
    if out.Refused? then At(w, name, l.(worker := WriteStatus(s, FailStatus(s, out.err))))
    else if id !in w.t.platform.routes || w.t.platform.routes[id].tunnelID != tid then
      At(w, name, l.(worker := WriteStatus(s, FailStatus(s, APIError(404, CodeNotFound)))))
    else
      var p := w.t.platform;
      var v := SetPlatform(w, p.(routes := p.routes[id := Updated(p.routes[id], input)]));
      At(v, name, l.(worker := WriteStatus(s, if out.Done? then SuccessStatus(s, tid, at, id)
                                              else FailStatus(s, out.err))))
  }

  function GoWriteStatus(w: Sys, name: string, l: Local, s: RouteObject, next: RouteStatus, out: Outcome): Sys {
    if out.Refused? || !Current(l, s) then At(w, name, l.(worker := Idle))
    else Put(w, name, s.(status := next), Idle)
  }

  function GoDeleteRemote(w: Sys, name: string, l: Local, s: RouteObject, tid: string, id: string, out: Outcome): Sys {
    if out.Refused? then At(w, name, l.(worker := Idle))
    else
      At(SetPlatform(w, w.t.platform.DeleteRoute(tid, id)), name,
         l.(worker := if out.Done? then Release(s) else Idle))
  }

  function GoRelease(w: Sys, name: string, l: Local, s: RouteObject, out: Outcome): Sys {
    if out.Refused? || !Current(l, s) then At(w, name, l.(worker := Idle))
    else if s.foreign then Put(w, name, s.(finalizer := false), Idle)
    else At(w, name, Local(None, Idle))
  }

  /** The steps that only read: where the worker goes next. */
  function NextAfterRead(w: Sys, l: Local, out: Outcome): Worker
    requires !l.worker.Idle?
  {
    match l.worker
    case NeedTunnel(s) => if out.Done? then NextAfterTunnel(s, TunnelID(w)) else Idle
    case NeedUpstream(s, tid) =>
      // an upstream written in the spec needs no read
      (match Resolve(s.spec, ServiceRead(w, s.spec, out), w.domain)
       case None => WriteStatus(s, UnresolvedStatus(s))
       case Some(at) => NeedClient(s, tid, at))
    case NeedClient(s, tid, at) =>
      if out.Done? && w.t.credential then List(s, tid, at)
      else WriteStatus(s, Close(s, ResolvedStatus(s), false, CredentialUnreadable))
    case List(s, tid, at) =>
      if out.Done? then NextAfterList(s, tid, at, out.listing) else WriteStatus(s, FailStatus(s, out.err))
    case DeleteTunnelRead(s, tid) => if out.Done? && w.t.obj.Some? then DeleteClient(s, tid) else Idle
    case DeleteClient(s, tid) =>
      if !out.Done? || !w.t.credential then Idle
      else if s.status.routeID != "" then DeleteRemote(s, tid, s.status.routeID)
      else DeleteList(s, tid)
    case DeleteList(s, tid) => if out.Done? then NextAfterDeleteList(s, tid, out.listing) else Idle
    case _ => l.worker
  }

  function Advance(w: Sys, name: string, out: Outcome): Sys
    requires name in w.objects && !w.objects[name].worker.Idle?
  {
    var l := w.objects[name];
    match l.worker
    case AddFinalizer(s, tid) => GoAddFinalizer(w, name, l, s, tid, out)
    case Replace(s, tid, at, id) => GoReplace(w, name, l, s, tid, at, id, out)
    case Create(s, tid, at) => GoCreate(w, name, l, s, tid, at, out)
    case Update(s, tid, at, id, input) => GoUpdate(w, name, l, s, tid, at, id, input, out)
    case WriteStatus(s, next) => GoWriteStatus(w, name, l, s, next, out)
    case DeleteRemote(s, tid, id) => GoDeleteRemote(w, name, l, s, tid, id, out)
    case Release(s) => GoRelease(w, name, l, s, out)
    case _ => At(w, name, l.(worker := NextAfterRead(w, l, out)))
  }

  // ---------------------------------------------------------------- actions

  predicate PossibleOutcome(w: Sys, l: Local, out: Outcome) {
    && (!out.Refused? && l.worker.Create? ==> out.id != "" && out.id !in w.t.platform.used)
    && (out.Done? && (l.worker.List? || l.worker.DeleteList?) ==>
          IsListing(out.listing, w.t.platform.routes, l.worker.tid))
    && (!out.Done? && (l.worker.Replace? || l.worker.DeleteRemote?) ==> !IsNotFound(out.err))
  }

  /** Is this a platform route that was made for `name`? */
  predicate Made(w: Sys, name: string, id: string) {
    id in w.t.platform.routes && id in w.makers && w.makers[id] == name
  }

  /** No other object, one that is being deleted included, asks for this hostname and prefix. */
  ghost predicate SpecsDistinct(w: Sys, name: string, spec: Spec) {
    forall n :: n in w.objects && n != name && w.objects[n].obj.Some? ==>
      !SameSpecKey(w.objects[n].obj.value.spec, spec)
  }

  /** No live route of another object, be it one that its object no longer asks for, has them either. */
  ghost predicate RoutesDistinct(w: Sys, name: string, spec: Spec) {
    forall id :: id in w.t.platform.routes && id in w.makers && w.makers[id] != name ==>
      !SameKey(w.t.platform.routes[id], spec)
  }

  ghost predicate KeyFree(w: Sys, name: string, spec: Spec) {
    SpecsDistinct(w, name, spec) && RoutesDistinct(w, name, spec)
  }

  predicate SameSpecKey(a: Spec, b: Spec) {
    a.hostname == b.hostname && PathPrefix(a) == PathPrefix(b)
  }

  // The guards on users. What happens without them is in RouteLimits, RouteStranded and RouteClaims.

  /** The reconcile in flight is on its way to the lookup, or past it and about to make a route. */
  predicate Heading(worker: Worker) {
    || (worker.NeedTunnel? && !worker.s.deleting && worker.s.finalizer)
    || worker.NeedUpstream? || worker.NeedClient? || worker.List? || worker.Replace? || worker.Create?
  }

  /** The recorded id names a live route of the type, hostname and prefix that were read. */
  predicate ReadsLive(w: Sys, s: RouteObject) {
    && s.status.routeID in w.t.platform.routes
    && RouteIdentity(w.t.platform.routes[s.status.routeID]) == SpecIdentity(s.spec)
  }

  /** The reconcile in flight, if any, may still make a route. */
  predicate MayCreate(w: Sys, l: Local) {
    Heading(l.worker) && !ReadsLive(w, l.worker.s)
  }

  /** Every route made for the object is the one its status names, and none is about to be made; or the tunnel was
      deleted with all its routes. */
  ghost predicate Settled(w: Sys, name: string, l: Local) {
    || w.t.log.deleted == 1
    || (&& l.obj.Some? && !MayCreate(w, l)
        && (forall id :: Made(w, name, id) ==> id == l.obj.value.status.routeID))
  }

  /** The delete path will still look for the route by the hostname and prefix that it read: nothing was recorded,
      there is a finalizer to release, and the tunnel was not deleted with all its routes. */
  predicate Searching(w: Sys, worker: Worker) {
    && ((worker.NeedTunnel? && worker.s.deleting) || worker.DeleteTunnelRead? || worker.DeleteClient?
        || worker.DeleteList?)
    && worker.s.status.routeID == "" && worker.s.finalizer && w.t.log.deleted != 1
  }

  /** An edit may change type, hostname or prefix of a settled object only, and not while its delete path looks for a
      route by the old ones. */
  ghost predicate EditAllowed(w: Sys, name: string, l: Local, spec: Spec) {
    && l.obj.Some? && ValidSpec(spec)
    && (|| SpecIdentity(spec) == SpecIdentity(l.obj.value.spec)
        || (KeyFree(w, name, spec) && Settled(w, name, l) && !Searching(w, l.worker)))
  }

  /** An object that recorded a route may be deleted when it is settled. */
  ghost predicate DeleteAllowed(w: Sys, name: string, l: Local) {
    && l.obj.Some?
    && (l.obj.value.deleting || l.obj.value.status.routeID == "" || Settled(w, name, l))
  }

  ghost predicate Enabled(w: Sys, a: Action) {
    match a
    case Tunnel(b) => Tun.Enabled(w.t, b) && !b.PanelDelete?
    case Apply(name, spec) => name !in w.objects && ValidSpec(spec) && KeyFree(w, name, spec)
    case Begin(name) => name in w.objects && w.objects[name].worker.Idle?
    case Go(name, out) =>
      name in w.objects && !w.objects[name].worker.Idle? && PossibleOutcome(w, w.objects[name], out)
    case Crash(name) => name in w.objects
    case UserDelete(name) => name in w.objects && DeleteAllowed(w, name, w.objects[name])
    case Edit(name, spec) => name in w.objects && EditAllowed(w, name, w.objects[name], spec)
    case SetForeign(name, present) =>
      && name in w.objects && w.objects[name].obj.Some?
      && (present ==> !w.objects[name].obj.value.deleting)
    case SetService(_, _) => true
  }

  function Settle(w: Sys, name: string, o: RouteObject, worker: Worker): Sys {
    if o.deleting && !o.finalizer && !o.foreign then At(w, name, Local(None, worker)) else Put(w, name, o, worker)
  }

  /** A new route object. */
  function Applied(w: Sys, name: string, spec: Spec): Sys {
    Put(w, name, RouteObject(0, 1, false, false, false, spec, NO_STATUS), Idle)
  }

  /** The object as a user's delete leaves it, at whatever moment. */
  function Deleted(w: Sys, name: string): Sys
    requires name in w.objects && w.objects[name].obj.Some?
  {
    Settle(w, name, w.objects[name].obj.value.(deleting := true), w.objects[name].worker)
  }

  /** The object as an edit leaves it, at whatever moment. */
  function Edited(w: Sys, name: string, spec: Spec): Sys
    requires name in w.objects && w.objects[name].obj.Some?
  {
    var o := w.objects[name].obj.value;
    Put(w, name, o.(spec := spec, generation := o.generation + 1), w.objects[name].worker)
  }

  ghost function Step(w: Sys, a: Action): Sys
    requires Enabled(w, a)
  {
    match a
    case Tunnel(b) => w.(t := Tun.Apply(w.t, b))
    case Apply(name, spec) => Applied(w, name, spec)
    case Begin(name) => At(w, name, w.objects[name].(worker := Start(w.objects[name])))
    case Go(name, out) => Advance(w, name, out)
    case Crash(name) => At(w, name, w.objects[name].(worker := Idle))
    case UserDelete(name) => Deleted(w, name)
    case Edit(name, spec) => Edited(w, name, spec)
    case SetForeign(name, present) =>
      var l := w.objects[name]; Settle(w, name, l.obj.value.(foreign := present), l.worker)
    case SetService(service, ports) =>
      w.(services := if ports.Some? then w.services[service := ports.value] else w.services - {service})
  }

  ghost predicate Run(w: Sys, actions: seq<Action>, end: Sys)
    decreases |actions|
  {
    if actions == [] then w == end
    else Enabled(w, actions[0]) && Run(Step(w, actions[0]), actions[1..], end)
  }

  lemma {:induction false} RunThen(w: Sys, actions: seq<Action>, mid: Sys, a: Action)
    requires Run(w, actions, mid) && Enabled(mid, a)
    ensures Run(w, actions + [a], Step(mid, a))
    decreases |actions|
  {
    hide Step, Enabled;
    if actions == [] {
      assert actions + [a] == [a] && [a][1..] == [];
    } else {
      RunThen(Step(w, actions[0]), actions[1..], mid, a);
      assert (actions + [a])[1..] == actions[1..] + [a];
    }
  }

  lemma {:induction false} RunAppend(w: Sys, first: seq<Action>, mid: Sys, second: seq<Action>, end: Sys)
    requires Run(w, first, mid) && Run(mid, second, end)
    ensures Run(w, first + second, end)
    decreases |first|
  {
    hide Step, Enabled;
    if first == [] {
      assert first + second == second;
    } else {
      RunAppend(Step(w, first[0]), first[1..], mid, second, end);
      assert (first + second)[1..] == first[1..] + second;
    }
  }

  /** The last step of a run. */
  lemma {:induction false} RunLast(w: Sys, actions: seq<Action>, end: Sys) returns (mid: Sys)
    requires Run(w, actions, end) && actions != []
    ensures Run(w, actions[..|actions| - 1], mid) && Enabled(mid, actions[|actions| - 1])
    ensures Step(mid, actions[|actions| - 1]) == end
    decreases |actions|
  {
    hide Step, Enabled;
    if |actions| == 1 {
      mid := w;
    } else {
      mid := RunLast(Step(w, actions[0]), actions[1..], end);
      assert actions[..|actions| - 1][1..] == actions[1..][..|actions| - 2];
      assert actions[1..][|actions| - 2] == actions[|actions| - 1];
    }
  }

  /** A step of one object's reconcile leaves every other object alone. */
  lemma RemoteElsewhere(w: Sys, name: string, out: Outcome, other: string)
    requires name in w.objects && other in w.objects && other != name
    requires w.objects[name].worker.Replace? || w.objects[name].worker.Create? || w.objects[name].worker.Update?
          || w.objects[name].worker.DeleteRemote?
    ensures other in Advance(w, name, out).objects && Advance(w, name, out).objects[other] == w.objects[other]
  {
    hide FailStatus, SuccessStatus, Compare, Stored, Updated, CreateBody;
  }

  lemma AdvanceElsewhere(w: Sys, name: string, out: Outcome, other: string)
    requires name in w.objects && !w.objects[name].worker.Idle? && other in w.objects && other != name
    ensures other in Advance(w, name, out).objects && Advance(w, name, out).objects[other] == w.objects[other]
  {
    hide NextAfterRead, AfterFinalizer, Current, GoReplace, GoCreate, GoUpdate, GoDeleteRemote;
    match w.objects[name].worker
    case Replace(_, _, _, _) => RemoteElsewhere(w, name, out, other);
    case Create(_, _, _) => RemoteElsewhere(w, name, out, other);
    case Update(_, _, _, _, _) => RemoteElsewhere(w, name, out, other);
    case DeleteRemote(_, _, _) => RemoteElsewhere(w, name, out, other);
    case _ =>
  }

  /** No step of a reconcile brings an object, takes its own, or moves the cluster. */
  predicate SameNames(w: Sys, v: Sys, name: string) {
    name in v.objects && v.objects.Keys == w.objects.Keys + {name} && v.domain == w.domain && v.namespace == w.namespace
  }

  lemma RemoteNames(w: Sys, name: string, out: Outcome)
    requires name in w.objects
    requires w.objects[name].worker.Replace? || w.objects[name].worker.Create? || w.objects[name].worker.Update?
          || w.objects[name].worker.DeleteRemote?
    ensures SameNames(w, Advance(w, name, out), name)
  {
    hide FailStatus, SuccessStatus, Compare, Stored, Updated, CreateBody;
  }

  lemma AdvanceNames(w: Sys, name: string, out: Outcome)
    requires name in w.objects && !w.objects[name].worker.Idle?
    ensures SameNames(w, Advance(w, name, out), name)
  {
    hide NextAfterRead, AfterFinalizer, Current, GoReplace, GoCreate, GoUpdate, GoDeleteRemote;
    match w.objects[name].worker
    case Replace(_, _, _, _) => RemoteNames(w, name, out);
    case Create(_, _, _) => RemoteNames(w, name, out);
    case Update(_, _, _, _, _) => RemoteNames(w, name, out);
    case DeleteRemote(_, _, _) => RemoteNames(w, name, out);
    case _ =>
  }

  /** A freshly created Tunnel object and no route objects yet. */
  ghost predicate Init(w: Sys) {
    Tun.Init(w.t) && w.objects == map[] && w.makers == map[]
  }
}
