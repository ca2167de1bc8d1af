/** Over every run, what the operator writes to a route is what its own reconcile read of the cluster's Services
    and what its spec asks for. */
module RouteUpstream {
  import opened Base
  import opened Platform
  import opened RouteSpec
  import opened Upstream
  import opened RouteMachine
  import opened RouteSafety
  import opened RouteSystem
  import opened RouteSteps
  import opened RouteRuns
  import opened TunnelEffects
  import Tun = TunnelMachine
  import TI = TunnelInvariants

  // ---------------------------------------------------------------- where an upstream comes from

  /** The upstream a reconcile resolved and goes on with, together with the copy it resolved it for. */
  datatype Carried = Carried(s: RouteObject, tid: string, at: Address)

  function CarriedBy(worker: Worker): Option<Carried> {
    match worker
    case NeedClient(s, tid, at) => Some(Carried(s, tid, at))
    case List(s, tid, at) => Some(Carried(s, tid, at))
    case Replace(s, tid, at, _) => Some(Carried(s, tid, at))
    case Create(s, tid, at) => Some(Carried(s, tid, at))
    case Update(s, tid, at, _, _) => Some(Carried(s, tid, at))
    case _ => None
  }

  /** In state `u` the action `a` is the read of the upstream, for this very copy, and this is what it finds. */
  predicate ReadAt(u: Sys, a: Action, name: string, c: Carried) {
    && name in u.objects && u.objects[name].worker == NeedUpstream(c.s, c.tid)
    && a.Go? && a.name == name && Resolve(c.s.spec, ServiceRead(u, c.s.spec, a.outcome), u.domain) == Some(c.at)
  }

  ghost predicate ReadEarlier(w0: Sys, actions: seq<Action>, name: string, c: Carried) {
    exists k, u :: 0 <= k < |actions| && Run(w0, actions[..k], u) && ReadAt(u, actions[k], name, c)
  }

  lemma ReadCarried(w: Sys, name: string, out: Outcome, c: Carried)
    requires name in w.objects && !w.objects[name].worker.Idle?
    ensures CarriedBy(NextAfterRead(w, w.objects[name], out)) == Some(c) ==>
            CarriedBy(w.objects[name].worker) == Some(c) || ReadAt(w, Go(name, out), name, c)
  {
    hide Resolve, FindRoute, Close, SuccessStatus, IdentityChanged, Drift, ServiceRead;
  }

  lemma GoCarried(w: Sys, name: string, out: Outcome, c: Carried)
    requires name in w.objects && !w.objects[name].worker.Idle?
    ensures name in Advance(w, name, out).objects
    ensures CarriedBy(Advance(w, name, out).objects[name].worker) == Some(c) ==>
            CarriedBy(w.objects[name].worker) == Some(c) || ReadAt(w, Go(name, out), name, c)
  {
    hide NextAfterRead, Close, FailStatus, SuccessStatus, ReadAt, GoCreate, GoUpdate, Current;
    var l := w.objects[name];
    match l.worker
    case Create(s, tid, at) => CreateCarried(w, name, l, s, tid, at, out);
    case Update(s, tid, at, id, input) => UpdateCarried(w, name, l, s, tid, at, id, input, out);
    case Replace(_, _, _, _) =>
    case AddFinalizer(_, _) =>
    case WriteStatus(_, _) =>
    case DeleteRemote(_, _, _) =>
    case Release(_) =>
    case _ => ReadCarried(w, name, out, c);
  }

  lemma CreateCarried(w: Sys, name: string, l: Local, s: RouteObject, tid: string, at: Address, out: Outcome)
    ensures var v := GoCreate(w, name, l, s, tid, at, out);
            && name in v.objects
            && (CarriedBy(v.objects[name].worker).Some? ==>
                  CarriedBy(v.objects[name].worker) == Some(Carried(s, tid, at)))
  {
    hide FailStatus, SuccessStatus, Drift, Stored, CreateBody;
  }

  lemma UpdateCarried(w: Sys, name: string, l: Local, s: RouteObject, tid: string, at: Address, id: string,
                      input: UpdateInput, out: Outcome)
    ensures var v := GoUpdate(w, name, l, s, tid, at, id, input, out);
            name in v.objects && CarriedBy(v.objects[name].worker).None?
  {
    hide FailStatus, SuccessStatus, Updated;
  }

  lemma StepCarried(w: Sys, a: Action, name: string, c: Carried)
    requires Enabled(w, a) && name in Step(w, a).objects && CarriedBy(Step(w, a).objects[name].worker) == Some(c)
    ensures (name in w.objects && CarriedBy(w.objects[name].worker) == Some(c)) || ReadAt(w, a, name, c)
  {
    hide Advance, EditAllowed, DeleteAllowed, KeyFree, PossibleOutcome, Tun.Apply, Tun.Enabled, ReadAt;
    if a.Go? {
      if a.name == name {
        GoCarried(w, name, a.outcome, c);
      } else {
        AdvanceNames(w, a.name, a.outcome);
        AdvanceElsewhere(w, a.name, a.outcome, name);
      }
    }
  }

  /** Every upstream that a reconcile carries was read in that reconcile, at an earlier state of the run. */
  lemma {:induction false} CarriedWasRead(w0: Sys, actions: seq<Action>, w: Sys, name: string, c: Carried)
    requires w0.objects == map[] && Run(w0, actions, w)
    requires name in w.objects && CarriedBy(w.objects[name].worker) == Some(c)
    ensures ReadEarlier(w0, actions, name, c)
    decreases |actions|
  {
    hide Step, Enabled, ReadAt;
    if actions != [] {
      var n := |actions| - 1;
      var mid := RunLast(w0, actions, w);
      StepCarried(mid, actions[n], name, c);
      if !ReadAt(mid, actions[n], name, c) {
        CarriedWasRead(w0, actions[..n], mid, name, c);
        var k, u :| 0 <= k < n && Run(w0, actions[..n][..k], u) && ReadAt(u, actions[..n][k], name, c);
        assert actions[..n][..k] == actions[..k];
      }
    }
  }

  lemma StepKeepsCluster(w: Sys, a: Action)
    requires Enabled(w, a)
    ensures Step(w, a).domain == w.domain && Step(w, a).namespace == w.namespace
  {
    hide Advance, EditAllowed, DeleteAllowed, KeyFree, PossibleOutcome, Tun.Apply, Tun.Enabled;
    if a.Go? {
      AdvanceNames(w, a.name, a.outcome);
    }
  }

  lemma {:induction false} RunKeepsCluster(w: Sys, actions: seq<Action>, end: Sys)
    requires Run(w, actions, end)
    ensures end.domain == w.domain && end.namespace == w.namespace
    decreases |actions|
  {
    hide Step, Enabled;
    if actions != [] {
      StepKeepsCluster(w, actions[0]);
      RunKeepsCluster(Step(w, actions[0]), actions[1..], end);
    }
  }

  // ---------------------------------------------------------------- when a route is not resolved

  /** Once the read is answered, a Service-backed route is left unpublished as unresolved exactly when at that
      moment the cluster has no such Service or the Service declares no such port. */
  lemma UnresolvedExactlyWhen(w: Sys, name: string, out: Outcome)
    requires name in w.objects && w.objects[name].worker.NeedUpstream? && out.Done?
    requires w.objects[name].worker.s.spec.service.Some? && w.objects[name].worker.s.spec.upstream.None?
    ensures var s := w.objects[name].worker.s; var target := s.spec.service.value;
            Advance(w, name, out).objects[name].worker == WriteStatus(s, UnresolvedStatus(s))
            <==> target.name !in w.services
                 || forall p :: p in w.services[target.name] ==>
                      target.port != Name(p.name) && target.port != Number(p.port)
  {
    hide Close;
    var s := w.objects[name].worker.s;
    ServiceRouteExact(s.spec, ServiceOf(w, s.spec), w.domain);
  }

  // ---------------------------------------------------------------- what an update leaves

  /** The update about to be sent makes the route the desired one, as long as it is there. */
  ghost predicate Completes(n: Net, s: RouteObject, tid: string, at: Address, id: string, input: UpdateInput) {
    id in n.live && n.live[id].tunnelID == tid ==>
      Updated(n.live[id], input) == Desired(s.spec, tid, at.host, at.port)
  }

  ghost predicate UpdateOk(n: Net, worker: Worker) {
    worker.Update? ==> Completes(n, worker.s, worker.tid, worker.at, worker.id, worker.input)
  }

  ghost predicate UpdatesOk(w: Sys) {
    forall name :: name in w.objects ==> UpdateOk(NetOf(w), w.objects[name].worker)
  }

  lemma CompareCompletes(n: Net, s: RouteObject, tid: string, at: Address, id: string, route: PRoute)
    requires !IdentityChanged(route, s.spec) && route.tunnelID == tid && (id in n.live ==> n.live[id] == route)
    ensures UpdateOk(n, Compare(s, tid, at, id, route))
  {
    DriftExact(route, s.spec, tid, at.host, at.port);
  }

  lemma ListCompletes(w: Sys, name: string, out: Outcome)
    requires name in w.objects && w.objects[name].worker.List? && out.Done? && PossibleOutcome(w, w.objects[name], out)
    ensures var l := w.objects[name];
            UpdateOk(NetOf(w), NextAfterList(l.worker.s, l.worker.tid, l.worker.at, out.listing))
  {
    hide Completes, IsListing, FindRoute, IdentityChanged, Compare;
    var l := w.objects[name];
    var s, tid, at := l.worker.s, l.worker.tid, l.worker.at;
    FindRouteMeans(out.listing, w.t.platform.routes, tid, s.status.routeID, s.spec);
    match FindRoute(out.listing, s.status.routeID, s.spec)
    case None =>
    case Some(x) =>
      if !IdentityChanged(x.route, s.spec) {
        CompareCompletes(NetOf(w), s, tid, at, x.id, x.route);
      }
  }

  lemma ReadCompletes(w: Sys, name: string, out: Outcome)
    requires name in w.objects && !w.objects[name].worker.Idle? && PossibleOutcome(w, w.objects[name], out)
    requires UpdateOk(NetOf(w), w.objects[name].worker)
    ensures UpdateOk(NetOf(w), NextAfterRead(w, w.objects[name], out))
  {
    hide Completes, NetOf, Close, NextAfterList, IsListing, FindRoute, Resolve, ServiceRead;
    if w.objects[name].worker.List? && out.Done? {
      ListCompletes(w, name, out);
    }
  }

  lemma StoredIdentity(spec: Spec, tid: string, at: Address)
    ensures !IdentityChanged(Stored(tid, CreateBody(spec, at.host, at.port)), spec)
    ensures Stored(tid, CreateBody(spec, at.host, at.port)).tunnelID == tid
  {
  }

  lemma CreateCompletes(w: Sys, name: string, out: Outcome)
    requires name in w.objects && w.objects[name].worker.Create?
    ensures var v := Advance(w, name, out); name in v.objects && UpdateOk(NetOf(v), v.objects[name].worker)
  {
    hide Completes, Compare, FailStatus, IdentityChanged, Stored, CreateBody;
    var l := w.objects[name];
    var s, tid, at := l.worker.s, l.worker.tid, l.worker.at;
    StoredIdentity(s.spec, tid, at);
    var v := Advance(w, name, out);
    if out.Done? && tid in w.t.platform.tunnels {
      CompareCompletes(NetOf(v), s, tid, at, out.id, Stored(tid, CreateBody(s.spec, at.host, at.port)));
    }
  }

  lemma GoCompletes(w: Sys, name: string, out: Outcome)
    requires name in w.objects && !w.objects[name].worker.Idle? && PossibleOutcome(w, w.objects[name], out)
    requires UpdateOk(NetOf(w), w.objects[name].worker)
    ensures var v := Advance(w, name, out); name in v.objects && UpdateOk(NetOf(v), v.objects[name].worker)
  {
    hide Completes, NextAfterRead, Close, NetOf, GoCreate, PossibleOutcome, SuccessStatus, FailStatus;
    match w.objects[name].worker
    case Create(_, _, _) => CreateCompletes(w, name, out);
    case Replace(_, _, _, _) =>
    case AddFinalizer(_, _) =>
    case Update(_, _, _, _, _) =>
    case WriteStatus(_, _) =>
    case DeleteRemote(_, _, _) =>
    case Release(_) =>
    case _ => ReadCompletes(w, name, out); SameNet(w, name, out);
  }

  lemma SameNet(w: Sys, name: string, out: Outcome)
    requires name in w.objects && !w.objects[name].worker.Idle?
    ensures NetOf(At(w, name, w.objects[name].(worker := NextAfterRead(w, w.objects[name], out)))) == NetOf(w)
  {
  }

  /** Another object's step leaves the route of this update alone. */
  lemma ElsewhereCompletes(n: Net, m: Net, name: string, other: string, l: Local)
    requires Touches(n, m, name) && NetOk(n) && NetOk(m) && other != name
    requires WorkerOk(n, other, l) && UpdateOk(n, l.worker)
    ensures UpdateOk(m, l.worker)
  {
    hide Updated, Touches;
    if l.worker.Update? {
      TouchesKeepsHas(n, m, name, other, l.worker.id);
      assert OwnId(n, other, l.worker.id);
    }
  }

  lemma UserCompletes(w: Sys, a: Action)
    requires UpdatesOk(w) && Enabled(w, a) && a.OnObject() && !a.Go?
    ensures var v := Step(w, a); a.name in v.objects && UpdateOk(NetOf(v), v.objects[a.name].worker)
  {
    hide Completes, EditAllowed, DeleteAllowed, KeyFree;
    assert NetOf(Step(w, a)) == NetOf(w);
    assert a.name in w.objects ==> UpdateOk(NetOf(w), w.objects[a.name].worker);
  }

  lemma TunnelCompletes(w: Sys, b: Tun.Action)
    requires SysInv(w) && Enabled(w, Tunnel(b)) && UpdatesOk(w)
    ensures UpdatesOk(Step(w, Tunnel(b)))
  {
    hide TI.Inv, NetOk, ClaimsOk, TunnelEffect, BooksOk, Tun.Apply, Tun.Enabled, Updated, Desired;
    var v := Step(w, Tunnel(b));
    StepEffect(w.t, b);
    TI.StepKeepsInv(w.t, b);
    EffectOnNet(w, v);
    forall name | name in v.objects
      ensures UpdateOk(NetOf(v), v.objects[name].worker)
    {
      assert UpdateOk(NetOf(w), w.objects[name].worker);
    }
  }

  lemma ServiceCompletes(w: Sys, a: Action)
    requires UpdatesOk(w) && a.SetService? && Enabled(w, a)
    ensures UpdatesOk(Step(w, a))
  {
    hide UpdateOk;
    assert NetOf(Step(w, a)) == NetOf(w);
  }

  lemma StepKeepsUpdates(w: Sys, a: Action)
    requires SysInv(w) && UpdatesOk(w) && Enabled(w, a)
    ensures UpdatesOk(Step(w, a))
  {
    hide TI.Inv, ClaimsOk, NetOk, BooksOk, Enabled, Step, UpdateOk, Touches, RoutesOnly, TidHeld,
      VersionOk, ObjectOk, WorkerOk, RollupKept;
    if a.Tunnel? {
      TunnelCompletes(w, a.action);
    } else if a.SetService? {
      ServiceCompletes(w, a);
    } else {
      var v := Step(w, a);
      EveryObjectStep(w, a);
      OwnCompletes(w, a);
      forall other | other in v.objects && other != a.name
        ensures UpdateOk(NetOf(v), v.objects[other].worker)
      {
        assert LocalOk(NetOf(w), w.rv, other, w.objects[other]);
        ElsewhereCompletes(NetOf(w), NetOf(v), a.name, other, w.objects[other]);
      }
    }
  }

  lemma OwnCompletes(w: Sys, a: Action)
    requires UpdatesOk(w) && Enabled(w, a) && a.OnObject()
    ensures var v := Step(w, a); a.name in v.objects && UpdateOk(NetOf(v), v.objects[a.name].worker)
  {
    hide Advance, UpdateOk, PossibleOutcome, Settle, Put, EditAllowed, DeleteAllowed, KeyFree;
    if a.Go? {
      assert UpdateOk(NetOf(w), w.objects[a.name].worker);
      GoCompletes(w, a.name, a.outcome);
    } else {
      UserCompletes(w, a);
    }
  }

  lemma {:induction false} RunKeepsUpdates(w: Sys, actions: seq<Action>, end: Sys)
    requires SysInv(w) && UpdatesOk(w) && Run(w, actions, end)
    ensures SysInv(end) && UpdatesOk(end)
    decreases |actions|
  {
    hide SysInv, UpdatesOk, Step, Enabled;
    if actions != [] {
      StepKeepsSysInv(w, actions[0]);
      StepKeepsUpdates(w, actions[0]);
      RunKeepsUpdates(Step(w, actions[0]), actions[1..], end);
    }
  }

  // ---------------------------------------------------------------- everything that is ever written

  /** At an earlier state of the run the cluster held the Service this spec names, and that Service declared a port
      that matches the spec, which is this one. */
  ghost predicate DeclaredEarlier(w0: Sys, actions: seq<Action>, target: ServiceTarget, port: int) {
    exists k, u ::
      0 <= k < |actions| && Run(w0, actions[..k], u) && Declares(u, target, port)
  }

  predicate Declares(u: Sys, target: ServiceTarget, port: int) {
    target.name in u.services
    && exists p :: p in u.services[target.name] && p.port == port
                   && (target.port == Name(p.name) || target.port == Number(p.port))
  }

  lemma ReadDeclares(u: Sys, a: Action, name: string, c: Carried)
    requires ReadAt(u, a, name, c) && c.s.spec.service.Some? && c.s.spec.upstream.None?
    ensures Declares(u, c.s.spec.service.value, c.at.port)
    ensures c.at.host == HostName(c.s.spec.service.value.name, u.namespace, u.domain)
  {
    ServiceRouteExact(c.s.spec, ServiceRead(u, c.s.spec, a.outcome), u.domain);
  }

  lemma CarriedIsDeclared(w0: Sys, actions: seq<Action>, w: Sys, name: string, c: Carried)
    requires Run(w0, actions, w) && ReadEarlier(w0, actions, name, c)
    requires c.s.spec.service.Some? && c.s.spec.upstream.None?
    ensures c.at.host == HostName(c.s.spec.service.value.name, w.namespace, w.domain)
    ensures DeclaredEarlier(w0, actions, c.s.spec.service.value, c.at.port)
  {
    hide Run, ReadAt, Declares;
    var k, u :| 0 <= k < |actions| && Run(w0, actions[..k], u) && ReadAt(u, actions[k], name, c);
    ReadDeclares(u, actions[k], name, c);
    RunKeepsCluster(w0, actions[..k], u);
    RunKeepsCluster(w0, actions, w);
  }

  /** Every route content the operator ever sends to the platform, in whatever interleaving: a create or an update
      leaves the upstream that this very reconcile read at an earlier state of the run; a create leaves what it can
      express of the route that was asked for, and an update leaves exactly that route. For a Service-backed spec that
      upstream is the named Service of the route's own namespace, at a port that Service declared when it was read. */
  lemma EveryWriteIsResolved(w0: Sys, actions: seq<Action>, w: Sys, name: string, out: Outcome, id: string)
    requires Init(w0) && Run(w0, actions, w) && Enabled(w, Go(name, out))
    requires var v := Advance(w, name, out);
             id in v.t.platform.routes
             && !(id in w.t.platform.routes && w.t.platform.routes[id] == v.t.platform.routes[id])
    ensures var l := w.objects[name]; var route := Advance(w, name, out).t.platform.routes[id];
            && (l.worker.Create? || l.worker.Update?)
            && route.upstreamHost == l.worker.at.host && route.upstreamPort == l.worker.at.port
            && ReadEarlier(w0, actions, name, Carried(l.worker.s, l.worker.tid, l.worker.at))
            && (l.worker.s.spec.service.Some? && l.worker.s.spec.upstream.None? ==>
                  && route.upstreamHost == HostName(l.worker.s.spec.service.value.name, w.namespace, w.domain)
                  && DeclaredEarlier(w0, actions, l.worker.s.spec.service.value, route.upstreamPort))
            && (l.worker.Create? ==>
                  CreatedAsAsked(route, l.worker.s.spec, l.worker.tid, l.worker.at.host, l.worker.at.port))
            && (l.worker.Update? ==>
                  Asked(route, l.worker.s.spec, l.worker.tid, l.worker.at.host, l.worker.at.port))
  {
    hide Run, SysInv, ReadEarlier, DeclaredEarlier, PossibleOutcome, Updated, Advance, Tun.Init, Asked, Desired,
      CreatedAsAsked;
    InitSysInv(w0);
    assert UpdatesOk(w0);
    RunKeepsUpdates(w0, actions, w);
    var l := w.objects[name];
    assert UpdateOk(NetOf(w), l.worker);
    OnlyTwoWrite(w, name, out, id);
    if l.worker.Update? {
      UpdatesOwn(w, name);
      UpdateIsAsked(l.worker.s.spec, l.worker.tid, l.worker.at);
    }
    var c := Carried(l.worker.s, l.worker.tid, l.worker.at);
    CarriedWasRead(w0, actions, w, name, c);
    if l.worker.s.spec.service.Some? && l.worker.s.spec.upstream.None? {
      CarriedIsDeclared(w0, actions, w, name, c);
    }
  }

  /** Content reaches the platform by creates and updates only. */
  lemma OnlyTwoWrite(w: Sys, name: string, out: Outcome, id: string)
    requires name in w.objects && !w.objects[name].worker.Idle?
    requires var v := Advance(w, name, out);
             id in v.t.platform.routes
             && !(id in w.t.platform.routes && w.t.platform.routes[id] == v.t.platform.routes[id])
    ensures var l := w.objects[name]; var route := Advance(w, name, out).t.platform.routes[id];
            || (&& l.worker.Create?
                && CreatedAsAsked(route, l.worker.s.spec, l.worker.tid, l.worker.at.host, l.worker.at.port)
                && route.upstreamHost == l.worker.at.host && route.upstreamPort == l.worker.at.port)
            || (&& l.worker.Update? && id == l.worker.id && id in w.t.platform.routes
                && w.t.platform.routes[id].tunnelID == l.worker.tid
                && route == Updated(w.t.platform.routes[id], l.worker.input))
  {
    hide GoCreate, GoUpdate, NextAfterRead, GoAddFinalizer, GoReplace, GoWriteStatus, GoDeleteRemote, GoRelease,
      Updated;
    var l := w.objects[name];
    match l.worker
    case Create(s, tid, at) => CreateWrites(w, name, l, s, tid, at, out, id);
    case Update(s, tid, at, x, input) => UpdateWrites(w, name, l, s, tid, at, x, input, out, id);
    case _ => OthersWriteNothing(w, name, out, id);
  }

  lemma CreateWrites(w: Sys, name: string, l: Local, s: RouteObject, tid: string, at: Address, out: Outcome, id: string)
    ensures var routes := GoCreate(w, name, l, s, tid, at, out).t.platform.routes;
            id in routes && !(id in w.t.platform.routes && w.t.platform.routes[id] == routes[id]) ==>
              && CreatedAsAsked(routes[id], s.spec, tid, at.host, at.port)
              && routes[id].upstreamHost == at.host && routes[id].upstreamPort == at.port
  {
    hide FailStatus, Compare, Stored, CreateBody, CreatedAsAsked;
    StoredAsAsked(s.spec, tid, at.host, at.port);
    CreatedUpstream(Stored(tid, CreateBody(s.spec, at.host, at.port)), s.spec, tid, at);
  }

  lemma CreatedUpstream(r: PRoute, spec: Spec, tid: string, at: Address)
    requires CreatedAsAsked(r, spec, tid, at.host, at.port)
    ensures r.upstreamHost == at.host && r.upstreamPort == at.port
  {
  }

  lemma UpdateWrites(w: Sys, name: string, l: Local, s: RouteObject, tid: string, at: Address, x: string,
                     input: UpdateInput, out: Outcome, id: string)
    ensures var routes := GoUpdate(w, name, l, s, tid, at, x, input, out).t.platform.routes;
            id in routes && !(id in w.t.platform.routes && w.t.platform.routes[id] == routes[id]) ==>
              && id == x && id in w.t.platform.routes && w.t.platform.routes[id].tunnelID == tid
              && routes[id] == Updated(w.t.platform.routes[id], input)
  {
    hide FailStatus, SuccessStatus, Updated;
  }

  lemma OthersWriteNothing(w: Sys, name: string, out: Outcome, id: string)
    requires name in w.objects && !w.objects[name].worker.Idle?
    requires !w.objects[name].worker.Create? && !w.objects[name].worker.Update?
    ensures var routes := Advance(w, name, out).t.platform.routes;
            id in routes ==> id in w.t.platform.routes && routes[id] == w.t.platform.routes[id]
  {
    hide NextAfterRead, FailStatus, GoAddFinalizer, GoWriteStatus, GoRelease;
    if w.objects[name].worker.AddFinalizer? || w.objects[name].worker.WriteStatus? || w.objects[name].worker.Release? {
      StoreWritesNothing(w, name, out);
    }
  }

  lemma StoreWritesNothing(w: Sys, name: string, out: Outcome)
    requires name in w.objects
    requires w.objects[name].worker.AddFinalizer? || w.objects[name].worker.WriteStatus?
          || w.objects[name].worker.Release?
    ensures Advance(w, name, out).t == w.t
  {
    hide AfterFinalizer, Current;
  }

  lemma UpdateIsAsked(spec: Spec, tid: string, at: Address)
    ensures var r := Desired(spec, tid, at.host, at.port);
            Asked(r, spec, tid, at.host, at.port) && r.upstreamHost == at.host && r.upstreamPort == at.port
  {
    DesiredIsAsked(Desired(spec, tid, at.host, at.port), spec, tid, at.host, at.port);
  }

  lemma UpdatesOwn(w: Sys, name: string)
    requires SysInv(w) && name in w.objects && w.objects[name].worker.Update?
    ensures w.objects[name].worker.id in w.makers
  {
    hide TI.Inv, ClaimsOk, NetOk, BooksOk, ObjectOk, VersionOk, RollupKept;
    assert LocalOk(NetOf(w), w.rv, name, w.objects[name]);
  }
}
