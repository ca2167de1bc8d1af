/** Why the identity must stay while a delete path that recorded nothing looks for a route by it: another object may
    take the old hostname and prefix, and the delete path then deletes that object's route. */
module RouteSearch {
  import opened Base
  import opened RouteSpec
  import opened Upstream
  import opened RouteMachine
  import opened RouteSafety
  import opened RouteSystem
  import opened RouteSteps
  import opened RouteRuns
  import opened RouteTheorems
  import opened RouteConvergence
  import opened RouteOvertaken
  import opened RouteLimits
  import opened RouteClaims
  import TS = TunnelSafety
  import TI = TunnelInvariants

  /** In this state, if this is a possible step of the object's reconcile, it touches nobody else's route. */
  ghost predicate Harmless(u: Sys, name: string, out: Outcome) {
    name in u.objects && !u.objects[name].worker.Idle? && PossibleOutcome(u, u.objects[name], out) ==>
      OthersUntouched(u, Advance(u, name, out), name)
  }

  ghost predicate NeverTouches(w: Sys, name: string) {
    forall actions, u, out :: Run(w, actions, u) ==> Harmless(u, name, out)
  }

  lemma InvIsHarmless(w: Sys, name: string, out: Outcome)
    requires SysInv(w)
    ensures Harmless(w, name, out)
  {
    hide TI.Rest, TS.WorkerOk, BooksOk, NetOk, ClaimsOk, LocalOk, OthersUntouched, Advance, PossibleOutcome, WorkerOk;
    if name in w.objects && !w.objects[name].worker.Idle? && PossibleOutcome(w, w.objects[name], out) {
      assert LocalOk(NetOf(w), w.rv, name, w.objects[name]);
      LocalGivesWorker(NetOf(w), w.rv, name, w.objects[name]);
      GoUntouched(w, name, out);
    }
  }

  lemma InvNeverTouches(w: Sys, name: string)
    requires SysInv(w)
    ensures NeverTouches(w, name)
  {
    hide SysInv, Run, Harmless;
    forall actions, u, out | Run(w, actions, u)
      ensures Harmless(u, name, out)
    {
      RunKeepsSysInv(w, actions, u);
      InvIsHarmless(u, name, out);
    }
  }

  // ---------------------------------------------------------------- another object takes the old key

  /** The delete path stands before its lookup, nothing having been recorded. */
  predicate BeforeLookup(worker: Worker) {
    && ((worker.NeedTunnel? && worker.s.deleting) || worker.DeleteTunnelRead? || worker.DeleteClient?
        || worker.DeleteList?)
    && worker.s.status.routeID == ""
  }

  /** What a search goes by: the hostname and prefix that the object had before the edit. */
  lemma SearchFacts(w: Sys, name: string, tid: string)
    requires SysInv(w) && name in w.objects && Searching(w, w.objects[name].worker) && w.objects[name].obj.Some?
    requires TunnelID(w) == Some(tid) && tid != "" && TS.Mine(w.t).Some?
    ensures var l := w.objects[name];
            && SpecIdentity(l.worker.s.spec) == SpecIdentity(l.obj.value.spec) && ValidSpec(l.obj.value.spec)
            && (!l.worker.NeedTunnel? ==> TidOf(l.worker) == tid)
            && (Settled(w, name, l) ==> forall id :: !Made(w, name, id))
  {
    hide TI.Rest, TS.WorkerOk, TS.StatusOk, TS.Own, ClaimsOk, NetOk, BooksOk, VersionOk, RollupKept;
    SeenTunnel(w, tid);
    UsedHoldsRoutes(w);
    assert LocalOk(NetOf(w), w.rv, name, w.objects[name]);
    StatusKept(NetOf(w), name, w.objects[name]);
  }

  lemma StatusKept(n: Net, name: string, l: Local)
    requires WorkerOk(n, name, l) && BeforeLookup(l.worker) && l.obj.Some?
    ensures l.obj.value.status == l.worker.s.status
  {
  }

  lemma SameKeySameIdentity(a: Spec, b: Spec)
    requires ValidSpec(a) && ValidSpec(b) && SameSpecKey(a, b)
    ensures SpecIdentity(a) == SpecIdentity(b)
  {
  }

  /** After the edit the old hostname and prefix are free for a new object. */
  lemma OldKeyIsFree(w: Sys, name: string, spec: Spec, other: string)
    requires SysInv(w) && name in w.objects && w.objects[name].obj.Some? && other !in w.objects
    requires ValidSpec(spec) && ValidSpec(w.objects[name].obj.value.spec)
    requires SpecIdentity(spec) != SpecIdentity(w.objects[name].obj.value.spec)
    requires forall id :: !Made(w, name, id)
    ensures Enabled(Edited(w, name, spec), Apply(other, w.objects[name].obj.value.spec))
  {
    hide TI.Inv, ObjectsOk, BooksOk, NetOk, RouteFree;
    var before := w.objects[name].obj.value.spec;
    OwnSpecFree(w, name);
    var d := Edited(w, name, spec);
    forall n | n in d.objects && n != other && d.objects[n].obj.Some?
      ensures !SameSpecKey(d.objects[n].obj.value.spec, before)
    {
      if n == name && SameSpecKey(spec, before) {
        SameKeySameIdentity(spec, before);
      }
    }
    forall id | id in w.t.platform.routes && id in w.makers && w.makers[id] != other
      ensures !SameKey(w.t.platform.routes[id], before)
    {
      assert !Made(w, name, id);
      assert id in NetOf(w).live;
    }
  }

  /** Why the identity must also stay while the delete path looks for a route by it: it deletes whatever route then has
      the hostname and prefix that it read, whoever that route was made for. */
  lemma SearchTakesAnyOwner(w: Sys, name: string, s: RouteObject, tid: string, x: string, out: Outcome)
    requires name in w.objects && w.objects[name].worker == DeleteList(s, tid) && s.status.routeID == ""
    requires out.Done? && IsListing(out.listing, w.t.platform.routes, tid)
    requires x in w.t.platform.routes && w.t.platform.routes[x].tunnelID == tid
    requires SameKey(w.t.platform.routes[x], s.spec)
    requires forall y :: y in w.t.platform.routes && y != x && w.t.platform.routes[y].tunnelID == tid ==>
               !SameKey(w.t.platform.routes[y], s.spec)
    ensures var v := Advance(w, name, out);
            && name in v.objects && v.objects[name].worker == DeleteRemote(s, tid, x)
            && x !in Advance(v, name, out).t.platform.routes
  {
    hide IsListing, FindRoute;
    FindRouteMeans(out.listing, w.t.platform.routes, tid, "", s.spec);
  }


  /** The tunnel is there, and every call of the other object's reconcile and of the search is answered. */
  ghost predicate SearchAnswered(w: Sys, name: string, spec: Spec, other: string, tid: string, at: Address,
                                 out: Outcome, again: Outcome)
  {
    && name in w.objects && w.objects[name].obj.Some? && other !in w.objects && tid != "" && TunnelID(w) == Some(tid)
    && var c := Applied(Edited(w, name, spec), other, w.objects[name].obj.value.spec);
       && Publishable(c, other, tid, at, out)
       && again.Done? && IsListing(again.listing, Reconcile(c, other, out).t.platform.routes, tid)
  }

  /** The other object publishes a route of its own under the old hostname and prefix. */
  lemma OtherPublishes(w: Sys, c: Sys, other: string, spec: Spec, tid: string, at: Address, out: Outcome)
    requires SysInv(w) && c.t == w.t && c.makers == w.makers && other !in w.objects && w.objects.Keys <= c.objects.Keys
    requires Publishable(c, other, tid, at, out) && tid != "" && TS.Mine(w.t) == Some(tid) && ValidSpec(spec)
    requires tid in w.t.platform.tunnels && RoutesDistinct(c, other, spec)
    requires c.objects[other].obj.value.spec == spec && c.objects[other].obj.value.status.routeID == ""
    ensures var v := Reconcile(c, other, out);
            && v.makers == c.makers[out.id := other] && Proceeds(Begun(c, other), other, out, CALLS)
            && v.t == c.t.(platform := c.t.platform.(routes := v.t.platform.routes, used := v.t.platform.used))
            && out.id in v.t.platform.routes && v.t.platform.routes[out.id].tunnelID == tid
            && SameKey(v.t.platform.routes[out.id], spec)
            && forall y :: y in v.t.platform.routes && y != out.id && v.t.platform.routes[y].tunnelID == tid ==>
                 !SameKey(v.t.platform.routes[y], spec)
  {
    hide SysInv, Orderly, IsListing, Resolve, Reconcile, Proceeds, FindRoute, EnsureRoute, Desired, ServiceOf,
      SuccessStatus, IdentityChanged, WellTyped, ValidSpec, Replaced;
    InvIsOrderly(w, c);
    OrderlyRoutes(c);
    NobodyMade(w, other);
    assert forall id :: Made(c, other, id) <==> Made(w, other, id);
    LookupFinds(c, other, tid, out.listing);
    ReconcileEnsures(c, other, tid, at, out);
    FreshIsNew(c, out.id);
    EnsureRouteRealises(c.t.platform.routes, out.listing, tid, "", spec, at.host, at.port, out.id);
    KeptId(c.t.platform.routes, out.listing, tid, "", spec, at.host, at.port, out.id);
    DesiredKey(spec, tid, at);
    OnlyNewHasKey(c, Reconcile(c, other, out), other, spec, tid, out.id);
  }

  lemma OnlyNewHasKey(c: Sys, v: Sys, other: string, spec: Spec, tid: string, id: string)
    requires Orderly(c) && RoutesDistinct(c, other, spec) && TS.Mine(c.t) == Some(tid)
    requires forall y :: !Made(c, other, y)
    requires forall y :: y in v.t.platform.routes && y != id ==>
               y in c.t.platform.routes && v.t.platform.routes[y] == c.t.platform.routes[y]
    ensures forall y :: y in v.t.platform.routes && y != id && v.t.platform.routes[y].tunnelID == tid ==>
              !SameKey(v.t.platform.routes[y], spec)
  {
    hide Orderly;
    forall y | y in v.t.platform.routes && y != id && v.t.platform.routes[y].tunnelID == tid
      ensures !SameKey(v.t.platform.routes[y], spec)
    {
      RivalIsThere(c, other, spec, tid, y);
      assert !Made(c, other, y);
    }
  }

  /** How many calls a search is away from its delete. */
  function Away(worker: Worker): nat {
    if worker.NeedTunnel? then 4 else if worker.DeleteTunnelRead? then 3 else if worker.DeleteClient? then 2 else 1
  }

  lemma SearchGoesOn(v: Sys, name: string, tid: string, x: string, out: Outcome)
    requires name in v.objects && BeforeLookup(v.objects[name].worker) && v.objects[name].worker.s.finalizer
    requires !v.objects[name].worker.NeedTunnel? ==> TidOf(v.objects[name].worker) == tid
    requires TunnelID(v) == Some(tid) && tid != "" && v.t.credential
    requires out.Done? && IsListing(out.listing, v.t.platform.routes, tid)
    requires var found := FindRoute(out.listing, "", v.objects[name].worker.s.spec);
             found.Some? && found.value.id == x
    ensures var u := Finish(v, name, out, Away(v.objects[name].worker));
            && name in u.objects && u.objects[name].worker == DeleteRemote(v.objects[name].worker.s, tid, x)
            && u.t == v.t && u.makers == v.makers
    ensures Proceeds(v, name, out, Away(v.objects[name].worker))
    decreases Away(v.objects[name].worker)
  {
    hide Finish, Proceeds, IsListing, FindRoute, Resolve;
    var k := Away(v.objects[name].worker);
    var u := Advance(v, name, out);
    GoOn(v, name, out, k);
    if k > 1 {
      SearchGoesOn(u, name, tid, x, out);
    } else {
      AtRest(u, name, out);
    }
  }

  lemma AtRest(u: Sys, name: string, out: Outcome)
    ensures Finish(u, name, out, 0) == u && Proceeds(u, name, out, 0)
  {
  }

  lemma DeleteTouches(u: Sys, name: string, s: RouteObject, tid: string, x: string, out: Outcome)
    requires name in u.objects && u.objects[name].worker == DeleteRemote(s, tid, x) && out.Done?
    requires x in u.t.platform.routes && u.t.platform.routes[x].tunnelID == tid && !Made(u, name, x)
    ensures !Harmless(u, name, out)
  {
    hide IsListing;
    assert x !in Advance(u, name, out).t.platform.routes;
  }

  lemma TouchesAtLast(d: Sys, actions: seq<Action>, u: Sys, name: string, out: Outcome)
    requires Run(d, actions, u) && !Harmless(u, name, out)
    ensures !NeverTouches(d, name)
  {
    hide Run, Harmless;
  }

  /** The whole run: the identity is edited while the search is under way, another object is applied with the old
      hostname and prefix and publishes its route, and the search goes on and deletes that route. */
  lemma EditedSearchTakesOthersRoute(w: Sys, name: string, spec: Spec, other: string, tid: string, at: Address,
                                     out: Outcome, again: Outcome)
    returns (actions: seq<Action>, u: Sys)
    requires SysInv(w) && SearchAnswered(w, name, spec, other, tid, at, out, again) && ValidSpec(spec)
    requires Settled(w, name, w.objects[name]) && Searching(w, w.objects[name].worker)
    requires SpecIdentity(spec) != SpecIdentity(w.objects[name].obj.value.spec)
    ensures Run(Edited(w, name, spec), actions, u)
    ensures name in u.objects && u.objects[name].worker == DeleteRemote(w.objects[name].worker.s, tid, out.id)
    ensures Made(u, other, out.id) && !Harmless(u, name, again)
  {
    hide SysInv, Settled, IsListing, Resolve, Proceeds, FindRoute, ServiceOf, Run, Publishable, Finish, RoutesDistinct,
      KeyFree, SpecsDistinct;
    var o := w.objects[name].obj.value;
    var s := w.objects[name].worker.s;
    var d := Edited(w, name, spec);
    var c := Applied(d, other, o.spec);
    PublishableIs(c, other, tid, at, out);
    SearchFacts(w, name, tid);
    SeenIsOurs(w, tid);
    OldKeyIsFree(w, name, spec, other);
    FreeForOther(d, c, other, o.spec);
    OtherPublishes(w, c, other, o.spec, tid, at, out);
    ReconcileElsewhere(c, other, out, name);
    var v := Reconcile(c, other, out);
    var first := PublishRun(d, c, other, o.spec, out);
    FindsOnly(v, tid, s.spec, o.spec, out.id, again);
    SearchGoesOn(v, name, tid, out.id, again);
    var second := FinishIsRun(v, name, again, Away(w.objects[name].worker));
    u := Finish(v, name, again, Away(w.objects[name].worker));
    RunAppend(d, first, v, second, u);
    actions := first + second;
    DeleteTouches(u, name, s, tid, out.id, again);
  }

  lemma PublishableIs(w: Sys, name: string, tid: string, at: Address, out: Outcome)
    requires Publishable(w, name, tid, at, out)
    ensures name in w.objects && w.objects[name].worker.Idle? && w.objects[name].obj.Some?
    ensures TS.Mine(w.t).Some? && w.t.credential && out.Done?
  {
  }

  lemma FreeForOther(d: Sys, c: Sys, other: string, spec: Spec)
    requires Enabled(d, Apply(other, spec)) && c == Applied(d, other, spec)
    ensures RoutesDistinct(c, other, spec)
  {
  }

  lemma PublishRun(d: Sys, c: Sys, other: string, spec: Spec, out: Outcome) returns (actions: seq<Action>)
    requires Enabled(d, Apply(other, spec)) && c == Applied(d, other, spec)
    requires Proceeds(Begun(c, other), other, out, CALLS)
    ensures Run(d, actions, Reconcile(c, other, out))
  {
    hide Proceeds, Finish, KeyFree;
    var rest := FinishIsRun(Begun(c, other), other, out, CALLS);
    actions := [Apply(other, spec), Begin(other)] + rest;
    assert actions[1..] == [Begin(other)] + rest && actions[1..][1..] == rest;
  }

  lemma FindsOnly(v: Sys, tid: string, read: Spec, spec: Spec, x: string, out: Outcome)
    requires out.Done? && IsListing(out.listing, v.t.platform.routes, tid) && SpecIdentity(read) == SpecIdentity(spec)
    requires x in v.t.platform.routes && v.t.platform.routes[x].tunnelID == tid && SameKey(v.t.platform.routes[x], spec)
    requires forall y :: y in v.t.platform.routes && y != x && v.t.platform.routes[y].tunnelID == tid ==>
               !SameKey(v.t.platform.routes[y], spec)
    ensures FindRoute(out.listing, "", read).Some? && FindRoute(out.listing, "", read).value.id == x
  {
    hide IsListing, FindRoute;
    FindRouteMeans(out.listing, v.t.platform.routes, tid, "", read);
  }

  // ---------------------------------------------------------------- the guard is exact

  /** An identity edit while the delete path stands before its lookup: some run from there touches another object's
      route if and only if the copy that was read has the finalizer and the tunnel was not deleted. */
  lemma SearchTouchesExactlyWhen(w: Sys, name: string, spec: Spec, other: string, tid: string, at: Address,
                                 out: Outcome, again: Outcome)
    requires SysInv(w) && name in w.objects && w.objects[name].obj.Some? && ValidSpec(spec) && KeyFree(w, name, spec)
    requires BeforeLookup(w.objects[name].worker) && Settled(w, name, w.objects[name])
    requires SpecIdentity(spec) != SpecIdentity(w.objects[name].obj.value.spec)
    requires Searching(w, w.objects[name].worker) ==> SearchAnswered(w, name, spec, other, tid, at, out, again)
    ensures !NeverTouches(Edited(w, name, spec), name)
            <==> w.objects[name].worker.s.finalizer && w.t.log.deleted != 1
  {
    hide SysInv, NeverTouches, Settled, KeyFree, SearchAnswered, Edited;
    if Searching(w, w.objects[name].worker) {
      hide Run, Harmless;
      var actions, u := EditedSearchTakesOthersRoute(w, name, spec, other, tid, at, out, again);
      TouchesAtLast(Edited(w, name, spec), actions, u, name, again);
    } else {
      StepKeepsSysInv(w, Edit(name, spec));
      EditIsStep(w, name, spec);
      InvNeverTouches(Edited(w, name, spec), name);
    }
  }

  lemma EditIsStep(w: Sys, name: string, spec: Spec)
    requires Enabled(w, Edit(name, spec))
    ensures Step(w, Edit(name, spec)) == Edited(w, name, spec)
  {
    hide EditAllowed;
  }

  /** The whole guard on edits: among the edits that keep hostnames and prefixes distinct, those allowed are exactly
      those from which no run strands a route of the object or lets it touch a route of another one. */
  lemma EditGuardIsExact(w: Sys, name: string, spec: Spec, other: string, tid: string, at: Address, first: Outcome,
                         out: Outcome, again: Outcome)
    requires SysInv(w) && name in w.objects && w.objects[name].obj.Some? && ValidSpec(spec) && KeyFree(w, name, spec)
    requires !Settled(w, name, w.objects[name]) ==> Answered(w, name, tid, first)
    requires Searching(w, w.objects[name].worker) ==> SearchAnswered(w, name, spec, other, tid, at, out, again)
    ensures EditAllowed(w, name, w.objects[name], spec)
            <==> NeverStrands(Edited(w, name, spec), name) && NeverTouches(Edited(w, name, spec), name)
  {
    hide SysInv, NeverTouches, NeverStrands, Settled, KeyFree, SearchAnswered, Answered, Edited, Searching;
    if EditAllowed(w, name, w.objects[name], spec) {
      StepKeepsSysInv(w, Edit(name, spec));
      EditIsStep(w, name, spec);
      InvNeverTouches(Edited(w, name, spec), name);
      InvNeverStrands(Edited(w, name, spec), name);
    } else if !Settled(w, name, w.objects[name]) {
      UnsettledEditStrands(w, name, spec, tid, first);
    } else {
      SearchingIsBefore(w, w.objects[name].worker);
      SearchTouchesExactlyWhen(w, name, spec, other, tid, at, out, again);
    }
  }

  lemma SearchingIsBefore(w: Sys, worker: Worker)
    requires Searching(w, worker)
    ensures BeforeLookup(worker) && worker.s.finalizer && w.t.log.deleted != 1
  {
  }
}
