/** What the exits of a route reconcile tell in the status they write, by the platform's own answers. Nothing here is
    stated through the functions that compute a status or the desired route. */
module RouteVerdicts {
  import opened Base
  import opened Errors
  import opened Platform
  import opened RouteSpec
  import opened Upstream
  import opened RouteMachine
  import opened RouteSafety
  import opened RouteSystem
  import opened RouteSteps
  import opened RouteRuns
  import opened RouteUpstream
  import Tun = TunnelMachine
  import TI = TunnelInvariants

  /** The error with which a step fails the publishing, if it does: what the platform answered, or that the tunnel or
      the route is missing. */
  function FailureOf(w: Sys, worker: Worker, out: Outcome): Option<Error> {
    match worker
    case List(_, _, _) => if out.Done? then None else Some(out.err)
    case Replace(_, _, _, _) => if out.Done? then None else Some(out.err)
    case Create(_, tid, _) =>
      if out.Refused? then Some(out.err)
      else if tid !in w.t.platform.tunnels then Some(APIError(404, CodeNotFound))
      else if out.Lost? then Some(out.err) else None
    case Update(_, tid, _, id, _) =>
      if out.Refused? then Some(out.err)
      else if id !in w.t.platform.routes || w.t.platform.routes[id].tunnelID != tid
      then Some(APIError(404, CodeNotFound))
      else if out.Lost? then Some(out.err) else None
    case _ => None
  }

  /** The status says that the route is not published, for this reason and about this generation; what was recorded of
      an earlier one is kept. */
  ghost predicate TellsRefusal(s: RouteObject, next: RouteStatus, reason: Reason) {
    && next.synced == Condition(false, reason, s.generation)
    && next.ready == Condition(false, if next.resolved.True() then NotSynced else UpstreamUnresolved, s.generation)
    && next.observedGeneration == s.generation
    && next.routeID == s.status.routeID && next.tunnelID == s.status.tunnelID && next.upstream == s.status.upstream
  }

  /** It says that the route `id` of this tunnel is published for this upstream. */
  ghost predicate TellsSuccess(s: RouteObject, next: RouteStatus, tid: string, at: Address, id: string) {
    && next.routeID == id && next.tunnelID == tid && next.upstream == Some(at)
    && next.observedGeneration == s.generation
    && next.resolved == Condition(true, Resolved, s.generation)
    && next.synced == Condition(true, Synced, s.generation)
    && next.ready == Condition(true, Published, s.generation)
  }

  lemma CloseTells(s: RouteObject, st: RouteStatus, reason: Reason)
    requires st.routeID == s.status.routeID && st.tunnelID == s.status.tunnelID && st.upstream == s.status.upstream
    ensures TellsRefusal(s, Close(s, st, false, reason), reason)
    ensures Close(s, st, false, reason).resolved == st.resolved
  {
  }

  lemma FailTells(s: RouteObject, e: Error)
    ensures TellsRefusal(s, FailStatus(s, e), Classify(e).reason) && FailStatus(s, e).resolved.True()
    ensures TellsRefusal(s, FailStatus(s, Wrapped(e)), Classify(e).reason) && FailStatus(s, Wrapped(e)).resolved.True()
  {
    hide Classify;
    WrappingIsInvisible(e, 1);
    assert Wrap(e, 1) == Wrapped(Wrap(e, 0)) == Wrapped(e);
    CloseTells(s, ResolvedStatus(s), Classify(e).reason);
  }

  lemma SuccessTells(s: RouteObject, tid: string, at: Address, id: string)
    ensures TellsSuccess(s, SuccessStatus(s, tid, at, id), tid, at, id)
  {
  }

  /** A step fails the publishing exactly when there is such an error, and then the status to be written tells it,
      though the upstream was resolved. */
  lemma FailureIsTold(w: Sys, name: string, out: Outcome)
    requires name in w.objects && !w.objects[name].worker.Idle?
    requires FailureOf(w, w.objects[name].worker, out).Some?
    ensures var v := Advance(w, name, out); var worker := w.objects[name].worker;
            && name in v.objects && v.objects[name].worker.WriteStatus? && v.objects[name].worker.s == worker.s
            && v.objects[name].worker.next.resolved.True()
            && TellsRefusal(worker.s, v.objects[name].worker.next, Classify(FailureOf(w, worker, out).value).reason)
  {
    hide FailStatus, SuccessStatus, TellsRefusal, Compare, Stored, Updated, CreateBody, Classify;
    forall s, e
      ensures TellsRefusal(s, FailStatus(s, e), Classify(e).reason) && FailStatus(s, e).resolved.True()
      ensures TellsRefusal(s, FailStatus(s, Wrapped(e)), Classify(e).reason)
      ensures FailStatus(s, Wrapped(e)).resolved.True()
    {
      FailTells(s, e);
    }
  }

  /** The exits before publishing: no Tunnel, no tunnel yet, no upstream, no credential. */
  lemma RefusalIsTold(w: Sys, name: string, out: Outcome)
    requires name in w.objects
    requires w.objects[name].worker.NeedTunnel? || w.objects[name].worker.AddFinalizer?
          || w.objects[name].worker.NeedUpstream? || w.objects[name].worker.NeedClient?
    ensures var v := Advance(w, name, out); var worker := w.objects[name].worker;
            name in v.objects
            && (v.objects[name].worker.WriteStatus? ==>
                  var next := v.objects[name].worker.next;
                  && v.objects[name].worker.s.generation == worker.s.generation
                  && TellsRefusal(worker.s, next,
                                  if worker.NeedTunnel? && TunnelID(w).None? then TunnelNotFound
                                  else if worker.NeedTunnel? || worker.AddFinalizer? then TunnelNotReady
                                  else if worker.NeedUpstream? then UpstreamUnresolved
                                  else CredentialUnreadable)
                  && next.resolved == (if worker.NeedUpstream?
                                       then Condition(false, UpstreamUnresolved, worker.s.generation)
                                       else if worker.NeedClient? then Condition(true, Resolved, worker.s.generation)
                                       else worker.s.status.resolved))
  {
    hide Resolve, ServiceRead;
  }

  /** And when they are taken: no tunnel to publish in, no upstream (of which UnresolvedExactlyWhen tells), or a
      credential that cannot be read. */
  lemma RefusedExactlyWhen(w: Sys, name: string, out: Outcome)
    requires name in w.objects && !w.objects[name].worker.Idle?
    ensures var v := Advance(w, name, out); var worker := w.objects[name].worker;
            worker.NeedTunnel? && !worker.s.deleting ==>
              name in v.objects
              && (v.objects[name].worker.WriteStatus?
                  <==> out.Done? && (TunnelID(w).None? || (worker.s.finalizer && TunnelID(w) == Some(""))))
    ensures var v := Advance(w, name, out); var worker := w.objects[name].worker;
            worker.NeedUpstream? ==>
              name in v.objects
              && (v.objects[name].worker.WriteStatus?
                  <==> Resolve(worker.s.spec, ServiceRead(w, worker.s.spec, out), w.domain).None?)
    ensures var v := Advance(w, name, out); var worker := w.objects[name].worker;
            worker.NeedClient? ==>
              name in v.objects && (v.objects[name].worker.WriteStatus? <==> !(out.Done? && w.t.credential))
  {
    hide Resolve, ServiceRead, Close, FailStatus, SuccessStatus, Compare, Stored, Updated, FindRoute;
  }

  /** Every call of the reconcile was answered, this being the last. */
  predicate Succeeds(w: Sys, worker: Worker, out: Outcome) {
    && (worker.List? || worker.Create? || worker.Update?) && out.Done? && FailureOf(w, worker, out).None?
  }

  /** What such a step reports, if the reconcile is then ready to write its status. */
  lemma SuccessIsTold(w: Sys, name: string, out: Outcome)
    requires name in w.objects && Succeeds(w, w.objects[name].worker, out)
    ensures var v := Advance(w, name, out); var worker := w.objects[name].worker;
            name in v.objects
            && (v.objects[name].worker.WriteStatus? ==>
                  && v.objects[name].worker.s == worker.s
                  && TellsSuccess(worker.s, v.objects[name].worker.next, worker.tid, worker.at,
                                  v.objects[name].worker.next.routeID))
  {
    hide SuccessStatus, TellsSuccess, Drift, Stored, Updated, CreateBody, FindRoute, IdentityChanged;
    forall s, tid, at, id
      ensures TellsSuccess(s, SuccessStatus(s, tid, at, id), tid, at, id)
      ensures SuccessStatus(s, tid, at, id).routeID == id
    {
      SuccessTells(s, tid, at, id);
      SuccessId(s, tid, at, id);
    }
  }

  lemma SuccessId(s: RouteObject, tid: string, at: Address, id: string)
    ensures SuccessStatus(s, tid, at, id).routeID == id
  {
  }

  /** And the platform then holds, under the id it reports, the route that was asked for at that upstream. */
  ghost predicate HeldAsAsked(v: Sys, s: RouteObject, tid: string, at: Address, id: string) {
    id in v.t.platform.routes && Asked(v.t.platform.routes[id], s.spec, tid, at.host, at.port)
  }

  lemma CompareHeld(v: Sys, s: RouteObject, tid: string, at: Address, id: string, route: PRoute)
    requires id in v.t.platform.routes && v.t.platform.routes[id] == route && route.tunnelID == tid
    requires !IdentityChanged(route, s.spec) && Compare(s, tid, at, id, route).WriteStatus?
    ensures Compare(s, tid, at, id, route).next.routeID == id && HeldAsAsked(v, s, tid, at, id)
  {
    hide Drift, Asked, SuccessStatus;
    DriftExact(route, s.spec, tid, at.host, at.port);
    SuccessId(s, tid, at, id);
  }

  lemma ListHeld(w: Sys, name: string, out: Outcome)
    requires name in w.objects && w.objects[name].worker.List? && out.Done?
    requires PossibleOutcome(w, w.objects[name], out)
    ensures var worker := w.objects[name].worker;
            var next := NextAfterList(worker.s, worker.tid, worker.at, out.listing);
            next.WriteStatus? ==> HeldAsAsked(w, worker.s, worker.tid, worker.at, next.next.routeID)
  {
    hide Compare, IsListing, FindRoute, HeldAsAsked, IdentityChanged;
    var worker := w.objects[name].worker;
    FindRouteMeans(out.listing, w.t.platform.routes, worker.tid, worker.s.status.routeID, worker.s.spec);
    match FindRoute(out.listing, worker.s.status.routeID, worker.s.spec)
    case None =>
    case Some(x) =>
      if !IdentityChanged(x.route, worker.s.spec)
         && Compare(worker.s, worker.tid, worker.at, x.id, x.route).WriteStatus? {
        CompareHeld(w, worker.s, worker.tid, worker.at, x.id, x.route);
      }
  }

  lemma CreateHeld(w: Sys, name: string, out: Outcome)
    requires name in w.objects && w.objects[name].worker.Create? && Succeeds(w, w.objects[name].worker, out)
    ensures var v := Advance(w, name, out); var worker := w.objects[name].worker;
            name in v.objects
            && (v.objects[name].worker.WriteStatus? ==>
                  HeldAsAsked(v, worker.s, worker.tid, worker.at, v.objects[name].worker.next.routeID))
  {
    hide Compare, HeldAsAsked, Stored, CreateBody, FailStatus, IdentityChanged;
    var worker := w.objects[name].worker;
    var v := Advance(w, name, out);
    StoredIdentity(worker.s.spec, worker.tid, worker.at);
    if v.objects[name].worker.WriteStatus? {
      CompareHeld(v, worker.s, worker.tid, worker.at, out.id,
                  Stored(worker.tid, CreateBody(worker.s.spec, worker.at.host, worker.at.port)));
    }
  }

  lemma UpdateHeld(w: Sys, name: string, out: Outcome)
    requires SysInv(w) && UpdatesOk(w)
    requires name in w.objects && w.objects[name].worker.Update? && Succeeds(w, w.objects[name].worker, out)
    ensures var v := Advance(w, name, out); var worker := w.objects[name].worker;
            name in v.objects
            && (v.objects[name].worker.WriteStatus? ==>
                  HeldAsAsked(v, worker.s, worker.tid, worker.at, v.objects[name].worker.next.routeID))
  {
    hide SysInv, Asked, Desired, Updated, SuccessStatus, FailStatus;
    var worker := w.objects[name].worker;
    SuccessId(worker.s, worker.tid, worker.at, worker.id);
    UpdatesOwn(w, name);
    assert UpdateOk(NetOf(w), worker);
    DesiredIsAsked(Desired(worker.s.spec, worker.tid, worker.at.host, worker.at.port), worker.s.spec, worker.tid,
                   worker.at.host, worker.at.port);
  }

  /** In every interleaving: a reconcile that reaches its status write will say Synced, and Ready, if and only if every
      one of its calls was answered; and then the platform at that moment holds under the id it records the route the
      spec asks for, at the upstream it resolved. Any failure of the listing, the replacement, the create or the update
      makes Synced and Ready false, for its own reason. */
  lemma SyncedExactlyWhenPublished(w0: Sys, actions: seq<Action>, w: Sys, name: string, out: Outcome)
    requires Init(w0) && Run(w0, actions, w) && Enabled(w, Go(name, out)) && !w.objects[name].worker.WriteStatus?
    requires name in Advance(w, name, out).objects && Advance(w, name, out).objects[name].worker.WriteStatus?
    ensures var v := Advance(w, name, out);
            var worker, next := w.objects[name].worker, v.objects[name].worker.next;
            && (next.synced.True() <==> Succeeds(w, worker, out))
            && (next.ready.True() <==> Succeeds(w, worker, out))
            && (Succeeds(w, worker, out) ==> HeldAsAsked(v, worker.s, worker.tid, worker.at, next.routeID))
            && (FailureOf(w, worker, out).Some? ==>
                  TellsRefusal(worker.s, next, Classify(FailureOf(w, worker, out).value).reason))
  {
    hide Run, SysInv, UpdatesOk, Init, Advance, HeldAsAsked, PossibleOutcome;
    StartsRight(w0);
    RunKeepsUpdates(w0, actions, w);
    var worker := w.objects[name].worker;
    if FailureOf(w, worker, out).Some? {
      FailureIsTold(w, name, out);
    } else if Succeeds(w, worker, out) {
      SuccessIsTold(w, name, out);
      SuccessIsHeld(w, name, out);
    } else {
      OtherArrivals(w, name, out);
      RefusalIsTold(w, name, out);
    }
  }

  lemma StartsRight(w: Sys)
    requires Init(w)
    ensures SysInv(w) && UpdatesOk(w)
  {
    InitSysInv(w);
  }

  lemma SuccessIsHeld(w: Sys, name: string, out: Outcome)
    requires SysInv(w) && UpdatesOk(w) && name in w.objects && Succeeds(w, w.objects[name].worker, out)
    requires PossibleOutcome(w, w.objects[name], out)
    ensures var v := Advance(w, name, out); var worker := w.objects[name].worker;
            name in v.objects
            && (v.objects[name].worker.WriteStatus? ==>
                  HeldAsAsked(v, worker.s, worker.tid, worker.at, v.objects[name].worker.next.routeID))
  {
    hide SysInv, UpdatesOk, GoCreate, GoUpdate, NextAfterList, PossibleOutcome;
    match w.objects[name].worker
    case List(_, _, _) => ListHeld(w, name, out);
    case Create(_, _, _) => CreateHeld(w, name, out);
    case Update(_, _, _, _, _) => UpdateHeld(w, name, out);
  }

  /** Where else a status write is reached from. */
  lemma OtherArrivals(w: Sys, name: string, out: Outcome)
    requires name in w.objects && !w.objects[name].worker.Idle? && !w.objects[name].worker.WriteStatus?
    requires FailureOf(w, w.objects[name].worker, out).None? && !Succeeds(w, w.objects[name].worker, out)
    requires name in Advance(w, name, out).objects && Advance(w, name, out).objects[name].worker.WriteStatus?
    ensures var worker := w.objects[name].worker;
            worker.NeedTunnel? || worker.AddFinalizer? || worker.NeedUpstream? || worker.NeedClient?
  {
    hide Close, Resolve, ServiceRead, FindRoute, Current, FailStatus, SuccessStatus, Compare, Stored, Updated;
  }

  // ---------------------------------------------------------------- whole runs

  /** In state `u` this action ends a publishing of `name` that succeeded, with this status to be written. */
  ghost predicate PublishesAt(u: Sys, a: Action, name: string, st: RouteStatus) {
    && a.Go? && a.name == name && name in u.objects && Succeeds(u, u.objects[name].worker, a.outcome)
    && var worker := u.objects[name].worker; var v := Advance(u, name, a.outcome);
       && TellsSuccess(worker.s, st, worker.tid, worker.at, st.routeID)
       && HeldAsAsked(v, worker.s, worker.tid, worker.at, st.routeID)
  }

  ghost predicate PublishedEarlier(w0: Sys, actions: seq<Action>, name: string, st: RouteStatus) {
    exists k, u :: 0 <= k < |actions| && Run(w0, actions[..k], u) && PublishesAt(u, actions[k], name, st)
  }

  lemma PublishedStays(w0: Sys, actions: seq<Action>, n: nat, name: string, st: RouteStatus)
    requires n <= |actions| && PublishedEarlier(w0, actions[..n], name, st)
    ensures PublishedEarlier(w0, actions, name, st)
  {
    hide Run, PublishesAt;
    var k, u :| 0 <= k < n && Run(w0, actions[..n][..k], u) && PublishesAt(u, actions[..n][k], name, st);
    assert actions[..n][..k] == actions[..k];
  }

  /** A status about to be written was there before, or is just being decided. */
  lemma StepDecides(w: Sys, a: Action, name: string)
    requires Enabled(w, a) && name in Step(w, a).objects && Step(w, a).objects[name].worker.WriteStatus?
    ensures name in w.objects
    ensures || w.objects[name].worker == Step(w, a).objects[name].worker
            || (a.Go? && a.name == name && !w.objects[name].worker.WriteStatus?)
  {
    hide Advance, EditAllowed, DeleteAllowed, KeyFree, PossibleOutcome, Tun.Apply, Tun.Enabled;
    if a.Go? {
      AdvanceNames(w, a.name, a.outcome);
      if a.name != name {
        AdvanceElsewhere(w, a.name, a.outcome, name);
      } else if w.objects[name].worker.WriteStatus? {
        WriteEnds(w, name, a.outcome);
      }
    }
  }

  lemma WriteEnds(w: Sys, name: string, out: Outcome)
    requires name in w.objects && w.objects[name].worker.WriteStatus?
    ensures name in Advance(w, name, out).objects && Advance(w, name, out).objects[name].worker.Idle?
  {
  }

  lemma {:induction false} WriteWasPublished(w0: Sys, actions: seq<Action>, w: Sys, name: string)
    requires Init(w0) && Run(w0, actions, w) && name in w.objects && w.objects[name].worker.WriteStatus?
    requires w.objects[name].worker.next.synced.True()
    ensures PublishedEarlier(w0, actions, name, w.objects[name].worker.next)
    decreases |actions|
  {
    hide Step, Enabled, PublishesAt, Init, HeldAsAsked;
    if actions == [] {
      NoObjects(w0);
    } else {
      var n := |actions| - 1;
      var mid := RunLast(w0, actions, w);
      StepDecides(mid, actions[n], name);
      if mid.objects[name].worker.WriteStatus? {
        WriteWasPublished(w0, actions[..n], mid, name);
        PublishedStays(w0, actions, n, name, w.objects[name].worker.next);
      } else {
        ArrivalPublishes(w0, actions[..n], mid, name, actions[n], w);
      }
    }
  }

  lemma NoObjects(w: Sys)
    requires Init(w)
    ensures w.objects == map[]
  {
  }

  lemma ArrivalPublishes(w0: Sys, actions: seq<Action>, w: Sys, name: string, a: Action, v: Sys)
    requires Init(w0) && Run(w0, actions, w) && Enabled(w, a) && a.Go? && a.name == name && v == Step(w, a)
    requires name in w.objects && !w.objects[name].worker.WriteStatus?
    requires name in v.objects && v.objects[name].worker.WriteStatus? && v.objects[name].worker.next.synced.True()
    ensures PublishesAt(w, a, name, v.objects[name].worker.next)
  {
    hide Run, Init, Advance, PossibleOutcome, HeldAsAsked, TellsSuccess;
    SyncedExactlyWhenPublished(w0, actions, w, name, a.outcome);
    SuccessIsTold(w, name, a.outcome);
  }

  /** A persisted status was there before, or was about to be written, or is the empty one of a new object. */
  lemma StepStatus(w: Sys, a: Action, name: string)
    requires SysInv(w) && Enabled(w, a) && name in Step(w, a).objects && Step(w, a).objects[name].obj.Some?
    ensures var st := Step(w, a).objects[name].obj.value.status;
            || st == RouteMachine.NO_STATUS
            || (name in w.objects && w.objects[name].obj.Some? && w.objects[name].obj.value.status == st)
            || (name in w.objects && w.objects[name].worker.WriteStatus? && w.objects[name].worker.next == st)
  {
    hide TI.Inv, BooksOk, NetOk, ClaimsOk, LocalOk, Advance, Settled, KeyFree, PossibleOutcome, Tun.Apply, Tun.Enabled;
    if a.Go? {
      AdvanceNames(w, a.name, a.outcome);
      if a.name != name {
        AdvanceElsewhere(w, a.name, a.outcome, name);
      } else {
        assert LocalOk(NetOf(w), w.rv, name, w.objects[name]);
        LocalGivesVersion(NetOf(w), w.rv, name, w.objects[name]);
        GoStatus(w, name, a.outcome);
      }
    }
  }

  lemma LocalGivesVersion(n: Net, rv: nat, name: string, l: Local)
    requires LocalOk(n, rv, name, l)
    ensures VersionOk(rv, l)
  {
  }

  lemma GoStatus(w: Sys, name: string, out: Outcome)
    requires name in w.objects && !w.objects[name].worker.Idle? && VersionOk(w.rv, w.objects[name])
    requires name in Advance(w, name, out).objects && Advance(w, name, out).objects[name].obj.Some?
    ensures var st := Advance(w, name, out).objects[name].obj.value.status; var l := w.objects[name];
            (l.obj.Some? && l.obj.value.status == st) || (l.worker.WriteStatus? && l.worker.next == st)
  {
    hide NextAfterRead, AfterFinalizer, GoReplace, GoCreate, GoUpdate, GoDeleteRemote;
    match w.objects[name].worker
    case Replace(_, _, _, _) => RemoteGoKeeps(w, name, out);
    case Create(_, _, _) => RemoteGoKeeps(w, name, out);
    case Update(_, _, _, _, _) => RemoteGoKeeps(w, name, out);
    case DeleteRemote(_, _, _) => RemoteGoKeeps(w, name, out);
    case _ =>
  }

  lemma RemoteGoKeeps(w: Sys, name: string, out: Outcome)
    requires name in w.objects
    requires w.objects[name].worker.Replace? || w.objects[name].worker.Create? || w.objects[name].worker.Update?
          || w.objects[name].worker.DeleteRemote?
    ensures name in Advance(w, name, out).objects && Advance(w, name, out).objects[name].obj == w.objects[name].obj
  {
    hide FailStatus, SuccessStatus, Compare, Stored, Updated, CreateBody;
  }

  /** In every run, a persisted status that says Synced, as one that says Ready does, was earned: at an earlier moment
      of the run every call of a reconcile had been answered and the platform held, under the id the status records, the
      route that the spec of the observed generation asks for, at the recorded upstream. */
  lemma {:induction false} SyncedWasPublished(w0: Sys, actions: seq<Action>, w: Sys, name: string)
    requires Init(w0) && Run(w0, actions, w) && name in w.objects && w.objects[name].obj.Some?
    requires w.objects[name].obj.value.status.synced.True()
    ensures PublishedEarlier(w0, actions, name, w.objects[name].obj.value.status)
    decreases |actions|
  {
    hide Step, Enabled, PublishesAt, Init, SysInv;
    if actions == [] {
      NoObjects(w0);
    } else {
      var n := |actions| - 1;
      var mid := RunLast(w0, actions, w);
      ReachableInv(w0, actions[..n], mid);
      StepStatus(mid, actions[n], name);
      var st := w.objects[name].obj.value.status;
      if name in mid.objects && mid.objects[name].obj.Some? && mid.objects[name].obj.value.status == st {
        SyncedWasPublished(w0, actions[..n], mid, name);
      } else {
        WriteWasPublished(w0, actions[..n], mid, name);
      }
      PublishedStays(w0, actions, n, name, st);
    }
  }
}
