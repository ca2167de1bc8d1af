/** Runs in which nobody changes the type, hostname or prefix of an existing route object: there a recorded
    route is always the live one, and the guards on users exclude nothing. */
module RouteFixed {
  import opened Platform
  import opened RouteSpec
  import opened Upstream
  import opened RouteMachine
  import opened RouteSafety
  import opened RouteSystem
  import opened RouteSteps
  import opened RouteRuns
  import opened RouteTheorems
  import opened TunnelEffects
  import Tun = TunnelMachine
  import TI = TunnelInvariants

  ghost predicate FixedOk(n: Net, name: string, l: Local) {
    && !l.worker.Replace?
    && (l.obj.Some? ==>
          && (!l.worker.Idle? ==> SpecIdentity(l.worker.s.spec) == SpecIdentity(l.obj.value.spec))
          && (forall id :: Has(n, name, id) ==> RouteIdentity(n.live[id]) == SpecIdentity(l.obj.value.spec))
          && (!l.obj.value.deleting && l.obj.value.status.routeID != "" && !n.dead ==>
                l.obj.value.status.routeID in n.live))
  }

  ghost predicate FixedInv(w: Sys) {
    forall name :: name in w.objects ==> FixedOk(NetOf(w), name, w.objects[name])
  }

  /** This action does not change an identity. */
  predicate KeepsIdentity(w: Sys, a: Action) {
    a.Edit? && a.name in w.objects && w.objects[a.name].obj.Some? ==>
      SpecIdentity(a.spec) == SpecIdentity(w.objects[a.name].obj.value.spec)
  }

  lemma TouchesKeepsFixed(n: Net, m: Net, rv: nat, name: string, other: string, l: Local)
    requires Touches(n, m, name) && NetOk(n) && NetOk(m) && other != name
    requires LocalOk(n, rv, other, l) && FixedOk(n, other, l)
    ensures FixedOk(m, other, l)
  {
    hide VersionOk, WorkerOk, RollupKept, Touches;
    forall id
      ensures Has(n, other, id) <==> Has(m, other, id)
      ensures Has(n, other, id) ==> n.live[id] == m.live[id]
    {
      TouchesKeepsHas(n, m, name, other, id);
    }
    assert m.dead == n.dead by { SameFate(n, m, name); }
    if l.obj.Some? && l.obj.value.status.routeID != "" && l.obj.value.status.routeID in n.live {
      assert Has(n, other, l.obj.value.status.routeID);
    }
  }

  lemma SameFate(n: Net, m: Net, name: string)
    requires Touches(n, m, name)
    ensures m.dead == n.dead
  {
  }

  /** The recorded id, if it is live, is this object's. */
  lemma ListFixed(w: Sys, name: string, out: Outcome)
    requires SysInv(w) && name in w.objects && w.objects[name].worker.List? && out.Done?
    requires PossibleOutcome(w, w.objects[name], out) && FixedOk(NetOf(w), name, w.objects[name])
    ensures var s := w.objects[name].worker.s;
            !NextAfterList(s, w.objects[name].worker.tid, w.objects[name].worker.at, out.listing).Replace?
  {
    hide TI.Inv, BooksOk, ClaimsOk, TidHeld, IsListing, FindRoute, VersionOk, RollupKept, NotOvertaken,
      IdentityKnown, Drift, SuccessStatus, ObjectOk;
    var n, l := NetOf(w), w.objects[name];
    var s := l.worker.s;
    assert LocalOk(n, w.rv, name, l) && TidHeld(w.t, l.worker.tid);
    ListingMeans(w, l.worker.tid, out.listing, s.status.routeID, s.spec);
    match FindRoute(out.listing, s.status.routeID, s.spec)
    case None =>
    case Some(x) =>
      KeyDeterminesIdentity(x.route, s.spec);
      if x.id == s.status.routeID {
        assert n.dead || Has(n, name, x.id);
      }
  }

  /** A read keeps the copy it works on. */
  lemma ReadKeepsCopy(w: Sys, l: Local, out: Outcome)
    requires !l.worker.Idle?
    ensures var next := NextAfterRead(w, l, out);
            && (next.Idle? || next.s == l.worker.s)
            && (next.Replace? && !l.worker.Replace? ==>
                  && l.worker.List? && out.Done?
                  && next == NextAfterList(l.worker.s, l.worker.tid, l.worker.at, out.listing))
  {
    hide Resolve, FindRoute, Close, SuccessStatus, IdentityChanged, Drift;
  }

  lemma AddFinalizerFixed(w: Sys, name: string, s: RouteObject, tid: string, out: Outcome)
    requires name in w.objects && LocalOk(NetOf(w), w.rv, name, w.objects[name])
    requires FixedOk(NetOf(w), name, w.objects[name])
    requires w.objects[name].worker == AddFinalizer(s, tid)
    ensures var v := GoAddFinalizer(w, name, w.objects[name], s, tid, out);
            name in v.objects && NetOf(v) == NetOf(w) && FixedOk(NetOf(w), name, v.objects[name])
  {
    hide RollupKept, ObjectOk, Close, SnapshotOk, TidOk;
  }

  lemma WriteStatusFixed(w: Sys, name: string, s: RouteObject, next: RouteStatus, out: Outcome)
    requires name in w.objects && LocalOk(NetOf(w), w.rv, name, w.objects[name])
    requires FixedOk(NetOf(w), name, w.objects[name])
    requires w.objects[name].worker == WriteStatus(s, next)
    ensures var v := GoWriteStatus(w, name, w.objects[name], s, next, out);
            name in v.objects && NetOf(v) == NetOf(w) && FixedOk(NetOf(w), name, v.objects[name])
  {
    hide RollupKept, ObjectOk, SnapshotOk;
  }

  lemma ReleaseFixed(w: Sys, name: string, s: RouteObject, out: Outcome)
    requires name in w.objects && LocalOk(NetOf(w), w.rv, name, w.objects[name])
    requires FixedOk(NetOf(w), name, w.objects[name])
    requires w.objects[name].worker == Release(s)
    ensures var v := GoRelease(w, name, w.objects[name], s, out);
            name in v.objects && NetOf(v) == NetOf(w) && FixedOk(NetOf(w), name, v.objects[name])
  {
    hide RollupKept, ObjectOk, SnapshotOk;
  }

  lemma StoreGoFixed(w: Sys, name: string, out: Outcome)
    requires SysInv(w) && name in w.objects && FixedOk(NetOf(w), name, w.objects[name])
    requires w.objects[name].worker.AddFinalizer? || w.objects[name].worker.WriteStatus?
          || w.objects[name].worker.Release?
    ensures var v := Advance(w, name, out);
            name in v.objects && NetOf(v) == NetOf(w) && FixedOk(NetOf(w), name, v.objects[name])
  {
    hide TI.Inv, BooksOk, ClaimsOk, NetOk, TidHeld, LocalOk, FixedOk, NetOf, GoAddFinalizer, GoWriteStatus, GoRelease;
    assert LocalOk(NetOf(w), w.rv, name, w.objects[name]);
    match w.objects[name].worker
    case AddFinalizer(s, tid) => AddFinalizerFixed(w, name, s, tid, out);
    case WriteStatus(s, next) => WriteStatusFixed(w, name, s, next, out);
    case Release(s) => ReleaseFixed(w, name, s, out);
  }

  lemma RemovedFixed(n: Net, m: Net, name: string, l: Local, id: string, worker: Worker)
    requires FixedOk(n, name, l) && Removed(n, m, name, id) && l.obj.Some? && l.obj.value.deleting
    requires worker.Idle? || (!worker.Replace? && !l.worker.Idle? && worker.s == l.worker.s)
    ensures FixedOk(m, name, l.(worker := worker))
  {
  }

  lemma DeleteGoFixed(w: Sys, name: string, out: Outcome)
    requires SysInv(w) && name in w.objects && FixedOk(NetOf(w), name, w.objects[name])
    requires w.objects[name].worker.DeleteRemote?
    ensures var v := Advance(w, name, out); name in v.objects && FixedOk(NetOf(v), name, v.objects[name])
  {
    hide TI.Inv, BooksOk, ClaimsOk, NetOk, TidHeld, RollupKept, ObjectOk, Removed, VersionOk;
    var l := w.objects[name];
    assert LocalOk(NetOf(w), w.rv, name, l) && TidHeld(w.t, l.worker.tid);
    var v := Advance(w, name, out);
    if !out.Refused? {
      DeleteMeansRemoved(w, v, name, l.worker.tid, l.worker.id);
      RemovedFixed(NetOf(w), NetOf(v), name, l, l.worker.id, v.objects[name].worker);
    } else {
      assert NetOf(v) == NetOf(w);
    }
  }

  /** Which workers may follow a create. */
  lemma CreateKeepsCopy(w: Sys, name: string, l: Local, s: RouteObject, tid: string, at: Address, out: Outcome)
    ensures var v := GoCreate(w, name, l, s, tid, at, out);
            && name in v.objects && v.objects[name].obj == l.obj
            && !v.objects[name].worker.Idle? && !v.objects[name].worker.Replace? && v.objects[name].worker.s == s
            && (out.Refused? || tid !in w.t.platform.tunnels ==> v.t == w.t && v.makers == w.makers)
            && (!out.Refused? && tid in w.t.platform.tunnels ==>
                  && v.t == w.t.(platform :=
                       w.t.platform.CreateRoute(out.id, Stored(tid, CreateBody(s.spec, at.host, at.port))))
                  && v.makers == w.makers[out.id := name])
  {
    hide FailStatus, SuccessStatus, Drift, Stored, CreateBody;
  }

  lemma CreateGoFixed(w: Sys, name: string, out: Outcome)
    requires SysInv(w) && name in w.objects && FixedOk(NetOf(w), name, w.objects[name])
    requires w.objects[name].worker.Create? && PossibleOutcome(w, w.objects[name], out)
    ensures var v := Advance(w, name, out); name in v.objects && FixedOk(NetOf(v), name, v.objects[name])
  {
    hide TI.Inv, BooksOk, ClaimsOk, NetOk, TidHeld, RollupKept, ObjectOk, VersionOk, FailStatus, SuccessStatus, Drift,
      GoCreate, IdentityKnown, NotOvertaken, TidOk;
    var n, l := NetOf(w), w.objects[name];
    var s, tid, at := l.worker.s, l.worker.tid, l.worker.at;
    assert LocalOk(n, w.rv, name, l) && TidHeld(w.t, tid);
    var v := Advance(w, name, out);
    CreateKeepsCopy(w, name, l, s, tid, at, out);
    if !out.Refused? && tid in w.t.platform.tunnels {
      var route := Stored(tid, CreateBody(s.spec, at.host, at.port));
      CreateMeansAdded(w, v, name, tid, out.id, route);
      AddedFixed(n, NetOf(v), name, l, out.id, route, v.objects[name].worker);
    } else {
      assert NetOf(v) == n;
    }
  }

  lemma AddedFixed(n: Net, m: Net, name: string, l: Local, id: string, route: PRoute, worker: Worker)
    requires FixedOk(n, name, l) && Added(n, m, name, id, route) && l.obj.Some? && !l.worker.Idle?
    requires RouteIdentity(route) == SpecIdentity(l.worker.s.spec)
    requires !worker.Idle? && !worker.Replace? && worker.s == l.worker.s
    ensures FixedOk(m, name, l.(worker := worker))
  {
  }

  lemma UpdateGoFixed(w: Sys, name: string, out: Outcome)
    requires SysInv(w) && name in w.objects && FixedOk(NetOf(w), name, w.objects[name])
    requires w.objects[name].worker.Update?
    ensures var v := Advance(w, name, out); name in v.objects && FixedOk(NetOf(v), name, v.objects[name])
  {
    hide TI.Inv, BooksOk, ClaimsOk, NetOk, TidHeld, RollupKept, ObjectOk, VersionOk, FailStatus, SuccessStatus,
      IdentityKnown, NotOvertaken, TidOk;
    var n, l := NetOf(w), w.objects[name];
    assert LocalOk(n, w.rv, name, l);
    var v := Advance(w, name, out);
    var p := w.t.platform;
    if !out.Refused? && l.worker.id in p.routes && p.routes[l.worker.id].tunnelID == l.worker.tid {
      UpdateMeansChanged(w, v, name, l.worker.tid, l.worker.id, l.worker.input);
      assert forall x :: Has(NetOf(v), name, x) ==> Has(n, name, x);
    } else {
      assert NetOf(v) == n;
    }
  }

  lemma GoKeepsFixed(w: Sys, name: string, out: Outcome)
    requires SysInv(w) && name in w.objects && FixedOk(NetOf(w), name, w.objects[name])
    requires !w.objects[name].worker.Idle? && PossibleOutcome(w, w.objects[name], out)
    ensures var v := Advance(w, name, out); name in v.objects && FixedOk(NetOf(v), name, v.objects[name])
  {
    hide SysInv, NextAfterRead, GoAddFinalizer, GoReplace, GoCreate, GoUpdate, GoWriteStatus, GoDeleteRemote, GoRelease,
      PossibleOutcome, Has;
    var l := w.objects[name];
    match l.worker
    case AddFinalizer(_, _) => StoreGoFixed(w, name, out);
    case WriteStatus(_, _) => StoreGoFixed(w, name, out);
    case Release(_) => StoreGoFixed(w, name, out);
    case DeleteRemote(_, _, _) => DeleteGoFixed(w, name, out);
    case Create(_, _, _) => CreateGoFixed(w, name, out);
    case Update(_, _, _, _, _) => UpdateGoFixed(w, name, out);
    case _ => ReadGoFixed(w, name, out);
  }

  lemma ReadGoFixed(w: Sys, name: string, out: Outcome)
    requires SysInv(w) && name in w.objects && FixedOk(NetOf(w), name, w.objects[name])
    requires !w.objects[name].worker.Idle? && PossibleOutcome(w, w.objects[name], out)
    ensures FixedOk(NetOf(w), name, w.objects[name].(worker := NextAfterRead(w, w.objects[name], out)))
  {
    hide SysInv, NextAfterRead, NextAfterList, PossibleOutcome, Has;
    ReadKeepsCopy(w, w.objects[name], out);
    if w.objects[name].worker.List? && out.Done? {
      ListFixed(w, name, out);
    }
  }

  lemma ApplyKeepsFixed(w: Sys, name: string, spec: Spec)
    requires BooksOk(w) && Enabled(w, Apply(name, spec))
    ensures var v := Step(w, Apply(name, spec)); name in v.objects && FixedOk(NetOf(v), name, v.objects[name])
  {
    hide KeyFree;
    assert NetOf(Step(w, Apply(name, spec))) == NetOf(w);
    assert forall id :: !Has(NetOf(w), name, id);
  }

  lemma UserKeepsFixed(w: Sys, a: Action)
    requires Enabled(w, a) && a.OnObject() && !a.Go? && !a.Apply? && KeepsIdentity(w, a)
    requires FixedOk(NetOf(w), a.name, w.objects[a.name])
    ensures var v := Step(w, a); a.name in v.objects && FixedOk(NetOf(v), a.name, v.objects[a.name])
  {
    hide KeyFree, Settled;
    assert NetOf(Step(w, a)) == NetOf(w);
  }

  lemma TunnelKeepsFixed(w: Sys, b: Tun.Action)
    requires SysInv(w) && Enabled(w, Tunnel(b)) && FixedInv(w)
    ensures FixedInv(Step(w, Tunnel(b)))
  {
    hide LocalOk, TI.Inv, NetOk, ClaimsOk, TunnelEffect, TidHeld, BooksOk, Tun.Apply, Tun.Enabled;
    var v := Step(w, Tunnel(b));
    StepEffect(w.t, b);
    TI.StepKeepsInv(w.t, b);
    EffectOnNet(w, v);
    forall name | name in v.objects
      ensures FixedOk(NetOf(v), name, v.objects[name])
    {
      assert FixedOk(NetOf(w), name, w.objects[name]);
      assert forall id :: Has(NetOf(v), name, id) ==> Has(NetOf(w), name, id);
    }
  }

  lemma ServiceKeepsFixed(w: Sys, a: Action)
    requires FixedInv(w) && a.SetService? && Enabled(w, a)
    ensures FixedInv(Step(w, a))
  {
    assert NetOf(Step(w, a)) == NetOf(w);
  }

  lemma StepKeepsFixed(w: Sys, a: Action)
    requires SysInv(w) && FixedInv(w) && Enabled(w, a) && KeepsIdentity(w, a)
    ensures FixedInv(Step(w, a))
  {
    hide TI.Inv, ClaimsOk, NetOk, LocalOk, BooksOk, Enabled, Step, FixedOk, KeepsIdentity, Touches, RoutesOnly, TidHeld;
    if a.Tunnel? {
      TunnelKeepsFixed(w, a.action);
    } else if a.SetService? {
      ServiceKeepsFixed(w, a);
    } else {
      var v := Step(w, a);
      EveryObjectStep(w, a);
      OwnKeepsFixed(w, a);
      forall other | other in v.objects && other != a.name
        ensures FixedOk(NetOf(v), other, v.objects[other])
      {
        assert LocalOk(NetOf(w), w.rv, other, w.objects[other]) && FixedOk(NetOf(w), other, w.objects[other]);
        TouchesKeepsFixed(NetOf(w), NetOf(v), w.rv, a.name, other, w.objects[other]);
      }
    }
  }

  lemma OwnKeepsFixed(w: Sys, a: Action)
    requires SysInv(w) && FixedInv(w) && Enabled(w, a) && KeepsIdentity(w, a) && a.OnObject()
    ensures var v := Step(w, a); a.name in v.objects && FixedOk(NetOf(v), a.name, v.objects[a.name])
  {
    hide TI.Inv, NetOk, ClaimsOk, ObjectsOk, BooksOk, Advance, FixedOk, KeepsIdentity, PossibleOutcome, Settle, Put,
      EditAllowed, DeleteAllowed, KeyFree;
    if a.Go? {
      GoKeepsFixed(w, a.name, a.outcome);
    } else if a.Apply? {
      ApplyKeepsFixed(w, a.name, a.spec);
    } else {
      UserKeepsFixed(w, a);
    }
  }

  /** With identities fixed, a delete is allowed at any moment. */
  lemma DeleteNeedsNoGuard(w: Sys, name: string)
    requires SysInv(w) && FixedInv(w) && name in w.objects && w.objects[name].obj.Some?
    ensures DeleteAllowed(w, name, w.objects[name])
  {
    hide TI.Inv, ClaimsOk, BooksOk, WorkerOk, VersionOk, RollupKept;
    var n, l := NetOf(w), w.objects[name];
    assert LocalOk(n, w.rv, name, l) && FixedOk(n, name, l);
    assert forall id :: Made(w, name, id) ==> Has(n, name, id);
    if !l.obj.value.deleting && l.obj.value.status.routeID != "" && !n.dead {
      assert Has(n, name, l.obj.value.status.routeID);
      if Heading(l.worker) {
        HeadingReads(n, name, l);
      }
    }
  }

  lemma HeadingReads(n: Net, name: string, l: Local)
    requires WorkerOk(n, name, l) && Heading(l.worker)
    ensures l.obj.Some? && l.worker.s.status == l.obj.value.status
  {
  }

  /** Every live route has the identity that its object asks for. */
  lemma FixedRoute(w: Sys, name: string, id: string)
    requires SysInv(w) && FixedInv(w) && Made(w, name, id)
    ensures name in w.objects && w.objects[name].obj.Some?
    ensures RouteIdentity(w.t.platform.routes[id]) == SpecIdentity(w.objects[name].obj.value.spec)
  {
    hide TI.Inv, ClaimsOk, NetOk, WorkerOk, VersionOk, RollupKept;
    assert LocalOk(NetOf(w), w.rv, name, w.objects[name]) && FixedOk(NetOf(w), name, w.objects[name]);
    assert Has(NetOf(w), name, id);
  }

  /** So when the specs are distinct, so are the live routes. */
  lemma ApplyNeedsNoGuard(w: Sys, name: string, spec: Spec)
    requires SysInv(w) && FixedInv(w) && SpecsDistinct(w, name, spec)
    ensures KeyFree(w, name, spec)
  {
    hide SysInv, FixedInv;
    forall id | id in w.t.platform.routes && id in w.makers && w.makers[id] != name
      ensures !SameKey(w.t.platform.routes[id], spec)
    {
      FixedRoute(w, w.makers[id], id);
    }
  }

  // ---------------------------------------------------------------- runs with no guards at all

  /** Users apply objects of distinct hostname and prefix, never change an identity, and do what they like
      otherwise. */
  ghost predicate PlainEnabled(w: Sys, a: Action) {
    match a
    case Apply(name, spec) => name !in w.objects && ValidSpec(spec) && SpecsDistinct(w, name, spec)
    case UserDelete(name) => name in w.objects && w.objects[name].obj.Some?
    case Edit(name, spec) =>
      && name in w.objects && w.objects[name].obj.Some? && ValidSpec(spec)
      && SpecIdentity(spec) == SpecIdentity(w.objects[name].obj.value.spec)
    case _ => Enabled(w, a)
  }

  ghost function PlainStep(w: Sys, a: Action): Sys
    requires PlainEnabled(w, a)
  {
    match a
    case Apply(name, spec) => Applied(w, name, spec)
    case UserDelete(name) => Deleted(w, name)
    case Edit(name, spec) => Edited(w, name, spec)
    case _ => Step(w, a)
  }

  ghost predicate PlainRun(w: Sys, actions: seq<Action>, end: Sys)
    decreases |actions|
  {
    if actions == [] then w == end
    else PlainEnabled(w, actions[0]) && PlainRun(PlainStep(w, actions[0]), actions[1..], end)
  }

  lemma PlainIsEnabled(w: Sys, a: Action)
    requires SysInv(w) && FixedInv(w) && PlainEnabled(w, a)
    ensures Enabled(w, a) && KeepsIdentity(w, a) && Step(w, a) == PlainStep(w, a)
  {
    hide SysInv, FixedInv, KeyFree, SpecsDistinct, Settled, PossibleOutcome, Advance, Tun.Enabled, Tun.Apply,
      Deleted, Edited, Applied;
    if a.UserDelete? {
      DeleteNeedsNoGuard(w, a.name);
    } else if a.Apply? {
      ApplyNeedsNoGuard(w, a.name, a.spec);
    }
  }

  /** Such runs are runs of the machine: with identities fixed and specs distinct the guards exclude nothing, and every
      theorem about runs holds without them. */
  lemma {:induction false} PlainRunKeeps(w: Sys, actions: seq<Action>, end: Sys)
    requires SysInv(w) && FixedInv(w) && PlainRun(w, actions, end)
    ensures Run(w, actions, end) && SysInv(end) && FixedInv(end)
    decreases |actions|
  {
    hide SysInv, FixedInv, Step, Enabled, KeepsIdentity, PlainStep, PlainEnabled;
    if actions != [] {
      PlainIsEnabled(w, actions[0]);
      StepKeepsSysInv(w, actions[0]);
      StepKeepsFixed(w, actions[0]);
      PlainRunKeeps(Step(w, actions[0]), actions[1..], end);
    }
  }

  /** In them no reconcile is ever about to replace a route, every live route has the identity its object asks for, and
      no step of one object changes anything on the platform but routes made for it. */
  lemma FixedIdentityNeedsNoGuards(w0: Sys, actions: seq<Action>, w: Sys)
    requires Init(w0) && PlainRun(w0, actions, w)
    ensures Run(w0, actions, w)
    ensures forall name :: name in w.objects ==> !w.objects[name].worker.Replace?
    ensures forall name, id :: Made(w, name, id) ==>
              name in w.objects && w.objects[name].obj.Some?
              && RouteIdentity(w.t.platform.routes[id]) == SpecIdentity(w.objects[name].obj.value.spec)
    ensures forall a :: PlainEnabled(w, a) && a.OnObject() ==> OthersUntouched(w, PlainStep(w, a), a.name)
  {
    hide SysInv, Init, PlainRun, Run, PlainEnabled, PlainStep, OthersUntouched, Step;
    InitSysInv(w0);
    InitFixed(w0);
    PlainRunKeeps(w0, actions, w);
    forall name | name in w.objects
      ensures !w.objects[name].worker.Replace?
    {
      assert FixedOk(NetOf(w), name, w.objects[name]);
    }
    forall name, id | Made(w, name, id)
      ensures name in w.objects && w.objects[name].obj.Some?
              && RouteIdentity(w.t.platform.routes[id]) == SpecIdentity(w.objects[name].obj.value.spec)
    {
      FixedRoute(w, name, id);
    }
    forall a | PlainEnabled(w, a) && a.OnObject()
      ensures OthersUntouched(w, PlainStep(w, a), a.name)
    {
      PlainIsEnabled(w, a);
      NonInterference(w0, actions, w, a);
    }
  }

  lemma InitFixed(w: Sys)
    requires Init(w)
    ensures FixedInv(w)
  {
  }
}
