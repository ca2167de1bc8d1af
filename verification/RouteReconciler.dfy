/** internal/controller/tunnelroute_controller.go in its own form: methods that update the in-memory copy of
    the route in place and issue ordered calls. Every execution, with any outcomes and any interference
    between calls, is a run of the machine, so every theorem about runs is about it. */
module RouteReconciler {
  import opened Base
  import opened Errors
  import opened Platform
  import opened RouteSpec
  import opened Upstream
  import opened RouteMachine
  import opened RouteVerdicts

  /** Actions of anybody but the reconcile of `name`. */
  predicate Elsewhere(actions: seq<Action>, name: string) {
    forall a :: a in actions && (a.Begin? || a.Go? || a.Crash?) ==> a.name != name
  }

  /** Gone, or on its way out without our finalizer: none of our business any more. */
  predicate Terminating(l: Local) {
    l.obj.None? || (l.obj.value.deleting && !l.obj.value.finalizer)
  }

  /** Fifteen seconds for a tunnel that is still being made, five minutes for anything else. */
  function Delay(st: RouteStatus): nat {
    if st.synced.Condition? && st.synced.reason == TunnelNotReady then TUNNEL_NOT_READY_RETRY else RESYNC_PERIOD
  }

  lemma StepKeepsTerminating(w: Sys, a: Action, name: string)
    requires Enabled(w, a) && name in w.objects && Terminating(w.objects[name]) && Elsewhere([a], name)
    ensures name in Step(w, a).objects && Terminating(Step(w, a).objects[name])
  {
    hide Advance, Settled, KeyFree, PossibleOutcome;
    assert a in [a];
    if a.Go? {
      AdvanceElsewhere(w, a.name, a.outcome, name);
    }
  }

  /** No action of anybody else brings such an object back. */
  lemma {:induction false} RunKeepsTerminating(w: Sys, actions: seq<Action>, end: Sys, name: string)
    requires Run(w, actions, end) && Elsewhere(actions, name) && name in w.objects && Terminating(w.objects[name])
    ensures name in end.objects && Terminating(end.objects[name])
    decreases |actions|
  {
    hide Step, Enabled, Terminating;
    if actions != [] {
      StepKeepsTerminating(w, actions[0], name);
      RunKeepsTerminating(Step(w, actions[0]), actions[1..], end, name);
    }
  }

  /** What can be read off a trace about `name`: the errors that failed its publishing, in order, and how many of its
      reconciles got their status written. */
  datatype Ledger = Ledger(failures: seq<Error>, closed: nat)

  function Entry(w: Sys, name: string, a: Action, l: Ledger): Ledger {
    if !a.Go? || a.name != name || name !in w.objects then l
    else
      var here := w.objects[name];
      var e := FailureOf(w, here.worker, a.outcome);
      Ledger(l.failures + (if e.Some? then [e.value] else []),
             l.closed + (if here.worker.WriteStatus? && a.outcome.Done? && Current(here, here.worker.s) then 1 else 0))
  }

  ghost function LedgerOf(w: Sys, name: string, actions: seq<Action>, l: Ledger): Ledger
    decreases |actions|
  {
    if actions == [] || !Enabled(w, actions[0]) then l
    else LedgerOf(Step(w, actions[0]), name, actions[1..], Entry(w, name, actions[0], l))
  }

  lemma {:induction false} LedgerThen(w: Sys, name: string, actions: seq<Action>, mid: Sys, a: Action, l: Ledger)
    requires Run(w, actions, mid) && Enabled(mid, a)
    ensures LedgerOf(w, name, actions + [a], l) == Entry(mid, name, a, LedgerOf(w, name, actions, l))
    decreases |actions|
  {
    hide Step, Enabled, Entry;
    if actions == [] {
      assert actions + [a] == [a] && [a][1..] == [];
    } else {
      assert (actions + [a])[1..] == actions[1..] + [a];
      LedgerThen(Step(w, actions[0]), name, actions[1..], mid, a, Entry(w, name, actions[0], l));
    }
  }

  /** Nobody else's actions are in it. */
  lemma {:induction false} OthersAreNotRecorded(w: Sys, name: string, actions: seq<Action>, end: Sys, l: Ledger)
    requires Run(w, actions, end) && Elsewhere(actions, name)
    ensures LedgerOf(w, name, actions, l) == l
    decreases |actions|
  {
    hide Step, Enabled;
    if actions != [] {
      OthersAreNotRecorded(Step(w, actions[0]), name, actions[1..], end, l);
    }
  }

  /** One error was added, with the verdict of this one. */
  predicate OneMore(before: Ledger, after: Ledger, e: Error) {
    && |after.failures| == |before.failures| + 1 && after.failures[..|before.failures|] == before.failures
    && Classify(after.failures[|before.failures|]) == Classify(e) && after.closed == before.closed
  }

  datatype ReadResult = Found | Absent | ReadFailed
  datatype WriteResult = Written | Gone | WriteFailed
  datatype TunnelRead = Seen(view: Option<string>) | Unseen

  /** findRoute's two search loops: the recorded id first, then hostname and prefix. */
  method SearchRoute(routes: seq<Listed>, routeID: string, spec: Spec) returns (found: Option<Listed>)
    ensures found == FindRoute(routes, routeID, spec)
  {
    if routeID != "" {
      for i := 0 to |routes|
        invariant ById(routes, routeID) == ById(routes[i..], routeID)
      {
        if routes[i].id == routeID {
          return Some(routes[i]);
        }
        assert routes[i..][1..] == routes[i + 1..];
      }
    }
    for i := 0 to |routes|
      invariant ByKey(routes, spec) == ByKey(routes[i..], spec)
    {
      if routes[i].route.hostname == spec.hostname && routes[i].route.pathPrefix == PathPrefix(spec) {
        return Some(routes[i]);
      }
      assert routes[i..][1..] == routes[i + 1..];
    }
    found := None;
  }

  /** routeDrift: fills in the update field by field. */
  method RouteDrift(actual: PRoute, spec: Spec, at: Address) returns (input: UpdateInput, changed: bool)
    ensures (input, changed) == Drift(actual, spec, at.host, at.port)
  {
    input, changed := UpdateInput(None, None, None, None, None, None), false;
    if actual.upstreamHost != at.host {
      input, changed := input.(upstreamHost := Some(at.host)), true;
    }
    if actual.upstreamPort != at.port {
      input, changed := input.(upstreamPort := Some(at.port)), true;
    }
    if actual.scheme != Scheme(spec) {
      input, changed := input.(scheme := Some(Scheme(spec))), true;
    }
    if actual.stripPrefix != spec.stripPrefix {
      input, changed := input.(stripPrefix := Some(spec.stripPrefix)), true;
    }
    if actual.priority != Priority(spec) {
      input, changed := input.(priority := Some(Priority(spec))), true;
    }
    if actual.enabled != IsEnabled(spec) {
      input, changed := input.(enabled := Some(IsEnabled(spec))), true;
    }
  }

  class Reconciler {
    const name: string
    /** Everything outside the process, together with where the reconcile stands. */
    var sys: Sys
    /** The in-memory copy of the route object. */
    var route: RouteObject
    /** The outcome of the n-th call. */
    const outcomes: nat -> Outcome
    var calls: nat

    ghost const start: Sys
    ghost var trace: seq<Action>
    ghost var ledger: Ledger

    constructor (w: Sys, name: string, outcomes: nat -> Outcome)
      requires name in w.objects
      ensures Valid() && sys == w && start == w && trace == [] && this.name == name
    {
      sys, calls, start, trace, ledger, this.name := w, 0, w, [], Ledger([], 0), name;
      route := RouteObject(0, 0, false, false, false,
                           Spec("", "", "", None, None, "", false, None, None), NO_STATUS);
      this.outcomes := outcomes;
    }

    ghost predicate Valid()
      reads this
    {
      && Run(start, trace, sys) && name in sys.objects
      && ledger == LedgerOf(start, name, trace, Ledger([], 0))
    }

    function Local(): Local
      requires name in sys.objects
      reads this
    {
      sys.objects[name]
    }

    // ------------------------------------------------------------ the outside

    /** Whatever anybody else does between two calls. Callers know only this contract. */
    method Interfere()
      requires Valid()
      modifies `sys, `trace
      ensures Valid() && Local().worker == old(Local().worker)
      ensures sys.domain == old(sys.domain) && sys.namespace == old(sys.namespace)
      ensures old(trace) <= trace && Elsewhere(trace[|old(trace)|..], name)
      ensures Run(old(sys), trace[|old(trace)|..], sys)
    {
    }

    /** One call of the reconcile in flight. */
    method Call() returns (out: Outcome)
      requires Valid() && !Local().worker.Idle?
      modifies `sys, `trace, `calls, `ledger
      ensures Valid() && PossibleOutcome(old(sys), old(Local()), out)
      ensures sys == Advance(old(sys), name, out) && trace == old(trace) + [Go(name, out)]
      ensures ledger == Entry(old(sys), name, Go(name, out), old(ledger))
    {
      hide Advance, Run, LedgerOf;
      out := if PossibleOutcome(sys, Local(), outcomes(calls)) then outcomes(calls) else Refused(Plain);
      calls := calls + 1;
      ghost var before := sys;
      sys := Advance(sys, name, out);
      AdvanceNames(before, name, out);
      LedgerThen(start, name, trace, before, Go(name, out), Ledger([], 0));
      ledger := Entry(before, name, Go(name, out), ledger);
      RunThen(start, trace, before, Go(name, out));
      trace := trace + [Go(name, out)];
    }

    method Get() returns (r: ReadResult)
      requires Valid() && Local().worker.Idle?
      modifies `sys, `trace, `route, `calls, `ledger
      ensures Valid() && old(trace) <= trace
      ensures r.ReadFailed? ==> Local().worker.Idle?
      ensures r.Absent? ==> Local().worker.Idle? && Local().obj.None?
      ensures r.Found? ==> Local().obj == Some(route) && Local().worker == NeedTunnel(route)
      ensures ledger == old(ledger)
    {
      Interfere();
      var failed := outcomes(calls).Refused?;
      calls := calls + 1;
      if failed {
        return ReadFailed;
      }
      ghost var before := sys;
      sys := At(sys, name, Local().(worker := Start(Local())));
      LedgerThen(start, name, trace, before, Begin(name), Ledger([], 0));
      RunThen(start, trace, before, Begin(name));
      trace := trace + [Begin(name)];
      if Local().obj.Some? {
        route := Local().obj.value;
        r := Found;
      } else {
        r := Absent;
      }
    }

    /** Read of the Tunnel object the route refers to: its recorded id, nothing (a 404), or an error. */
    method GetTunnel() returns (r: TunnelRead)
      requires Valid() && Local().worker == NeedTunnel(route) && Local().obj == Some(route)
      modifies `sys, `trace, `calls, `ledger
      ensures Valid() && old(trace) <= trace
      ensures Local().worker == if r.Seen? then NextAfterTunnel(route, r.view) else Idle
      ensures route.deleting && !route.finalizer ==> Terminating(Local())
      ensures ledger == old(ledger)
    {
      ghost var before, n := sys, |trace|;
      Interfere();
      if Terminating(before.objects[name]) {
        RunKeepsTerminating(before, trace[n..], sys, name);
      }
      var view := TunnelID(sys);
      var out := Call();
      r := if out.Done? then Seen(view) else Unseen;
    }

    /** Update of the object, to put the finalizer on. */
    method UpdateAddingFinalizer(tid: string) returns (ok: bool)
      requires Valid() && Local().worker.AddFinalizer? && Local().worker.tid == tid
      requires route == Local().worker.s.(finalizer := true)
      modifies `sys, `trace, `route, `calls, `ledger
      ensures Valid() && old(trace) <= trace
      ensures ok ==> route == old(route).(rv := route.rv) && Local().worker == AfterFinalizer(route, tid)
      ensures !ok ==> Local().worker.Idle?
      ensures ledger == old(ledger)
    {
      Interfere();
      var current := Current(Local(), Local().worker.s);
      var out := Call();
      ok := out.Done? && current;
      if ok {
        route := Local().obj.value;
      }
    }

    /** Update of the object, to take the finalizer off. */
    method UpdateReleasing() returns (ok: bool)
      requires Valid() && Local().worker.Release? && route == Local().worker.s.(finalizer := false) && route.deleting
      modifies `sys, `trace, `calls, `ledger
      ensures Valid() && old(trace) <= trace && Local().worker.Idle?
      ensures ok ==> Terminating(Local())
      ensures ledger == old(ledger)
    {
      Interfere();
      var current := Current(Local(), Local().worker.s);
      var out := Call();
      ok := out.Done? && current;
    }

    method UpdateStatus() returns (r: WriteResult)
      requires Valid() && Local().worker.WriteStatus? && route == Local().worker.s.(status := Local().worker.next)
      modifies `sys, `trace, `calls, `ledger
      ensures Valid() && old(trace) <= trace && Local().worker.Idle?
      ensures r.Gone? ==> Local().obj.None?
      ensures r.Written? ==> Local().obj.Some? && Local().obj.value.status == route.status
      ensures ledger == old(ledger).(closed := old(ledger).closed + (if r.Written? then 1 else 0))
    {
      Interfere();
      var before := Local();
      var out := Call();
      r := if out.Done? && Current(before, before.worker.s) then Written
           else if out.Done? && before.obj.None? then Gone
           else WriteFailed;
    }

    /** Read of the Service named in the spec, from the route's own namespace, as the cluster holds it at that
        moment. */
    method GetService() returns (svc: Option<Service>, ok: bool)
      requires Valid() && Local().worker.NeedUpstream? && Local().worker.s == route
      modifies `sys, `trace, `calls, `ledger
      ensures Valid() && old(trace) <= trace
      ensures |trace| > 0 && trace[|trace| - 1].Go? && ok == trace[|trace| - 1].outcome.Done?
      ensures svc == if ok then ServiceOf(sys, route.spec) else None
      ensures Local().worker == match Resolve(route.spec, svc, sys.domain)
              case None => WriteStatus(route, UnresolvedStatus(route))
              case Some(at) => NeedClient(route, old(Local().worker).tid, at)
      ensures ledger == old(ledger)
    {
      Interfere();
      var out := Call();
      ok := out.Done?;
      svc := if ok then ServiceOf(sys, route.spec) else None;
    }

    /** The route in memory once Resolved is set; `s` is what was read. */
    ghost predicate ResolvedCopy(s: RouteObject)
      reads this
    {
      route == s.(status := ResolvedStatus(s))
    }

    method ClientFor() returns (readable: bool)
      requires Valid() && (Local().worker.NeedClient? || Local().worker.DeleteClient?)
      modifies `sys, `trace, `calls, `ledger
      ensures Valid() && old(trace) <= trace
      ensures var before := old(Local().worker);
              if before.NeedClient? then
                Local().worker == if readable then List(before.s, before.tid, before.at)
                                  else WriteStatus(before.s, Close(before.s, ResolvedStatus(before.s), false,
                                                                   CredentialUnreadable))
              else
                Local().worker == if !readable then Idle
                                  else if before.s.status.routeID != ""
                                  then DeleteRemote(before.s, before.tid, before.s.status.routeID)
                                  else DeleteList(before.s, before.tid)
      ensures ledger == old(ledger)
    {
      Interfere();
      readable := sys.t.credential;
      var out := Call();
      readable := readable && out.Done?;
    }

    method ListRoutes(tid: string) returns (routes: seq<Listed>, err: Option<Error>)
      requires Valid() && (Local().worker.List? || Local().worker.DeleteList?) && Local().worker.tid == tid
      modifies `sys, `trace, `calls, `ledger
      ensures Valid() && old(trace) <= trace
      ensures var before := old(Local().worker);
              match err
              case None => IsListing(routes, sys.t.platform.routes, tid)
                && Local().worker == if before.List? then NextAfterList(before.s, tid, before.at, routes)
                                     else NextAfterDeleteList(before.s, tid, routes)
              case Some(e) =>
                Local().worker == if before.List? then WriteStatus(before.s, FailStatus(before.s, e)) else Idle
      ensures if err.None? || old(Local().worker).DeleteList? then ledger == old(ledger)
              else OneMore(old(ledger), ledger, err.value)
    {
      hide IsListing, FindRoute;
      Interfere();
      var out := Call();
      routes := if out.Done? then out.listing else [];
      err := if out.Done? then None else Some(out.err);
    }

    /** DELETE of one route; a 404 counts as deleted. */
    method DeleteRoute(tid: string, id: string) returns (err: Option<Error>)
      requires Valid() && (Local().worker.Replace? || Local().worker.DeleteRemote?)
      requires Local().worker.tid == tid && Local().worker.id == id
      modifies `sys, `trace, `calls, `ledger
      ensures Valid() && old(trace) <= trace
      ensures err.Some? ==> !IsNotFound(err.value)
      ensures var before := old(Local().worker);
              match err
              case None =>
                Local().worker == if before.Replace? then Create(before.s, tid, before.at) else Release(before.s)
              case Some(e) =>
                Local().worker == if before.Replace? then WriteStatus(before.s, FailStatus(before.s, Wrapped(e)))
                                  else Idle
      ensures if err.None? || old(Local().worker).DeleteRemote? then ledger == old(ledger)
              else OneMore(old(ledger), ledger, err.value)
    {
      Interfere();
      var out := Call();
      err := if out.Done? then None else Some(out.err);
    }

    method CreateRoute(tid: string, input: CreateInput) returns (created: Listed, err: Option<Error>)
      requires Valid() && Local().worker.Create? && Local().worker.tid == tid
      requires input == CreateBody(Local().worker.s.spec, Local().worker.at.host, Local().worker.at.port)
      modifies `sys, `trace, `calls, `ledger
      ensures Valid() && old(trace) <= trace
      ensures var before := old(Local().worker);
              match err
              case None => created.route == Stored(tid, input)
                && Local().worker == Compare(before.s, tid, before.at, created.id, created.route)
              case Some(e) => Local().worker == WriteStatus(before.s, FailStatus(before.s, e))
      ensures if err.None? then ledger == old(ledger) else OneMore(old(ledger), ledger, err.value)
    {
      hide Stored, Compare, FailStatus;
      Interfere();
      var present := tid in sys.t.platform.tunnels;
      var out := Call();
      created := Listed(if out.Refused? then "" else out.id, Stored(tid, input));
      err := if out.Refused? then Some(out.err)
             else if !present then Some(APIError(404, CodeNotFound))
             else if out.Done? then None else Some(out.err);
    }

    method UpdateRoute(tid: string, id: string, input: UpdateInput) returns (err: Option<Error>)
      requires Valid() && Local().worker.Update?
      requires Local().worker == Update(Local().worker.s, tid, Local().worker.at, id, input)
      modifies `sys, `trace, `calls, `ledger
      ensures Valid() && old(trace) <= trace
      ensures var before := old(Local().worker);
              match err
              case None => Local().worker == WriteStatus(before.s, SuccessStatus(before.s, tid, before.at, id))
              case Some(e) => Local().worker == WriteStatus(before.s, FailStatus(before.s, e))
      ensures if err.None? then ledger == old(ledger) else OneMore(old(ledger), ledger, err.value)
    {
      hide SuccessStatus, FailStatus, Updated;
      Interfere();
      var present := id in sys.t.platform.routes && sys.t.platform.routes[id].tunnelID == tid;
      var out := Call();
      err := if out.Refused? then Some(out.err)
             else if !present then Some(APIError(404, CodeNotFound))
             else if out.Done? then None else Some(out.err);
    }

    // ------------------------------------------------------------ the reconciler

    method SetResolved(status: bool, reason: Reason)
      modifies `route
      ensures route == old(route).(status :=
                old(route).status.(resolved := Condition(status, reason, old(route).generation)))
    {
      route := route.(status := route.status.(resolved := Condition(status, reason, route.generation)));
    }

    method SetSynced(status: bool, reason: Reason)
      modifies `route
      ensures route == old(route).(status :=
                old(route).status.(synced := Condition(status, reason, old(route).generation)))
    {
      route := route.(status := route.status.(synced := Condition(status, reason, route.generation)));
    }

    method SetReadyFrom()
      modifies `route
      ensures route == old(route).(status := SetReady(old(route).status, old(route).generation))
      ensures route.status.ready.True() <==> old(route).status.resolved.True() && old(route).status.synced.True()
    {
      var resolved, synced := route.status.resolved.True(), route.status.synced.True();
      var status, reason := false, Published;
      if !resolved {
        reason := UpstreamUnresolved;
      } else if !synced {
        reason := NotSynced;
      } else {
        status := true;
      }
      route := route.(status := route.status.(ready := Condition(status, reason, route.generation)));
    }

    /** The object comes back to the queue, with an error or after the delay its written status calls for, unless
        it is gone or none of our business any more. An error carries no delay of its own. */
    ghost predicate NotDropped(exit: Exit)
      requires name in sys.objects
      reads this
    {
      || exit == Exit(0, true)
      || (Local().obj.Some? && exit == Exit(Delay(Local().obj.value.status), false) && exit.requeueAfter > 0)
      || (exit == Exit(0, false) && Terminating(Local()))
    }

    /** The exit after a failure whose status was written: five minutes and no error if it is permanent. */
    function ExitAfter(e: Error): Exit {
      if Classify(e).permanent then Exit(300, false) else Exit(0, true)
    }

    /** The persisted status says that the route is not published, for this reason. */
    ghost predicate TellsIt(reason: Reason)
      requires name in sys.objects
      reads this
    {
      && Local().obj.Some? && !Local().obj.value.status.ready.True()
      && Local().obj.value.status.synced.Condition? && !Local().obj.value.status.synced.status
      && Local().obj.value.status.synced.reason == reason
    }

    /** Since then: if something failed, it was one call, and if the status was written, the exit is what the verdict on
        that call's error says and the status tells it. If nothing failed and the status was written, the exit is no
        error, and the status is Ready or tells why the publishing was not tried. A delay is asked for after a status
        write only. */
    ghost predicate Accounted(before: Ledger, exit: Exit)
      requires name in sys.objects
      reads this
    {
      && (if ledger.failures == before.failures then
            ledger.closed > before.closed ==>
              && exit == Exit(if TellsIt(TunnelNotReady) then 15 else 300, false) && Local().obj.Some?
              && (|| Local().obj.value.status.ready.True()
                  || TellsIt(TunnelNotFound) || TellsIt(TunnelNotReady) || TellsIt(UpstreamUnresolved)
                  || TellsIt(CredentialUnreadable))
          else
            && |ledger.failures| == |before.failures| + 1 && ledger.failures[..|before.failures|] == before.failures
            && var e := ledger.failures[|before.failures|];
               (ledger.closed > before.closed ==> exit == ExitAfter(e) && TellsIt(Classify(e).reason)))
      && (exit.requeueAfter > 0 ==> ledger.closed > before.closed)
      && ledger.closed >= before.closed
    }

    /** Writes the status and returns, preserving the reconcile's own error. */
    method Finish(requeueAfter: nat, failed: bool) returns (exit: Exit, ghost result: WriteResult)
      requires Valid() && Local().worker.WriteStatus?
      requires requeueAfter == if failed then 0 else Delay(route.status)
      requires Local().worker.s.(status := Local().worker.next)
               == route.(status := route.status.(observedGeneration := route.generation))
      modifies `sys, `trace, `route, `calls, `ledger
      ensures Valid() && old(trace) <= trace && Local().worker.Idle? && NotDropped(exit)
      ensures failed ==> exit.failed
      ensures result.Written? ==> exit == Exit(requeueAfter, failed)
      ensures result.Written? ==> Local().obj.Some? && Local().obj.value.status == route.status
      ensures ledger == old(ledger).(closed := old(ledger).closed + (if result.Written? then 1 else 0))
      ensures route == old(route).(status := old(route).status.(observedGeneration := old(route).generation))
      ensures exit == if failed then Exit(requeueAfter, true)
                      else match result
                        case Written => Exit(requeueAfter, false)
                        case Gone => Exit(0, false)
                        case WriteFailed => Exit(0, true)
    {
      route := route.(status := route.status.(observedGeneration := route.generation));
      var r := UpdateStatus();
      result := r;
      if !r.Written? && !failed {
        return Exit(0, r.WriteFailed?), result;
      }
      exit := Exit(requeueAfter, failed);
    }

    /** Not synced for this reason, then Ready recomputed: how the exits before publishing end. */
    method Refuse(reason: Reason, retry: nat) returns (exit: Exit)
      requires Valid() && Local().worker.WriteStatus?
      requires reason == TunnelNotFound || reason == TunnelNotReady || reason == UpstreamUnresolved
            || reason == CredentialUnreadable
      requires retry == if reason == TunnelNotReady then TUNNEL_NOT_READY_RETRY else PERMANENT_RETRY_PERIOD
      requires route == Local().worker.s.(status := route.status)
      requires Local().worker.next == Close(route, route.status, false, reason)
      modifies `sys, `trace, `route, `calls, `ledger
      ensures Valid() && old(trace) <= trace && Local().worker.Idle? && NotDropped(exit)
      ensures ledger.failures == old(ledger).failures && ledger.closed >= old(ledger).closed
      ensures ledger.closed > old(ledger).closed ==> exit == Exit(retry, false) && TellsIt(reason)
      ensures exit.requeueAfter > 0 ==> ledger.closed > old(ledger).closed
      ensures Accounted(old(ledger), exit)
    {
      hide Run;
      SetSynced(false, reason);
      SetReadyFrom();
      ghost var result: WriteResult;
      exit, result := Finish(retry, false);
    }

    /** resolveUpstream: an upstream in the spec is taken as it is, a Service must declare the port. */
    method ResolveUpstream() returns (at: Option<Address>)
      requires Valid() && Local().worker.NeedUpstream? && Local().worker.s == route
      modifies `sys, `trace, `calls, `ledger
      ensures Valid() && old(trace) <= trace && |trace| > 0 && trace[|trace| - 1].Go?
      // `sys` holds the Services as they were at the read
      ensures at == Resolve(route.spec, ServiceRead(sys, route.spec, trace[|trace| - 1].outcome), sys.domain)
      ensures trace[|trace| - 1].outcome.Done? && route.spec.service.Some? && route.spec.upstream.None? ==>
                var target := route.spec.service.value;
                at.None? <==> target.name !in sys.services
                              || forall p :: p in sys.services[target.name] ==>
                                   target.port != Name(p.name) && target.port != Number(p.port)
      ensures Local().worker == match at
              case None => WriteStatus(route, UnresolvedStatus(route))
              case Some(a) => NeedClient(route, old(Local().worker).tid, a)
      ensures ledger == old(ledger)
    {
      hide Run;
      var svc, ok := GetService();
      match route.spec.upstream
      case Some(u) => at := Some(Address(u.host, u.port));
      case None =>
        if route.spec.service.None? || !ok || svc.None? {
          return None;
        }
        var port := FindPort(svc.value, route.spec.service.value.port);
        if port.None? {
          return None;
        }
        at := Some(Address(HostName(svc.value.name, svc.value.namespace, sys.domain), port.value));
    }

    /** ensureRoute: find, replace what cannot be updated, create what is missing, then always compare. */
    method EnsureRoute(tid: string, at: Address) returns (id: string, err: Option<Error>)
      requires Valid() && Local().worker.List? && Local().worker == List(Local().worker.s, tid, at)
      requires ResolvedCopy(Local().worker.s)
      modifies `sys, `trace, `calls, `ledger
      ensures Valid() && old(trace) <= trace
      ensures var s := old(Local().worker).s;
              match err
              case None => Local().worker == WriteStatus(s, SuccessStatus(s, tid, at, id))
              case Some(e) => Local().worker == WriteStatus(s, FailStatus(s, e))
      ensures if err.None? then ledger == old(ledger) else OneMore(old(ledger), ledger, err.value)
    {
      hide Run, FindRoute, IsListing, IdentityChanged, Drift, SuccessStatus, FailStatus, Stored, CreateBody;
      id := "";
      var routes;
      routes, err := ListRoutes(tid);
      if err.Some? {
        return;
      }
      var existing := SearchRoute(routes, route.status.routeID, route.spec);
      if existing.Some? && IdentityChanged(existing.value.route, route.spec) {
        err := DeleteRoute(tid, existing.value.id);
        if err.Some? {
          return "", Some(Wrapped(err.value));
        }
        existing := None;
      }
      if existing.None? {
        var created;
        created, err := CreateRoute(tid, CreateBody(route.spec, at.host, at.port));
        if err.Some? {
          return;
        }
        existing := Some(created);
      }
      id := existing.value.id;
      var update, changed := RouteDrift(existing.value.route, route.spec, at);
      if changed {
        err := UpdateRoute(tid, id, update);
      }
    }

    /** Records that publishing failed: a permanent failure is retried slowly and is no error. */
    method FailPublishing(err: Error) returns (exit: Exit, ghost result: WriteResult)
      requires Valid() && Local().worker.WriteStatus? && ResolvedCopy(Local().worker.s)
      requires Local().worker.next == FailStatus(Local().worker.s, err)
      modifies `sys, `trace, `route, `calls, `ledger
      ensures Valid() && old(trace) <= trace && Local().worker.Idle? && NotDropped(exit)
      ensures !Classify(err).permanent ==> exit.failed
      ensures result.Written? ==> (exit.failed <==> !Classify(err).permanent)
      ensures ledger == old(ledger).(closed := old(ledger).closed + (if result.Written? then 1 else 0))
      ensures result.Written? ==> exit == ExitAfter(err) && TellsIt(Classify(err).reason)
      ensures !result.Written? ==> exit.requeueAfter == 0
    {
      hide Run;
      var failure := Classify(err);
      SetSynced(false, failure.reason);
      SetReadyFrom();
      if failure.permanent {
        exit, result := Finish(PERMANENT_RETRY_PERIOD, false);
      } else {
        exit, result := Finish(0, true);
      }
    }

    method Reconcile() returns (exit: Exit)
      requires Valid() && Local().worker.Idle?
      modifies this
      ensures Valid() && old(trace) <= trace && Local().worker.Idle? && NotDropped(exit)
      ensures Accounted(old(ledger), exit)
    {
      hide Run, FailStatus;
      var read := Get();
      if read.ReadFailed? {
        return Exit(0, true);
      }
      if read.Absent? {
        return Exit(0, false);
      }
      var tunnel := GetTunnel();
      if route.deleting {
        exit := ReconcileDelete(tunnel);
        return;
      }
      if tunnel.Unseen? {
        return Exit(0, true);
      }
      if tunnel.view.None? {
        exit := Refuse(TunnelNotFound, PERMANENT_RETRY_PERIOD);
        return;
      }
      exit := Publish(tunnel.view.value);
    }

    /** Reconcile from the finalizer on. */
    method Publish(tid: string) returns (exit: Exit)
      requires Valid() && !route.deleting
      requires Local().worker == if route.finalizer then AfterFinalizer(route, tid) else AddFinalizer(route, tid)
      modifies this
      ensures Valid() && old(trace) <= trace && Local().worker.Idle? && NotDropped(exit)
      ensures Accounted(old(ledger), exit)
    {
      hide Run, LedgerOf, FailStatus;
      if !route.finalizer {
        route := route.(finalizer := true);
        var ok := UpdateAddingFinalizer(tid);
        if !ok {
          return Exit(0, true);
        }
      }
      exit := PublishIn(tid);
    }

    /** Reconcile once the finalizer is on. */
    method PublishIn(tid: string) returns (exit: Exit)
      requires Valid() && Local().worker == AfterFinalizer(route, tid)
      modifies this
      ensures Valid() && old(trace) <= trace && Local().worker.Idle? && NotDropped(exit)
      ensures Accounted(old(ledger), exit)
    {
      hide Run, LedgerOf, FailStatus, Resolve, Accounted, NotDropped;
      if tid == "" {
        exit := Refuse(TunnelNotReady, TUNNEL_NOT_READY_RETRY);
        return;
      }
      var at := ResolveUpstream();
      if at.None? {
        SetResolved(false, UpstreamUnresolved);
        exit := Refuse(UpstreamUnresolved, PERMANENT_RETRY_PERIOD);
        return;
      }
      SetResolved(true, Resolved);
      exit := Deliver(tid, at.value);
    }

    /** Reconcile once the upstream is known. */
    method Deliver(tid: string, at: Address) returns (exit: Exit)
      requires Valid() && Local().worker.NeedClient? && ResolvedCopy(Local().worker.s)
      requires Local().worker == NeedClient(Local().worker.s, tid, at)
      modifies this
      ensures Valid() && old(trace) <= trace && Local().worker.Idle? && NotDropped(exit)
      ensures Accounted(old(ledger), exit)
    {
      hide Run, FailStatus;
      ghost var result: WriteResult;
      var readable := ClientFor();
      if !readable {
        exit := Refuse(CredentialUnreadable, PERMANENT_RETRY_PERIOD);
        return;
      }
      var id, err := EnsureRoute(tid, at);
      if err.Some? {
        exit, result := FailPublishing(err.value);
        return;
      }
      route := route.(status := route.status.(routeID := id, tunnelID := tid, upstream := Some(at)));
      SetSynced(true, Synced);
      SetReadyFrom();
      exit, result := Finish(RESYNC_PERIOD, false);
    }

    method ReconcileDelete(tunnel: TunnelRead) returns (exit: Exit)
      requires Valid() && route.deleting
      requires Local().worker == if tunnel.Seen? then NextAfterTunnel(route, tunnel.view) else Idle
      requires !route.finalizer ==> Terminating(Local())
      modifies this
      ensures Valid() && old(trace) <= trace && Local().worker.Idle? && NotDropped(exit)
      ensures ledger == old(ledger)
      ensures exit.requeueAfter == 0
    {
      hide Run;
      if !route.finalizer {
        return Exit(0, false);
      }
      if tunnel.Unseen? {
        return Exit(0, true);
      }
      if tunnel.view.Some? && tunnel.view.value != "" {
        var ok := DeleteRemoteRoute(tunnel.view.value);
        if !ok {
          return Exit(0, true);
        }
      }
      route := route.(finalizer := false);
      var ok := UpdateReleasing();
      exit := Exit(0, !ok);
    }

    /** deleteRemoteRoute: reads the Tunnel again for its credential, then deletes by id, or by hostname and
        prefix when no id was ever recorded. */
    method DeleteRemoteRoute(tid: string) returns (ok: bool)
      requires Valid() && Local().worker == DeleteTunnelRead(route, tid)
      modifies `sys, `trace, `calls, `ledger
      ensures Valid() && old(trace) <= trace
      ensures Local().worker == if ok then Release(route) else Idle
      ensures ledger == old(ledger)
    {
      hide Run, FindRoute, IsListing;
      ok := ReadTunnelAgain();
      if !ok {
        return;
      }
      ok := ClientFor();
      if !ok {
        return;
      }
      var id := route.status.routeID;
      var err: Option<Error>;
      if id == "" {
        var routes;
        routes, err := ListRoutes(tid);
        if err.Some? {
          return false;
        }
        var found := SearchRoute(routes, route.status.routeID, route.spec);
        if found.None? {
          return true;
        }
        id := found.value.id;
      }
      err := DeleteRoute(tid, id);
      ok := err.None?;
    }

    method ReadTunnelAgain() returns (ok: bool)
      requires Valid() && Local().worker.DeleteTunnelRead?
      modifies `sys, `trace, `calls, `ledger
      ensures Valid() && old(trace) <= trace
      ensures var before := old(Local().worker);
              Local().worker == if ok then DeleteClient(before.s, before.tid) else Idle
      ensures ledger == old(ledger)
    {
      Interfere();
      var present := sys.t.obj.Some?;
      var out := Call();
      ok := out.Done? && present;
    }
  }
}
