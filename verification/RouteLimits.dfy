/** Why identity edits and deletes need a settled object: what the code does without the two guards, exactly. */
module RouteLimits {
  import opened Base
  import opened Errors
  import opened RouteSpec
  import opened Upstream
  import opened RouteMachine
  import opened RouteSafety
  import opened RouteSystem
  import opened RouteSteps
  import opened RouteRuns
  import opened RouteConvergence
  import opened RouteOvertaken
  import TS = TunnelSafety
  import TI = TunnelInvariants

  /** How such a route comes about: a create takes effect and its answer is lost, be it the first one (nothing is
      recorded) or the one that ends a replacement (the replaced id is). */
  lemma LostCreateIsUnnamed(w: Sys, name: string, id: string, err: Error)
    requires SysInv(w) && name in w.objects && w.objects[name].worker.Create?
    requires w.objects[name].worker.tid in w.t.platform.tunnels
    requires PossibleOutcome(w, w.objects[name], Lost(id, err))
    ensures var v := Advance(w, name, Lost(id, err));
            Unnamed(v, name, id) && v.objects[name].obj.value.status.routeID == w.objects[name].worker.s.status.routeID
  {
    hide SysInv, FailStatus, Stored, CreateBody;
    NewIsNew(w, id);
    HeadingFacts(w, name);
  }

  /** A route made for this object that its object can no longer find: it is not the recorded one, and it has not
      the type, hostname and prefix of the spec, or the object is being deleted by the recorded id. */
  ghost predicate Stranded(w: Sys, name: string, id: string) {
    && Unnamed(w, name, id)
    && var o := w.objects[name].obj.value;
       || RouteIdentity(w.t.platform.routes[id]) != SpecIdentity(o.spec)
       || (o.deleting && o.status.routeID != "")
  }

  lemma InvStrandsNothing(w: Sys, name: string, id: string)
    requires SysInv(w)
    ensures !Stranded(w, name, id)
  {
    hide TI.Inv, ClaimsOk, NetOk, BooksOk, WorkerOk, VersionOk, RollupKept;
    assert Made(w, name, id) ==> Has(NetOf(w), name, id);
    assert name in w.objects ==> LocalOk(NetOf(w), w.rv, name, w.objects[name]);
  }

  ghost predicate NeverStrands(w: Sys, name: string) {
    forall actions, end, id :: Run(w, actions, end) ==> !Stranded(end, name, id)
  }

  /** With the guards, nothing is ever stranded. */
  lemma InvNeverStrands(w: Sys, name: string)
    requires SysInv(w)
    ensures NeverStrands(w, name)
  {
    hide SysInv, Run, Stranded;
    forall actions, end, id | Run(w, actions, end)
      ensures !Stranded(end, name, id)
    {
      RunKeepsSysInv(w, actions, end);
      InvStrandsNothing(end, name, id);
    }
  }

  // ---------------------------------------------------------------- the guards are exact

  /** The reconcile in flight going on is a run. */
  lemma {:induction false} FinishIsRun(w: Sys, name: string, out: Outcome, fuel: nat) returns (actions: seq<Action>)
    requires Proceeds(w, name, out, fuel)
    ensures Run(w, actions, Finish(w, name, out, fuel))
    decreases fuel
  {
    hide Advance, PossibleOutcome;
    if fuel == 0 || name !in w.objects || w.objects[name].worker.Idle? {
      actions := [];
    } else {
      var rest := FinishIsRun(Advance(w, name, out), name, out, fuel - 1);
      actions := [Go(name, out)] + rest;
      assert actions[1..] == rest;
    }
  }

  lemma AtOnce(w: Sys, name: string, id: string)
    requires Stranded(w, name, id)
    ensures !NeverStrands(w, name)
  {
    hide Stranded;
    assert Run(w, [], w);
  }

  lemma AtLast(w: Sys, name: string, out: Outcome, fuel: nat, id: string)
    requires Proceeds(w, name, out, fuel) && Stranded(Finish(w, name, out, fuel), name, id)
    ensures !NeverStrands(w, name)
  {
    hide Stranded, Proceeds, Finish, Run;
    var actions := FinishIsRun(w, name, out, fuel);
    assert Run(w, actions, Finish(w, name, out, fuel));
  }

  /** An unnamed route holds the object, with the identity of its spec. */
  lemma UnnamedFacts(w: Sys, name: string, id: string)
    requires SysInv(w) && Unnamed(w, name, id)
    ensures var o := w.objects[name].obj.value;
            o.finalizer && RouteIdentity(w.t.platform.routes[id]) == SpecIdentity(o.spec)
  {
    hide TI.Inv, ClaimsOk, NetOk, BooksOk, WorkerOk, VersionOk, RollupKept;
    assert LocalOk(NetOf(w), w.rv, name, w.objects[name]);
    assert Has(NetOf(w), name, id);
  }

  lemma NotSettled(w: Sys, name: string)
    requires SysInv(w) && name in w.objects && w.objects[name].obj.Some? && !Settled(w, name, w.objects[name])
    ensures MayCreate(w, w.objects[name]) || exists id :: Unnamed(w, name, id)
  {
    hide SysInv, MayCreate;
    if !MayCreate(w, w.objects[name]) {
      var id :| Made(w, name, id) && id != w.objects[name].obj.value.status.routeID;
      assert Unnamed(w, name, id);
    }
  }

  /** Where the reconcile in flight makes a route under a written object. */
  lemma OvertakenLeavesNew(w: Sys, d: Sys, name: string, tid: string, out: Outcome, o: RouteObject)
    requires SysInv(w) && Answered(w, name, tid, out) && MayCreate(w, w.objects[name]) && w.objects[name].obj.Some?
    requires (forall id :: !Unnamed(w, name, id)) && d == Put(w, name, o, w.objects[name].worker)
    ensures var v := Finish(d, name, out, CALLS);
            && Proceeds(d, name, out, CALLS) && v.t.log == w.t.log
            && LeavesNew(w, v, name, Some(o.(rv := w.rv + 1)), w.objects[name].worker.s, tid, out.id)
  {
    hide SysInv, IsListing, Resolve, MayCreate, Unnamed, Finish, Proceeds;
    MayCreateIsHeading(w, w.objects[name]);
    HeadingFacts(w, name);
    HeadingLeavesNew(w, d, name, tid, out, CALLS);
  }

  /** It is stranded if the user deleted an object that had recorded a route, or changed its identity. */
  lemma NewIsStranded(w: Sys, v: Sys, name: string, o: RouteObject, tid: string, id: string)
    requires SysInv(w) && name in w.objects && MayCreate(w, w.objects[name]) && w.t.log.deleted != 1
    requires LeavesNew(w, v, name, Some(o), w.objects[name].worker.s, tid, id) && id != "" && id !in w.t.platform.used
    requires w.objects[name].obj.Some? && o.status == w.objects[name].obj.value.status
    requires || (o.deleting && o.status.routeID != "")
             || SpecIdentity(o.spec) != SpecIdentity(w.objects[name].obj.value.spec)
    ensures Stranded(v, name, id)
  {
    hide SysInv, MayCreate;
    MayCreateIsHeading(w, w.objects[name]);
    HeadingFacts(w, name);
  }

  lemma AliveIsNotDeleted(w: Sys)
    requires SysInv(w) && TS.Mine(w.t).Some?
    ensures w.t.log.deleted != 1
  {
    hide ObjectsOk, ClaimsOk, BooksOk, NetOk, TS.Structure;
  }

  /** The guard on deletes is exact: a delete at this moment never strands a route, in any run from here, if and only if
      it is allowed. (To strand one, the tunnel has to be there and calls to be answered.) */
  lemma DeleteStrandsExactlyWhen(w: Sys, name: string, tid: string, out: Outcome)
    requires SysInv(w) && name in w.objects && w.objects[name].obj.Some?
    requires !DeleteAllowed(w, name, w.objects[name]) ==> Answered(w, name, tid, out)
    ensures DeleteAllowed(w, name, w.objects[name]) <==> NeverStrands(Deleted(w, name), name)
  {
    hide SysInv, IsListing, Resolve, NeverStrands, Settled, Stranded, Put, Unnamed, MayCreate;
    var l := w.objects[name];
    if DeleteAllowed(w, name, l) {
      StepKeepsSysInv(w, UserDelete(name));
      InvNeverStrands(Deleted(w, name), name);
    } else {
      NotSettled(w, name);
      if id :| Unnamed(w, name, id) {
        DeletedUnnamed(w, name, id);
        AtOnce(Deleted(w, name), name, id);
      } else {
        DeletedMayCreate(w, name, tid, out);
        AtLast(Deleted(w, name), name, out, CALLS, out.id);
      }
    }
  }

  lemma DeletedUnnamed(w: Sys, name: string, id: string)
    requires SysInv(w) && Unnamed(w, name, id) && w.objects[name].obj.value.status.routeID != ""
    ensures Stranded(Deleted(w, name), name, id)
  {
    hide SysInv;
    UnnamedFacts(w, name, id);
  }

  lemma DeletedMayCreate(w: Sys, name: string, tid: string, out: Outcome)
    requires SysInv(w) && Answered(w, name, tid, out) && MayCreate(w, w.objects[name]) && w.objects[name].obj.Some?
    requires (forall id :: !Unnamed(w, name, id)) && w.objects[name].obj.value.status.routeID != ""
    ensures out.Done? && Proceeds(Deleted(w, name), name, out, CALLS)
    ensures Stranded(Finish(Deleted(w, name), name, out, CALLS), name, out.id)
  {
    hide SysInv, Finish, Proceeds, MayCreate, Unnamed, LeavesNew, IsListing, Resolve;
    MayCreateIsHeading(w, w.objects[name]);
    HeadingHolds(w, name);
    AliveIsNotDeleted(w);
    var o := w.objects[name].obj.value.(deleting := true);
    OvertakenLeavesNew(w, Deleted(w, name), name, tid, out, o);
    NewIsStranded(w, Finish(Deleted(w, name), name, out, CALLS), name, o.(rv := w.rv + 1), tid, out.id);
  }

  lemma HeadingHolds(w: Sys, name: string)
    requires SysInv(w) && name in w.objects && Heading(w.objects[name].worker)
    ensures w.objects[name].obj.Some? && w.objects[name].obj.value.finalizer
  {
    hide TI.Inv, ClaimsOk, NetOk, BooksOk, ObjectOk, VersionOk, RollupKept, SnapshotOk, IdentityKnown, NotOvertaken,
      TidOk;
    assert LocalOk(NetOf(w), w.rv, name, w.objects[name]);
  }

  /** And so is the guard on edits, for every edit that keeps hostnames and prefixes distinct; a delete path that is
      looking for a route is the subject of RouteSearch. */
  lemma EditStrandsExactlyWhen(w: Sys, name: string, spec: Spec, tid: string, out: Outcome)
    requires SysInv(w) && name in w.objects && w.objects[name].obj.Some?
    requires !Settled(w, name, w.objects[name]) ==> Answered(w, name, tid, out)
    requires ValidSpec(spec) && KeyFree(w, name, spec)
    requires !Searching(w, w.objects[name].worker)
    ensures EditAllowed(w, name, w.objects[name], spec) <==> NeverStrands(Edited(w, name, spec), name)
  {
    hide SysInv, NeverStrands, Settled, Stranded, Put, KeyFree, Answered;
    if EditAllowed(w, name, w.objects[name], spec) {
      StepKeepsSysInv(w, Edit(name, spec));
      InvNeverStrands(Edited(w, name, spec), name);
    } else {
      UnsettledEditStrands(w, name, spec, tid, out);
    }
  }

  lemma UnsettledEditStrands(w: Sys, name: string, spec: Spec, tid: string, out: Outcome)
    requires SysInv(w) && Answered(w, name, tid, out) && w.objects[name].obj.Some?
    requires SpecIdentity(spec) != SpecIdentity(w.objects[name].obj.value.spec) && !Settled(w, name, w.objects[name])
    ensures !NeverStrands(Edited(w, name, spec), name)
  {
    hide SysInv, IsListing, Resolve, NeverStrands, Settled, Stranded, Put, Unnamed, MayCreate;
    NotSettled(w, name);
    if id :| Unnamed(w, name, id) {
      EditedUnnamed(w, name, spec, id);
      AtOnce(Edited(w, name, spec), name, id);
    } else {
      EditedMayCreate(w, name, spec, tid, out);
      AtLast(Edited(w, name, spec), name, out, CALLS, out.id);
    }
  }

  lemma EditedUnnamed(w: Sys, name: string, spec: Spec, id: string)
    requires SysInv(w) && Unnamed(w, name, id)
    requires SpecIdentity(spec) != SpecIdentity(w.objects[name].obj.value.spec)
    ensures Stranded(Edited(w, name, spec), name, id)
  {
    hide SysInv;
    UnnamedFacts(w, name, id);
  }

  lemma EditedMayCreate(w: Sys, name: string, spec: Spec, tid: string, out: Outcome)
    requires SysInv(w) && Answered(w, name, tid, out) && MayCreate(w, w.objects[name]) && w.objects[name].obj.Some?
    requires forall id :: !Unnamed(w, name, id)
    requires SpecIdentity(spec) != SpecIdentity(w.objects[name].obj.value.spec)
    ensures out.Done? && Proceeds(Edited(w, name, spec), name, out, CALLS)
    ensures Stranded(Finish(Edited(w, name, spec), name, out, CALLS), name, out.id)
  {
    hide SysInv, Finish, Proceeds, MayCreate, Unnamed, LeavesNew, IsListing, Resolve;
    AliveIsNotDeleted(w);
    var o := w.objects[name].obj.value;
    var e := o.(spec := spec, generation := o.generation + 1);
    OvertakenLeavesNew(w, Edited(w, name, spec), name, tid, out, e);
    NewIsStranded(w, Finish(Edited(w, name, spec), name, out, CALLS), name, e.(rv := w.rv + 1), tid, out.id);
  }
}
