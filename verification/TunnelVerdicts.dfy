/** What the exits of a tunnel reconcile tell in the status they write, by the platform's own answers. Nothing here is
    stated through the functions that compute a status. */
module TunnelVerdicts {
  import opened Base
  import opened Errors
  import opened Platform
  import opened TunnelMachine
  import opened TunnelSafety
  import opened TunnelInvariants
  import opened TunnelTheorems

  /** The error with which a step fails the reconcile, if it does: what the platform answered, or that a tunnel is
      missing, or that the store refused. (A known tunnel that is missing is no failure: it is made again.) */
  function FailureOf(w: World, out: Outcome): Option<Error> {
    match w.worker
    case GetKnown(_) => if out.Done? then None else Some(out.err)
    case RecordMarker(s) => if out.Done? && Current(w, s) then None else Some(Plain)
    case Create(_) => if out.Done? then None else Some(out.err)
    case GetCreated(_, id, _) =>
      if !out.Done? then Some(out.err)
      else if id in w.platform.tunnels then None else Some(APIError(404, CodeNotFound))
    case CheckSecret(_, _) => if out.Done? then None else Some(Plain)
    case Rotate(_, remote) =>
      if out.Refused? then Some(out.err)
      else if remote.id !in w.platform.tunnels then Some(APIError(404, CodeNotFound))
      else if out.Lost? then Some(out.err) else None
    case WriteSecret(_, _, _) => if out.Done? then None else Some(Plain)
    case _ => None
  }

  /** The status says that this error ended the reconcile: not synced for its reason, not ready, about this generation;
      and the recorded tunnel is as it was. */
  ghost predicate TellsFailure(s: TunnelObject, next: TunnelStatus, e: Error) {
    && next.synced == Condition(false, Classify(e).reason, s.generation)
    && next.ready == Condition(false, NotSynced, s.generation)
    && next.observedGeneration == s.generation
    && next.tunnelID == s.status.tunnelID && next.onlineStatus == s.status.onlineStatus
    && next.agentAvailable == s.status.agentAvailable
  }

  lemma FailTells(s: TunnelObject, o: TunnelObject, st: TunnelStatus, e: Error)
    requires o.generation == s.generation && st == s.status.(externalID := st.externalID)
    ensures TellsFailure(s, FailStatus(o, st, e), e) && TellsFailure(s, FailStatus(o, st, Wrapped(e)), e)
    ensures FailStatus(o, st, e).externalID == FailStatus(o, st, Wrapped(e)).externalID == st.externalID
  {
    hide Classify;
    WrappingIsInvisible(e, 1);
    assert Wrap(e, 1) == Wrapped(Wrap(e, 0)) == Wrapped(e);
  }

  /** A step fails the reconcile exactly when there is such an error, and then the status to be written tells it. */
  lemma FailureIsTold(w: World, out: Outcome)
    requires !w.worker.Idle? && FailureOf(w, out).Some?
    ensures var v := Advance(w, out);
            && v.worker.WriteStatus? && !v.worker.complete && v.worker.s == w.worker.s
            && TellsFailure(w.worker.s, v.worker.next, FailureOf(w, out).value)
            && v.worker.next.externalID == (if w.worker.RecordMarker? then w.uid else w.worker.s.status.externalID)
  {
    hide FailStatus, TellsFailure, Current;
    forall st: TunnelStatus, e | st == w.worker.s.status.(externalID := st.externalID)
      ensures TellsFailure(w.worker.s, FailStatus(w.worker.s, st, e), e)
      ensures TellsFailure(w.worker.s, FailStatus(w.worker.s, st, Wrapped(e)), e)
      ensures FailStatus(w.worker.s, st, e).externalID == st.externalID
      ensures FailStatus(w.worker.s, st, Wrapped(e)).externalID == st.externalID
    {
      FailTells(w.worker.s, w.worker.s, st, e);
    }
  }

  /** Otherwise the status write is reached from an unreadable credential, or with everything done. */
  lemma NoFailureGoesOn(w: World, out: Outcome)
    requires !w.worker.Idle? && FailureOf(w, out).None?
    ensures Advance(w, out).worker.WriteStatus? ==>
            || (w.worker.NeedClient? && !(out.Done? && w.credential))
            || (w.worker.Deploy? && out.Done?)
  {
    hide SuccessStatus, UnreadableStatus, Current;
  }

  /** The unreadable credential says so, about this generation, and leaves everything else as it was. */
  lemma UnreadableIsTold(w: World, out: Outcome)
    requires w.worker.NeedClient?
    ensures var v := Advance(w, out); var s := w.worker.s;
            v.worker.WriteStatus? <==> !(out.Done? && w.credential)
    ensures var v := Advance(w, out); var s := w.worker.s;
            v.worker.WriteStatus? ==>
              && !v.worker.complete && v.worker.s == s
              && v.worker.next == s.status.(synced := Condition(false, CredentialUnreadable, s.generation),
                                            observedGeneration := s.generation)
  {
  }

  /** A reconcile that gets everything done says that it is synced; that an agent is available exactly if the Deployment
      had an available replica when it was written; and that the tunnel is ready exactly if moreover the platform had
      answered "online" for the tunnel whose id it records. */
  lemma CompletionIsTold(w: World, out: Outcome)
    requires w.worker.Deploy? && out.Done?
    ensures var v := Advance(w, out); var s := w.worker.s;
            && v.worker.WriteStatus? && v.worker.complete && v.worker.s == s
            && var next := v.worker.next; var up := w.deployment.Some? && w.deployment.value.available > 0;
               && next.tunnelID == w.worker.remote.id && next.onlineStatus == w.worker.remote.online
               && next.synced == Condition(true, Synced, s.generation) && next.observedGeneration == s.generation
               && next.agentAvailable == Condition(up, if up then AgentRunning else NoReplicasAvailable, s.generation)
               && (next.ready.True() <==> up && w.worker.remote.online == "online")
               && next.ready.Condition? && next.ready.generation == s.generation
               && next.ready.reason == (if !up then AgentUnavailable
                                        else if w.worker.remote.online == "online" then Reason.Online
                                        else if w.worker.remote.online == "" then Unknown else Offline)
               && v.deployment == Some(Deployment(w.worker.version, if up then w.deployment.value.available else 0))
  {
  }

  /** What the worker carries of a tunnel is what the platform answered for it. */
  lemma RemoteIsAnswered(w: World, out: Outcome)
    requires w.worker.GetKnown? || w.worker.GetCreated?
    ensures var v := Advance(w, out);
            && (v.worker.CheckSecret? || v.worker.WriteSecret? ==>
                  && v.worker.remote.id in w.platform.tunnels
                  && v.worker.remote.online == w.platform.tunnels[v.worker.remote.id].online
                  && v.worker.remote.id == (if w.worker.GetKnown? then w.worker.s.status.tunnelID else w.worker.id))
  {
    hide FailStatus;
  }

  // ---------------------------------------------------------------- whole runs

  /** In state `u` this action is the step that decides what the reconcile will write. */
  ghost predicate Decides(u: World, a: Action, next: TunnelStatus) {
    && a.Go? && !u.worker.Idle? && !u.worker.WriteStatus?
    && Advance(u, a.outcome).worker.WriteStatus? && Advance(u, a.outcome).worker.next == next
  }

  ghost predicate DecidedEarlier(w0: World, actions: seq<Action>, next: TunnelStatus) {
    exists k, u :: 0 <= k < |actions| && Run(w0, actions[..k], u) && Decides(u, actions[k], next)
  }

  lemma DecidedStays(w0: World, actions: seq<Action>, n: nat, next: TunnelStatus)
    requires n <= |actions| && DecidedEarlier(w0, actions[..n], next)
    ensures DecidedEarlier(w0, actions, next)
  {
    hide Run, Decides;
    var k, u :| 0 <= k < n && Run(w0, actions[..n][..k], u) && Decides(u, actions[..n][k], next);
    assert actions[..n][..k] == actions[..k];
  }

  lemma StepDecides(w: World, a: Action)
    requires Enabled(w, a) && Apply(w, a).worker.WriteStatus?
    ensures Apply(w, a).worker == w.worker || Decides(w, a, Apply(w, a).worker.next)
  {
    hide OthersOnly, FailStatus, SuccessStatus, UnreadableStatus;
  }

  /** Every status about to be written was decided by a step of that kind, of which the lemmas above tell. */
  lemma {:induction false} WriteWasDecided(w0: World, actions: seq<Action>, w: World)
    requires w0.worker.Idle? && Run(w0, actions, w) && w.worker.WriteStatus?
    ensures DecidedEarlier(w0, actions, w.worker.next)
    decreases |actions|
  {
    hide Apply, Enabled, Decides;
    if actions != [] {
      var n := |actions| - 1;
      var mid := RunLast(w0, actions, w);
      StepDecides(mid, actions[n]);
      if !Decides(mid, actions[n], w.worker.next) {
        WriteWasDecided(w0, actions[..n], mid);
        DecidedStays(w0, actions, n, w.worker.next);
      }
    }
  }

  /** The same report: everything but the two ids. */
  predicate SameReport(a: TunnelStatus, b: TunnelStatus) {
    && a.synced == b.synced && a.agentAvailable == b.agentAvailable && a.ready == b.ready
    && a.onlineStatus == b.onlineStatus && a.observedGeneration == b.observedGeneration
  }

  ghost predicate ReportDecided(w0: World, actions: seq<Action>, st: TunnelStatus) {
    exists next :: DecidedEarlier(w0, actions, next) && SameReport(st, next)
  }

  lemma StoreGoReports(w: World, out: Outcome)
    requires Structure(w) && (w.worker.AddFinalizer? || w.worker.RecordMarker? || w.worker.Release?)
    ensures var v := Advance(w, out);
            v.obj.Some? ==> w.obj.Some? && SameReport(v.obj.value.status, w.obj.value.status)
  {
    hide FailStatus, StatusOk, Held;
  }

  lemma RemoteGoReports(w: World, out: Outcome)
    requires !w.worker.Idle? && !w.worker.AddFinalizer? && !w.worker.RecordMarker? && !w.worker.Release?
    ensures var v := Advance(w, out);
            || v.obj == w.obj
            || (w.worker.WriteStatus? && v.obj.Some? && v.obj.value.status == w.worker.next)
  {
    hide FailStatus, SuccessStatus, UnreadableStatus, Current;
  }

  lemma StepReports(w: World, a: Action)
    requires Structure(w) && Enabled(w, a) && Apply(w, a).obj.Some?
    ensures var v := Apply(w, a);
            || (w.obj.Some? && SameReport(v.obj.value.status, w.obj.value.status))
            || (w.worker.WriteStatus? && v.obj.value.status == w.worker.next)
  {
    hide OthersOnly, Advance, Structure;
    if a.Go? {
      if w.worker.AddFinalizer? || w.worker.RecordMarker? || w.worker.Release? {
        StoreGoReports(w, a.outcome);
      } else {
        RemoteGoReports(w, a.outcome);
      }
    }
  }

  /** Every persisted report, in every run, was so decided, or is the empty one of a new object. */
  lemma {:induction false} ReportWasDecided(w0: World, actions: seq<Action>, w: World)
    requires Init(w0) && Run(w0, actions, w) && w.obj.Some?
    ensures SameReport(w.obj.value.status, NO_STATUS) || ReportDecided(w0, actions, w.obj.value.status)
    decreases |actions|
  {
    hide Apply, Enabled, DecidedEarlier, Structure, Rest, Init;
    if actions == [] {
      InitReport(w0);
    } else {
      var n := |actions| - 1;
      var mid := RunLast(w0, actions, w);
      RunFromInit(w0, actions[..n], mid);
      StepReports(mid, actions[n]);
      if mid.obj.Some? && SameReport(w.obj.value.status, mid.obj.value.status) {
        ReportWasDecided(w0, actions[..n], mid);
        if next :| DecidedEarlier(w0, actions[..n], next) && SameReport(mid.obj.value.status, next) {
          DecidedStays(w0, actions, n, next);
          assert SameReport(w.obj.value.status, next);
        }
      } else {
        StartsIdle(w0);
        WriteWasDecided(w0, actions[..n], mid);
        DecidedStays(w0, actions, n, mid.worker.next);
      }
    }
  }

  lemma InitReport(w: World)
    requires Init(w)
    ensures w.obj.Some? && w.obj.value.status == NO_STATUS
  {
  }

  lemma StartsIdle(w: World)
    requires Init(w)
    ensures w.worker.Idle?
  {
  }
}
