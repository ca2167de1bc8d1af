/** What the tunnel reconciler guarantees over every run. */
module TunnelTheorems {
  import opened Base
  import opened Errors
  import opened Platform
  import opened TunnelMachine
  import opened TunnelSafety
  import opened TunnelInvariants

  // ---------------------------------------------------------------- counting what happened

  function PanelDeletes(actions: seq<Action>): nat {
    if actions == [] then 0 else (if actions[0].PanelDelete? then 1 else 0) + PanelDeletes(actions[1..])
  }

  function PanelRotations(actions: seq<Action>): nat {
    if actions == [] then 0 else (if actions[0].PanelRotate? then 1 else 0) + PanelRotations(actions[1..])
  }

  lemma AdvanceKeepsPanelLog(w: World, out: Outcome)
    requires !w.worker.Idle?
    ensures Advance(w, out).log.panelDeletes == w.log.panelDeletes
    ensures Advance(w, out).log.panelRotations == w.log.panelRotations
  {
  }

  lemma {:induction false} LogCounts(w: World, actions: seq<Action>, end: World)
    requires Run(w, actions, end)
    ensures end.log.panelDeletes == w.log.panelDeletes + PanelDeletes(actions)
    ensures end.log.panelRotations == w.log.panelRotations + PanelRotations(actions)
    decreases |actions|
  {
    if actions != [] {
      hide Advance, OthersOnly;
      if actions[0].Go? {
        AdvanceKeepsPanelLog(w, actions[0].outcome);
      }
      LogCounts(Apply(w, actions[0]), actions[1..], end);
    }
  }

  lemma RunFromInit(w0: World, actions: seq<Action>, w: World)
    requires Init(w0) && Run(w0, actions, w)
    ensures Inv(w)
    ensures w.log.panelDeletes == PanelDeletes(actions) && w.log.panelRotations == PanelRotations(actions)
  {
    InitInv(w0);
    RunKeepsInv(w0, actions, w);
    LogCounts(w0, actions, w);
  }

  // ---------------------------------------------------------------- no orphan tunnel

  /** Every platform tunnel under this UID has a live owner that will find it again: the object exists,
      carries the finalizer and the marker, and its recorded id is empty or that tunnel's. */
  ghost predicate Covered(w: World) {
    forall id :: id in w.platform.tunnels && w.platform.tunnels[id].externalID == w.uid ==>
      && w.obj.Some? && w.obj.value.finalizer && w.obj.value.status.externalID == w.uid
      && (w.obj.value.status.tunnelID == "" || w.obj.value.status.tunnelID == id)
  }

  /** In every run without deletions in the panel no tunnel is ever orphaned. */
  lemma NoOrphanTunnel(w0: World, actions: seq<Action>, w: World)
    requires Init(w0) && Run(w0, actions, w) && PanelDeletes(actions) == 0
    ensures Covered(w)
  {
    RunFromInit(w0, actions, w);
  }

  /** Nothing the environment does makes an orphan. */
  lemma RelyMakesNoOrphan(w: World, v: World)
    requires Rely(w, v) && !Orphan(w)
    ensures !Orphan(v)
  {
  }

  lemma GoMakesNoOrphan0(w: World, out: Outcome)
    requires Structure(w) && !Orphan(w) && PossibleOutcome(w, out)
    requires w.worker.AddFinalizer? || w.worker.RecordMarker? || w.worker.Create? || w.worker.WriteStatus?
    ensures !Orphan(Advance(w, out))
  {
  }

  lemma GoMakesNoOrphan1(w: World, out: Outcome)
    requires Structure(w) && !Orphan(w)
    requires w.worker.NeedClient? || w.worker.GetKnown? || w.worker.GetCreated? || w.worker.CheckSecret?
          || w.worker.Rotate? || w.worker.WriteSecret? || w.worker.Deploy?
    ensures !Orphan(Advance(w, out))
  {
  }

  lemma GoMakesNoOrphan2(w: World, out: Outcome)
    requires Structure(w) && !Orphan(w)
    requires w.worker.DeleteClient? || w.worker.DeleteFind? || w.worker.DeleteRemote?
    ensures !Orphan(Advance(w, out))
  {
  }

  lemma ReleaseOrphansExactlyWhen(w: World, s: TunnelObject, out: Outcome)
    requires Structure(w) && !Orphan(w) && w.worker == Release(s)
    ensures Orphan(GoRelease(w, s, out)) <==> !out.Refused? && Current(w, s) && Mine(w).Some?
    ensures Mine(w).Some? ==> s.status.tunnelID != "" && Mine(w) != Some(s.status.tunnelID)
  {
  }

  /** Deletions in the panel allowed: an orphan is born in exactly one way, a release while the platform
      holds a tunnel of this object under another id than the recorded one. */
  lemma OrphanBornExactlyWhen(w: World, a: Action)
    requires Structure(w) && Enabled(w, a) && !Orphan(w)
    ensures Orphan(Apply(w, a)) <==> StaleRelease(w, a)
    ensures StaleRelease(w, a) ==>
            w.worker.s.status.tunnelID != "" && Mine(w) != Some(w.worker.s.status.tunnelID)
  {
    hide Structure, Orphan, Rely;
    if a.Go? {
      var out := a.outcome;
      match w.worker
      case Release(s) => ReleaseOrphansExactlyWhen(w, s, out);
      case DeleteClient(_) => GoMakesNoOrphan2(w, out);
      case DeleteFind(_) => GoMakesNoOrphan2(w, out);
      case DeleteRemote(_, _) => GoMakesNoOrphan2(w, out);
      case AddFinalizer(_) => GoMakesNoOrphan0(w, out);
      case RecordMarker(_) => GoMakesNoOrphan0(w, out);
      case Create(_) => GoMakesNoOrphan0(w, out);
      case WriteStatus(_, _, _) => GoMakesNoOrphan0(w, out);
      case _ => GoMakesNoOrphan1(w, out);
    } else if a.Begin? || a.Crash? {
      SameOrphan(w, Apply(w, a));
    } else {
      EnvironmentRelies(w, a);
      RelyMakesNoOrphan(w, Apply(w, a));
    }
  }

  lemma SameOrphan(w: World, v: World)
    requires v == w.(worker := v.worker)
    ensures Orphan(v) == Orphan(w)
  {
  }

  ghost predicate NoStaleRelease(w: World, actions: seq<Action>)
    decreases |actions|
  {
    actions != [] && Enabled(w, actions[0]) ==>
      !StaleRelease(w, actions[0]) && NoStaleRelease(Apply(w, actions[0]), actions[1..])
  }

  /** So over whole runs, panel deletions included, an orphan needs a stale release. */
  lemma {:induction false} NoOrphanWithoutStaleRelease(w: World, actions: seq<Action>, end: World)
    requires Structure(w) && !Orphan(w) && Run(w, actions, end) && NoStaleRelease(w, actions)
    ensures !Orphan(end)
    decreases |actions|
  {
    hide Structure, Orphan, StaleRelease, Advance;
    if actions != [] {
      OrphanBornExactlyWhen(w, actions[0]);
      StepKeepsStructure(w, actions[0]);
      NoOrphanWithoutStaleRelease(Apply(w, actions[0]), actions[1..], end);
    }
  }

  // ---------------------------------------------------------------- creation count

  /** The platform makes at most one tunnel per object, plus one per deletion in the panel. */
  lemma CreationCount(w0: World, actions: seq<Action>, w: World)
    requires Init(w0) && Run(w0, actions, w)
    ensures w.log.made <= 1 + PanelDeletes(actions)
  {
    RunFromInit(w0, actions, w);
  }

  /** Nothing is made once the operator itself deleted the tunnel. */
  lemma {:induction false} NothingMadeAfterDelete(w: World, actions: seq<Action>, end: World)
    requires Inv(w) && w.log.deleted == 1 && Run(w, actions, end)
    ensures end.log.made == w.log.made && end.log.deleted == 1
    decreases |actions|
  {
    hide Structure, Rest, Advance;
    if actions != [] {
      DeletedStaysDeleted(w, actions[0]);
      StepKeepsInv(w, actions[0]);
      NothingMadeAfterDelete(Apply(w, actions[0]), actions[1..], end);
    }
  }

  lemma DeletedStaysDeleted(w: World, a: Action)
    requires Inv(w) && w.log.deleted == 1 && Enabled(w, a)
    ensures Apply(w, a).log.made == w.log.made && Apply(w, a).log.deleted == 1
  {
    hide Structure, Exact, Coherent, Rollup, SecretRecorded, OthersOnly;
  }

  // ---------------------------------------------------------------- the write-ahead marker

  /** The delete path releases without asking the platform only if no create ever reached it. */
  lemma MarkerSound(w0: World, actions: seq<Action>, w: World)
    requires Init(w0) && Run(w0, actions, w)
    requires w.worker.Release? && w.worker.s.status.externalID == ""
    ensures w.log.reached == 0 && w.log.made == 0
    ensures forall id :: id in w.platform.tunnels ==> w.platform.tunnels[id].externalID != w.uid
  {
    RunFromInit(w0, actions, w);
  }

  ghost predicate Untouched(w: World) {
    && !w.credential && w.log.reached == 0
    && (w.obj.Some? ==> w.obj.value.status.externalID == "")
    && match w.worker
       case Idle => true
       case AddFinalizer(s) => s.status.externalID == ""
       case NeedClient(s) => s.status.externalID == ""
       case WriteStatus(s, next, _) => s.status.externalID == "" && next.externalID == ""
       case Release(s) => s.status.externalID == ""
       case _ => false
  }

  lemma StepKeepsUntouched(w: World, a: Action)
    requires Untouched(w) && Enabled(w, a) && a != SetCredential(true)
    ensures Untouched(Apply(w, a))
  {
    hide OthersOnly;
  }

  lemma {:induction false} UntouchedStays(w: World, actions: seq<Action>, end: World)
    requires Untouched(w) && Run(w, actions, end) && SetCredential(true) !in actions
    ensures Untouched(end)
    decreases |actions|
  {
    hide Untouched;
    if actions != [] {
      StepKeepsUntouched(w, actions[0]);
      UntouchedStays(Apply(w, actions[0]), actions[1..], end);
    }
  }

  /** A credential that was never readable never gets past the marker: nothing was ever attempted, and
      a delete takes the exit that needs no credential, whenever it is reconciled. */
  lemma NeverReadableNeverMarked(w0: World, actions: seq<Action>, w: World)
    requires Init(w0) && !w0.credential && Run(w0, actions, w) && SetCredential(true) !in actions
    ensures w.log.reached == 0 && (w.obj.Some? ==> w.obj.value.status.externalID == "")
    ensures w.worker.Deleting() ==> w.worker.Release?
    ensures w.worker.Idle? && w.obj.Some? && w.obj.value.deleting && w.obj.value.finalizer ==>
            Apply(w, Begin).worker == Release(w.obj.value)
  {
    hide Run, Advance;
    UntouchedStays(w0, actions, w);
  }

  /** The marker is set, the credential is unreadable and no delete path has got past it. */
  ghost predicate Walled(w: World) {
    && Structure(w) && !w.credential
    && w.obj.Some? && w.obj.value.finalizer && w.obj.value.status.externalID == w.uid
    && !w.worker.DeleteFind? && !w.worker.DeleteRemote? && !w.worker.Release?
  }

  lemma GoKeepsWalled(w: World, out: Outcome)
    requires Walled(w) && !w.worker.Idle? && PossibleOutcome(w, out)
    ensures Walled(Advance(w, out))
  {
    GoKeepsStructure(w, out);
  }

  lemma EnvironmentKeepsWalled(w: World, a: Action)
    requires Walled(w) && Enabled(w, a) && a != SetCredential(true) && !a.Go? && !a.Begin? && !a.Crash?
    ensures Walled(Apply(w, a))
  {
    EnvironmentRelies(w, a);
    StepKeepsStructure(w, a);
    hide Structure;
  }

  /** With the marker set, an unreadable credential is a wall: the finalizer stays. */
  lemma {:induction false} MarkedAndUnreadableKeepsFinalizer(w: World, actions: seq<Action>, end: World)
    requires Walled(w) && Run(w, actions, end) && SetCredential(true) !in actions
    ensures Walled(end)
    decreases |actions|
  {
    hide Walled, Advance, OthersOnly;
    if actions != [] {
      var a := actions[0];
      if a.Go? {
        GoKeepsWalled(w, a.outcome);
      } else if a.Begin? || a.Crash? {
        BeginKeepsWalled(w, a);
      } else {
        EnvironmentKeepsWalled(w, a);
      }
      MarkedAndUnreadableKeepsFinalizer(Apply(w, a), actions[1..], end);
    }
  }

  lemma BeginKeepsWalled(w: World, a: Action)
    requires Walled(w) && Enabled(w, a) && (a.Begin? || a.Crash?)
    ensures Walled(Apply(w, a))
  {
  }

  // ---------------------------------------------------------------- token coherence

  /** Only the operator touches the tunnel and outsiders only delete or empty the Secret: whatever was
      lost or refused, a stored token is the platform's valid one. */
  lemma TokenCoherence(w0: World, actions: seq<Action>, w: World)
    requires Init(w0) && Run(w0, actions, w) && PanelDeletes(actions) == 0 && PanelRotations(actions) == 0
    ensures forall id :: id in w.platform.tunnels && w.platform.tunnels[id].externalID == w.uid && Usable(w.secret) ==>
            w.secret.value.token == w.platform.tunnels[id].token
  {
    RunFromInit(w0, actions, w);
  }

  /** A reconcile that completes leaves a pod template naming the Secret version that holds the valid
      token of the tunnel it recorded. */
  lemma CompletedReconcileNamesToken(w0: World, actions: seq<Action>, w: World, out: Outcome)
    requires Init(w0) && Run(w0, actions, w) && PanelDeletes(actions) == 0 && PanelRotations(actions) == 0
    requires w.worker.WriteStatus? && w.worker.complete && Current(w, w.worker.s) && !out.Refused?
    ensures var v := Advance(w, out);
            && v.worker == Idle && v.obj.Some? && v.obj.value.status.tunnelID in v.platform.tunnels
            && v.platform.tunnels[v.obj.value.status.tunnelID].externalID == v.uid
            && v.deployment.Some? && v.deployment.value.credentialVersion in v.log.versions
            && v.log.versions[v.deployment.value.credentialVersion]
               == v.platform.tunnels[v.obj.value.status.tunnelID].token
            && (Usable(v.secret) ==> v.secret.value.version == v.deployment.value.credentialVersion)
  {
    RunFromInit(w0, actions, w);
  }

  // ---------------------------------------------------------------- the Ready roll-up

  /** In every persisted status: Ready is exactly Synced, an available agent and the platform's own word, except that
      the unreadable-credential exit, which makes Synced false, leaves a Ready standing that was so earned. */
  lemma ReadyRollup(w0: World, actions: seq<Action>, w: World)
    requires Init(w0) && Run(w0, actions, w) && w.obj.Some?
    ensures var st := w.obj.value.status;
            && (st.synced.True() ==>
                  (st.ready.True() <==> st.agentAvailable.True() && st.onlineStatus == "online"))
            && (st.ready.True() ==>
                  && st.agentAvailable.True() && st.onlineStatus == "online"
                  && (st.synced.True() || (st.synced.Condition? && st.synced.reason == CredentialUnreadable)))
  {
    RunFromInit(w0, actions, w);
  }

  /** A status about to be written keeps "Ready implies Synced", or is the one of the unreadable-credential exit. */
  ghost predicate NextKnown(w: World) {
    w.worker.WriteStatus? ==>
      || (w.worker.next.ready.True() ==> w.worker.next.synced.True())
      || w.worker.next == UnreadableStatus(w.worker.s)
  }

  lemma SetReadyImpliesSynced(st: TunnelStatus, online: string, generation: nat)
    ensures SetReady(st, online, generation).ready.True() ==> SetReady(st, online, generation).synced.True()
  {
  }

  lemma FailIsKnown(s: TunnelObject, st: TunnelStatus, err: Error)
    ensures FailStatus(s, st, err).ready.True() ==> FailStatus(s, st, err).synced.True()
  {
    hide Classify;
  }

  lemma GoKeepsNextKnown(w: World, out: Outcome)
    requires !w.worker.Idle?
    ensures NextKnown(Advance(w, out))
  {
    hide FailStatus, SetReady, Current;
    forall st, online, generation
      ensures SetReady(st, online, generation).ready.True() ==> SetReady(st, online, generation).synced.True()
    {
      SetReadyImpliesSynced(st, online, generation);
    }
    forall s, st, err
      ensures FailStatus(s, st, err).ready.True() ==> FailStatus(s, st, err).synced.True()
    {
      FailIsKnown(s, st, err);
    }
  }

  lemma {:induction false} RunKeepsNextKnown(w: World, actions: seq<Action>, end: World)
    requires NextKnown(w) && Run(w, actions, end)
    ensures NextKnown(end)
    decreases |actions|
  {
    hide Advance, OthersOnly, NextKnown;
    if actions != [] {
      StepKeepsNextKnown(w, actions[0]);
      RunKeepsNextKnown(Apply(w, actions[0]), actions[1..], end);
    }
  }

  lemma StepKeepsNextKnown(w: World, a: Action)
    requires NextKnown(w) && Enabled(w, a)
    ensures NextKnown(Apply(w, a))
  {
    hide Advance, OthersOnly, UnreadableStatus;
    if a.Go? {
      GoKeepsNextKnown(w, a.outcome);
    }
  }

  /** "Ready implies Synced", of what is persisted. */
  predicate FullRollup(w: World) {
    w.obj.Some? && w.obj.value.status.ready.True() ==> w.obj.value.status.synced.True()
  }

  /** In every run the full roll-up is broken by exactly one step: the status write of the unreadable-credential exit,
      of an object that was Ready. No other exit and nobody else breaks it. */
  lemma ReadyImpliesSyncedExactlyWhen(w0: World, actions: seq<Action>, w: World, a: Action)
    requires Init(w0) && Run(w0, actions, w) && Enabled(w, a) && FullRollup(w)
    ensures !FullRollup(Apply(w, a)) <==>
            && a.Go? && !a.outcome.Refused? && w.worker.WriteStatus? && Current(w, w.worker.s)
            && w.worker.next == UnreadableStatus(w.worker.s) && w.worker.s.status.ready.True()
  {
    hide Run, Classify, OthersOnly;
    RunFromInit(w0, actions, w);
    RunKeepsNextKnown(w0, actions, w);
    hide Rest, NextKnown;
    if a.Go? && w.worker.WriteStatus? {
      NextRollup(w);
    } else {
      KeepsFullRollup(w, a);
    }
  }

  lemma NextRollup(w: World)
    requires NextKnown(w) && w.worker.WriteStatus?
    ensures (w.worker.next.ready.True() && !w.worker.next.synced.True())
            <==> w.worker.next == UnreadableStatus(w.worker.s) && w.worker.s.status.ready.True()
  {
  }

  /** Any other step leaves the three conditions alone. */
  lemma StoreGoKeepsConditions(w: World, out: Outcome)
    requires Structure(w) && FullRollup(w) && (w.worker.AddFinalizer? || w.worker.RecordMarker? || w.worker.Release?)
    ensures FullRollup(Advance(w, out))
  {
    hide FailStatus;
  }

  lemma RemoteGoKeepsConditions(w: World, out: Outcome)
    requires FullRollup(w) && !w.worker.Idle? && !w.worker.WriteStatus?
    requires !w.worker.AddFinalizer? && !w.worker.RecordMarker? && !w.worker.Release?
    ensures FullRollup(Advance(w, out))
  {
    hide SuccessStatus, FailStatus, UnreadableStatus, FullRollup;
    assert Advance(w, out).obj == w.obj;
    SameConditions(w, Advance(w, out));
  }

  lemma SameConditions(w: World, v: World)
    requires FullRollup(w) && v.obj == w.obj
    ensures FullRollup(v)
  {
  }

  lemma KeepsFullRollup(w: World, a: Action)
    requires Structure(w) && Enabled(w, a) && FullRollup(w) && !(a.Go? && w.worker.WriteStatus?)
    ensures FullRollup(Apply(w, a))
  {
    hide OthersOnly, Advance, Structure;
    if a.Go? {
      if w.worker.AddFinalizer? || w.worker.RecordMarker? || w.worker.Release? {
        StoreGoKeepsConditions(w, a.outcome);
      } else {
        RemoteGoKeepsConditions(w, a.outcome);
      }
    }
  }
}
