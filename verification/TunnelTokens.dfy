/** Stale tokens and stale ids: how each comes about, exactly, and what an uninterrupted delete makes of it. */
module TunnelTokens {
  import opened Base
  import opened Errors
  import opened Platform
  import opened TunnelMachine
  import opened TunnelSafety
  import opened TunnelInvariants
  import opened TunnelTheorems
  import opened TunnelConvergence

  /** A step that writes neither the platform nor the Secret, and where a token may come from after it. */
  ghost predicate QuietStep(w: World, v: World) {
    && v.uid == w.uid && v.platform == w.platform && v.secret == w.secret && v.log == w.log
    && !v.worker.GetCreated? && (v.worker.Rotate? ==> !Usable(w.secret))
    && (v.worker.WriteSecret? ==> w.worker.GetCreated? && w.worker.token == v.worker.token && w.worker.token != "")
  }

  lemma StoreGoIsQuiet(w: World, out: Outcome)
    requires w.worker.AddFinalizer? || w.worker.RecordMarker? || w.worker.WriteStatus? || w.worker.Release?
          || w.worker.Deploy?
    ensures QuietStep(w, Advance(w, out))
  {
    hide SuccessStatus, FailStatus, Current;
  }

  lemma ReadGoIsQuiet(w: World, out: Outcome)
    requires w.worker.NeedClient? || w.worker.GetKnown? || w.worker.GetCreated? || w.worker.CheckSecret?
          || w.worker.DeleteClient? || w.worker.DeleteFind?
    ensures QuietStep(w, Advance(w, out))
  {
    hide FailStatus, UnreadableStatus;
  }

  /** The steps that do write them. */
  predicate Writes(worker: Worker) {
    worker.Create? || worker.Rotate? || worker.WriteSecret? || worker.DeleteRemote?
  }

  lemma GoIsQuiet(w: World, out: Outcome)
    requires !w.worker.Idle? && !Writes(w.worker)
    ensures QuietStep(w, Advance(w, out))
  {
    hide QuietStep, Advance;
    if w.worker.AddFinalizer? || w.worker.RecordMarker? || w.worker.WriteStatus? || w.worker.Release?
       || w.worker.Deploy? {
      StoreGoIsQuiet(w, out);
    } else {
      ReadGoIsQuiet(w, out);
    }
  }

  // ---------------------------------------------------------------- the step that makes a stored token stale

  /** Every token the operator holds was minted by the platform. */
  ghost predicate TokensIssued(w: World) {
    && (Usable(w.secret) ==> w.secret.value.token in w.platform.issued)
    && (w.worker.GetCreated? && w.worker.token != "" ==> w.worker.token in w.platform.issued)
    && (w.worker.WriteSecret? ==> w.worker.token in w.platform.issued)
  }

  lemma GoKeepsTokensIssued(w: World, out: Outcome)
    requires TokensIssued(w) && !w.worker.Idle?
    ensures TokensIssued(Advance(w, out))
  {
    hide FailStatus, GoAddFinalizer, GoNeedClient, GoGetKnown, GoRecordMarker, GoGetCreated, GoCheckSecret, GoDeploy,
      GoWriteStatus, GoDeleteClient, GoDeleteFind, GoRelease;
    if !Writes(w.worker) {
      GoIsQuiet(w, out);
    }
  }

  lemma StepKeepsTokensIssued(w: World, a: Action)
    requires TokensIssued(w) && Enabled(w, a)
    ensures TokensIssued(Apply(w, a))
  {
    hide Advance;
    if a.Go? {
      GoKeepsTokensIssued(w, a.outcome);
    }
  }

  lemma {:induction false} RunKeepsTokensIssued(w: World, actions: seq<Action>, end: World)
    requires TokensIssued(w) && Run(w, actions, end)
    ensures TokensIssued(end)
    decreases |actions|
  {
    hide TokensIssued, Enabled, Apply;
    if actions != [] {
      StepKeepsTokensIssued(w, actions[0]);
      RunKeepsTokensIssued(Apply(w, actions[0]), actions[1..], end);
    }
  }

  /** A rotation in the panel under a stored token; a create that makes a tunnel, or a rotation, under a stored token;
      or storing a token that is no longer the valid one. */
  predicate StaleBirth(w: World, a: Action) {
    || (a.PanelRotate? && Usable(w.secret))
    || (&& a.Go? && !a.outcome.Refused?
        && match w.worker
           case Create(_) => Mine(w).None? && Usable(w.secret)
           case Rotate(_, remote) => Mine(w) == Some(remote.id) && Usable(w.secret)
           case WriteSecret(_, _, token) => Mine(w).Some? && TokenOf(w) != Some(token)
           case _ => false)
  }

  lemma CreateStaleBirth(w: World, s: TunnelObject, out: Outcome)
    requires Structure(w) && TokensIssued(w) && !StaleToken(w) && w.worker == Create(s) && PossibleOutcome(w, out)
    ensures StaleToken(GoCreate(w, s, out)) <==> StaleBirth(w, Go(out))
  {
    hide FailStatus, WorkerOk, StatusOk;
  }

  lemma RotateStaleBirth(w: World, s: TunnelObject, remote: Remote, out: Outcome)
    requires Structure(w) && TokensIssued(w) && !StaleToken(w) && w.worker == Rotate(s, remote)
    requires PossibleOutcome(w, out)
    ensures StaleToken(GoRotate(w, s, remote, out)) <==> StaleBirth(w, Go(out))
  {
    hide FailStatus, Working, StatusOk;
  }

  lemma WriteSecretStaleBirth(w: World, s: TunnelObject, remote: Remote, token: string, out: Outcome)
    requires Structure(w) && !StaleToken(w) && w.worker == WriteSecret(s, remote, token)
    ensures StaleToken(GoWriteSecret(w, s, remote, token, out)) <==> StaleBirth(w, Go(out))
  {
    hide FailStatus, Working, StatusOk;
  }

  lemma DeleteRemoteStaleBirth(w: World, s: TunnelObject, id: string, out: Outcome)
    requires Structure(w) && !StaleToken(w) && w.worker == DeleteRemote(s, id)
    ensures !StaleToken(GoDeleteRemote(w, s, id, out))
  {
    hide Removing, StatusOk;
    DeletedOwn(w, id);
  }

  lemma GoStaleBirth(w: World, out: Outcome)
    requires Structure(w) && TokensIssued(w) && !StaleToken(w) && !w.worker.Idle? && PossibleOutcome(w, out)
    requires Writes(w.worker)
    ensures StaleToken(Advance(w, out)) <==> StaleBirth(w, Go(out))
  {
    hide Structure, TokensIssued, StaleToken, PossibleOutcome, GoCreate, GoRotate, GoWriteSecret, GoDeleteRemote;
    match w.worker
    case Create(s) => CreateStaleBirth(w, s, out);
    case Rotate(s, remote) => RotateStaleBirth(w, s, remote, out);
    case WriteSecret(s, remote, token) => WriteSecretStaleBirth(w, s, remote, token, out);
    case DeleteRemote(s, id) => DeleteRemoteStaleBirth(w, s, id, out);
  }

  lemma EnvironmentStaleBirth(w: World, a: Action)
    requires Structure(w) && TokensIssued(w) && !StaleToken(w) && Enabled(w, a) && !a.Go?
    ensures StaleToken(Apply(w, a)) <==> StaleBirth(w, a)
  {
    hide WorkerOk, StatusOk;
  }

  /** In every run, panel included, a stored token becomes stale by exactly these steps. */
  lemma StaleTokenBornExactlyWhen(w0: World, actions: seq<Action>, w: World, a: Action)
    requires Init(w0) && Run(w0, actions, w) && Enabled(w, a) && !StaleToken(w)
    ensures StaleToken(Apply(w, a)) <==> StaleBirth(w, a)
  {
    hide Run, Rest;
    RunFromInit(w0, actions, w);
    RunKeepsTokensIssued(w0, actions, w);
    hide Structure, TokensIssued, StaleToken, StaleBirth, Advance;
    if a.Go? {
      GoBorn(w, a.outcome);
    } else {
      EnvironmentStaleBirth(w, a);
    }
  }

  lemma GoBorn(w: World, out: Outcome)
    requires Structure(w) && TokensIssued(w) && !StaleToken(w) && !w.worker.Idle? && PossibleOutcome(w, out)
    ensures StaleToken(Advance(w, out)) <==> StaleBirth(w, Go(out))
  {
    hide Structure, TokensIssued, Advance, PossibleOutcome;
    if Writes(w.worker) {
      GoStaleBirth(w, out);
    } else {
      GoIsQuiet(w, out);
    }
  }

  // ---------------------------------------------------------------- a stale token stays

  /** The stored token is not the tunnel's, nothing in flight will replace it, and no new tunnel will come. */
  ghost predicate StaleForGood(w: World) {
    && Usable(w.secret) && w.secret.value.token in w.platform.issued
    && (Mine(w).Some? ==> TokenOf(w) != Some(w.secret.value.token))
    && (Mine(w).Some? || w.log.deleted == 1)
    && !(w.worker.GetCreated? && w.worker.token != "") && !w.worker.Rotate? && !w.worker.WriteSecret?
  }

  /** Neither the panel nor anyone at the Secret. */
  predicate HandsOff(a: Action) {
    !a.TamperSecret? && !a.PanelDelete? && !a.PanelRotate?
  }

  lemma CreateKeepsStale(w: World, s: TunnelObject, out: Outcome)
    requires Inv(w) && StaleForGood(w) && w.worker == Create(s)
    ensures StaleForGood(GoCreate(w, s, out))
  {
    hide FailStatus, Exact, Coherent, SecretRecorded, Rollup;
  }

  lemma DeleteRemoteKeepsStale(w: World, s: TunnelObject, id: string, out: Outcome)
    requires Inv(w) && StaleForGood(w) && w.worker == DeleteRemote(s, id)
    ensures StaleForGood(GoDeleteRemote(w, s, id, out))
  {
    hide Exact, Coherent, SecretRecorded, Rollup, Held;
    DeletedOwn(w, id);
  }

  lemma QuietKeepsStale(w: World, v: World)
    requires StaleForGood(w) && QuietStep(w, v)
    ensures StaleForGood(v)
  {
  }

  lemma GoKeepsStale(w: World, out: Outcome)
    requires Inv(w) && StaleForGood(w) && !w.worker.Idle?
    ensures StaleForGood(Advance(w, out))
  {
    hide Inv, StaleForGood, GoCreate, GoDeleteRemote, GoAddFinalizer, GoNeedClient, GoGetKnown, GoRecordMarker,
      GoGetCreated, GoCheckSecret, GoRotate, GoWriteSecret, GoDeploy, GoWriteStatus, GoDeleteClient, GoDeleteFind,
      GoRelease;
    match w.worker
    case Create(s) => CreateKeepsStale(w, s, out);
    case DeleteRemote(s, id) => DeleteRemoteKeepsStale(w, s, id, out);
    case _ => StaleGoesOn(w, out);
  }

  lemma StaleGoesOn(w: World, out: Outcome)
    requires StaleForGood(w) && !w.worker.Idle? && !w.worker.Create? && !w.worker.DeleteRemote?
    ensures StaleForGood(Advance(w, out))
  {
    hide Advance;
    GoIsQuiet(w, out);
    QuietKeepsStale(w, Advance(w, out));
  }

  lemma StepKeepsStale(w: World, a: Action)
    requires Inv(w) && StaleForGood(w) && Enabled(w, a) && HandsOff(a)
    ensures StaleForGood(Apply(w, a))
  {
    hide Advance, Rest, WorkerOk, StatusOk;
    if a.Go? {
      GoKeepsStale(w, a.outcome);
    }
  }

  /** Whatever else happens, crashes, lost answers, edits and deletes included. */
  lemma {:induction false} StaleTokenStays(w: World, actions: seq<Action>, end: World)
    requires Inv(w) && StaleForGood(w) && Run(w, actions, end) && forall a :: a in actions ==> HandsOff(a)
    ensures StaleForGood(end)
    decreases |actions|
  {
    hide Inv, StaleForGood, Enabled, Apply;
    if actions != [] {
      StepKeepsStale(w, actions[0]);
      StepKeepsInv(w, actions[0]);
      StaleTokenStays(Apply(w, actions[0]), actions[1..], end);
    }
  }

  /** Token coherence needs its hypothesis: from any converged object one panel deletion and one lost answer lead to a
      state from which no run at all brings the stored token and the tunnel together again, unless somebody takes the
      stored token away or touches the tunnel in the panel. */
  lemma StaleTokenIsForever(w: World, out: Outcome, lost: Outcome) returns (v: World, actions: seq<Action>)
    requires Inv(w) && Live(w) && Converged(w) && TokenValid(w) && out.Done?
    requires lost.Lost? && !IsNotFound(lost.err) && w.platform.Fresh(lost.id, lost.token)
    ensures Run(w, actions, v) && PanelDeletes(actions) == 1 && StaleToken(v)
    ensures forall later, end :: Run(v, later, end) && (forall a :: a in later ==> HandsOff(a)) ==>
              Usable(end.secret) && (Mine(end).Some? ==> StaleToken(end))
  {
    hide Run;
    v, actions := LostRecreate(w, out, lost);
    RunKeepsInv(w, actions, v);
    StoredIsIssued(w);
    assert StaleForGood(v);
    hide Inv;
    forall later, end | Run(v, later, end) && (forall a :: a in later ==> HandsOff(a))
      ensures Usable(end.secret) && (Mine(end).Some? ==> StaleToken(end))
    {
      StaleTokenStays(v, later, end);
    }
  }

  lemma StoredIsIssued(w: World)
    requires Structure(w) && TokenValid(w)
    ensures w.secret.value.token in w.platform.issued
  {
  }

  // ---------------------------------------------------------------- an uninterrupted delete

  /** A deleting object that we still hold, with a readable credential and no reconcile in flight. */
  ghost predicate Leaving(w: World) {
    && Structure(w) && w.worker.Idle? && w.credential
    && w.obj.Some? && w.obj.value.deleting && w.obj.value.finalizer
  }

  lemma FromRelease(w: World, s: TunnelObject, out: Outcome, fuel: nat)
    requires w.worker == Release(s) && w.obj == Some(s) && out.Done? && fuel >= 1
    ensures var v := Finish(w, out, fuel);
            v.worker.Idle? && v.platform == w.platform && v.uid == w.uid
            && !(v.obj.Some? && v.obj.value.finalizer)
  {
    assert Finish(Advance(w, out), out, fuel - 1) == Advance(w, out);
  }

  lemma FromDeleteRemote(w: World, s: TunnelObject, id: string, out: Outcome, fuel: nat)
    requires w.worker == DeleteRemote(s, id) && w.obj == Some(s) && out.Done? && fuel >= 2
    ensures var v := Finish(w, out, fuel);
            v.worker.Idle? && v.platform == w.platform.DeleteTunnel(id) && v.uid == w.uid
            && !(v.obj.Some? && v.obj.value.finalizer)
  {
    FromRelease(Advance(w, out), s, out, fuel - 1);
  }

  lemma FromDeleteClient(w: World, s: TunnelObject, out: Outcome, fuel: nat)
    requires w.worker == DeleteClient(s) && w.obj == Some(s) && w.credential && out.Done? && fuel >= 4
    requires w.platform.Valid()
    ensures var v := Finish(w, out, fuel);
            v.worker.Idle? && v.uid == w.uid && !(v.obj.Some? && v.obj.value.finalizer)
            && v.platform == if s.status.tunnelID != "" then w.platform.DeleteTunnel(s.status.tunnelID)
                             else if Mine(w).Some? then w.platform.DeleteTunnel(Mine(w).value) else w.platform
  {
    var v1 := Advance(w, out);
    if s.status.tunnelID != "" {
      FromDeleteRemote(v1, s, s.status.tunnelID, out, fuel - 1);
    } else {
      var v2 := Advance(v1, out);
      assert Finish(w, out, fuel) == Finish(v2, out, fuel - 2);
      if Mine(w).Some? {
        FromDeleteRemote(v2, s, Mine(w).value, out, fuel - 2);
      } else {
        FromRelease(v2, s, out, fuel - 2);
      }
    }
  }

  /** An uninterrupted delete releases the object, and leaves an orphan if and only if the recorded id is not empty and
      the platform holds the UID under another one. */
  lemma DeleteOrphansExactlyWhen(w: World, out: Outcome)
    requires Leaving(w) && out.Done?
    ensures var v := Reconcile(w, out);
            && v.worker.Idle? && !(v.obj.Some? && v.obj.value.finalizer)
            && (Orphan(v) <==> w.obj.value.status.tunnelID != "" && Mine(w).Some?
                               && Mine(w) != Some(w.obj.value.status.tunnelID))
  {
    hide Finish;
    var s := w.obj.value;
    var b := w.(worker := Start(w));
    if s.status.externalID == "" {
      FromRelease(b, s, out, CALLS);
    } else {
      FromDeleteClient(b, s, out, CALLS);
      DeletedOwn(w, if s.status.tunnelID != "" then s.status.tunnelID
                    else if Mine(w).Some? then Mine(w).value else "");
    }
  }

  /** A deleting object that carries the finalizer, no reconcile in flight, whatever its credential is. */
  ghost predicate Terminating(w: World) {
    && Structure(w) && w.worker.Idle? && w.obj.Some? && w.obj.value.deleting && w.obj.value.finalizer
  }

  predicate LetGo(w: World) {
    !(w.obj.Some? && w.obj.value.finalizer)
  }

  lemma UnmarkedIsLetGo(w: World, s: TunnelObject, out: Outcome, fuel: nat)
    requires w.worker == Release(s) && w.obj == Some(s) && out.Done? && fuel >= 1
    ensures var v := Finish(w, out, fuel);
            v.worker.Idle? && v.platform == w.platform && v.log == w.log && LetGo(v)
  {
    assert Finish(Advance(w, out), out, fuel - 1) == Advance(w, out);
  }

  lemma WallHolds(w: World, s: TunnelObject, out: Outcome, fuel: nat)
    requires w.worker == DeleteClient(s) && !w.credential && fuel >= 1
    ensures Finish(w, out, fuel) == w.(worker := Idle)
  {
    assert Finish(Advance(w, out), out, fuel - 1) == Advance(w, out);
  }

  /** An uninterrupted delete lets the object go if and only if it carries no marker or its credential can be read.
      Without a marker the platform is not asked for anything; otherwise, when it does not let go, nothing changes. */
  lemma DeleteReleasesExactlyWhen(w: World, out: Outcome)
    requires Terminating(w) && out.Done?
    ensures var v := Reconcile(w, out);
            && v.worker.Idle?
            && (LetGo(v) <==> w.obj.value.status.externalID == "" || w.credential)
            && (w.obj.value.status.externalID == "" ==> v.platform == w.platform && v.log == w.log)
            && (!LetGo(v) ==> v == w)
  {
    hide Finish;
    var s := w.obj.value;
    var b := w.(worker := Start(w));
    if s.status.externalID == "" {
      UnmarkedIsLetGo(b, s, out, CALLS);
    } else if w.credential {
      FromDeleteClient(b, s, out, CALLS);
    } else {
      WallHolds(b, s, out, CALLS);
    }
  }

  /** Deleting a tunnel of one's own takes the UID with it exactly when it is the one that carries it. */
  lemma DeletedOwn(w: World, id: string)
    requires w.platform.Valid() && w.uid != ""
    requires id in w.platform.tunnels ==> w.platform.tunnels[id].externalID == w.uid
    ensures w.platform.DeleteTunnel(id).Find(w.uid) == (if Mine(w) == Some(id) then None else Mine(w))
  {
  }
}
