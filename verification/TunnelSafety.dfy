/** What every interleaving of tunnel micro-steps, crashes, lost answers, credential losses, user
    edits and deletes keeps. */
module TunnelSafety {
  import opened Base
  import opened Errors
  import opened Platform
  import opened TunnelMachine

  /** The platform tunnel carrying this object's UID, if any. */
  function Mine(w: World): Option<string> {
    w.platform.Find(w.uid)
  }

  /** An identifier that was minted for this object and can never name anybody else's tunnel. */
  ghost predicate Own(w: World, id: string) {
    && w.log.reached > 0 && id in w.platform.used
    && (id in w.platform.tunnels ==> w.platform.tunnels[id].externalID == w.uid)
  }

  // ---------------------------------------------------------------- the structural invariant

  ghost predicate StatusOk(w: World, st: TunnelStatus) {
    && (st.externalID == "" || st.externalID == w.uid)
    && (st.tunnelID != "" ==> st.externalID == w.uid && Own(w, st.tunnelID))
  }

  /** The object still is what the worker read, up to what users may do to it meanwhile. */
  ghost predicate Held(w: World, s: TunnelObject) {
    && w.obj.Some? && w.obj.value.finalizer && w.obj.value.status == s.status && s.finalizer
    && (s.deleting ==> w.obj.value.deleting)
  }

  ghost predicate SnapshotOk(w: World, s: TunnelObject) {
    && s.rv <= w.rv && StatusOk(w, s.status)
    && (Current(w, s) ==> w.obj.value == s)
  }

  ghost predicate Working(w: World, s: TunnelObject) {
    SnapshotOk(w, s) && Held(w, s) && !s.deleting
  }

  ghost predicate Removing(w: World, s: TunnelObject) {
    SnapshotOk(w, s) && Held(w, s) && s.deleting
  }

  ghost predicate WorkerOk(w: World) {
    match w.worker
    case Idle => true
    case AddFinalizer(s) =>
      SnapshotOk(w, s) && !s.deleting && !s.finalizer &&
      (w.obj.Some? ==> !w.obj.value.finalizer && w.obj.value.status == s.status)
    case NeedClient(s) => Working(w, s)
    case GetKnown(s) => Working(w, s) && s.status.tunnelID != ""
    case RecordMarker(s) => Working(w, s) && s.status.externalID == ""
    case Create(s) => Working(w, s) && s.status.externalID == w.uid
    case GetCreated(s, id, _) =>
      Working(w, s) && s.status.externalID == w.uid && Own(w, id)
    case CheckSecret(s, remote) =>
      Working(w, s) && s.status.externalID == w.uid && Own(w, remote.id)
    case Rotate(s, remote) =>
      Working(w, s) && s.status.externalID == w.uid && Own(w, remote.id)
    case WriteSecret(s, remote, token) =>
      Working(w, s) && s.status.externalID == w.uid && Own(w, remote.id) && token != ""
    case Deploy(s, remote, _) =>
      Working(w, s) && s.status.externalID == w.uid && Own(w, remote.id)
    case WriteStatus(s, next, _) =>
      && SnapshotOk(w, s) && StatusOk(w, next) && !s.deleting && s.finalizer
      && w.obj.Some? && w.obj.value.finalizer
      && (next.externalID == "" ==> Held(w, s) && s.status.externalID == "")
      && w.obj.value.status.tunnelID == s.status.tunnelID
      && (next.tunnelID == "" ==> s.status.tunnelID == "")
    case DeleteClient(s) => Removing(w, s) && s.status.externalID == w.uid
    case DeleteFind(s) =>
      Removing(w, s) && s.status.externalID == w.uid && s.status.tunnelID == ""
    case DeleteRemote(s, id) =>
      && Removing(w, s) && s.status.externalID == w.uid && Own(w, id)
      && (s.status.tunnelID == "" || s.status.tunnelID == id)
      && (s.status.tunnelID == "" && Mine(w).Some? ==> Mine(w) == Some(id))
    case Release(s) =>
      && Removing(w, s)
      && (Mine(w).Some? ==> s.status.tunnelID != "" && Mine(w) != Some(s.status.tunnelID))
  }

  ghost predicate Structure(w: World) {
    && w.uid != "" && w.platform.Valid()
    && (w.obj.Some? ==>
          && w.obj.value.rv <= w.rv && StatusOk(w, w.obj.value.status)
          && (w.obj.value.status.externalID == "" ==> w.log.reached == 0))
    && WorkerOk(w)
    && (w.log.reached == 0 ==> Mine(w).None?)
    && (Usable(w.secret) ==> w.log.reached > 0)
  }

  lemma StructureInit(w: World)
    requires Init(w)
    ensures Structure(w)
  {
  }

  /** What the environment, or anyone but the worker, may change without disturbing it. */
  ghost predicate Rely(w: World, v: World) {
    && v.uid == w.uid && v.worker == w.worker && v.rv >= w.rv && v.platform.Valid()
    && v.log.reached == w.log.reached
    && w.platform.used <= v.platform.used
    && (forall id :: id in w.platform.used && id in v.platform.tunnels ==>
          id in w.platform.tunnels && v.platform.tunnels[id].externalID == w.platform.tunnels[id].externalID)
    && (Mine(v) == Mine(w) || Mine(v).None?)
    && match w.obj
       case None => v.obj.None?
       case Some(o) =>
         || v.obj == w.obj
         || (v.obj.None? && !o.finalizer)
         || (&& v.obj.Some? && w.rv < v.obj.value.rv <= v.rv
             && v.obj.value.finalizer == o.finalizer && v.obj.value.status == o.status
             && (o.deleting ==> v.obj.value.deleting))
  }

  lemma RelyKeepsOwn(w: World, v: World, id: string)
    requires Rely(w, v) && Own(w, id)
    ensures Own(v, id)
  {
  }

  lemma RelyKeepsSnapshot(w: World, v: World, s: TunnelObject)
    requires Rely(w, v) && SnapshotOk(w, s)
    ensures SnapshotOk(v, s)
    ensures Held(w, s) ==> Held(v, s)
  {
  }

  lemma RelyKeepsWorker(w: World, v: World)
    requires Rely(w, v) && WorkerOk(w)
    ensures WorkerOk(v)
  {
    if !w.worker.Idle? {
      RelyKeepsSnapshot(w, v, w.worker.s);
    }
    match w.worker
    case GetCreated(_, id, _) => RelyKeepsOwn(w, v, id);
    case CheckSecret(_, remote) => RelyKeepsOwn(w, v, remote.id);
    case Rotate(_, remote) => RelyKeepsOwn(w, v, remote.id);
    case WriteSecret(_, remote, _) => RelyKeepsOwn(w, v, remote.id);
    case Deploy(_, remote, _) => RelyKeepsOwn(w, v, remote.id);
    case WriteStatus(s, next, _) =>
      if next.tunnelID != "" {
        RelyKeepsOwn(w, v, next.tunnelID);
      }
    case DeleteRemote(_, id) => RelyKeepsOwn(w, v, id);
    case _ =>
  }

  lemma RelyKeepsStructure(w: World, v: World)
    requires Structure(w) && Rely(w, v)
    requires Usable(v.secret) ==> Usable(w.secret)
    ensures Structure(v)
  {
    RelyKeepsWorker(w, v);
    if w.obj.Some? && w.obj.value.status.tunnelID != "" {
      RelyKeepsOwn(w, v, w.obj.value.status.tunnelID);
    }
  }

  lemma StoreActionRelies(w: World, a: Action)
    requires Structure(w) && Enabled(w, a) && (a.UserDelete? || a.EditSpec? || a.SetForeign?)
    ensures Rely(w, Apply(w, a))
  {
  }

  lemma OthersRely(w: World, q: Platform)
    requires Structure(w) && OthersOnly(w.platform, q, w.uid)
    ensures Rely(w, w.(platform := q))
  {
  }

  lemma OnlineChangeRelies(w: World, online: string)
    requires Structure(w) && Enabled(w, OnlineChange(online))
    ensures Rely(w, Apply(w, OnlineChange(online)))
  {
  }

  lemma PanelRotateRelies(w: World, token: string)
    requires Structure(w) && Enabled(w, PanelRotate(token))
    ensures Rely(w, Apply(w, PanelRotate(token)))
  {
  }

  lemma PanelDeleteRelies(w: World)
    requires Structure(w) && Enabled(w, PanelDelete)
    ensures Rely(w, Apply(w, PanelDelete))
  {
    DeleteKeepsValid(w.platform, w.platform.owners[w.uid]);
  }

  lemma EnvironmentRelies(w: World, a: Action)
    requires Structure(w) && Enabled(w, a) && !a.Go? && !a.Begin? && !a.Crash?
    ensures Rely(w, Apply(w, a)) && (Usable(Apply(w, a).secret) ==> Usable(w.secret))
  {
    match a
    case UserDelete => StoreActionRelies(w, a);
    case EditSpec => StoreActionRelies(w, a);
    case SetForeign(_) => StoreActionRelies(w, a);
    case OnlineChange(online) => OnlineChangeRelies(w, online);
    case Others(q) => OthersRely(w, q);
    case PanelRotate(token) => PanelRotateRelies(w, token);
    case PanelDelete => PanelDeleteRelies(w);
    case _ =>
  }

  lemma BeginKeepsStructure(w: World)
    requires Structure(w) && w.worker.Idle?
    ensures Structure(w.(worker := Start(w)))
  {
  }

  lemma CrashKeepsStructure(w: World)
    requires Structure(w)
    ensures Structure(w.(worker := Idle))
  {
  }

  lemma FailKeepsStructure(w: World, s: TunnelObject, st: TunnelStatus, err: Error)
    requires Structure(w.(worker := Idle)) && SnapshotOk(w, s) && !s.deleting && s.finalizer
    requires w.obj.Some? && w.obj.value.finalizer && w.obj.value.status.tunnelID == s.status.tunnelID
    requires StatusOk(w, st) && st.tunnelID == s.status.tunnelID
    requires st.externalID == "" ==> Held(w, s) && s.status.externalID == ""
    ensures Structure(Fail(w, s, st, err))
  {
  }

  lemma AddFinalizerKeepsStructure(w: World, s: TunnelObject, out: Outcome)
    requires Structure(w) && w.worker == AddFinalizer(s)
    ensures Structure(GoAddFinalizer(w, s, out))
  {
  }

  lemma NeedClientKeepsStructure(w: World, s: TunnelObject, out: Outcome)
    requires Structure(w) && w.worker == NeedClient(s)
    ensures Structure(GoNeedClient(w, s, out))
  {
  }

  lemma GetKnownKeepsStructure(w: World, s: TunnelObject, out: Outcome)
    requires Structure(w) && w.worker == GetKnown(s)
    ensures Structure(GoGetKnown(w, s, out))
  {
    if !out.Done? {
      FailKeepsStructure(w, s, s.status, out.err);
    }
  }

  lemma RecordMarkerKeepsStructure(w: World, s: TunnelObject, out: Outcome)
    requires Structure(w) && w.worker == RecordMarker(s)
    ensures Structure(GoRecordMarker(w, s, out))
  {
    var st := s.status.(externalID := w.uid);
    if out.Refused? || !Current(w, s) {
      FailKeepsStructure(w, s, st, Wrapped(Plain));
    } else {
      var v := Put(w, s.(status := st));
      assert Structure(v.(worker := Idle));
      if out.Lost? {
        FailKeepsStructure(v, s, st, Wrapped(Plain));
      }
    }
  }

  lemma CreateKeepsStructure(w: World, s: TunnelObject, out: Outcome)
    requires Structure(w) && PossibleOutcome(w, out) && w.worker == Create(s)
    ensures Structure(GoCreate(w, s, out))
  {
    if out.Refused? {
      FailKeepsStructure(w, s, s.status, out.err);
    } else {
      CreateKeepsValid(w.platform, w.uid, out.id, out.token);
      var v := CreateRemote(w, out.id, out.token);
      assert Structure(v);
      if out.Lost? {
        FailKeepsStructure(v, s, s.status, out.err);
      }
    }
  }

  lemma GetCreatedKeepsStructure(w: World, s: TunnelObject, id: string, token: string, out: Outcome)
    requires Structure(w) && w.worker == GetCreated(s, id, token)
    ensures Structure(GoGetCreated(w, s, id, token, out))
  {
    if !out.Done? {
      FailKeepsStructure(w, s, s.status, out.err);
    } else if id !in w.platform.tunnels {
      FailKeepsStructure(w, s, s.status, APIError(404, CodeNotFound));
    }
  }

  lemma CheckSecretKeepsStructure(w: World, s: TunnelObject, remote: Remote, out: Outcome)
    requires Structure(w) && w.worker == CheckSecret(s, remote)
    ensures Structure(GoCheckSecret(w, s, remote, out))
  {
    if !out.Done? {
      FailKeepsStructure(w, s, s.status, Plain);
    }
  }

  lemma RotatedRelies(w: World, id: string, token: string)
    requires Structure(w) && id in w.platform.tunnels && token != ""
    ensures Rely(w, w.(platform := w.platform.Rotate(id, token), log := w.log.(rotations := w.log.rotations + 1)))
  {
  }

  lemma RotateKeepsStructure(w: World, s: TunnelObject, remote: Remote, out: Outcome)
    requires Structure(w) && PossibleOutcome(w, out) && w.worker == Rotate(s, remote)
    ensures Structure(GoRotate(w, s, remote, out))
  {
    if out.Refused? {
      FailKeepsStructure(w, s, s.status, Wrapped(out.err));
    } else if remote.id !in w.platform.tunnels {
      FailKeepsStructure(w, s, s.status, Wrapped(APIError(404, CodeNotFound)));
    } else {
      var v := w.(platform := w.platform.Rotate(remote.id, out.token),
                  log := w.log.(rotations := w.log.rotations + 1));
      RotatedRelies(w, remote.id, out.token);
      RelyKeepsStructure(w, v);
      if out.Lost? {
        FailKeepsStructure(v, s, s.status, Wrapped(out.err));
      }
    }
  }

  lemma WriteSecretKeepsStructure(w: World, s: TunnelObject, remote: Remote, token: string, out: Outcome)
    requires Structure(w) && w.worker == WriteSecret(s, remote, token)
    ensures Structure(GoWriteSecret(w, s, remote, token, out))
  {
    if out.Refused? {
      FailKeepsStructure(w, s, s.status, Plain);
    } else {
      var v := StoreToken(w, token);
      assert Structure(v);
      if out.Lost? {
        FailKeepsStructure(v, s, s.status, Plain);
      }
    }
  }

  lemma DeployKeepsStructure(w: World, s: TunnelObject, remote: Remote, version: nat, out: Outcome)
    requires Structure(w) && w.worker == Deploy(s, remote, version)
    ensures Structure(GoDeploy(w, s, remote, version, out))
  {
  }

  lemma WriteStatusKeepsStructure(w: World, s: TunnelObject, next: TunnelStatus, complete: bool, out: Outcome)
    requires Structure(w) && w.worker == WriteStatus(s, next, complete)
    ensures Structure(GoWriteStatus(w, s, next, out))
  {
  }

  lemma DeleteClientKeepsStructure(w: World, s: TunnelObject, out: Outcome)
    requires Structure(w) && w.worker == DeleteClient(s)
    ensures Structure(GoDeleteClient(w, s, out))
  {
  }

  lemma DeleteFindKeepsStructure(w: World, s: TunnelObject, out: Outcome)
    requires Structure(w) && w.worker == DeleteFind(s)
    ensures Structure(GoDeleteFind(w, s, out))
  {
  }

  lemma DeleteRemoteKeepsStructure(w: World, s: TunnelObject, id: string, out: Outcome)
    requires Structure(w) && w.worker == DeleteRemote(s, id)
    ensures Structure(GoDeleteRemote(w, s, id, out))
  {
    DeleteKeepsValid(w.platform, id);
    if !out.Refused? {
      RelyKeepsStructure(w, w.(platform := w.platform.DeleteTunnel(id)));
    }
  }

  lemma ReleaseKeepsStructure(w: World, s: TunnelObject, out: Outcome)
    requires Structure(w) && w.worker == Release(s)
    ensures Structure(GoRelease(w, s, out))
  {
  }

  lemma GoKeepsStructure(w: World, out: Outcome)
    requires Structure(w) && !w.worker.Idle? && PossibleOutcome(w, out)
    ensures Structure(Advance(w, out))
  {
    hide Structure, GoAddFinalizer, GoNeedClient, GoGetKnown, GoRecordMarker, GoCreate, GoGetCreated, GoCheckSecret,
      GoRotate, GoWriteSecret, GoDeploy, GoWriteStatus, GoDeleteClient, GoDeleteFind, GoDeleteRemote, GoRelease,
      PossibleOutcome;
    match w.worker
    case AddFinalizer(s) => AddFinalizerKeepsStructure(w, s, out);
    case NeedClient(s) => NeedClientKeepsStructure(w, s, out);
    case GetKnown(s) => GetKnownKeepsStructure(w, s, out);
    case RecordMarker(s) => RecordMarkerKeepsStructure(w, s, out);
    case Create(s) => CreateKeepsStructure(w, s, out);
    case GetCreated(s, id, token) => GetCreatedKeepsStructure(w, s, id, token, out);
    case CheckSecret(s, remote) => CheckSecretKeepsStructure(w, s, remote, out);
    case Rotate(s, remote) => RotateKeepsStructure(w, s, remote, out);
    case WriteSecret(s, remote, token) => WriteSecretKeepsStructure(w, s, remote, token, out);
    case Deploy(s, remote, version) => DeployKeepsStructure(w, s, remote, version, out);
    case WriteStatus(s, next, complete) => WriteStatusKeepsStructure(w, s, next, complete, out);
    case DeleteClient(s) => DeleteClientKeepsStructure(w, s, out);
    case DeleteFind(s) => DeleteFindKeepsStructure(w, s, out);
    case DeleteRemote(s, id) => DeleteRemoteKeepsStructure(w, s, id, out);
    case Release(s) => ReleaseKeepsStructure(w, s, out);
  }

  lemma EnvironmentKeepsStructure(w: World, a: Action)
    requires Structure(w) && Enabled(w, a) && !a.Go? && !a.Begin? && !a.Crash?
    ensures Structure(Apply(w, a))
  {
    EnvironmentRelies(w, a);
    hide *;
    RelyKeepsStructure(w, Apply(w, a));
  }

  lemma StepKeepsStructure(w: World, a: Action)
    requires Structure(w) && Enabled(w, a)
    ensures Structure(Apply(w, a))
  {
    hide Structure, Rely, Advance, Start, PossibleOutcome, OthersOnly;
    match a
    case Begin => BeginKeepsStructure(w);
    case Go(out) => GoKeepsStructure(w, out);
    case Crash => CrashKeepsStructure(w);
    case _ => EnvironmentKeepsStructure(w, a);
  }
}
