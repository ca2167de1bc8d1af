/** The rest of the inductive invariant of the tunnel machine, on top of TunnelSafety.Structure:
    creation counting, exactness of the recorded id, token coherence and the Ready roll-up. */
module TunnelInvariants {
  import opened Base
  import opened Errors
  import opened Platform
  import opened TunnelMachine
  import opened TunnelSafety

  /** A platform tunnel of this object that no object will ever clean up. */
  ghost predicate Orphan(w: World) {
    && Mine(w).Some?
    && !(w.obj.Some? && w.obj.value.finalizer && w.obj.value.status.externalID == w.uid)
  }

  /** The finalizer is about to go although the platform still holds a tunnel of this object. By
      Structure this happens only when the recorded id is stale. */
  ghost predicate StaleRelease(w: World, a: Action) {
    && a.Go? && !a.outcome.Refused? && w.worker.Release? && Current(w, w.worker.s) && Mine(w).Some?
  }

  // ---------------------------------------------------------------- counting creations

  ghost predicate Counted(w: World) {
    && w.log.made == (if Mine(w).Some? then 1 else 0) + w.log.deleted + w.log.panelDeletes
    && w.log.deleted <= 1 && w.log.made <= w.log.reached
    && (w.log.deleted == 1 ==>
          Mine(w).None? && !w.worker.Main() && (w.obj.Some? ==> w.obj.value.deleting))
  }

  // ---------------------------------------------------------------- the recorded id is exact

  ghost predicate Exact(w: World) {
    w.log.panelDeletes == 0 ==>
      && !Orphan(w)
      && (w.obj.Some? && w.obj.value.status.tunnelID != "" && w.log.deleted == 0 ==>
            Mine(w) == Some(w.obj.value.status.tunnelID))
      && match w.worker
         case RecordMarker(s) => s.status.tunnelID == ""
         case Create(s) => s.status.tunnelID == ""
         case GetCreated(_, id, _) => Mine(w) == Some(id)
         case CheckSecret(_, remote) => Mine(w) == Some(remote.id)
         case Rotate(_, remote) => Mine(w) == Some(remote.id)
         case WriteSecret(_, remote, _) => Mine(w) == Some(remote.id)
         case Deploy(_, remote, _) => Mine(w) == Some(remote.id)
         case WriteStatus(_, next, complete) =>
           (complete ==> next.tunnelID != "") && (next.tunnelID != "" ==> Mine(w) == Some(next.tunnelID))
         case _ => true
  }

  // ---------------------------------------------------------------- token coherence

  /** The currently valid token of this object's tunnel. */
  function TokenOf(w: World): Option<string> {
    match Mine(w)
    case Some(id) => if id in w.platform.tunnels then Some(w.platform.tunnels[id].token) else None
    case None => None
  }

  /** `version` is a version of the Secret that held the currently valid token, and if the Secret
      holds any token now it is still at that version. */
  ghost predicate Names(w: World, version: nat) {
    && version in w.log.versions && TokenOf(w) == Some(w.log.versions[version])
    && (Usable(w.secret) ==> w.secret.value.version == version)
  }

  ghost predicate SecretRecorded(w: World) {
    && (forall v :: v in w.log.versions ==> v <= w.rv)
    && (Usable(w.secret) ==>
          && w.secret.value.version in w.log.versions
          && w.log.versions[w.secret.value.version] == w.secret.value.token)
  }

  ghost predicate Coherent(w: World) {
    w.log.panelDeletes == 0 && w.log.panelRotations == 0 ==>
      && (Usable(w.secret) ==> w.log.made > 0)
      && (Usable(w.secret) && Mine(w).Some? ==> TokenOf(w) == Some(w.secret.value.token))
      && match w.worker
         case GetCreated(_, _, token) => token != "" ==> TokenOf(w) == Some(token)
         case Rotate(_, _) => !Usable(w.secret)
         case WriteSecret(_, _, token) => TokenOf(w) == Some(token)
         case Deploy(_, _, version) => Names(w, version)
         case WriteStatus(_, _, true) => w.deployment.Some? && Names(w, w.deployment.value.credentialVersion)
         case _ => true
  }

  // ---------------------------------------------------------------- the Ready roll-up

  /** Of a synced tunnel, Ready is exactly that an agent is available and the platform reports it online. Without
      Synced it is not Ready, except that an unreadable credential leaves an earlier Ready standing. */
  predicate RollupOk(st: TunnelStatus) {
    if st.synced.True() then st.ready.True() <==> st.agentAvailable.True() && st.onlineStatus == "online"
    else if st.synced.Condition? && st.synced.reason == CredentialUnreadable
    then st.ready.True() ==> st.agentAvailable.True() && st.onlineStatus == "online"
    else !st.ready.True()
  }

  ghost predicate Rollup(w: World) {
    && (w.obj.Some? ==> RollupOk(w.obj.value.status))
    && (!w.worker.Idle? ==> RollupOk(w.worker.s.status))
    && (w.worker.WriteStatus? ==> RollupOk(w.worker.next))
  }

  // ---------------------------------------------------------------- the whole invariant

  ghost predicate Rest(w: World) {
    Counted(w) && Exact(w) && SecretRecorded(w) && Coherent(w) && Rollup(w)
  }

  ghost predicate Inv(w: World) {
    Structure(w) && Rest(w)
  }

  lemma InitInv(w: World)
    requires Init(w)
    ensures Inv(w)
  {
  }

  lemma StoreActionKeepsRest(w: World, v: World)
    requires Inv(w) && Rely(w, v) && v == w.(obj := v.obj, rv := v.rv)
    ensures Rest(v)
  {
  }

  lemma ClusterActionKeepsRest(w: World, a: Action)
    requires Inv(w) && Enabled(w, a) && (a.SetCredential? || a.AgentChange?)
    ensures Rest(Apply(w, a))
  {
  }

  lemma TamperKeepsRest(w: World, remove: bool)
    requires Inv(w) && w.secret.Some?
    ensures Rest(Apply(w, TamperSecret(remove)))
  {
  }

  lemma OnlineChangeKeepsRest(w: World, online: string)
    requires Inv(w) && Enabled(w, OnlineChange(online))
    ensures Rest(Apply(w, OnlineChange(online)))
  {
  }

  lemma OthersKeepRest(w: World, q: Platform)
    requires Inv(w) && OthersOnly(w.platform, q, w.uid)
    ensures Rest(w.(platform := q))
  {
  }

  lemma PanelKeepsRest(w: World, a: Action)
    requires Inv(w) && Enabled(w, a) && (a.PanelDelete? || a.PanelRotate?)
    ensures Rest(Apply(w, a))
  {
  }

  lemma BeginKeepsRest(w: World)
    requires Inv(w) && w.worker.Idle?
    ensures Rest(w.(worker := Start(w)))
  {
  }

  lemma CrashKeepsRest(w: World)
    requires Inv(w)
    ensures Rest(w.(worker := Idle))
  {
  }

  lemma FailKeepsRest(w: World, s: TunnelObject, st: TunnelStatus, err: Error)
    requires Rest(w.(worker := Idle)) && RollupOk(s.status)
    requires w.log.deleted == 0
    requires w.log.panelDeletes == 0 && st.tunnelID != "" ==> Mine(w) == Some(st.tunnelID)
    ensures Rest(Fail(w, s, st, err))
  {
  }

  lemma AddFinalizerKeepsRest(w: World, s: TunnelObject, out: Outcome)
    requires Inv(w) && w.worker == AddFinalizer(s)
    ensures Rest(GoAddFinalizer(w, s, out))
  {
  }

  lemma NeedClientKeepsRest(w: World, s: TunnelObject, out: Outcome)
    requires Inv(w) && w.worker == NeedClient(s)
    ensures Rest(GoNeedClient(w, s, out))
  {
  }

  lemma GetKnownKeepsRest(w: World, s: TunnelObject, out: Outcome)
    requires Inv(w) && w.worker == GetKnown(s)
    ensures Rest(GoGetKnown(w, s, out))
  {
    if !out.Done? {
      FailKeepsRest(w, s, s.status, out.err);
    }
  }

  lemma RecordMarkerKeepsRest(w: World, s: TunnelObject, out: Outcome)
    requires Inv(w) && w.worker == RecordMarker(s)
    ensures Rest(GoRecordMarker(w, s, out))
  {
    var st := s.status.(externalID := w.uid);
    if out.Refused? || !Current(w, s) {
      FailKeepsRest(w, s, st, Wrapped(Plain));
    } else {
      var v := Put(w, s.(status := st));
      assert Rest(v.(worker := Idle));
      if out.Lost? {
        FailKeepsRest(v, s, st, Wrapped(Plain));
      }
    }
  }

  lemma CreateKeepsRest(w: World, s: TunnelObject, out: Outcome)
    requires Inv(w) && PossibleOutcome(w, out) && w.worker == Create(s)
    ensures Rest(GoCreate(w, s, out))
  {
    if out.Refused? {
      FailKeepsRest(w, s, s.status, out.err);
    } else {
      var v := CreateRemote(w, out.id, out.token);
      assert Rest(v.(worker := Idle));
      if out.Lost? {
        FailKeepsRest(v, s, s.status, out.err);
      }
    }
  }

  lemma GetCreatedKeepsRest(w: World, s: TunnelObject, id: string, token: string, out: Outcome)
    requires Inv(w) && w.worker == GetCreated(s, id, token)
    ensures Rest(GoGetCreated(w, s, id, token, out))
  {
    if !out.Done? {
      FailKeepsRest(w, s, s.status, out.err);
    } else if id !in w.platform.tunnels {
      FailKeepsRest(w, s, s.status, APIError(404, CodeNotFound));
    }
  }

  lemma CheckSecretKeepsRest(w: World, s: TunnelObject, remote: Remote, out: Outcome)
    requires Inv(w) && w.worker == CheckSecret(s, remote)
    ensures Rest(GoCheckSecret(w, s, remote, out))
  {
    if !out.Done? {
      FailKeepsRest(w, s, s.status, Plain);
    }
  }

  lemma RotateKeepsRest(w: World, s: TunnelObject, remote: Remote, out: Outcome)
    requires Inv(w) && PossibleOutcome(w, out) && w.worker == Rotate(s, remote)
    ensures Rest(GoRotate(w, s, remote, out))
  {
    if out.Refused? {
      FailKeepsRest(w, s, s.status, Wrapped(out.err));
    } else if remote.id !in w.platform.tunnels {
      FailKeepsRest(w, s, s.status, Wrapped(APIError(404, CodeNotFound)));
    } else {
      var v := w.(platform := w.platform.Rotate(remote.id, out.token),
                  log := w.log.(rotations := w.log.rotations + 1));
      assert Rest(v.(worker := Idle));
      if out.Lost? {
        FailKeepsRest(v, s, s.status, Wrapped(out.err));
      }
    }
  }

  lemma StoreKeepsRest(w: World, s: TunnelObject, remote: Remote, token: string)
    requires Inv(w) && w.worker == WriteSecret(s, remote, token)
    ensures Rest(StoreToken(w, token).(worker := Idle))
  {
    hide StatusOk, RollupOk, Held;
  }

  lemma StoredKeepsRest(w: World, s: TunnelObject, remote: Remote, token: string)
    requires Inv(w) && w.worker == WriteSecret(s, remote, token)
    requires Rest(StoreToken(w, token).(worker := Idle))
    ensures var v := StoreToken(w, token); Rest(v.(worker := Deploy(s, remote, v.secret.value.version)))
  {
    hide StatusOk, RollupOk, Held;
  }

  lemma WriteSecretKeepsRest(w: World, s: TunnelObject, remote: Remote, token: string, out: Outcome)
    requires Inv(w) && w.worker == WriteSecret(s, remote, token)
    ensures Rest(GoWriteSecret(w, s, remote, token, out))
  {
    hide StatusOk, FailStatus, RollupOk;
    if out.Refused? {
      FailKeepsRest(w, s, s.status, Plain);
    } else {
      StoreKeepsRest(w, s, remote, token);
      StoredKeepsRest(w, s, remote, token);
      if out.Lost? {
        FailKeepsRest(StoreToken(w, token), s, s.status, Plain);
      }
    }
  }

  lemma DeployKeepsRest(w: World, s: TunnelObject, remote: Remote, version: nat, out: Outcome)
    requires Inv(w) && w.worker == Deploy(s, remote, version)
    ensures Rest(GoDeploy(w, s, remote, version, out))
  {
  }

  lemma WriteStatusKeepsRest(w: World, s: TunnelObject, next: TunnelStatus, complete: bool, out: Outcome)
    requires Inv(w) && w.worker == WriteStatus(s, next, complete)
    ensures Rest(GoWriteStatus(w, s, next, out))
  {
  }

  lemma DeleteClientKeepsRest(w: World, s: TunnelObject, out: Outcome)
    requires Inv(w) && w.worker == DeleteClient(s)
    ensures Rest(GoDeleteClient(w, s, out))
  {
  }

  lemma DeleteFindKeepsRest(w: World, s: TunnelObject, out: Outcome)
    requires Inv(w) && w.worker == DeleteFind(s)
    ensures Rest(GoDeleteFind(w, s, out))
  {
  }

  lemma DeleteRemoteKeepsRest(w: World, s: TunnelObject, id: string, out: Outcome)
    requires Inv(w) && w.worker == DeleteRemote(s, id)
    ensures Rest(GoDeleteRemote(w, s, id, out))
  {
  }

  lemma ReleaseKeepsRest(w: World, s: TunnelObject, out: Outcome)
    requires Inv(w) && w.worker == Release(s)
    ensures Rest(GoRelease(w, s, out))
  {
  }

  // ---------------------------------------------------------------- whole steps and whole runs

  lemma GoKeepsInv(w: World, out: Outcome)
    requires Inv(w) && !w.worker.Idle? && PossibleOutcome(w, out)
    ensures Inv(Advance(w, out))
  {
    GoKeepsStructure(w, out);
    hide Structure, Rest, GoAddFinalizer, GoNeedClient, GoGetKnown, GoRecordMarker, GoCreate, GoGetCreated,
      GoCheckSecret, GoRotate, GoWriteSecret, GoDeploy, GoWriteStatus, GoDeleteClient, GoDeleteFind,
      GoDeleteRemote, GoRelease, PossibleOutcome;
    match w.worker
    case AddFinalizer(s) => AddFinalizerKeepsRest(w, s, out);
    case NeedClient(s) => NeedClientKeepsRest(w, s, out);
    case GetKnown(s) => GetKnownKeepsRest(w, s, out);
    case RecordMarker(s) => RecordMarkerKeepsRest(w, s, out);
    case Create(s) => CreateKeepsRest(w, s, out);
    case GetCreated(s, id, token) => GetCreatedKeepsRest(w, s, id, token, out);
    case CheckSecret(s, remote) => CheckSecretKeepsRest(w, s, remote, out);
    case Rotate(s, remote) => RotateKeepsRest(w, s, remote, out);
    case WriteSecret(s, remote, token) => WriteSecretKeepsRest(w, s, remote, token, out);
    case Deploy(s, remote, version) => DeployKeepsRest(w, s, remote, version, out);
    case WriteStatus(s, next, complete) => WriteStatusKeepsRest(w, s, next, complete, out);
    case DeleteClient(s) => DeleteClientKeepsRest(w, s, out);
    case DeleteFind(s) => DeleteFindKeepsRest(w, s, out);
    case DeleteRemote(s, id) => DeleteRemoteKeepsRest(w, s, id, out);
    case Release(s) => ReleaseKeepsRest(w, s, out);
  }

  lemma EnvironmentKeepsRest(w: World, a: Action)
    requires Inv(w) && Enabled(w, a) && !a.Go? && !a.Begin? && !a.Crash?
    ensures Rest(Apply(w, a))
  {
    hide Rest, Structure, Rely, OthersOnly;
    match a
    case UserDelete => StoreActionRelies(w, a); StoreActionKeepsRest(w, Apply(w, a));
    case EditSpec => StoreActionRelies(w, a); StoreActionKeepsRest(w, Apply(w, a));
    case SetForeign(_) => StoreActionRelies(w, a); StoreActionKeepsRest(w, Apply(w, a));
    case SetCredential(_) => ClusterActionKeepsRest(w, a);
    case AgentChange(_) => ClusterActionKeepsRest(w, a);
    case TamperSecret(remove) => TamperKeepsRest(w, remove);
    case OnlineChange(online) => OnlineChangeKeepsRest(w, online);
    case Others(q) => OthersKeepRest(w, q);
    case PanelDelete => PanelKeepsRest(w, a);
    case PanelRotate(_) => PanelKeepsRest(w, a);
  }

  lemma StepKeepsInv(w: World, a: Action)
    requires Inv(w) && Enabled(w, a)
    ensures Inv(Apply(w, a))
  {
    hide Rest, Structure;
    match a
    case Begin => BeginKeepsStructure(w); BeginKeepsRest(w);
    case Go(out) => GoKeepsInv(w, out);
    case Crash => CrashKeepsStructure(w); CrashKeepsRest(w);
    case _ => StepKeepsStructure(w, a); EnvironmentKeepsRest(w, a);
  }

  lemma {:induction false} RunKeepsInv(w: World, actions: seq<Action>, end: World)
    requires Inv(w) && Run(w, actions, end)
    ensures Inv(end)
    decreases |actions|
  {
    hide Inv;
    if actions != [] {
      StepKeepsInv(w, actions[0]);
      RunKeepsInv(Apply(w, actions[0]), actions[1..], end);
    }
  }
}
