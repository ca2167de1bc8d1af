/** Uninterrupted reconciles: one of them converges, a second one changes nothing that matters. */
module TunnelConvergence {
  import opened Base
  import opened Errors
  import opened Platform
  import opened TunnelMachine
  import opened TunnelSafety
  import opened TunnelInvariants
  import opened TunnelTheorems

  /** Let the reconcile in flight go on, every call answered, for at most `fuel` calls. */
  function Finish(w: World, out: Outcome, fuel: nat): World
    decreases fuel
  {
    if fuel == 0 || w.worker.Idle? then w else Finish(Advance(w, out), out, fuel - 1)
  }

  /** The longest path through a reconcile makes ten calls. */
  const CALLS: nat := 10

  function Reconcile(w: World, out: Outcome): World {
    Finish(w.(worker := Start(w)), out, CALLS)
  }

  /** Everything the object asks for is there, and the agent's template names the stored token. */
  ghost predicate Converged(w: World) {
    && w.worker == Idle && w.platform.Valid()
    && w.obj.Some? && !w.obj.value.deleting && w.obj.value.finalizer
    && w.obj.value.status.synced.True()
    && Mine(w) == Some(w.obj.value.status.tunnelID)
    && Usable(w.secret)
    && w.deployment.Some? && w.deployment.value.credentialVersion == w.secret.value.version
  }

  /** The status tells what there is: an agent is available exactly if a replica is, and the object is Ready exactly if
      moreover the platform reports the tunnel online. */
  ghost predicate Reported(w: World) {
    && w.obj.Some? && w.deployment.Some? && w.obj.value.status.tunnelID in w.platform.tunnels
    && var st := w.obj.value.status; var online := w.platform.tunnels[st.tunnelID].online;
       && st.onlineStatus == online && st.observedGeneration == w.obj.value.generation
       && (st.agentAvailable.True() <==> w.deployment.value.available > 0)
       && (st.ready.True() <==> w.deployment.value.available > 0 && online == "online")
  }

  /** What a reconcile costs: a tunnel is made exactly if there is none, and the token is rotated exactly if there is a
      tunnel but no stored token. A tunnel just made is used with the token its create answered. */
  ghost predicate Spent(w: World, v: World) {
    && v.log.made == w.log.made + (if Mine(w).None? then 1 else 0)
    && v.log.rotations == w.log.rotations + (if Mine(w).Some? && !Usable(w.secret) then 1 else 0)
  }

  /** What the reconcile read of its tunnel still holds. */
  ghost predicate StillSo(w: World, remote: Remote) {
    && Mine(w) == Some(remote.id) && remote.id in w.platform.tunnels
    && w.platform.tunnels[remote.id].online == remote.online
  }

  /** The worker's copy is the object itself: nobody interferes. */
  ghost predicate Calm(w: World, s: TunnelObject) {
    Structure(w) && w.obj == Some(s) && s.finalizer && !s.deleting && w.credential
  }

  /** What an uninterrupted reconcile leaves of the world it started from. */
  ghost predicate Settled(w: World, v: World) {
    && Converged(v) && Reported(v) && v.uid == w.uid && v.credential == w.credential
  }

  /** Every call of the reconcile may indeed be answered with `out`. */
  ghost predicate Proceeds(w: World, out: Outcome, fuel: nat)
    decreases fuel
  {
    fuel > 0 && !w.worker.Idle? ==> PossibleOutcome(w, out) && Proceeds(Advance(w, out), out, fuel - 1)
  }

  /** The stored token is the platform's valid one. */
  ghost predicate TokenValid(w: World) {
    Usable(w.secret) && TokenOf(w) == Some(w.secret.value.token)
  }

  lemma FinishStep(w: World, out: Outcome, fuel: nat)
    requires fuel > 0 && !w.worker.Idle?
    ensures Finish(w, out, fuel) == Finish(Advance(w, out), out, fuel - 1)
  {
  }

  lemma FromDeploy(w: World, s: TunnelObject, remote: Remote, version: nat, out: Outcome, fuel: nat)
    requires Calm(w, s) && out.Done? && fuel >= 2 && w.worker == Deploy(s, remote, version)
    requires Usable(w.secret) && w.secret.value.version == version && StillSo(w, remote)
    ensures var v := Finish(w, out, fuel);
            && Settled(w, v) && Proceeds(w, out, fuel)
            && v.secret == w.secret && v.platform == w.platform && v.log == w.log
  {
    var v1 := Advance(w, out);
    var v2 := Advance(v1, out);
    assert Finish(w, out, fuel) == Finish(v1, out, fuel - 1) == Finish(v2, out, fuel - 2) == v2;
    assert Proceeds(v2, out, fuel - 2) && Proceeds(v1, out, fuel - 1);
  }

  lemma FromWriteSecret(w: World, s: TunnelObject, remote: Remote, token: string, out: Outcome, fuel: nat)
    requires Calm(w, s) && out.Done? && fuel >= 3 && w.worker == WriteSecret(s, remote, token)
    requires StillSo(w, remote) && token != ""
    ensures var v := Finish(w, out, fuel);
            && Settled(w, v) && Proceeds(w, out, fuel) && v.secret.value.token == token && v.platform == w.platform
            && v.log.made == w.log.made && v.log.rotations == w.log.rotations
  {
    hide Finish, SuccessStatus, FailStatus, WorkerOk, StatusOk;
    var v1 := Advance(w, out);
    WriteSecretKeepsStructure(w, s, remote, token, out);
    FinishStep(w, out, fuel);
    FromDeploy(v1, s, remote, v1.secret.value.version, out, fuel - 1);
  }

  lemma FromCheckSecret(w: World, s: TunnelObject, remote: Remote, out: Outcome, fuel: nat)
    requires Calm(w, s) && out.Done? && w.platform.Fresh(out.id, out.token) && fuel >= 5
    requires w.worker == CheckSecret(s, remote)
    requires StillSo(w, remote)
    ensures var v := Finish(w, out, fuel);
            && Settled(w, v) && Proceeds(w, out, fuel) && Spent(w, v)
            && (Usable(w.secret) ==> v.secret == w.secret && v.platform == w.platform && v.log == w.log)
            && (!Usable(w.secret) ==> TokenValid(v))
  {
    var v1 := Advance(w, out);
    CheckSecretKeepsStructure(w, s, remote, out);
    if Usable(w.secret) {
      FromDeploy(v1, s, remote, w.secret.value.version, out, fuel - 1);
    } else {
      var v2 := Advance(v1, out);
      RotateKeepsStructure(v1, s, remote, out);
      assert Finish(w, out, fuel) == Finish(v2, out, fuel - 2);
      FromWriteSecret(v2, s, remote, out.token, out, fuel - 2);
    }
  }

  lemma FromCreate(w: World, s: TunnelObject, out: Outcome, fuel: nat)
    requires Calm(w, s) && out.Done? && w.platform.Fresh(out.id, out.token) && fuel >= 7 && w.worker == Create(s)
    ensures var v := Finish(w, out, fuel);
            && Settled(w, v) && Proceeds(w, out, fuel) && Spent(w, v)
            && (Mine(w).Some? && Usable(w.secret) ==> v.secret == w.secret && v.platform == w.platform)
            && (Mine(w).None? || !Usable(w.secret) ==> TokenValid(v))
  {
    var v1 := Advance(w, out);
    CreateKeepsStructure(w, s, out);
    var v2 := Advance(v1, out);
    GetCreatedKeepsStructure(v1, s, v1.worker.id, v1.worker.token, out);
    assert Finish(w, out, fuel) == Finish(v2, out, fuel - 2);
    if Mine(w).Some? {
      // an adoption mints nothing, so the outcome is still possible
      FromCheckSecret(v2, s, v2.worker.remote, out, fuel - 2);
    } else {
      FromWriteSecret(v2, s, v2.worker.remote, out.token, out, fuel - 2);
    }
  }

  /** A token is stored, a tunnel exists, and the two do not go together. */
  ghost predicate StaleToken(w: World) {
    Mine(w).Some? && Usable(w.secret) && TokenOf(w) != Some(w.secret.value.token)
  }

  /** The recorded tunnel is there and so is a token: nothing needs doing. */
  ghost predicate Provisioned(w: World) {
    && w.obj.Some? && w.obj.value.status.tunnelID in w.platform.tunnels && Usable(w.secret)
  }

  /** How it ends, from wherever in it: converged, with a valid token unless a stale one was stored. */
  ghost predicate Ends(w: World, v: World) {
    && Settled(w, v) && Spent(w, v) && (StaleToken(w) <==> !TokenValid(v))
    && (Provisioned(w) ==> v.secret == w.secret && v.platform == w.platform && v.log == w.log)
  }

  lemma FromMarker(w: World, s: TunnelObject, out: Outcome, fuel: nat)
    requires Calm(w, s) && out.Done? && w.platform.Fresh(out.id, out.token) && fuel >= 8
    requires w.worker == RecordMarker(s)
    ensures Ends(w, Finish(w, out, fuel)) && Proceeds(w, out, fuel)
  {
    hide WorkerOk, FailStatus, SuccessStatus, Converged, Reported, Finish;
    var v1 := Advance(w, out);
    RecordMarkerKeepsStructure(w, s, out);
    FinishStep(w, out, fuel);
    NothingYet(w, s);
    FromCreate(v1, v1.worker.s, out, fuel - 1);
  }

  lemma NothingYet(w: World, s: TunnelObject)
    requires Structure(w) && w.worker == RecordMarker(s)
    ensures s.status.tunnelID == "" && s.status.externalID == "" && w.obj.Some? && w.obj.value.status == s.status
    ensures Mine(w).None? && !Usable(w.secret) && "" !in w.platform.tunnels
  {
  }

  lemma FromKnown(w: World, s: TunnelObject, out: Outcome, fuel: nat)
    requires Calm(w, s) && out.Done? && w.platform.Fresh(out.id, out.token) && fuel >= 8
    requires w.worker == GetKnown(s)
    ensures Ends(w, Finish(w, out, fuel)) && Proceeds(w, out, fuel)
  {
    hide FailStatus, SuccessStatus, Converged, Reported, Finish;
    var v1 := Advance(w, out);
    GetKnownKeepsStructure(w, s, out);
    FinishStep(w, out, fuel);
    if s.status.tunnelID in w.platform.tunnels {
      FromCheckSecret(v1, s, v1.worker.remote, out, fuel - 1);
    } else {
      FromCreate(v1, s, out, fuel - 1);
    }
  }

  lemma FromNeedClient(w: World, s: TunnelObject, out: Outcome, fuel: nat)
    requires Calm(w, s) && out.Done? && w.platform.Fresh(out.id, out.token) && fuel >= 9 && w.worker == NeedClient(s)
    ensures Ends(w, Finish(w, out, fuel)) && Proceeds(w, out, fuel)
  {
    hide WorkerOk, FailStatus, SuccessStatus, UnreadableStatus, Converged, Reported, Finish;
    var v1 := Advance(w, out);
    NeedClientKeepsStructure(w, s, out);
    FinishStep(w, out, fuel);
    if s.status.tunnelID != "" {
      FromKnown(v1, s, out, fuel - 1);
    } else if s.status.externalID == "" {
      FromMarker(v1, s, out, fuel - 1);
    } else {
      NoEmptyTunnel(w);
      FromCreate(v1, s, out, fuel - 1);
    }
  }

  lemma NoEmptyTunnel(w: World)
    requires w.platform.Valid()
    ensures "" !in w.platform.tunnels
  {
  }

  /** A live object with a readable credential and no reconcile in flight. */
  ghost predicate Live(w: World) {
    Structure(w) && w.worker.Idle? && w.obj.Some? && !w.obj.value.deleting && w.credential
  }

  /** The platform answers every call, and what it mints is new. */
  ghost predicate Answers(w: World, out: Outcome) {
    out.Done? && w.platform.Fresh(out.id, out.token)
  }

  lemma FromStart(w: World, out: Outcome)
    requires Live(w) && Answers(w, out)
    ensures var b := w.(worker := Start(w)); var v := Reconcile(w, out);
            && Settled(w, v) && Proceeds(b, out, CALLS) && Spent(w, v)
            && (StaleToken(w) <==> !TokenValid(v))
            && (Provisioned(w) && w.obj.value.finalizer ==>
                  v.secret == w.secret && v.platform == w.platform && v.log == w.log)
  {
    var b := w.(worker := Start(w));
    BeginKeepsStructure(w);
    if w.obj.value.finalizer {
      FromNeedClient(b, w.obj.value, out, CALLS);
    } else {
      var v1 := Advance(b, out);
      AddFinalizerKeepsStructure(b, w.obj.value, out);
      assert Finish(b, out, CALLS) == Finish(v1, out, CALLS - 1);
      FromNeedClient(v1, v1.obj.value, out, CALLS - 1);
    }
  }

  /** One uninterrupted reconcile of any reachable live object converges: exactly one tunnel under its
      UID, its id recorded, a token stored, the template naming that version of the Secret, and a status that tells
      what there is, Ready included; making and rotating no more than that takes. */
  lemma OneShotConvergence(w: World, out: Outcome)
    requires Live(w) && Answers(w, out)
    ensures var v := Reconcile(w, out);
            && Converged(v) && Reported(v) && Spent(w, v) && v.uid == w.uid
            && (forall id :: id in v.platform.tunnels && v.platform.tunnels[id].externalID == v.uid
                             <==> id == v.obj.value.status.tunnelID)
  {
    FromStart(w, out);
    var v := Reconcile(w, out);
    assert v.platform.Find(v.uid) == Some(v.obj.value.status.tunnelID);
  }

  /** The token it leaves is the valid one exactly when it did not start from a stale stored token: an
      existing tunnel never gets its stored token compared with anything. */
  lemma TokenFreshExactlyWhen(w: World, out: Outcome)
    requires Live(w) && Answers(w, out)
    ensures var v := Reconcile(w, out);
            TokenValid(v) <==> !StaleToken(w)
  {
    FromStart(w, out);
  }

  /** A second reconcile creates nothing, rotates nothing, writes no Secret and leaves the template. */
  lemma SecondReconcileIsQuiet(w: World, out: Outcome)
    requires Live(w) && Answers(w, out) && Converged(w)
    ensures var v := Reconcile(w, out);
            && Converged(v) && Reported(v)
            && v.log.reached == w.log.reached && v.log.rotations == w.log.rotations
            && v.secret == w.secret && v.platform == w.platform
            && v.deployment.value.credentialVersion == w.deployment.value.credentialVersion
  {
    FromStart(w, out);
  }

  lemma {:induction false} FinishKeepsStructure(w: World, out: Outcome, fuel: nat)
    requires Structure(w) && Proceeds(w, out, fuel)
    ensures Structure(Finish(w, out, fuel))
    decreases fuel
  {
    hide Structure, Advance, PossibleOutcome;
    if fuel > 0 && !w.worker.Idle? {
      GoKeepsStructure(w, out);
      FinishKeepsStructure(Advance(w, out), out, fuel - 1);
    }
  }

  /** Both together: from every live object, one uninterrupted reconcile converges to a live object, and one more
      after it is quiet. */
  lemma ConvergedIsFixedPoint(w: World, out: Outcome, again: Outcome)
    requires Live(w) && Answers(w, out)
    ensures var v := Reconcile(w, out);
            && Live(v) && Converged(v) && Reported(v)
            && (Answers(v, again) ==>
                  var u := Reconcile(v, again);
                  && Converged(u) && u.log.reached == v.log.reached && u.log.rotations == v.log.rotations
                  && u.secret == v.secret && u.platform == v.platform
                  && u.deployment.value.credentialVersion == v.deployment.value.credentialVersion)
  {
    hide Finish, Proceeds, Structure, Start;
    FromStart(w, out);
    BeginKeepsStructure(w);
    FinishKeepsStructure(w.(worker := Start(w)), out, CALLS);
    var v := Reconcile(w, out);
    if Answers(v, again) {
      SecondReconcileIsQuiet(v, again);
    }
  }

  /** An uninterrupted reconcile is a run of the machine. */
  lemma {:induction false} FinishIsRun(w: World, out: Outcome, fuel: nat) returns (actions: seq<Action>)
    requires Proceeds(w, out, fuel)
    ensures Run(w, actions, Finish(w, out, fuel))
    ensures forall a :: a in actions ==> a == Go(out)
    decreases fuel
  {
    if fuel == 0 || w.worker.Idle? {
      actions := [];
    } else {
      hide Advance, PossibleOutcome;
      var rest := FinishIsRun(Advance(w, out), out, fuel - 1);
      actions := [Go(out)] + rest;
      assert actions[1..] == rest;
    }
  }

  lemma ReconcileIsRun(w: World, out: Outcome) returns (actions: seq<Action>)
    requires Live(w) && Answers(w, out)
    ensures Run(w, actions, Reconcile(w, out))
    ensures forall a :: a in actions ==> a == Begin || a == Go(out)
  {
    FromStart(w, out);
    hide Advance, Start, Finish, Proceeds;
    var b := w.(worker := Start(w));
    var rest := FinishIsRun(b, out, CALLS);
    actions := [Begin] + rest;
    assert actions[1..] == rest;
  }

  // ---------------------------------------------------------------- what a panel deletion can do

  /** A deletion in the panel sends the next reconcile to the create. */
  lemma PanelDeleteLeadsToCreate(w: World, out: Outcome) returns (v: World)
    requires Live(w) && Converged(w) && out.Done?
    ensures Run(w, [PanelDelete, Begin, Go(out), Go(out)], v)
    ensures Structure(v) && v.worker == Create(w.obj.value) && Mine(v).None?
    ensures v == w.(platform := v.platform, worker := v.worker, log := v.log)
    ensures v.platform.used == w.platform.used && v.platform.issued == w.platform.issued
    ensures w.obj.value.status.tunnelID !in v.platform.tunnels
  {
    hide WorkerOk, FailStatus, SuccessStatus, UnreadableStatus, Rely;
    assert w.obj.value.status.tunnelID in w.platform.tunnels;
    var w1 := Apply(w, PanelDelete);
    PanelDeleteRelies(w);
    RelyKeepsStructure(w, w1);
    var w2 := Apply(w1, Begin);
    BeginKeepsStructure(w1);
    var w3 := Advance(w2, out);
    NeedClientKeepsStructure(w2, w.obj.value, out);
    v := Advance(w3, out);
    GetKnownKeepsStructure(w3, w.obj.value, out);
    RunStep(w3, Go(out), [], v);
    RunStep(w2, Go(out), [Go(out)], v);
    RunStep(w1, Begin, [Go(out), Go(out)], v);
    RunStep(w, PanelDelete, [Begin, Go(out), Go(out)], v);
  }

  /** The answer of that create is lost; the recorded id and the stored token are now both stale. */
  lemma LostCreate(w: World, s: TunnelObject, out: Outcome, lost: Outcome) returns (v: World)
    requires Calm(w, s) && w.worker == Create(s) && Mine(w).None? && out.Done?
    requires lost.Lost? && !IsNotFound(lost.err) && w.platform.Fresh(lost.id, lost.token)
    requires Usable(w.secret) && w.secret.value.token in w.platform.issued
    requires s.status.tunnelID != "" && s.status.tunnelID !in w.platform.tunnels
    ensures Run(w, [Go(lost), Go(out)], v)
    ensures Live(v) && StaleToken(v) && Mine(v) == Some(lost.id)
    ensures v.obj.value.status.tunnelID == s.status.tunnelID && v.obj.value.status.externalID == v.uid
    ensures v.obj.value.finalizer && v.obj.value.status.tunnelID !in v.platform.tunnels
    ensures v.secret == w.secret && w.platform.issued <= v.platform.issued
  {
    hide Run, Structure, Classify;
    var w1 := Advance(w, lost);
    CreateKeepsStructure(w, s, lost);
    v := Advance(w1, out);
    WriteStatusKeepsStructure(w1, s, w1.worker.next, false, out);
    MarkedCreate(w, s);
    LostCreateIsStale(w, s, lost);
    TwoSteps(w, Go(lost), Go(out));
  }

  lemma TwoSteps(w: World, a: Action, b: Action)
    requires Enabled(w, a) && Enabled(Apply(w, a), b)
    ensures Run(w, [a, b], Apply(Apply(w, a), b))
  {
    hide Apply, Enabled;
    RunStep(Apply(w, a), b, [], Apply(Apply(w, a), b));
    RunStep(w, a, [b], Apply(Apply(w, a), b));
    assert [a] + [b] == [a, b] && [b] + [] == [b];
  }

  lemma MarkedCreate(w: World, s: TunnelObject)
    requires Structure(w) && w.worker == Create(s)
    ensures s.status.externalID == w.uid && (s.status.tunnelID != "" ==> s.status.tunnelID in w.platform.used)
  {
  }

  lemma LostCreateIsStale(w: World, s: TunnelObject, lost: Outcome)
    requires lost.Lost? && w.platform.Fresh(lost.id, lost.token) && Mine(w).None?
    requires Usable(w.secret) && w.secret.value.token in w.platform.issued
    ensures var v := GoCreate(w, s, lost);
            StaleToken(v) && Mine(v) == Some(lost.id) && w.platform.issued <= v.platform.issued
            && v.platform.tunnels == w.platform.tunnels[lost.id := PTunnel(w.uid, lost.token, "offline")]
  {
    hide FailStatus;
  }

  lemma LostRecreate(w: World, out: Outcome, lost: Outcome) returns (v: World, actions: seq<Action>)
    requires Live(w) && Converged(w) && TokenValid(w) && out.Done?
    requires lost.Lost? && !IsNotFound(lost.err) && w.platform.Fresh(lost.id, lost.token)
    ensures Run(w, actions, v) && PanelDeletes(actions) == 1
    ensures Live(v) && StaleToken(v) && Mine(v) == Some(lost.id)
    ensures v.obj.value.status.tunnelID != "" && v.obj.value.status.externalID == v.uid
    ensures v.obj.value.finalizer && v.obj.value.status.tunnelID !in v.platform.tunnels
    ensures v.secret == w.secret && w.platform.issued <= v.platform.issued
  {
    var mid := PanelDeleteLeadsToCreate(w, out);
    v := LostCreate(mid, w.obj.value, out, lost);
    var first, second := [PanelDelete, Begin, Go(out), Go(out)], [Go(lost), Go(out)];
    hide Run, Advance, Apply, Structure;
    RunAppend(w, first, mid, second, v);
    actions := first + second;
    PanelDeletesAppend(first, second);
    assert first[1..] == [Begin, Go(out), Go(out)];
    NoPanelDeletes(first[1..]);
    NoPanelDeletes(second);
  }

  lemma NoPanelDeletes(actions: seq<Action>)
    requires forall a :: a in actions ==> !a.PanelDelete?
    ensures PanelDeletes(actions) == 0
  {
  }

  lemma {:induction false} PanelDeletesAppend(first: seq<Action>, second: seq<Action>)
    ensures PanelDeletes(first + second) == PanelDeletes(first) + PanelDeletes(second)
  {
    if first == [] {
      assert first + second == second;
    } else {
      PanelDeletesAppend(first[1..], second);
      assert (first + second)[1..] == first[1..] + second;
    }
  }

  /** From a live object with a stale id to the orphan: an ordinary delete does it. */
  lemma DeleteWithStaleId(w: World, out: Outcome) returns (v: World)
    requires Live(w) && out.Done? && w.obj.value.finalizer && w.obj.value.status.externalID == w.uid
    requires w.obj.value.status.tunnelID != "" && w.obj.value.status.tunnelID !in w.platform.tunnels
    requires Mine(w).Some?
    ensures Run(w, [UserDelete, Begin, Go(out), Go(out), Go(out)], v) && Orphan(v)
  {
    hide Run, Advance, WorkerOk, StatusOk;
    var w1 := Apply(w, UserDelete);
    var w2 := Apply(w1, Begin);
    v := StaleDeleteGoesOn(w2, w1.obj.value, out);
    RunStep(w1, Begin, [Go(out), Go(out), Go(out)], v);
    assert [Begin] + [Go(out), Go(out), Go(out)] == [Begin, Go(out), Go(out), Go(out)];
    RunStep(w, UserDelete, [Begin, Go(out), Go(out), Go(out)], v);
    assert [UserDelete] + [Begin, Go(out), Go(out), Go(out)] == [UserDelete, Begin, Go(out), Go(out), Go(out)];
  }

  /** The recorded id is deleted, which is nothing, and the object released. */
  lemma StaleDeleteGoesOn(w: World, s: TunnelObject, out: Outcome) returns (v: World)
    requires w.worker == DeleteClient(s) && w.obj == Some(s) && s.finalizer && w.credential && out.Done?
    requires s.status.tunnelID != "" && s.status.tunnelID !in w.platform.tunnels
    ensures Run(w, [Go(out), Go(out), Go(out)], v)
    ensures v.platform == w.platform && v.uid == w.uid && !(v.obj.Some? && v.obj.value.finalizer)
  {
    var w1 := Advance(w, out);
    var w2 := Advance(w1, out);
    v := Advance(w2, out);
    RunStep(w2, Go(out), [], v);
    RunStep(w1, Go(out), [Go(out)], v);
    RunStep(w, Go(out), [Go(out), Go(out)], v);
  }

  /** "No orphan" needs its hypothesis too: from any converged object, one panel deletion, one lost
      answer and an ordinary delete of the object leave a tunnel nobody will ever find. */
  lemma OrphanAfterOnePanelDelete(w: World, out: Outcome, lost: Outcome) returns (v: World, actions: seq<Action>)
    requires Live(w) && Converged(w) && TokenValid(w) && out.Done?
    requires lost.Lost? && !IsNotFound(lost.err) && w.platform.Fresh(lost.id, lost.token)
    ensures Run(w, actions, v) && Orphan(v) && PanelDeletes(actions) == 1
  {
    var mid, first := LostRecreate(w, out, lost);
    v := DeleteWithStaleId(mid, out);
    var second := [UserDelete, Begin, Go(out), Go(out), Go(out)];
    hide Run, Structure, Orphan;
    RunAppend(w, first, mid, second, v);
    actions := first + second;
    PanelDeletesAppend(first, second);
    NoPanelDeletes(second);
  }
}
