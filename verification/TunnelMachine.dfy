/** internal/controller/tunnel_controller.go as a machine of micro-steps.

    One Tunnel object, its token Secret, its agent Deployment and the whole platform. A reconcile is
    a program counter with the copy of the object it read (`Worker`); every API call is one step whose
    outcome is chosen from outside, and any action of the environment may fall between two steps.

    Standing assumptions, each visible in `Enabled` or `Apply`:
    - a read returns the current object, and a write of the object succeeds only if the resource
      version it carries is still current;
    - at most one reconcile of the object is in flight (`Begin` needs an idle worker);
    - a request takes effect atomically in its step or not at all (`Lost` keeps the effect and loses
      the answer, `Refused` has no effect), and a 404 means the resource is absent;
    - nobody else writes the finalizer, the status or the agent Deployment's template;
    - CreateOrUpdate is a read followed by a compare-and-set write, so its success is one atomic step. */
module TunnelMachine {
  import opened Base
  import opened Errors
  import opened Platform

  datatype TunnelStatus = TunnelStatus(
    tunnelID: string, externalID: string, onlineStatus: string, observedGeneration: nat,
    synced: Condition, agentAvailable: Condition, ready: Condition)

  /** `foreign` stands for any finalizers of other controllers. */
  datatype TunnelObject = TunnelObject(
    rv: nat, generation: nat, deleting: bool, finalizer: bool, foreign: bool, status: TunnelStatus)

  datatype Secret = Secret(version: nat, token: string)

  /** The agent Deployment: the credential version its pod template names, and its available replicas. */
  datatype Deployment = Deployment(credentialVersion: nat, available: nat)

  /** The part of a tunnel read that the reconciler uses. */
  datatype Remote = Remote(id: string, online: string)

  datatype Worker =
    | Idle
    // the main path; `s` is the in-memory copy as last read from or written to the store
    | AddFinalizer(s: TunnelObject)
    | NeedClient(s: TunnelObject)
    | GetKnown(s: TunnelObject)
    | RecordMarker(s: TunnelObject)
    | Create(s: TunnelObject)
    | GetCreated(s: TunnelObject, id: string, token: string)
    | CheckSecret(s: TunnelObject, remote: Remote)
    | Rotate(s: TunnelObject, remote: Remote)
    | WriteSecret(s: TunnelObject, remote: Remote, token: string)
    | Deploy(s: TunnelObject, remote: Remote, version: nat)
    | WriteStatus(s: TunnelObject, next: TunnelStatus, complete: bool)
    // the delete path
    | DeleteClient(s: TunnelObject)
    | DeleteFind(s: TunnelObject)
    | DeleteRemote(s: TunnelObject, id: string)
    | Release(s: TunnelObject)
  {
    predicate Deleting() {
      DeleteClient? || DeleteFind? || DeleteRemote? || Release?
    }
    predicate Main() {
      !Idle? && !Deleting()
    }
  }

  /** What happened so far, for stating properties of whole runs; no step reads it.
      `reached` counts create requests that took effect, `made` the tunnels they made. */
  datatype History = History(
    reached: nat, made: nat, deleted: nat, rotations: nat,
    panelDeletes: nat, panelRotations: nat, versions: map<nat, string>)

  datatype World = World(
    uid: string, obj: Option<TunnelObject>, rv: nat, credential: bool,
    secret: Option<Secret>, deployment: Option<Deployment>,
    platform: Platform, worker: Worker, log: History)

  datatype Outcome =
    | Done(id: string, token: string)
    | Refused(err: Error)
    | Lost(id: string, token: string, err: Error)

  datatype Action =
    | Begin
    | Go(outcome: Outcome)
    | Crash
    | UserDelete
    | EditSpec
    | SetForeign(present: bool)
    | SetCredential(readable: bool)
    | TamperSecret(remove: bool)
    | AgentChange(available: nat)
    | OnlineChange(online: string)
    | Others(platform: Platform)
    | PanelDelete
    | PanelRotate(token: string)

  const NO_STATUS := TunnelStatus("", "", "", 0, Unset, Unset, Unset)

  /** A freshly created object, before the operator ever saw it. */
  ghost predicate Init(w: World) {
    && w.uid != "" && w.platform.Valid() && w.uid !in w.platform.owners
    && w.obj.Some? && w.obj.value == TunnelObject(w.rv, 1, false, false, w.obj.value.foreign, NO_STATUS)
    && w.secret == None && w.deployment == None && w.worker == Idle
    && w.log == History(0, 0, 0, 0, 0, 0, map[])
  }

  // ---------------------------------------------------------------- conditions

  function SetReady(st: TunnelStatus, online: string, generation: nat): TunnelStatus {
    st.(ready :=
      if !st.synced.True() then Condition(false, NotSynced, generation)
      else if !st.agentAvailable.True() then Condition(false, AgentUnavailable, generation)
      else if online == "online" then Condition(true, Reason.Online, generation)
      else if online == "" then Condition(false, Unknown, generation)
      else Condition(false, Offline, generation))
  }

  /** The status `finish` writes after a successful reconcile. */
  function SuccessStatus(s: TunnelObject, remote: Remote, available: nat): TunnelStatus {
    var st := s.status.(tunnelID := remote.id, onlineStatus := remote.online, observedGeneration := s.generation,
                        synced := Condition(true, Synced, s.generation),
                        agentAvailable :=
                          if available > 0 then Condition(true, AgentRunning, s.generation)
                          else Condition(false, NoReplicasAvailable, s.generation));
    SetReady(st, remote.online, s.generation)
  }

  /** The status `fail` and then `finish` write: `st` is the in-memory status at that point. */
  function FailStatus(s: TunnelObject, st: TunnelStatus, err: Error): TunnelStatus {
    SetReady(st.(synced := Condition(false, Classify(err).reason, s.generation), observedGeneration := s.generation),
             "", s.generation)
  }

  /** The status written when the credential cannot be read: Ready is not recomputed. */
  function UnreadableStatus(s: TunnelObject): TunnelStatus {
    s.status.(synced := Condition(false, CredentialUnreadable, s.generation), observedGeneration := s.generation)
  }

  // ---------------------------------------------------------------- the object store

  predicate Current(w: World, s: TunnelObject) {
    w.obj.Some? && w.obj.value.rv == s.rv
  }

  /** A compare-and-set write of the object, when `s` is current. */
  function Put(w: World, o: TunnelObject): World {
    w.(rv := w.rv + 1, obj := Some(o.(rv := w.rv + 1)))
  }

  /** Removing our finalizer from a deleting object: it disappears unless others still hold it. */
  function Released(w: World, s: TunnelObject): World {
    if s.foreign then Put(w, s.(finalizer := false)) else w.(obj := None)
  }

  predicate Usable(secret: Option<Secret>) {
    secret.Some? && secret.value.token != ""
  }

  /** CreateOrUpdate of the token Secret: no write when the token is already there. */
  function StoreToken(w: World, token: string): World {
    if w.secret.Some? && w.secret.value.token == token then w
    else w.(rv := w.rv + 1, secret := Some(Secret(w.rv + 1, token)),
            log := w.log.(versions := w.log.versions[w.rv + 1 := token]))
  }

  /** CreateOrUpdate of the Deployment; a new one has no replica yet. */
  function StoreTemplate(w: World, version: nat): World {
    w.(deployment := Some(Deployment(version, if w.deployment.Some? then w.deployment.value.available else 0)))
  }

  function CreateRemote(w: World, id: string, token: string): World {
    var (q, answer) := w.platform.CreateTunnel(w.uid, id, token);
    w.(platform := q,
       log := w.log.(reached := w.log.reached + 1, made := w.log.made + (if answer.adopted then 0 else 1)))
  }

  // ---------------------------------------------------------------- steps of a reconcile

  function Provision(s: TunnelObject): Worker {
    if s.status.externalID == "" then RecordMarker(s) else Create(s)
  }

  function Fail(w: World, s: TunnelObject, st: TunnelStatus, err: Error): World {
    w.(worker := WriteStatus(s, FailStatus(s, st, err), false))
  }

  function Start(w: World): Worker {
    match w.obj
    case None => Idle
    case Some(s) =>
      if s.deleting then
        if !s.finalizer then Idle
        else if s.status.externalID == "" then Release(s)
        else DeleteClient(s)
      else if s.finalizer then NeedClient(s)
      else AddFinalizer(s)
  }

  function GoAddFinalizer(w: World, s: TunnelObject, out: Outcome): World {
    if out.Refused? || !Current(w, s) then w.(worker := Idle)
    else
      var v := Put(w, s.(finalizer := true));
      if out.Done? then v.(worker := NeedClient(v.obj.value)) else v.(worker := Idle)
  }

  function GoNeedClient(w: World, s: TunnelObject, out: Outcome): World {
    if out.Done? && w.credential then
      w.(worker := if s.status.tunnelID != "" then GetKnown(s) else Provision(s))
    else w.(worker := WriteStatus(s, UnreadableStatus(s), false))
  }

  function GoGetKnown(w: World, s: TunnelObject, out: Outcome): World {
    if !out.Done? then Fail(w, s, s.status, out.err)
    else if s.status.tunnelID in w.platform.tunnels then
      w.(worker := CheckSecret(s, Remote(s.status.tunnelID, w.platform.tunnels[s.status.tunnelID].online)))
    else w.(worker := Provision(s))
  }

  /** The marker is set in memory before the write, so a failed write leaves it for `fail` to persist. */
  function GoRecordMarker(w: World, s: TunnelObject, out: Outcome): World {
    var st := s.status.(externalID := w.uid);
    if out.Refused? || !Current(w, s) then Fail(w, s, st, Wrapped(Plain))
    else
      var v := Put(w, s.(status := st));
      if out.Done? then v.(worker := Create(v.obj.value)) else Fail(v, s, st, Wrapped(Plain))
  }

  function GoCreate(w: World, s: TunnelObject, out: Outcome): World {
    match out
    case Refused(err) => Fail(w, s, s.status, err)
    case Lost(id, token, err) => Fail(CreateRemote(w, id, token), s, s.status, err)
    case Done(id, token) =>
      var answer := w.platform.CreateTunnel(w.uid, id, token).1;
      CreateRemote(w, id, token).(worker := GetCreated(s, answer.tunnelID, answer.token))
  }

  function GoGetCreated(w: World, s: TunnelObject, id: string, token: string, out: Outcome): World {
    if !out.Done? then Fail(w, s, s.status, out.err)
    else if id !in w.platform.tunnels then Fail(w, s, s.status, APIError(404, CodeNotFound))
    else
      var remote := Remote(id, w.platform.tunnels[id].online);
      w.(worker := if token != "" then WriteSecret(s, remote, token) else CheckSecret(s, remote))
  }

  function GoCheckSecret(w: World, s: TunnelObject, remote: Remote, out: Outcome): World {
    if !out.Done? then Fail(w, s, s.status, Plain)
    else w.(worker := if Usable(w.secret) then Deploy(s, remote, w.secret.value.version) else Rotate(s, remote))
  }

  function GoRotate(w: World, s: TunnelObject, remote: Remote, out: Outcome): World {
    if out.Refused? then Fail(w, s, s.status, Wrapped(out.err))
    else if remote.id !in w.platform.tunnels then Fail(w, s, s.status, Wrapped(APIError(404, CodeNotFound)))
    else
      var v := w.(platform := w.platform.Rotate(remote.id, out.token),
                  log := w.log.(rotations := w.log.rotations + 1));
      if out.Done? then v.(worker := WriteSecret(s, remote, out.token)) else Fail(v, s, s.status, Wrapped(out.err))
  }

  function GoWriteSecret(w: World, s: TunnelObject, remote: Remote, token: string, out: Outcome): World {
    if out.Refused? then Fail(w, s, s.status, Plain)
    else
      var v := StoreToken(w, token);
      if out.Done? then v.(worker := Deploy(s, remote, v.secret.value.version)) else Fail(v, s, s.status, Plain)
  }

  function GoDeploy(w: World, s: TunnelObject, remote: Remote, version: nat, out: Outcome): World {
    if out.Refused? then w.(worker := Idle)
    else
      var v := StoreTemplate(w, version);
      if out.Done? then v.(worker := WriteStatus(s, SuccessStatus(s, remote, v.deployment.value.available), true))
      else v.(worker := Idle)
  }

  function GoWriteStatus(w: World, s: TunnelObject, next: TunnelStatus, out: Outcome): World {
    if out.Refused? || !Current(w, s) then w.(worker := Idle)
    else Put(w, s.(status := next)).(worker := Idle)
  }

  function GoDeleteClient(w: World, s: TunnelObject, out: Outcome): World {
    if !out.Done? || !w.credential then w.(worker := Idle)
    else if s.status.tunnelID != "" then w.(worker := DeleteRemote(s, s.status.tunnelID))
    else w.(worker := DeleteFind(s))
  }

  function GoDeleteFind(w: World, s: TunnelObject, out: Outcome): World {
    if !out.Done? then w.(worker := Idle)
    else
      var found := w.platform.Find(w.uid);
      w.(worker := if found.Some? && found.value != "" then DeleteRemote(s, found.value) else Release(s))
  }

  function GoDeleteRemote(w: World, s: TunnelObject, id: string, out: Outcome): World {
    if out.Refused? then w.(worker := Idle)
    else
      w.(platform := w.platform.DeleteTunnel(id),
         log := w.log.(deleted := w.log.deleted + (if w.platform.Find(w.uid) == Some(id) then 1 else 0)),
         worker := if out.Done? then Release(s) else Idle)
  }

  function GoRelease(w: World, s: TunnelObject, out: Outcome): World {
    if out.Refused? || !Current(w, s) then w.(worker := Idle)
    else Released(w, s).(worker := Idle)
  }

  function Advance(w: World, out: Outcome): World
    requires !w.worker.Idle?
  {
    match w.worker
    case AddFinalizer(s) => GoAddFinalizer(w, s, out)
    case NeedClient(s) => GoNeedClient(w, s, out)
    case GetKnown(s) => GoGetKnown(w, s, out)
    case RecordMarker(s) => GoRecordMarker(w, s, out)
    case Create(s) => GoCreate(w, s, out)
    case GetCreated(s, id, token) => GoGetCreated(w, s, id, token, out)
    case CheckSecret(s, remote) => GoCheckSecret(w, s, remote, out)
    case Rotate(s, remote) => GoRotate(w, s, remote, out)
    case WriteSecret(s, remote, token) => GoWriteSecret(w, s, remote, token, out)
    case Deploy(s, remote, version) => GoDeploy(w, s, remote, version, out)
    case WriteStatus(s, next, _) => GoWriteStatus(w, s, next, out)
    case DeleteClient(s) => GoDeleteClient(w, s, out)
    case DeleteFind(s) => GoDeleteFind(w, s, out)
    case DeleteRemote(s, id) => GoDeleteRemote(w, s, id, out)
    case Release(s) => GoRelease(w, s, out)
  }

  // ---------------------------------------------------------------- actions and runs

  /** What is minted is new, and no error claims that something present is absent. */
  predicate PossibleOutcome(w: World, out: Outcome) {
    && (!out.Refused? && (w.worker.Create? || w.worker.Rotate?) ==> w.platform.Fresh(out.id, out.token))
    && (!out.Done? ==> !IsNotFound(out.err))
  }

  ghost predicate Enabled(w: World, a: Action) {
    match a
    case Begin => w.worker.Idle?
    case Go(out) => !w.worker.Idle? && PossibleOutcome(w, out)
    case Crash => true
    case UserDelete => w.obj.Some?
    case EditSpec => w.obj.Some?
    case SetForeign(present) => w.obj.Some? && (present ==> !w.obj.value.deleting)
    case SetCredential(_) => true
    case TamperSecret(_) => w.secret.Some?
    case AgentChange(_) => w.deployment.Some?
    case OnlineChange(_) => w.uid in w.platform.owners && w.platform.owners[w.uid] in w.platform.tunnels
    case Others(q) => OthersOnly(w.platform, q, w.uid)
    case PanelDelete => w.uid in w.platform.owners
    case PanelRotate(token) =>
      && w.uid in w.platform.owners && w.platform.owners[w.uid] in w.platform.tunnels
      && token != "" && token !in w.platform.issued
  }

  /** A deleting object without finalizers is gone. */
  function Settle(w: World, o: TunnelObject): World {
    if o.deleting && !o.finalizer && !o.foreign then w.(obj := None) else Put(w, o)
  }

  ghost function Apply(w: World, a: Action): World
    requires Enabled(w, a)
  {
    match a
    case Begin => w.(worker := Start(w))
    case Go(out) => Advance(w, out)
    case Crash => w.(worker := Idle)
    case UserDelete => Settle(w, w.obj.value.(deleting := true))
    case EditSpec => Put(w, w.obj.value.(generation := w.obj.value.generation + 1))
    case SetForeign(present) => Settle(w, w.obj.value.(foreign := present))
    case SetCredential(readable) => w.(credential := readable)
    case TamperSecret(remove) =>
      if remove then w.(secret := None) else w.(rv := w.rv + 1, secret := Some(Secret(w.rv + 1, "")))
    case AgentChange(available) => w.(deployment := Some(w.deployment.value.(available := available)))
    case OnlineChange(online) => w.(platform := w.platform.SetOnline(w.platform.owners[w.uid], online))
    case Others(q) => w.(platform := q)
    case PanelDelete =>
      w.(platform := w.platform.DeleteTunnel(w.platform.owners[w.uid]),
         log := w.log.(panelDeletes := w.log.panelDeletes + 1))
    case PanelRotate(token) =>
      w.(platform := w.platform.Rotate(w.platform.owners[w.uid], token),
         log := w.log.(panelRotations := w.log.panelRotations + 1))
  }

  /** Every action of a run is possible when its turn comes. */
  ghost predicate Run(w: World, actions: seq<Action>, end: World)
    decreases |actions|
  {
    if actions == [] then w == end
    else Enabled(w, actions[0]) && Run(Apply(w, actions[0]), actions[1..], end)
  }

  lemma RunStep(w: World, a: Action, rest: seq<Action>, end: World)
    requires Enabled(w, a) && Run(Apply(w, a), rest, end)
    ensures Run(w, [a] + rest, end)
  {
    hide Advance, Enabled, Apply;
    assert ([a] + rest)[1..] == rest;
  }

  lemma {:induction false} RunAppend(w: World, first: seq<Action>, mid: World, second: seq<Action>, end: World)
    requires Run(w, first, mid) && Run(mid, second, end)
    ensures Run(w, first + second, end)
    decreases |first|
  {
    hide Apply, Enabled;
    if first == [] {
      assert first + second == second;
    } else {
      RunAppend(Apply(w, first[0]), first[1..], mid, second, end);
      assert (first + second)[1..] == first[1..] + second;
    }
  }

  /** The last step of a run. */
  lemma {:induction false} RunLast(w: World, actions: seq<Action>, end: World) returns (mid: World)
    requires Run(w, actions, end) && actions != []
    ensures Run(w, actions[..|actions| - 1], mid) && Enabled(mid, actions[|actions| - 1])
    ensures Apply(mid, actions[|actions| - 1]) == end
    decreases |actions|
  {
    hide Apply, Enabled;
    if |actions| == 1 {
      mid := w;
    } else {
      mid := RunLast(Apply(w, actions[0]), actions[1..], end);
      assert actions[..|actions| - 1][1..] == actions[1..][..|actions| - 2];
      assert actions[1..][|actions| - 2] == actions[|actions| - 1];
    }
  }
}
