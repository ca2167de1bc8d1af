/** internal/controller/tunnel_controller.go in its own form: methods that update the in-memory copy of
    the object in place and issue ordered calls. Every execution, with any outcomes and any
    interference between calls, is a run of the machine, so every theorem about runs is about it.
    (A crash is a prefix of such an execution followed by the machine's Crash.) */
module TunnelReconciler {
  import opened Base
  import opened Errors
  import opened Platform
  import opened TunnelMachine
  import opened TunnelVerdicts

  /** Actions of anybody but the operator. */
  predicate ByOthers(actions: seq<Action>) {
    forall a :: a in actions ==> !a.Begin? && !a.Go? && !a.Crash?
  }

  /** What can be read off a trace: the errors that failed a reconcile, in order, and how many reconciles got their
      closing status written. */
  datatype Ledger = Ledger(failures: seq<Error>, closed: nat)

  function Entry(w: World, a: Action, l: Ledger): Ledger {
    match a
    case Go(out) =>
      var e := FailureOf(w, out);
      Ledger(l.failures + (if e.Some? then [e.value] else []),
             l.closed + (if w.worker.WriteStatus? && out.Done? && Current(w, w.worker.s) then 1 else 0))
    case _ => l
  }

  ghost function LedgerOf(w: World, actions: seq<Action>, l: Ledger): Ledger
    decreases |actions|
  {
    if actions == [] || !Enabled(w, actions[0]) then l
    else LedgerOf(Apply(w, actions[0]), actions[1..], Entry(w, actions[0], l))
  }

  lemma {:induction false} LedgerThen(w: World, actions: seq<Action>, mid: World, a: Action, l: Ledger)
    requires Run(w, actions, mid) && Enabled(mid, a)
    ensures LedgerOf(w, actions + [a], l) == Entry(mid, a, LedgerOf(w, actions, l))
    decreases |actions|
  {
    hide Apply, Enabled, Entry;
    if actions == [] {
      assert actions + [a] == [a] && [a][1..] == [];
    } else {
      assert (actions + [a])[1..] == actions[1..] + [a];
      LedgerThen(Apply(w, actions[0]), actions[1..], mid, a, Entry(w, actions[0], l));
    }
  }

  /** Nobody else's actions are in it. */
  lemma {:induction false} OthersAreNotRecorded(w: World, actions: seq<Action>, end: World, l: Ledger)
    requires Run(w, actions, end) && ByOthers(actions)
    ensures LedgerOf(w, actions, l) == l
    decreases |actions|
  {
    hide Apply, Enabled;
    if actions != [] {
      OthersAreNotRecorded(Apply(w, actions[0]), actions[1..], end, l);
    }
  }

  /** One error was added, with the verdict of this one. */
  predicate OneMore(before: Ledger, after: Ledger, e: Error) {
    && |after.failures| == |before.failures| + 1 && after.failures[..|before.failures|] == before.failures
    && Classify(after.failures[|before.failures|]) == Classify(e) && after.closed == before.closed
  }

  datatype ReadResult = Found | Absent | ReadFailed
  datatype WriteResult = Written | Gone | WriteFailed

  class Reconciler {
    /** Everything outside the process, together with where the reconcile stands. */
    var world: World
    /** The in-memory copy of the object. */
    var tunnel: TunnelObject
    /** The outcome of the n-th call. */
    const outcomes: nat -> Outcome
    var calls: nat

    ghost const start: World
    ghost var trace: seq<Action>
    ghost var ledger: Ledger

    constructor (w: World, outcomes: nat -> Outcome)
      ensures Valid() && world == w && trace == []
    {
      world, calls, start, trace, ledger := w, 0, w, [], Ledger([], 0);
      tunnel := TunnelObject(0, 0, false, false, false, NO_STATUS);
      this.outcomes := outcomes;
    }

    ghost predicate Valid()
      reads this
    {
      Run(start, trace, world) && ledger == LedgerOf(start, trace, Ledger([], 0))
    }

    // ------------------------------------------------------------ the outside

    /** Whatever the environment does between two calls. Callers know only this contract. */
    method Interfere()
      requires Valid()
      modifies `world, `trace
      ensures Valid() && world.worker == old(world.worker) && world.uid == old(world.uid)
      ensures old(trace) <= trace && ByOthers(trace[|old(trace)|..])
    {
    }

    /** One call of the reconcile in flight. */
    method Call() returns (out: Outcome)
      requires Valid() && !world.worker.Idle?
      modifies `world, `trace, `calls, `ledger
      ensures Valid() && PossibleOutcome(old(world), out)
      ensures world == Advance(old(world), out) && trace == old(trace) + [Go(out)]
      ensures ledger == Entry(old(world), Go(out), old(ledger))
    {
      out := if PossibleOutcome(world, outcomes(calls)) then outcomes(calls) else Refused(Plain);
      calls := calls + 1;
      ghost var before := world;
      world := Advance(world, out);
      LedgerThen(start, trace, before, Go(out), Ledger([], 0));
      ledger := Entry(before, Go(out), ledger);
      RunStep(before, Go(out), [], world);
      RunAppend(start, trace, before, [Go(out)], world);
      trace := trace + [Go(out)];
    }

    method Get() returns (r: ReadResult)
      requires Valid() && world.worker.Idle?
      modifies `world, `trace, `tunnel, `calls, `ledger
      ensures Valid() && old(trace) <= trace
      ensures r.ReadFailed? ==> world.worker.Idle?
      ensures r.Absent? ==> world.worker.Idle? && world.obj.None?
      ensures r.Found? ==> world.obj == Some(tunnel) && world.worker == Start(world.(worker := Idle))
      ensures ledger == old(ledger)
    {
      Interfere();
      var failed := outcomes(calls).Refused?;
      calls := calls + 1;
      if failed {
        return ReadFailed;
      }
      ghost var before := world;
      world := world.(worker := Start(world));
      LedgerThen(start, trace, before, Begin, Ledger([], 0));
      ledger := Entry(before, Begin, ledger);
      RunStep(before, Begin, [], world);
      RunAppend(start, trace, before, [Begin], world);
      trace := trace + [Begin];
      if world.obj.Some? {
        tunnel := world.obj.value;
        r := Found;
      } else {
        r := Absent;
      }
    }

    /** Update of the object, to put the finalizer on. */
    method UpdateAddingFinalizer() returns (ok: bool)
      requires Valid() && world.worker.AddFinalizer? && tunnel == world.worker.s.(finalizer := true)
      modifies `world, `trace, `tunnel, `calls, `ledger
      ensures Valid() && old(trace) <= trace
      ensures ok ==> world.worker == NeedClient(tunnel)
      ensures !ok ==> world.worker.Idle?
      ensures ledger == old(ledger)
    {
      Interfere();
      var out := Call();
      ok := world.worker.NeedClient?;
      if ok {
        tunnel := world.worker.s;
      }
    }

    /** Update of the object, to take the finalizer off. */
    method UpdateReleasing() returns (ok: bool)
      requires Valid() && world.worker.Release? && tunnel == world.worker.s.(finalizer := false)
      requires world.worker.s.deleting
      modifies `world, `trace, `calls, `ledger
      ensures Valid() && old(trace) <= trace && world.worker.Idle?
      ensures ok ==> world.obj.None? || (world.obj.value.deleting && !world.obj.value.finalizer)
      ensures ledger == old(ledger)
    {
      Interfere();
      var current := Current(world, world.worker.s);
      var out := Call();
      ok := out.Done? && current;
    }

    /** The status write that `finish` makes. */
    method UpdateStatus() returns (r: WriteResult)
      requires Valid() && world.worker.WriteStatus?
      requires tunnel == world.worker.s.(status := world.worker.next)
      modifies `world, `trace, `calls, `ledger
      ensures Valid() && old(trace) <= trace && world.worker.Idle?
      ensures r.Gone? ==> world.obj.None?
      ensures r.Written? ==> world.obj.Some? && world.obj.value.status == tunnel.status
      ensures ledger == old(ledger).(closed := old(ledger).closed + (if r.Written? then 1 else 0))
    {
      Interfere();
      var before := world;
      var out := Call();
      r := if out.Done? && Current(before, before.worker.s) then Written
           else if out.Done? && before.obj.None? then Gone
           else WriteFailed;
    }

    /** The status write that records the external id before the create. */
    method UpdateStatusRecording() returns (err: Option<Error>)
      requires Valid() && world.worker.RecordMarker?
      requires tunnel == world.worker.s.(status := world.worker.s.status.(externalID := world.uid))
      modifies `world, `trace, `tunnel, `calls, `ledger
      ensures Valid() && old(trace) <= trace && world.uid == old(world.uid)
      ensures err.None? ==> world.worker == Create(tunnel)
      ensures err.Some? ==> Failing(err.value)
      ensures if err.None? then ledger == old(ledger)
              else OneMore(old(ledger), ledger, err.value)
    {
      Interfere();
      var out := Call();
      if world.worker.Create? {
        tunnel := world.worker.s;
        err := None;
      } else {
        err := Some(Wrapped(Plain));
      }
    }

    /** ensureTunnel or ensureCredentialSecret returned this error; `fail` comes next. */
    ghost predicate Failing(err: Error)
      reads this
    {
      && world.worker.WriteStatus? && !world.worker.complete
      && tunnel == world.worker.s.(status := tunnel.status)
      && world.worker.next == FailStatus(world.worker.s, tunnel.status, err)
    }

    method ClientFor() returns (readable: bool)
      requires Valid() && (world.worker == NeedClient(tunnel) || world.worker == DeleteClient(tunnel))
      modifies `world, `trace, `calls, `ledger
      ensures Valid() && old(trace) <= trace && world.uid == old(world.uid)
      ensures old(world.worker).NeedClient? ==>
              world.worker == if !readable then WriteStatus(tunnel, UnreadableStatus(tunnel), false)
                              else if tunnel.status.tunnelID != "" then GetKnown(tunnel) else Provision(tunnel)
      ensures old(world.worker).DeleteClient? ==>
              world.worker == if !readable then Idle
                              else if tunnel.status.tunnelID != "" then DeleteRemote(tunnel, tunnel.status.tunnelID)
                              else DeleteFind(tunnel)
      ensures ledger == old(ledger)
      ensures readable <==> !Unreadable()
    {
      Interfere();
      readable := world.credential;
      var out := Call();
      readable := readable && out.Done?;
    }

    /** GET of one tunnel: an answer, a 404, or another error. */
    method GetTunnel(id: string) returns (remote: Remote, err: Option<Error>)
      requires Valid()
      requires (world.worker == GetKnown(tunnel) && id == tunnel.status.tunnelID)
            || (world.worker.GetCreated? && world.worker.s == tunnel && world.worker.id == id)
      modifies `world, `trace, `calls, `ledger
      ensures Valid() && old(trace) <= trace && world.uid == old(world.uid)
      ensures err.None? ==> remote.id == id
      ensures old(world.worker).GetKnown? ==>
              match err
              case None => world.worker == CheckSecret(tunnel, remote)
              case Some(e) => if IsNotFound(e) then world.worker == Provision(tunnel) else Failing(e)
      ensures old(world.worker).GetCreated? ==>
              match err
              case None => world.worker == if old(world.worker).token != ""
                                           then WriteSecret(tunnel, remote, old(world.worker).token)
                                           else CheckSecret(tunnel, remote)
              case Some(e) => Failing(e)
      ensures if err.None? || (old(world.worker).GetKnown? && IsNotFound(err.value))
              then ledger == old(ledger)
              else OneMore(old(ledger), ledger, err.value)
    {
      Interfere();
      var before := world;
      var out := Call();
      remote := Remote(id, "");
      if !out.Done? {
        err := Some(out.err);
      } else if id in before.platform.tunnels {
        remote, err := Remote(id, before.platform.tunnels[id].online), None;
      } else {
        err := Some(APIError(404, CodeNotFound));
      }
    }

    method CreateTunnel(externalID: string) returns (answer: CreateAnswer, err: Option<Error>)
      requires Valid() && world.worker == Create(tunnel) && externalID == world.uid
      modifies `world, `trace, `calls, `ledger
      ensures Valid() && old(trace) <= trace && world.uid == old(world.uid)
      ensures match err
              case None => world.worker == GetCreated(tunnel, answer.tunnelID, answer.token)
              case Some(e) => Failing(e)
      ensures if err.None? then ledger == old(ledger)
              else OneMore(old(ledger), ledger, err.value)
    {
      Interfere();
      var before := world;
      var out := Call();
      if out.Done? {
        answer, err := before.platform.CreateTunnel(externalID, out.id, out.token).1, None;
      } else {
        answer, err := CreateAnswer("", "", false), Some(out.err);
      }
    }

    method GetTokenSecret() returns (existing: Option<Secret>, err: Option<Error>)
      requires Valid() && world.worker.CheckSecret? && world.worker.s == tunnel
      modifies `world, `trace, `calls, `ledger
      ensures Valid() && old(trace) <= trace
      ensures match err
              case None =>
                world.worker == if Usable(existing)
                                then Deploy(tunnel, old(world.worker).remote, existing.value.version)
                                else Rotate(tunnel, old(world.worker).remote)
              case Some(e) => Failing(e)
      ensures if err.None? then ledger == old(ledger)
              else OneMore(old(ledger), ledger, err.value)
    {
      Interfere();
      existing := world.secret;
      var out := Call();
      err := if out.Done? then None else Some(Plain);
    }

    method RotateToken(id: string) returns (token: string, err: Option<Error>)
      requires Valid() && world.worker.Rotate? && world.worker.s == tunnel && world.worker.remote.id == id
      modifies `world, `trace, `calls, `ledger
      ensures Valid() && old(trace) <= trace
      ensures match err
              case None => world.worker == WriteSecret(tunnel, old(world.worker).remote, token)
              case Some(e) => Failing(Wrapped(e))
      ensures if err.None? then ledger == old(ledger)
              else OneMore(old(ledger), ledger, err.value)
    {
      Interfere();
      var present := id in world.platform.tunnels;
      var out := Call();
      token := if out.Refused? then "" else out.token;
      err := if out.Refused? then Some(out.err)
             else if !present then Some(APIError(404, CodeNotFound))
             else if out.Done? then None else Some(out.err);
    }

    method StoreTokenSecret(token: string) returns (version: nat, err: Option<Error>)
      requires Valid() && world.worker.WriteSecret? && world.worker.s == tunnel && world.worker.token == token
      modifies `world, `trace, `calls, `ledger
      ensures Valid() && old(trace) <= trace
      ensures match err
              case None => world.worker == Deploy(tunnel, old(world.worker).remote, version)
              case Some(e) => Failing(e)
      ensures if err.None? then ledger == old(ledger)
              else OneMore(old(ledger), ledger, err.value)
    {
      Interfere();
      var out := Call();
      version := if out.Done? then world.secret.value.version else 0;
      err := if out.Done? then None else Some(Plain);
    }

    // ------------------------------------------------------------ the reconciler

    method SetSynced(status: bool, reason: Reason)
      modifies `tunnel
      ensures tunnel == old(tunnel).(status :=
                old(tunnel).status.(synced := Condition(status, reason, old(tunnel).generation)))
    {
      tunnel := tunnel.(status := tunnel.status.(synced := Condition(status, reason, tunnel.generation)));
    }

    method SetAgentAvailable(available: nat)
      modifies `tunnel
      ensures tunnel == old(tunnel).(status := old(tunnel).status.(agentAvailable :=
                Condition(available > 0, if available > 0 then AgentRunning else NoReplicasAvailable,
                          old(tunnel).generation)))
    {
      var status, reason := false, NoReplicasAvailable;
      if available > 0 {
        status, reason := true, AgentRunning;
      }
      tunnel := tunnel.(status := tunnel.status.(agentAvailable := Condition(status, reason, tunnel.generation)));
    }

    method SetReadyFrom(online: string)
      modifies `tunnel
      ensures tunnel == old(tunnel).(status := SetReady(old(tunnel).status, online, old(tunnel).generation))
      ensures tunnel.status.ready.True() <==>
              old(tunnel).status.synced.True() && old(tunnel).status.agentAvailable.True() && online == "online"
    {
      var synced, agent := tunnel.status.synced.True(), tunnel.status.agentAvailable.True();
      var status, reason := false, Offline;
      if !synced {
        reason := NotSynced;
      } else if !agent {
        reason := AgentUnavailable;
      } else if online == "online" {
        status, reason := true, Reason.Online;
      } else if online == "" {
        reason := Unknown;
      }
      tunnel := tunnel.(status := tunnel.status.(ready := Condition(status, reason, tunnel.generation)));
    }

    /** The status fields and conditions of a reconcile that got everything done. */
    method RecordSuccess(remote: Remote, available: nat)
      modifies `tunnel
      ensures tunnel.(status := tunnel.status.(observedGeneration := tunnel.generation))
              == old(tunnel).(status := SuccessStatus(old(tunnel), remote, available))
    {
      tunnel := tunnel.(status := tunnel.status.(tunnelID := remote.id, onlineStatus := remote.online));
      SetSynced(true, Synced);
      SetAgentAvailable(available);
      SetReadyFrom(remote.online);
    }

    /** The object comes back to the queue, with an error or after five minutes, unless it is gone or none of our
        business any more. An error carries no delay of its own. */
    ghost predicate NotDropped(exit: Exit)
      reads this
    {
      || exit == Exit(0, true) || exit == Exit(300, false)
      || (&& exit == Exit(0, false)
          && (world.obj.None? || (world.obj.value.deleting && !world.obj.value.finalizer)))
    }

    /** Writes the status and returns, preserving the reconcile's own error. */
    method Finish(requeueAfter: nat, failed: bool) returns (exit: Exit, ghost result: WriteResult)
      requires Valid() && world.worker.WriteStatus? && requeueAfter == (if failed then 0 else RESYNC_PERIOD)
      requires world.worker.s.(status := world.worker.next)
               == tunnel.(status := tunnel.status.(observedGeneration := tunnel.generation))
      modifies `world, `trace, `tunnel, `calls, `ledger
      ensures Valid() && old(trace) <= trace && world.worker.Idle?
      ensures NotDropped(exit)
      ensures failed ==> exit.failed
      ensures result.Written? ==> exit == Exit(requeueAfter, failed)
      ensures result.Written? ==> world.obj.Some? && world.obj.value.status == tunnel.status
      ensures ledger == old(ledger).(closed := old(ledger).closed + (if result.Written? then 1 else 0))
      ensures tunnel == old(tunnel).(status := old(tunnel).status.(observedGeneration := old(tunnel).generation))
      ensures exit == if failed then Exit(requeueAfter, true)
                      else match result
                        case Written => Exit(requeueAfter, false)
                        case Gone => Exit(0, false)
                        case WriteFailed => Exit(0, true)
    {
      tunnel := tunnel.(status := tunnel.status.(observedGeneration := tunnel.generation));
      var r := UpdateStatus();
      result := r;
      if !r.Written? && !failed {
        return Exit(0, r.WriteFailed?), result;
      }
      exit := Exit(requeueAfter, failed);
    }

    /** The exit after a failure whose status was written: five minutes and no error if it is permanent. */
    function ExitAfter(e: Error): Exit {
      if Classify(e).permanent then Exit(300, false) else Exit(0, true)
    }

    /** The persisted status says that this is what failed. */
    ghost predicate TellsIt(e: Error)
      reads this
    {
      && world.obj.Some? && !world.obj.value.status.ready.True()
      && world.obj.value.status.synced.Condition? && !world.obj.value.status.synced.status
      && world.obj.value.status.synced.reason == Classify(e).reason
    }

    /** Records a failed reconcile: a permanent failure is retried slowly and is no error. */
    method Fail(err: Error) returns (exit: Exit, ghost result: WriteResult)
      requires Valid() && Failing(err)
      modifies `world, `trace, `tunnel, `calls, `ledger
      ensures Valid() && old(trace) <= trace && world.worker.Idle?
      ensures NotDropped(exit)
      ensures !Classify(err).permanent ==> exit.failed
      ensures result.Written? ==> (exit.failed <==> !Classify(err).permanent)
      ensures ledger == old(ledger).(closed := old(ledger).closed + (if result.Written? then 1 else 0))
      ensures result.Written? ==> exit == ExitAfter(err) && TellsIt(err)
      ensures !result.Written? ==> exit.requeueAfter == 0
    {
      var failure := Classify(err);
      SetSynced(false, failure.reason);
      SetReadyFrom("");
      if failure.permanent {
        exit, result := Finish(PERMANENT_RETRY_PERIOD, false);
      } else {
        exit, result := Finish(0, true);
      }
    }

    method EnsureTunnel() returns (remote: Remote, createdToken: string, err: Option<Error>)
      requires Valid()
      requires world.worker == if tunnel.status.tunnelID != "" then GetKnown(tunnel) else Provision(tunnel)
      modifies `world, `trace, `tunnel, `calls, `ledger
      ensures Valid() && old(trace) <= trace
      ensures match err
              case None => world.worker == if createdToken != "" then WriteSecret(tunnel, remote, createdToken)
                                           else CheckSecret(tunnel, remote)
              case Some(e) => Failing(e)
      ensures if err.None? then ledger == old(ledger)
              else OneMore(old(ledger), ledger, err.value)
    {
      remote, createdToken := Remote("", ""), "";
      if tunnel.status.tunnelID != "" {
        remote, err := GetTunnel(tunnel.status.tunnelID);
        if err.None? {
          return remote, "", None;
        }
        if !IsNotFound(err.value) {
          return;
        }
      }
      var externalID := world.uid;
      if tunnel.status.externalID == "" {
        tunnel := tunnel.(status := tunnel.status.(externalID := externalID));
        err := UpdateStatusRecording();
        if err.Some? {
          return;
        }
      }
      var answer;
      answer, err := CreateTunnel(externalID);
      if err.Some? {
        return;
      }
      remote, err := GetTunnel(answer.tunnelID);
      createdToken := answer.token;
    }

    method EnsureCredentialSecret(tunnelID: string, createdToken: string) returns (version: nat, err: Option<Error>)
      requires Valid() && (world.worker.WriteSecret? || world.worker.CheckSecret?)
      requires world.worker.s == tunnel && world.worker.remote.id == tunnelID
      requires world.worker == if createdToken != "" then WriteSecret(tunnel, world.worker.remote, createdToken)
                               else CheckSecret(tunnel, world.worker.remote)
      modifies `world, `trace, `calls, `ledger
      ensures Valid() && old(trace) <= trace
      ensures match err
              case None => world.worker == Deploy(tunnel, old(world.worker).remote, version)
              case Some(e) => Failing(e)
      ensures if err.None? then ledger == old(ledger)
              else OneMore(old(ledger), ledger, err.value)
    {
      version := 0;
      var token := createdToken;
      if token == "" {
        var existing;
        existing, err := GetTokenSecret();
        if err.Some? {
          return;
        }
        if Usable(existing) {
          return existing.value.version, None;
        }
        token, err := RotateToken(tunnelID);
        if err.Some? {
          return 0, Some(Wrapped(err.value));
        }
      }
      version, err := StoreTokenSecret(token);
    }

    /** CreateOrUpdate of the Deployment with the credential version in its template. */
    method EnsureAgentDeployment(version: nat) returns (available: nat, ok: bool)
      requires Valid() && world.worker.Deploy? && world.worker.s == tunnel && world.worker.version == version
      modifies `world, `trace, `calls, `ledger
      ensures Valid() && old(trace) <= trace
      ensures ok ==> world.worker ==
                     WriteStatus(tunnel, SuccessStatus(tunnel, old(world.worker).remote, available), true)
      ensures ok ==> world.deployment.Some? && world.deployment.value.credentialVersion == version
      ensures !ok ==> world.worker.Idle?
      ensures ledger == old(ledger)
    {
      Interfere();
      var out := Call();
      ok := out.Done?;
      available := if ok then world.deployment.value.available else 0;
    }

    /** Since then: if nothing failed and the status was written, the exit is five minutes. If something did, it was one
        call, and if the status was written, the exit is what the verdict on that call's error says and the status
        tells it. A delay is asked for after a status write only, or on the delete path. */
    ghost predicate Accounted(before: Ledger, exit: Exit)
      reads this
    {
      && (if ledger.failures == before.failures then ledger.closed > before.closed ==> exit == Exit(300, false)
          else
            && |ledger.failures| == |before.failures| + 1 && ledger.failures[..|before.failures|] == before.failures
            && var e := ledger.failures[|before.failures|];
               (ledger.closed > before.closed ==> exit == ExitAfter(e) && TellsIt(e)))
      && (exit.requeueAfter > 0 && ledger.closed == before.closed ==> tunnel.deleting && Unreadable())
      && ledger.closed >= before.closed
    }

    /** The last call asked for the credential and did not get it. */
    ghost predicate Unreadable()
      reads this
    {
      && |trace| > 0 && trace[|trace| - 1].Go? && !(trace[|trace| - 1].outcome.Done? && world.credential)
    }

    method Reconcile() returns (exit: Exit)
      requires Valid() && world.worker.Idle?
      modifies this
      ensures Valid() && old(trace) <= trace && world.worker.Idle?
      ensures NotDropped(exit)
      ensures Accounted(old(ledger), exit)
    {
      hide Run, LedgerOf, SuccessStatus, FailStatus;
      ghost var result: WriteResult;
      var read := Get();
      if read.ReadFailed? {
        return Exit(0, true);
      }
      if read.Absent? {
        return Exit(0, false);
      }
      if tunnel.deleting {
        exit := ReconcileDelete();
        return;
      }
      if !tunnel.finalizer {
        tunnel := tunnel.(finalizer := true);
        var ok := UpdateAddingFinalizer();
        if !ok {
          return Exit(0, true);
        }
      }
      var readable := ClientFor();
      if !readable {
        SetSynced(false, CredentialUnreadable);
        exit, result := Finish(PERMANENT_RETRY_PERIOD, false);
        return;
      }
      exit := Provide();
    }

    /** Reconcile from the client on: the tunnel, its credential, the agent that uses it. */
    method Provide() returns (exit: Exit)
      requires Valid()
      requires world.worker == if tunnel.status.tunnelID != "" then GetKnown(tunnel) else Provision(tunnel)
      modifies this
      ensures Valid() && old(trace) <= trace && world.worker.Idle?
      ensures NotDropped(exit) && Accounted(old(ledger), exit)
    {
      hide Run, LedgerOf, SuccessStatus, FailStatus;
      ghost var result: WriteResult;
      var remote, createdToken, err := EnsureTunnel();
      if err.Some? {
        exit, result := Fail(err.value);
        return;
      }
      var version;
      version, err := EnsureCredentialSecret(remote.id, createdToken);
      if err.Some? {
        exit, result := Fail(err.value);
        return;
      }
      var available, ok := EnsureAgentDeployment(version);
      if !ok {
        return Exit(0, true);
      }
      RecordSuccess(remote, available);
      exit, result := Finish(RESYNC_PERIOD, false);
    }

    method FindTunnelByExternalID(externalID: string) returns (found: Option<string>, ok: bool)
      requires Valid() && world.worker == DeleteFind(tunnel) && externalID == world.uid
      modifies `world, `trace, `calls, `ledger
      ensures Valid() && old(trace) <= trace
      ensures !ok ==> world.worker.Idle?
      ensures ok ==> world.worker == if found.Some? && found.value != "" then DeleteRemote(tunnel, found.value)
                                     else Release(tunnel)
      ensures ledger == old(ledger)
    {
      Interfere();
      found := world.platform.Find(externalID);
      var out := Call();
      ok := out.Done?;
    }

    /** A 404 counts as deleted. */
    method DeleteTunnel(id: string) returns (ok: bool)
      requires Valid() && world.worker == DeleteRemote(tunnel, id)
      modifies `world, `trace, `calls, `ledger
      ensures Valid() && old(trace) <= trace
      ensures world.worker == if ok then Release(tunnel) else Idle
      ensures ledger == old(ledger)
    {
      Interfere();
      var out := Call();
      ok := out.Done?;
    }

    method ReconcileDelete() returns (exit: Exit)
      requires Valid() && tunnel.deleting && world.obj == Some(tunnel) && world.worker == Start(world.(worker := Idle))
      modifies this
      ensures Valid() && old(trace) <= trace && world.worker.Idle?
      ensures NotDropped(exit)
      ensures ledger == old(ledger)
      ensures exit.requeueAfter > 0 ==> tunnel.deleting && Unreadable()
    {
      if !tunnel.finalizer {
        return Exit(0, false);
      }
      if tunnel.status.externalID != "" {
        var readable := ClientFor();
        if !readable {
          return Exit(PERMANENT_RETRY_PERIOD, false);
        }
        var id := tunnel.status.tunnelID;
        if id == "" {
          var found, ok := FindTunnelByExternalID(world.uid);
          if !ok {
            return Exit(0, true);
          }
          if found.Some? {
            id := found.value;
          }
        }
        if id != "" {
          var ok := DeleteTunnel(id);
          if !ok {
            return Exit(0, true);
          }
        }
      }
      tunnel := tunnel.(finalizer := false);
      var ok := UpdateReleasing();
      exit := Exit(0, !ok);
    }
  }
}
