/** Steps of the tunnel machine under the routes, and whole runs of both machines. */
module RouteRuns {
  import opened Base
  import opened RouteMachine
  import opened RouteSafety
  import opened RouteSystem
  import opened RouteSteps
  import opened TunnelEffects
  import Tun = TunnelMachine
  import TS = TunnelSafety
  import TI = TunnelInvariants

  /** What the routes see of the end and of the beginning of the tunnel. */
  ghost predicate Died(n: Net, m: Net) {
    m == Net(map[], n.makers, None, true)
  }

  ghost predicate Began(n: Net, m: Net) {
    n.tunnel.None? && !n.dead && n.makers == map[] && m == n.(tunnel := m.tunnel)
  }

  lemma EffectOnNet(w: Sys, v: Sys)
    requires SysInv(w) && v == w.(t := v.t) && TunnelEffect(w.t, v.t) && TI.Inv(v.t)
    ensures NetOf(v) == NetOf(w) || Died(NetOf(w), NetOf(v)) || Began(NetOf(w), NetOf(v))
    ensures NetOk(NetOf(v))
  {
    hide ObjectsOk, ClaimsOk, TI.Inv;
    var n, m := NetOf(w), NetOf(v);
    if TunnelDies(w.t, v.t) {
      assert m.live == map[];
    } else if TunnelBorn(w.t, v.t) {
      assert n.makers == map[];
    } else {
      assert m.live == n.live;
    }
  }

  lemma EffectOnBooks(w: Sys, v: Sys)
    requires SysInv(w) && v == w.(t := v.t) && TunnelEffect(w.t, v.t)
    ensures BooksOk(v)
  {
    hide ObjectsOk, ClaimsOk, TI.Rest, TS.WorkerOk, TS.StatusOk, NetOk;
  }

  lemma EffectOnTid(t: Tun.World, v: Tun.World, tid: string)
    requires TunnelEffect(t, v) && TidHeld(t, tid)
    ensures TidHeld(v, tid)
  {
    hide TunnelSame, TunnelDies, TunnelBorn;
  }

  lemma DiedKeepsLocal(n: Net, m: Net, rv: nat, name: string, l: Local)
    requires NetOk(n) && Died(n, m) && LocalOk(n, rv, name, l)
    ensures LocalOk(m, rv, name, l)
  {
    assert forall id :: !Has(m, name, id);
    assert forall id :: OwnId(n, name, id) ==> OwnId(m, name, id);
  }

  lemma BeganKeepsLocal(n: Net, m: Net, rv: nat, name: string, l: Local)
    requires NetOk(n) && Began(n, m) && LocalOk(n, rv, name, l)
    ensures LocalOk(m, rv, name, l)
  {
    assert forall id :: !Has(m, name, id) && !OwnId(n, name, id);
  }

  lemma NetKeepsClaims(n: Net, m: Net, objects: map<string, Local>)
    requires ClaimsOk(n, objects) && (Died(n, m) || Began(n, m)) && NetOk(n)
    ensures ClaimsOk(m, objects)
  {
    assert m.live == map[] || m.live == n.live;
    forall a | a in objects && objects[a].obj.Some?
      ensures SpecFree(m, objects, a, objects[a].obj.value.spec)
    {
      assert SpecFree(n, objects, a, objects[a].obj.value.spec);
    }
  }

  lemma TunnelStepKeepsSysInv(w: Sys, b: Tun.Action)
    requires SysInv(w) && Enabled(w, Tunnel(b))
    ensures SysInv(Step(w, Tunnel(b)))
  {
    hide LocalOk, TI.Inv, NetOk, ClaimsOk, TunnelSame, TunnelDies, TunnelBorn, TidHeld, BooksOk, Tun.Apply, Tun.Enabled,
      Died, Began;
    var v := Step(w, Tunnel(b));
    StepEffect(w.t, b);
    TI.StepKeepsInv(w.t, b);
    EffectOnNet(w, v);
    EffectOnBooks(w, v);
    var n, m := NetOf(w), NetOf(v);
    forall name | name in v.objects
      ensures LocalOk(m, v.rv, name, v.objects[name]) && TidHeld(v.t, TidOf(v.objects[name].worker))
    {
      assert LocalOk(n, w.rv, name, w.objects[name]) && TidHeld(w.t, TidOf(w.objects[name].worker));
      EffectOnTid(w.t, v.t, TidOf(w.objects[name].worker));
      if Died(n, m) {
        DiedKeepsLocal(n, m, w.rv, name, w.objects[name]);
      } else if Began(n, m) {
        BeganKeepsLocal(n, m, w.rv, name, w.objects[name]);
      }
    }
    if m != n {
      NetKeepsClaims(n, m, w.objects);
    }
  }

  /** Services are nothing to the invariant. */
  lemma ServiceStepKeepsSysInv(w: Sys, a: Action)
    requires SysInv(w) && a.SetService? && Enabled(w, a)
    ensures SysInv(Step(w, a))
  {
    hide TI.Inv, NetOk, ClaimsOk, LocalOk, TidHeld;
    assert NetOf(Step(w, a)) == NetOf(w);
  }

  lemma StepKeepsSysInv(w: Sys, a: Action)
    requires SysInv(w) && Enabled(w, a)
    ensures SysInv(Step(w, a))
  {
    hide SysInv, ObjectStep, Step, Enabled;
    if a.Tunnel? {
      TunnelStepKeepsSysInv(w, a.action);
    } else if a.SetService? {
      ServiceStepKeepsSysInv(w, a);
    } else {
      EveryObjectStep(w, a);
      ObjectStepKeepsInv(w, Step(w, a), a.name);
    }
  }

  lemma {:induction false} RunKeepsSysInv(w: Sys, actions: seq<Action>, end: Sys)
    requires SysInv(w) && Run(w, actions, end)
    ensures SysInv(end)
    decreases |actions|
  {
    hide SysInv, Step, Enabled;
    if actions != [] {
      StepKeepsSysInv(w, actions[0]);
      RunKeepsSysInv(Step(w, actions[0]), actions[1..], end);
    }
  }

  lemma ReachableInv(w: Sys, actions: seq<Action>, end: Sys)
    requires Init(w) && Run(w, actions, end)
    ensures SysInv(end)
  {
    hide SysInv, Run, Init;
    InitSysInv(w);
    RunKeepsSysInv(w, actions, end);
  }
}
