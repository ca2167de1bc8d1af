/** The remote platform's contract (internal/nubulus/tunnel.go) as a transition function.
    Identifiers and tokens are minted by the platform: every operation that makes one takes the
    minted value as a parameter, and callers pass one that was never used before. */
module Platform {
  import opened Base

  datatype PTunnel = PTunnel(externalID: string, token: string, online: string)

  datatype PRoute = PRoute(
    tunnelID: string, kind: string, hostname: string, pathPrefix: string,
    upstreamHost: string, upstreamPort: int, scheme: string, stripPrefix: bool,
    enabled: bool, priority: int)

  /** `owners` is the unique index on external ids; `used` and `issued` remember everything minted. */
  datatype Platform = Platform(
    tunnels: map<string, PTunnel>, owners: map<string, string>,
    routes: map<string, PRoute>, used: set<string>, issued: set<string>)
  {
    ghost predicate Valid() {
      && "" !in used && "" !in issued
      && (forall id :: id in tunnels ==> id in used && tunnels[id].token in issued)
      && (forall id :: id in tunnels && tunnels[id].externalID != "" ==>
            tunnels[id].externalID in owners && owners[tunnels[id].externalID] == id)
      && (forall ext :: ext in owners ==> owners[ext] in tunnels && tunnels[owners[ext]].externalID == ext)
      && (forall r :: r in routes ==> r in used && routes[r].tunnelID in tunnels)
    }

    /** The tunnel carrying an external id, if any (FindTunnelByExternalID). */
    function Find(ext: string): Option<string> {
      if ext in owners then Some(owners[ext]) else None
    }

    predicate Fresh(id: string, token: string) {
      id != "" && id !in used && token != "" && token !in issued
    }

    /** POST /tunnels: adopts the tunnel already carrying the external id, with no token in the
        answer, and otherwise makes one. */
    function CreateTunnel(ext: string, id: string, token: string): (Platform, CreateAnswer) {
      if ext in owners then (this, CreateAnswer(owners[ext], "", true))
      else
        (Platform(tunnels[id := PTunnel(ext, token, "offline")], owners[ext := id], routes,
                  used + {id}, issued + {token}),
         CreateAnswer(id, token, false))
    }

    /** POST /tunnels/{id}/rotate-token: the new token replaces the old one. */
    function Rotate(id: string, token: string): Platform
      requires id in tunnels
    {
      this.(tunnels := tunnels[id := tunnels[id].(token := token)], issued := issued + {token})
    }

    /** DELETE /tunnels/{id}: the tunnel and everything hanging off it. */
    function DeleteTunnel(id: string): Platform {
      if id !in tunnels then this
      else
        this.(tunnels := tunnels - {id},
              owners := owners - {tunnels[id].externalID},
              routes := map r | r in routes && routes[r].tunnelID != id :: routes[r])
    }

    /** POST /tunnels/{id}/routes, once the tunnel is known to exist. */
    function CreateRoute(rid: string, route: PRoute): Platform {
      this.(routes := routes[rid := route], used := used + {rid})
    }

    /** DELETE /tunnels/{id}/routes/{rid}: a route of another tunnel is out of reach. */
    function DeleteRoute(tid: string, rid: string): Platform {
      if rid in routes && routes[rid].tunnelID == tid then this.(routes := routes - {rid}) else this
    }

    /** Change nothing but the reported connection state of one tunnel. */
    function SetOnline(id: string, online: string): Platform
      requires id in tunnels
    {
      this.(tunnels := tunnels[id := tunnels[id].(online := online)])
    }
  }

  datatype CreateAnswer = CreateAnswer(tunnelID: string, token: string, adopted: bool)

  /** Everything other accounts, other objects and other clusters may do: the tunnel under `ext`
      and its routes are not theirs, and identifiers are never minted twice. */
  ghost predicate OthersOnly(p: Platform, q: Platform, ext: string) {
    && q.Valid()
    && p.used <= q.used && p.issued <= q.issued
    && q.Find(ext) == p.Find(ext)
    && (ext in p.owners ==>
          p.owners[ext] in p.tunnels && p.owners[ext] in q.tunnels &&
          q.tunnels[p.owners[ext]] == p.tunnels[p.owners[ext]])
    && (forall id :: id in q.tunnels && id !in p.tunnels ==> id !in p.used)
    && (forall r :: r in q.routes && r !in p.routes ==> r !in p.used)
    && (forall id :: id in q.tunnels && id in p.tunnels ==> q.tunnels[id].externalID == p.tunnels[id].externalID)
    && (forall r :: (r in p.routes && ext in p.owners && p.routes[r].tunnelID == p.owners[ext]) ==>
          r in q.routes && q.routes[r] == p.routes[r])
    && (forall r :: (r in q.routes && ext in p.owners && q.routes[r].tunnelID == p.owners[ext]) ==>
          r in p.routes && q.routes[r] == p.routes[r])
  }

  // The operations keep the platform well formed.

  lemma CreateKeepsValid(p: Platform, ext: string, id: string, token: string)
    requires p.Valid() && p.Fresh(id, token) && ext != ""
    ensures p.CreateTunnel(ext, id, token).0.Valid()
  {
    var q := p.CreateTunnel(ext, id, token).0;
    if ext !in p.owners {
      forall e | e in q.owners
        ensures q.owners[e] in q.tunnels && q.tunnels[q.owners[e]].externalID == e
      {
        if e != ext {
          assert e in p.owners;
        }
      }
    }
  }

  lemma DeleteKeepsValid(p: Platform, id: string)
    requires p.Valid()
    ensures p.DeleteTunnel(id).Valid()
  {
    if id in p.tunnels {
      var q := p.DeleteTunnel(id);
      forall e | e in q.owners
        ensures q.owners[e] in q.tunnels && q.tunnels[q.owners[e]].externalID == e
      {
        assert e in p.owners;
      }
    }
  }
}
