/** internal/controller/tunnelroute_controller.go, the pure half: what a route object asks for, where its
    upstream is, and the difference between a platform route and the spec. */
module RouteSpec {
  import opened Base
  import opened Platform

  datatype IntOrString = Number(n: int) | Name(s: string)
  datatype ServiceTarget = ServiceTarget(name: string, port: IntOrString)
  datatype UpstreamTarget = UpstreamTarget(host: string, port: int)

  datatype Spec = Spec(
    hostname: string, kind: string, pathPrefix: string,
    service: Option<ServiceTarget>, upstream: Option<UpstreamTarget>,
    scheme: string, stripPrefix: bool, priority: Option<int>, enabled: Option<bool>)

  const HOST := "host"
  const PATH := "path"

  /** The CRD's enum and its three cross-field rules, as the API server enforces them on every stored spec. */
  predicate ValidSpec(spec: Spec) {
    && (spec.kind == HOST || spec.kind == PATH)
    && (spec.service.Some? != spec.upstream.Some?)
    && (spec.kind == PATH ==> spec.pathPrefix != "" && spec.pathPrefix != "/")
    && (spec.kind == HOST ==> spec.pathPrefix == "" || spec.pathPrefix == "/")
  }

  // ---------------------------------------------------------------- defaults

  function RouteType(spec: Spec): string {
    if spec.kind == "" then HOST else spec.kind
  }

  function PathPrefix(spec: Spec): string {
    if spec.pathPrefix == "" then "/" else spec.pathPrefix
  }

  function Priority(spec: Spec): int {
    if spec.priority.None? then 100 else spec.priority.value
  }

  function IsEnabled(spec: Spec): bool {
    if spec.enabled.None? then true else spec.enabled.value
  }

  function Scheme(spec: Spec): string {
    if spec.scheme == "" then "http" else spec.scheme
  }

  // ---------------------------------------------------------------- identity

  /** What an update cannot change. */
  datatype Identity = Identity(kind: string, hostname: string, pathPrefix: string)

  function SpecIdentity(spec: Spec): Identity {
    Identity(RouteType(spec), spec.hostname, PathPrefix(spec))
  }

  function RouteIdentity(r: PRoute): Identity {
    Identity(r.kind, r.hostname, r.pathPrefix)
  }

  predicate IdentityChanged(r: PRoute, spec: Spec) {
    r.kind != RouteType(spec) || r.hostname != spec.hostname || r.pathPrefix != PathPrefix(spec)
  }

  /** Hostname and prefix: what a route is looked up by when its id is not known. */
  predicate SameKey(r: PRoute, spec: Spec) {
    r.hostname == spec.hostname && r.pathPrefix == PathPrefix(spec)
  }

  /** A route is of type host exactly when its prefix is "/". */
  predicate WellTyped(r: PRoute) {
    (r.kind == HOST || r.kind == PATH) && (r.kind == HOST <==> r.pathPrefix == "/")
  }

  /** So for stored specs the key determines the identity. */
  lemma KeyDeterminesIdentity(r: PRoute, spec: Spec)
    requires WellTyped(r) && ValidSpec(spec)
    ensures SameKey(r, spec) <==> !IdentityChanged(r, spec)
    ensures !IdentityChanged(r, spec) <==> RouteIdentity(r) == SpecIdentity(spec)
  {
  }

  // ---------------------------------------------------------------- create and update

  /** The body of a create: it has no `enabled`. */
  datatype CreateInput = CreateInput(
    kind: string, hostname: string, pathPrefix: string,
    upstreamHost: string, upstreamPort: int, scheme: string, stripPrefix: bool, priority: int)

  /** What the platform makes of a create: always enabled, and a priority of 0 reads as unset. */
  function Stored(tid: string, input: CreateInput): PRoute {
    PRoute(tid, input.kind, input.hostname, if input.pathPrefix == "" then "/" else input.pathPrefix,
           input.upstreamHost, input.upstreamPort, if input.scheme == "" then "http" else input.scheme,
           input.stripPrefix, true, if input.priority == 0 then 100 else input.priority)
  }

  /** The body of an update: an absent field is left alone. */
  datatype UpdateInput = UpdateInput(
    upstreamHost: Option<string>, upstreamPort: Option<int>, scheme: Option<string>,
    stripPrefix: Option<bool>, priority: Option<int>, enabled: Option<bool>)

  function Updated(r: PRoute, input: UpdateInput): PRoute {
    r.(upstreamHost := if input.upstreamHost.Some? then input.upstreamHost.value else r.upstreamHost,
       upstreamPort := if input.upstreamPort.Some? then input.upstreamPort.value else r.upstreamPort,
       scheme := if input.scheme.Some? then input.scheme.value else r.scheme,
       stripPrefix := if input.stripPrefix.Some? then input.stripPrefix.value else r.stripPrefix,
       priority := if input.priority.Some? then input.priority.value else r.priority,
       enabled := if input.enabled.Some? then input.enabled.value else r.enabled)
  }

  function CreateBody(spec: Spec, host: string, port: int): CreateInput {
    CreateInput(RouteType(spec), spec.hostname, PathPrefix(spec), host, port, Scheme(spec), spec.stripPrefix,
                Priority(spec))
  }

  /** The update that closes the gap between a route and the spec, and whether there is one. */
  function Drift(r: PRoute, spec: Spec, host: string, port: int): (UpdateInput, bool) {
    var input := UpdateInput(
      if r.upstreamHost != host then Some(host) else None,
      if r.upstreamPort != port then Some(port) else None,
      if r.scheme != Scheme(spec) then Some(Scheme(spec)) else None,
      if r.stripPrefix != spec.stripPrefix then Some(spec.stripPrefix) else None,
      if r.priority != Priority(spec) then Some(Priority(spec)) else None,
      if r.enabled != IsEnabled(spec) then Some(IsEnabled(spec)) else None);
    (input, input != UpdateInput(None, None, None, None, None, None))
  }

  /** The route the spec asks for, field by field. */
  function Desired(spec: Spec, tid: string, host: string, port: int): PRoute {
    PRoute(tid, RouteType(spec), spec.hostname, PathPrefix(spec), host, port, Scheme(spec), spec.stripPrefix,
           IsEnabled(spec), Priority(spec))
  }

  /** What the user asked for, read off the spec itself: every field that is set is taken as it is, a disabled route and
      a priority of 0 included, and every field that is not has the CRD's default. */
  predicate Asked(r: PRoute, spec: Spec, tid: string, host: string, port: int) {
    && r.tunnelID == tid && r.upstreamHost == host && r.upstreamPort == port
    && r.hostname == spec.hostname && r.stripPrefix == spec.stripPrefix
    && (spec.kind != "" ==> r.kind == spec.kind) && (spec.kind == "" ==> r.kind == "host")
    && (spec.pathPrefix != "" ==> r.pathPrefix == spec.pathPrefix) && (spec.pathPrefix == "" ==> r.pathPrefix == "/")
    && (spec.scheme != "" ==> r.scheme == spec.scheme) && (spec.scheme == "" ==> r.scheme == "http")
    && (spec.priority.Some? ==> r.priority == spec.priority.value) && (spec.priority.None? ==> r.priority == 100)
    && (spec.enabled.Some? ==> r.enabled == spec.enabled.value) && (spec.enabled.None? ==> r.enabled)
  }

  /** What a create can make of it: all of that, but enabled, and with the default priority for a priority of 0. */
  predicate CreatedAsAsked(r: PRoute, spec: Spec, tid: string, host: string, port: int) {
    && r.enabled && (spec.priority == Some(0) ==> r.priority == 100)
    && Asked(r.(enabled := if spec.enabled.Some? then spec.enabled.value else true,
                priority := if spec.priority == Some(0) then 0 else r.priority), spec, tid, host, port)
  }

  lemma StoredAsAsked(spec: Spec, tid: string, host: string, port: int)
    ensures CreatedAsAsked(Stored(tid, CreateBody(spec, host, port)), spec, tid, host, port)
  {
  }

  /** The desired route is the one and only route that was asked for. */
  lemma DesiredIsAsked(r: PRoute, spec: Spec, tid: string, host: string, port: int)
    ensures Asked(r, spec, tid, host, port) <==> r == Desired(spec, tid, host, port)
  {
  }

  /** On a route of the right identity, drift is reported exactly when the route is not the one that was asked for,
      and the update makes it so; it sends a field exactly when it changes it. */
  lemma DriftExact(r: PRoute, spec: Spec, tid: string, host: string, port: int)
    requires r.tunnelID == tid && !IdentityChanged(r, spec)
    ensures Drift(r, spec, host, port).1 <==> !Asked(r, spec, tid, host, port)
    ensures Asked(Updated(r, Drift(r, spec, host, port).0), spec, tid, host, port)
    ensures Updated(r, Drift(r, spec, host, port).0) == Desired(spec, tid, host, port)
    ensures var input := Drift(r, spec, host, port).0; var after := Updated(r, input);
            && (input.upstreamHost.Some? <==> after.upstreamHost != r.upstreamHost)
            && (input.upstreamPort.Some? <==> after.upstreamPort != r.upstreamPort)
            && (input.scheme.Some? <==> after.scheme != r.scheme)
            && (input.stripPrefix.Some? <==> after.stripPrefix != r.stripPrefix)
            && (input.priority.Some? <==> after.priority != r.priority)
            && (input.enabled.Some? <==> after.enabled != r.enabled)
  {
    DesiredIsAsked(r, spec, tid, host, port);
    DesiredIsAsked(Desired(spec, tid, host, port), spec, tid, host, port);
  }

  // ---------------------------------------------------------------- finding the route

  datatype Listed = Listed(id: string, route: PRoute)

  /** The listing of a tunnel: all its routes, once each, in whatever order. */
  predicate IsListing(listing: seq<Listed>, routes: map<string, PRoute>, tid: string) {
    && (forall i, j :: 0 <= i < j < |listing| ==> listing[i].id != listing[j].id)
    && (forall i :: 0 <= i < |listing| ==>
          listing[i].id in routes && routes[listing[i].id] == listing[i].route && listing[i].route.tunnelID == tid)
    && (forall id :: id in routes && routes[id].tunnelID == tid ==> Lists(listing, id))
  }

  predicate Lists(listing: seq<Listed>, id: string) {
    exists i :: 0 <= i < |listing| && listing[i].id == id
  }

  /** The first route of the listing with this id. */
  function ById(listing: seq<Listed>, id: string): Option<Listed> {
    if listing == [] then None
    else if listing[0].id == id then Some(listing[0])
    else ById(listing[1..], id)
  }

  /** The first route of the listing with the spec's hostname and prefix. */
  function ByKey(listing: seq<Listed>, spec: Spec): Option<Listed> {
    if listing == [] then None
    else if SameKey(listing[0].route, spec) then Some(listing[0])
    else ByKey(listing[1..], spec)
  }

  /** findRoute: the recorded id is preferred, hostname and prefix are the fallback. */
  function FindRoute(listing: seq<Listed>, routeID: string, spec: Spec): Option<Listed> {
    var byId := if routeID != "" then ById(listing, routeID) else None;
    if byId.Some? then byId else ByKey(listing, spec)
  }

  lemma {:induction false} ByIdFinds(listing: seq<Listed>, id: string)
    ensures ById(listing, id).Some? <==> Lists(listing, id)
    ensures ById(listing, id).Some? ==> ById(listing, id).value in listing && ById(listing, id).value.id == id
  {
    if listing != [] {
      ByIdFinds(listing[1..], id);
      assert forall i :: 1 <= i < |listing| ==> listing[1..][i - 1] == listing[i];
    }
  }

  lemma {:induction false} ByKeyFinds(listing: seq<Listed>, spec: Spec)
    ensures ByKey(listing, spec).None? <==> forall i :: 0 <= i < |listing| ==> !SameKey(listing[i].route, spec)
    ensures ByKey(listing, spec).Some? ==>
            ByKey(listing, spec).value in listing && SameKey(ByKey(listing, spec).value.route, spec)
  {
    if listing != [] {
      ByKeyFinds(listing[1..], spec);
      assert forall i :: 1 <= i < |listing| ==> listing[1..][i - 1] == listing[i];
    }
  }

  /** What a lookup answers, in terms of the routes themselves. */
  lemma FindRouteMeans(listing: seq<Listed>, routes: map<string, PRoute>, tid: string, routeID: string, spec: Spec)
    requires IsListing(listing, routes, tid)
    ensures var found := FindRoute(listing, routeID, spec);
            if routeID != "" && routeID in routes && routes[routeID].tunnelID == tid
            then found == Some(Listed(routeID, routes[routeID]))
            else match found
                 case None => forall id :: id in routes && routes[id].tunnelID == tid ==> !SameKey(routes[id], spec)
                 case Some(x) =>
                   x.id in routes && routes[x.id] == x.route && x.route.tunnelID == tid && SameKey(x.route, spec)
  {
    ByIdFinds(listing, routeID);
    ByKeyFinds(listing, spec);
    if FindRoute(listing, routeID, spec).None? {
      forall id | id in routes && routes[id].tunnelID == tid
        ensures !SameKey(routes[id], spec)
      {
        assert Lists(listing, id);
      }
    }
  }

  // ---------------------------------------------------------------- ensureRoute

  datatype Ensured = Ensured(routes: map<string, PRoute>, id: string, route: PRoute, writes: nat)

  /** ensureRoute with every call answered: delete what cannot be updated, create what is missing, then
      always compare and update. `newID` is what the platform mints if it has to. */
  function EnsureRoute(routes: map<string, PRoute>, listing: seq<Listed>, tid: string, routeID: string,
                       spec: Spec, host: string, port: int, newID: string): Ensured
  {
    var existing := FindRoute(listing, routeID, spec);
    var replace := existing.Some? && IdentityChanged(existing.value.route, spec);
    var kept := if replace then routes - {existing.value.id} else routes;
    var x := if existing.None? || replace then Listed(newID, Stored(tid, CreateBody(spec, host, port)))
             else existing.value;
    var created := if existing.None? || replace then kept[x.id := x.route] else kept;
    var (update, changed) := Drift(x.route, spec, host, port);
    var final := if changed then Updated(x.route, update) else x.route;
    Ensured(if changed then created[x.id := final] else created, x.id, final,
            (if replace then 1 else 0) + (if existing.None? || replace then 1 else 0) + (if changed then 1 else 0))
  }

  /** The id that ensureRoute deletes, if any. */
  function Replaced(listing: seq<Listed>, routeID: string, spec: Spec): Option<string> {
    var existing := FindRoute(listing, routeID, spec);
    if existing.Some? && IdentityChanged(existing.value.route, spec) then Some(existing.value.id) else None
  }

  /** Whatever the platform holds and whatever the spec says, the result is the route that was asked for on every
      field, every other route is untouched except the replaced one, and at most three writes are made. */
  lemma EnsureRouteRealises(routes: map<string, PRoute>, listing: seq<Listed>, tid: string, routeID: string,
                            spec: Spec, host: string, port: int, newID: string)
    requires IsListing(listing, routes, tid) && newID !in routes
    ensures var e := EnsureRoute(routes, listing, tid, routeID, spec, host, port, newID);
            && Asked(e.route, spec, tid, host, port) && e.route == Desired(spec, tid, host, port)
            && e.id in e.routes && e.routes[e.id] == e.route
            && (forall id :: id != e.id && Some(id) != Replaced(listing, routeID, spec) ==>
                  (id in routes <==> id in e.routes) && (id in routes ==> e.routes[id] == routes[id]))
            && (Replaced(listing, routeID, spec).Some? ==> Replaced(listing, routeID, spec).value !in e.routes)
            && e.writes <= 3
  {
    FindRouteMeans(listing, routes, tid, routeID, spec);
    DesiredIsAsked(Desired(spec, tid, host, port), spec, tid, host, port);
    hide Asked, Desired;
    var existing := FindRoute(listing, routeID, spec);
    if existing.Some? && !IdentityChanged(existing.value.route, spec) {
      DriftExact(existing.value.route, spec, tid, host, port);
    } else {
      DriftExact(Stored(tid, CreateBody(spec, host, port)), spec, tid, host, port);
    }
  }

  /** A second run, from any listing of the result and with the id recorded, writes nothing. */
  lemma SecondEnsureIsQuiet(routes: map<string, PRoute>, listing: seq<Listed>, tid: string, routeID: string,
                            spec: Spec, host: string, port: int, newID: string, again: seq<Listed>, newID': string)
    requires IsListing(listing, routes, tid) && newID !in routes && newID != "" && "" !in routes
    requires IsListing(again, EnsureRoute(routes, listing, tid, routeID, spec, host, port, newID).routes, tid)
    ensures var e := EnsureRoute(routes, listing, tid, routeID, spec, host, port, newID);
            EnsureRoute(e.routes, again, tid, e.id, spec, host, port, newID') == Ensured(e.routes, e.id, e.route, 0)
  {
    var e := EnsureRoute(routes, listing, tid, routeID, spec, host, port, newID);
    EnsureRouteRealises(routes, listing, tid, routeID, spec, host, port, newID);
    FindRouteMeans(listing, routes, tid, routeID, spec);
    FindRouteMeans(again, e.routes, tid, e.id, spec);
    DriftExact(e.route, spec, tid, host, port);
  }
}
