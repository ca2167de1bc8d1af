/** resolveUpstream and servicePort: turning the spec into the address the agent will connect to. */
module Upstream {
  import opened Base
  import opened RouteSpec
  import opened Strings

  datatype ServicePort = ServicePort(name: string, port: int)
  datatype Service = Service(name: string, namespace: string, ports: seq<ServicePort>)
  datatype Address = Address(host: string, port: int)

  predicate Matches(p: ServicePort, want: IntOrString) {
    match want
    case Name(s) => p.name == s
    case Number(n) => p.port == n
  }

  /** The port of the first declaration that matches. */
  function PortOf(ports: seq<ServicePort>, want: IntOrString): Option<int> {
    if ports == [] then None
    else if Matches(ports[0], want) then Some(ports[0].port)
    else PortOf(ports[1..], want)
  }

  /** The search loop: it answers a port the Service declared, the first one that matches, and refuses
      exactly when none does. */
  method FindPort(svc: Service, want: IntOrString) returns (port: Option<int>)
    ensures port == PortOf(svc.ports, want)
    ensures port.None? <==> forall p :: p in svc.ports ==> want != Name(p.name) && want != Number(p.port)
    ensures port.Some? ==>
            exists p :: p in svc.ports && (want == Name(p.name) || want == Number(p.port)) && p.port == port.value
  {
    for i := 0 to |svc.ports|
      invariant forall j :: 0 <= j < i ==> !Matches(svc.ports[j], want)
      invariant PortOf(svc.ports, want) == PortOf(svc.ports[i..], want)
    {
      var p := svc.ports[i];
      if Matches(p, want) {
        return Some(p.port);
      }
      assert svc.ports[i..][1..] == svc.ports[i + 1..];
    }
    return None;
  }

  function HostName(name: string, namespace: string, domain: string): string {
    name + "." + namespace + ".svc." + domain
  }

  /** The service named in the spec, read from the route's own namespace; None when there is none. */
  function Resolve(spec: Spec, service: Option<Service>, domain: string): Option<Address> {
    match spec.upstream
    case Some(u) => Some(Address(u.host, u.port))
    case None =>
      if spec.service.None? || service.None? then None
      else match PortOf(service.value.ports, spec.service.value.port)
        case None => None
        case Some(port) => Some(Address(HostName(service.value.name, service.value.namespace, domain), port))
  }

  predicate DotFree(s: string) {
    '.' !in s
  }

  /** Names and namespaces are labels without dots (section 2.3.1 of RFC 1035), so a published host
      determines the Service and its namespace. */
  lemma HostDeterminesService(name: string, ns: string, name': string, ns': string, domain: string)
    requires DotFree(name) && DotFree(ns) && DotFree(name') && DotFree(ns')
    requires HostName(name, ns, domain) == HostName(name', ns', domain)
    ensures name == name' && ns == ns'
  {
    assert HostName(name, ns, domain) == name + "." + (ns + "." + ("svc." + domain));
    assert HostName(name', ns', domain) == name' + "." + (ns' + "." + ("svc." + domain));
    FirstSplits('.', name, ns + "." + ("svc." + domain), name', ns' + "." + ("svc." + domain));
    FirstSplits('.', ns, "svc." + domain, ns', "svc." + domain);
  }

  /** A Service-backed route that resolves carries a port its Service declares, and the host of that
      Service and no other; it fails to resolve exactly when there is no such Service or port. */
  lemma ServiceRouteExact(spec: Spec, service: Option<Service>, domain: string)
    requires spec.upstream.None? && spec.service.Some?
    ensures Resolve(spec, service, domain).None? <==>
            service.None? || forall p :: p in service.value.ports ==>
              spec.service.value.port != Name(p.name) && spec.service.value.port != Number(p.port)
    ensures Resolve(spec, service, domain).Some? ==>
            var a := Resolve(spec, service, domain).value;
            && (exists p :: p in service.value.ports && p.port == a.port
                  && (spec.service.value.port == Name(p.name) || spec.service.value.port == Number(p.port)))
            && a.host == HostName(service.value.name, service.value.namespace, domain)
            && a.host == service.value.name + "." + service.value.namespace + ".svc." + domain
            && forall name, ns :: DotFree(name) && DotFree(ns) && DotFree(service.value.name)
                                  && DotFree(service.value.namespace) && HostName(name, ns, domain) == a.host
                                  ==> name == service.value.name && ns == service.value.namespace
  {
    if service.Some? {
      PortOfMeans(service.value.ports, spec.service.value.port);
      forall name, ns | DotFree(name) && DotFree(ns) && DotFree(service.value.name)
                        && DotFree(service.value.namespace)
                        && HostName(name, ns, domain)
                           == HostName(service.value.name, service.value.namespace, domain)
        ensures name == service.value.name && ns == service.value.namespace
      {
        HostDeterminesService(name, ns, service.value.name, service.value.namespace, domain);
      }
    }
  }

  lemma {:induction false} PortOfMeans(ports: seq<ServicePort>, want: IntOrString)
    ensures PortOf(ports, want).None? <==> forall p :: p in ports ==> !Matches(p, want)
    ensures PortOf(ports, want).Some? ==>
            exists p :: p in ports && Matches(p, want) && p.port == PortOf(ports, want).value
  {
    if ports != [] {
      PortOfMeans(ports[1..], want);
      assert ports[0] in ports;
      assert forall p :: p in ports <==> p == ports[0] || p in ports[1..];
    }
  }
}
