/** The address annotations as a channel: what the routing controller publishes in them and what the authorization
    controller reads back. */
module HostChannel {
  import opened Text
  import opened Api
  import opened Metadata
  import opened RouteTypes
  import opened Ownership
  import opened Exporting
  import opened RoutingController
  import opened Convergence
  import opened Hosts

  /* ---------- what is published ---------- */

  lemma {:induction false} ExternalHostsListed(ingress: IngressConfig, domain: string, svc: Service, ports: seq<Port>)
    ensures var hosts := ExternalHostsOf(ingress, domain, svc, ports);
      && |hosts| == |ports|
      && forall i :: 0 <= i < |ports| ==>
           hosts[i] == svc.name + "-" + ports[i].name + "-" + svc.namespace + "." + domain
    decreases |ports|
  {
    if ports != [] { ExternalHostsListed(ingress, domain, svc, ports[..|ports| - 1]); }
  }

  lemma {:induction false} PublicHostsListed(ingress: IngressConfig, domain: string, svc: Service, ports: seq<Port>)
    ensures var hosts := PublicHostsOf(ingress, domain, svc, ports);
      && |hosts| == 3 * |ports|
      && forall i :: 0 <= i < |ports| ==>
           var base := svc.name + "-" + ports[i].name + "-" + svc.namespace + "." + ingress.gatewayNamespace;
           && hosts[3 * i] == base
           && hosts[3 * i + 1] == base + ".svc"
           && hosts[3 * i + 2] == base + ".svc.cluster.local"
    decreases |ports|
  {
    if ports != [] {
      var n := |ports| - 1;
      PublicHostsListed(ingress, domain, svc, ports[..n]);
      var hosts := PublicHostsOf(ingress, domain, svc, ports);
      assert forall i :: 0 <= i < n ==> ports[..n][i] == ports[i];
    }
  }

  function LastService(found: Discovery): Service
    requires found.Found()
  {
    found.services.value[|found.services.value| - 1]
  }

  /** The hosts a complete reconcile publishes. */
  function ExternalsOf(ingress: IngressConfig, found: Discovery, modes: set<RouteType>): seq<string>
    requires modes == {} || found.Found()
  {
    if EXTERNAL_ROUTE in modes then ExternalHostsOf(ingress, found.domain.value, LastService(found),
        LastService(found).ports) else []
  }

  function PublicsOf(ingress: IngressConfig, found: Discovery, modes: set<RouteType>): seq<string>
    requires modes == {} || found.Found()
  {
    if PUBLIC_ROUTE in modes then PublicHostsOf(ingress, found.domain.value, LastService(found),
        LastService(found).ports) else []
  }

  /** An address annotation is there exactly when its mode is enabled and the last listed service has ports; then it
      holds the hosts of that service alone, port by port. No other annotation changes. */
  lemma PublishedAddresses(a: map<string, string>, ingress: IngressConfig, found: Discovery, modes: set<RouteType>)
    requires modes == {} || found.Found()
    ensures var b, external, public := Published(a, ingress, found, modes),
                                     "routing.opendatahub.io/external-addresses",
                                     "routing.opendatahub.io/public-addresses";
      && (external in b <==> ExternalsOf(ingress, found, modes) != [])
      && (public in b <==> PublicsOf(ingress, found, modes) != [])
      && (external in b ==> b[external] == Join(ExternalsOf(ingress, found, modes), ";"))
      && (public in b ==> b[public] == Join(PublicsOf(ingress, found, modes), ";"))
      && (forall k | k != external && k != public :: Lookup(b, k) == Lookup(a, k))
    ensures modes != {} ==> var ports := LastService(found).ports;
      && (ExternalsOf(ingress, found, modes) != [] <==> "external" in modes && ports != [])
      && (PublicsOf(ingress, found, modes) != [] <==> "public" in modes && ports != [])
  {
    assert EXTERNAL_ADDRESSES[23] == 'e' && PUBLIC_ADDRESSES[23] == 'p';
    if modes != {} {
      var svc := LastService(found);
      ExternalHostsListed(ingress, found.domain.value, svc, svc.ports);
      PublicHostsListed(ingress, found.domain.value, svc, svc.ports);
    }
    hide ExternalHostsOf, PublicHostsOf, Join;
  }

  /* ---------- what is read back ---------- */

  /** A list of hosts survives the channel exactly when no host contains the separator. */
  lemma ChannelKeeps(hosts: seq<string>)
    requires hosts != []
    ensures Split(Join(hosts, ";"), ";") == hosts <==> forall h | h in hosts :: ';' !in h
  {
    SplitJoin(hosts, ";");
    assert [';'] == ";";
    forall i | 0 <= i < |hosts|
      ensures Separable(hosts[i], ";") <==> ';' !in hosts[i]
      ensures Contains(hosts[i], ";") <==> ';' in hosts[i]
    {
      SeparableByChar(hosts[i], ';');
    }
    hide Separable, Contains, Split, Join;
  }

  predicate IsPublicHostOf(svc: Service, p: Port, ingress: IngressConfig, h: string) {
    var base := svc.name + "-" + p.name + "-" + svc.namespace + "." + ingress.gatewayNamespace;
    h == base || h == base + ".svc" || h == base + ".svc.cluster.local"
  }

  /** Some port of the service is published under this host. */
  predicate IsHostOf(ingress: IngressConfig, domain: string, svc: Service, modes: set<RouteType>, h: string) {
    exists p | p in svc.ports ::
      || ("external" in modes && h == svc.name + "-" + p.name + "-" + svc.namespace + "." + domain)
      || ("public" in modes && IsPublicHostOf(svc, p, ingress, h))
  }

  predicate PlainText(s: string) {
    ';' !in s && '/' !in s
  }

  /** Names, domain and gateway namespace have neither ";" nor "/" in them, as no Kubernetes name has. */
  predicate PlainNames(ingress: IngressConfig, domain: string, svc: Service) {
    && PlainText(svc.name) && PlainText(svc.namespace) && PlainText(domain) && PlainText(ingress.gatewayNamespace)
    && forall p | p in svc.ports :: PlainText(p.name)
  }

  lemma PlainHost(ingress: IngressConfig, domain: string, svc: Service, p: Port)
    requires PlainNames(ingress, domain, svc) && p in svc.ports
    ensures PlainText(svc.name + "-" + p.name + "-" + svc.namespace + "." + domain)
    ensures forall h | IsPublicHostOf(svc, p, ingress, h) :: PlainText(h)
  {
    assert PlainText("-") && PlainText(".") && PlainText(".svc") && PlainText(".svc.cluster.local");
    assert PlainText(svc.name + "-" + p.name + "-" + svc.namespace);
  }

  lemma NotUrl(h: string)
    requires '/' !in h
    ensures !IsUrl(h)
  {
    assert "http://"[5] == '/' && "https://"[6] == '/';
  }

  /** The hosts read from one annotation. */
  function PartsAt(annotations: map<string, string>, key: string): seq<string> {
    if key in annotations then Split(annotations[key], ";") else []
  }

  /** The members of one published list, read back. */
  lemma ReadBack(hosts: seq<string>, key: string, annotations: map<string, string>)
    requires forall h | h in hosts :: PlainText(h)
    requires key in annotations <==> hosts != []
    requires key in annotations ==> annotations[key] == Join(hosts, ";")
    ensures PartsAt(annotations, key) == hosts
  {
    if hosts != [] { ChannelKeeps(hosts); }
  }

  lemma ExternalMembers(ingress: IngressConfig, domain: string, svc: Service, h: string)
    ensures h in ExternalHostsOf(ingress, domain, svc, svc.ports) <==>
      exists p | p in svc.ports :: h == svc.name + "-" + p.name + "-" + svc.namespace + "." + domain
  {
    ExternalHostsListed(ingress, domain, svc, svc.ports);
    var hosts := ExternalHostsOf(ingress, domain, svc, svc.ports);
    hide ExternalHostsOf;
    if p :| p in svc.ports && h == svc.name + "-" + p.name + "-" + svc.namespace + "." + domain {
      var i :| 0 <= i < |svc.ports| && svc.ports[i] == p;
      assert hosts[i] == h;
    }
  }

  lemma PublicMembers(ingress: IngressConfig, domain: string, svc: Service, h: string)
    ensures h in PublicHostsOf(ingress, domain, svc, svc.ports) <==>
      exists p | p in svc.ports :: IsPublicHostOf(svc, p, ingress, h)
  {
    PublicHostsListed(ingress, domain, svc, svc.ports);
    var hosts := PublicHostsOf(ingress, domain, svc, svc.ports);
    hide PublicHostsOf;
    if p :| p in svc.ports && IsPublicHostOf(svc, p, ingress, h) {
      var i :| 0 <= i < |svc.ports| && svc.ports[i] == p;
      assert h in [hosts[3 * i], hosts[3 * i + 1], hosts[3 * i + 2]];
    }
    if h in hosts {
      var n :| 0 <= n < |hosts| && hosts[n] == h;
      var i := n / 3;
      assert n == 3 * i || n == 3 * i + 1 || n == 3 * i + 2;
      assert IsPublicHostOf(svc, svc.ports[i], ingress, h);
    }
  }

  lemma PublishedAreNormal(hosts: seq<string>)
    requires forall h | h in hosts :: PlainText(h)
    ensures AllNormalised(hosts) == hosts
  {
    forall i | 0 <= i < |hosts| ensures Normalised(hosts[i]) == hosts[i] {
      assert hosts[i] in hosts;
      NotUrl(hosts[i]);
    }
  }

  lemma PublishedArePlain(ingress: IngressConfig, found: Discovery, modes: set<RouteType>)
    requires modes == {} || (found.Found() && PlainNames(ingress, found.domain.value, LastService(found)))
    ensures forall h | h in ExternalsOf(ingress, found, modes) :: PlainText(h)
    ensures forall h | h in PublicsOf(ingress, found, modes) :: PlainText(h)
  {
    if modes != {} {
      var svc, domain := LastService(found), found.domain.value;
      forall p | p in svc.ports
        ensures PlainText(svc.name + "-" + p.name + "-" + svc.namespace + "." + domain)
        ensures forall h | IsPublicHostOf(svc, p, ingress, h) :: PlainText(h)
      {
        PlainHost(ingress, domain, svc, p);
      }
      hide PlainText, ExternalHostsOf, PublicHostsOf, IsPublicHostOf;
      forall h | h in ExternalsOf(ingress, found, modes)
        ensures PlainText(h) { ExternalMembers(ingress, domain, svc, h); }
      forall h | h in PublicsOf(ingress, found, modes) ensures PlainText(h) { PublicMembers(ingress, domain, svc, h); }
    }
  }

  lemma TwoKeys(annotations: map<string, string>, k: string, l: string)
    ensures AnnotationHosts(annotations, ";", [k, l]) == PartsAt(annotations, k) + PartsAt(annotations, l)
  {
    assert [k, l][..1] == [k] && [k][..0] == [];
    hide Split;
    assert AnnotationHosts(annotations, ";", []) == [];
    assert AnnotationHosts(annotations, ";", [k]) == [] + PartsAt(annotations, k);
  }

  lemma TwoExtractors(o: Obj, d: Extractor, e: Extractor)
    requires ValidExtractor(d) && ValidExtractor(e)
    ensures Combined(o, [d, e]) == AllNormalised(Extracted(o, d)) + AllNormalised(Extracted(o, e))
  {
    assert [d, e][..1] == [d] && [d][..0] == [];
    hide Extracted, AllNormalised;
    assert Combined(o, []) == [];
    assert Combined(o, [d]) == [] + AllNormalised(Extracted(o, d));
  }

  lemma WiredHosts(o: Obj, paths: seq<string>)
    ensures Combined(o, HostExtractors(paths)) == AllNormalised(Extracted(o, FromPaths(paths)))
      + AllNormalised(PartsAt(o.annotations, EXTERNAL_ADDRESSES) + PartsAt(o.annotations, PUBLIC_ADDRESSES))
  {
    hide Combined, AnnotationHosts, AllNormalised, PartsAt, PathHosts, AllFound;
    TwoExtractors(o, FromPaths(paths), FromAnnotations(";", [EXTERNAL_ADDRESSES, PUBLIC_ADDRESSES]));
    TwoKeys(o.annotations, EXTERNAL_ADDRESSES, PUBLIC_ADDRESSES);
  }

  /** Round trip: from annotations a complete routing reconcile published, the authorization controller computes, as a
      set, the hosts found at paths and every published host of the last listed service, and nothing else. */
  lemma RoundTrip(o: Obj, paths: seq<string>, a: map<string, string>, ingress: IngressConfig, found: Discovery,
                  modes: set<RouteType>, h: string)
    requires o.annotations == Published(a, ingress, found, modes)
    requires modes == {} || (found.Found() && PlainNames(ingress, found.domain.value, LastService(found)))
    ensures h in Combined(o, HostExtractors(paths)) <==>
      || FoundAtPaths(o, paths, h)
      || (modes != {} && IsHostOf(ingress, found.domain.value, LastService(found), modes, h))
  {
    var externals, publics := ExternalsOf(ingress, found, modes), PublicsOf(ingress, found, modes);
    PublishedAddresses(a, ingress, found, modes);
    PublishedArePlain(ingress, found, modes);
    ReadBack(externals, EXTERNAL_ADDRESSES, o.annotations);
    ReadBack(publics, PUBLIC_ADDRESSES, o.annotations);
    WiredHosts(o, paths);
    PathsFound(o, paths, h);
    PublishedAreNormal(externals + publics);
    if modes != {} {
      ExternalMembers(ingress, found.domain.value, LastService(found), h);
      PublicMembers(ingress, found.domain.value, LastService(found), h);
    }
    hide Combined, Extracted, ExternalHostsOf, PublicHostsOf, Split, Join, PartsAt, Published, PlainNames, PlainText,
         AllNormalised, FoundAtPaths, IsHostOf;
  }

  /** Both controllers together: after a fault-free routing reconcile of a live custom resource, the hosts computed
      from the stored object are those at its paths and those of the exported service. */
  lemma RoutingToAuthorization(rule: Combining, c: Cluster, target: Resource, ingress: IngressConfig, found: Discovery,
                               plan: seq<Resource>, paths: seq<string>, svc: Service, h: string)
    requires LiveWith(c, target, ingress, found, plan) && found.Found() && found.services.value == [svc]
    requires PlainNames(ingress, found.domain.value, svc)
    ensures var o := At(LiveRun(rule, c, target, ingress, found, plan), target.key);
      o.Some? && (h in Combined(o.value, HostExtractors(paths)) <==>
        || FoundAtPaths(target.obj, paths, h)
        || IsHostOf(ingress, found.domain.value, svc, Enabled(target.obj.annotations), h))
  {
    hide LiveRun, Combined, AllNormalised, HostExtractors, PlainNames, Published, Wanted, Unwanted, PlanFor, Agreed,
         WellFormed, Provided, WithGuard;
    Reconciled(rule, c, target, ingress, found, plan);
    var o := PublishedObj(GuardedTarget(target), ingress, found);
    RoundTrip(o, paths, target.obj.annotations, ingress, found, Enabled(target.obj.annotations), h);
  }
}
