/** Route types, and the names and hosts an exported service port gets (pkg/routing/types.go). */
module RouteTypes {
  import opened Text
  import opened Api
  import opened Metadata

  type RouteType = string

  const PUBLIC_ROUTE: RouteType := "public"
  const EXTERNAL_ROUTE: RouteType := "external"

  function AllRouteTypes(): seq<RouteType> {
    [PUBLIC_ROUTE, EXTERNAL_ROUTE]
  }

  ghost predicate NoDuplicates<T>(s: seq<T>) {
    forall i, j :: 0 <= i < j < |s| ==> s[i] != s[j]
  }

  /** The mode named by an export-mode annotation key, and whether there is such a mode. */
  method IsValidRouteType(annotationKey: string) returns (routeType: RouteType, valid: bool)
    ensures valid <==> exists m :: m in AllRouteTypes() && annotationKey == EXPORT_MODE_PREFIX + m
    ensures HasPrefix(annotationKey, EXPORT_MODE_PREFIX) ==> annotationKey == EXPORT_MODE_PREFIX + routeType
    ensures !HasPrefix(annotationKey, EXPORT_MODE_PREFIX) ==> routeType == ""
  {
    if !HasPrefix(annotationKey, EXPORT_MODE_PREFIX) {
      return "", false;
    }
    routeType := annotationKey[|EXPORT_MODE_PREFIX|..];
    forall m | annotationKey == EXPORT_MODE_PREFIX + m ensures m == routeType {
      assert (EXPORT_MODE_PREFIX + m)[|EXPORT_MODE_PREFIX|..] == m;
    }
    for i := 0 to |AllRouteTypes()|
      invariant routeType !in AllRouteTypes()[..i]
    {
      if routeType == AllRouteTypes()[i] {
        assert annotationKey == EXPORT_MODE_PREFIX + routeType && routeType in AllRouteTypes();
        return routeType, true;
      }
    }
    return routeType, false;
  }

  /** The route types not among `exportModes`, in the order of AllRouteTypes. */
  method UnusedRouteTypes(exportModes: seq<RouteType>) returns (unused: seq<RouteType>)
    ensures NoDuplicates(unused)
    ensures forall t :: t in unused <==> t in AllRouteTypes() && t !in exportModes
  {
    var used: map<RouteType, bool> := map[];
    for i := 0 to |exportModes|
      invariant forall t :: t in used <==> t in exportModes[..i]
    {
      used := used[exportModes[i] := true];
    }
    unused := [];
    for i := 0 to |AllRouteTypes()|
      invariant NoDuplicates(unused)
      invariant forall t :: t in unused <==> t in AllRouteTypes()[..i] && t !in exportModes
    {
      assert AllRouteTypes()[i] !in AllRouteTypes()[..i];
      if AllRouteTypes()[i] !in used {
        unused := unused + [AllRouteTypes()[i]];
      }
    }
  }

  /** The modes switched on by a set of annotations. */
  function Enabled(annotations: map<string, string>): set<RouteType> {
    set m | m in AllRouteTypes() && EXPORT_MODE_PREFIX + m in annotations
        && annotations[EXPORT_MODE_PREFIX + m] == "true"
  }

  /** A mode is on exactly when its annotation says "true"; there are no others. */
  lemma EnabledModes(annotations: map<string, string>, m: RouteType)
    ensures m in Enabled(annotations) <==>
      || (m == "public" && Lookup(annotations, "routing.opendatahub.io/export-mode-public") == Some("true"))
      || (m == "external" && Lookup(annotations, "routing.opendatahub.io/export-mode-external") == Some("true"))
  {
    assert EXPORT_MODE_PREFIX + "public" == "routing.opendatahub.io/export-mode-public";
    assert EXPORT_MODE_PREFIX + "external" == "routing.opendatahub.io/export-mode-external";
  }

  /** The address annotations are not export-mode annotations: writing them leaves the modes as they are. */
  lemma AddressesKeepModes(a: map<string, string>, b: map<string, string>)
    requires forall k | k !in {PUBLIC_ADDRESSES, EXTERNAL_ADDRESSES} :: Lookup(a, k) == Lookup(b, k)
    ensures Enabled(a) == Enabled(b)
  {
    forall m | m in AllRouteTypes() ensures Lookup(a, EXPORT_MODE_PREFIX + m) == Lookup(b, EXPORT_MODE_PREFIX + m) {
      var key := EXPORT_MODE_PREFIX + m;
      assert key[23] == 'e' && key[25] == 'p';
      assert PUBLIC_ADDRESSES[23] == 'p' && EXTERNAL_ADDRESSES[25] == 't';
    }
  }

  /* ---------- exported services ---------- */

  datatype Port = Port(name: string, targetPort: string)

  datatype Service = Service(name: string, namespace: string, ports: seq<Port>)

  datatype IngressConfig = IngressConfig(selectorLabel: string, selectorValue: string, service: string,
      gatewayNamespace: string)

  datatype ExposedService = ExposedService(
    ingress: IngressConfig,
    publicServiceName: string,
    serviceName: string,
    serviceNamespace: string,
    serviceTargetPort: string,
    domain: string)
  {
    function ExternalHost(): string {
      publicServiceName + "." + domain
    }

    function PublicHosts(): seq<string> {
      var base := publicServiceName + "." + ingress.gatewayNamespace;
      [base, base + ".svc", base + ".svc.cluster.local"]
    }
  }

  function PublicName(service: string, port: string, namespace: string): string {
    service + "-" + port + "-" + namespace
  }

  function NewExposedService(svc: Service, port: Port, ingress: IngressConfig, domain: string): ExposedService {
    ExposedService(ingress, PublicName(svc.name, port.name, svc.namespace), svc.name, svc.namespace, port.targetPort,
        domain)
  }

  /** Two ports of one service never get the same public name. */
  lemma PublicNameInjective(service: string, namespace: string, p: string, q: string)
    requires PublicName(service, p, namespace) == PublicName(service, q, namespace)
    ensures p == q
  {
    var s, t := PublicName(service, p, namespace), PublicName(service, q, namespace);
    assert |s| == |service| + |p| + |namespace| + 2 && |t| == |service| + |q| + |namespace| + 2;
    assert s[|service| + 1..|service| + 1 + |p|] == p;
    assert t[|service| + 1..|service| + 1 + |q|] == q;
  }

  /** Port `p` with "-ingress" appended takes the public name of some other port exactly when "-namespace" is
      its own tail once "-ingress" is appended, whatever the service and `p` are. */
  lemma IngressNameCollision(service: string, namespace: string, p: string)
    ensures (exists q :: PublicName(service, p, namespace) + "-ingress" == PublicName(service, q, namespace))
       <==> HasSuffix("-" + namespace + "-ingress", "-" + namespace)
  {
    var tail := "-" + namespace;
    var name := PublicName(service, p, namespace) + "-ingress";
    assert name == service + "-" + p + (tail + "-ingress");
    var cut := |name| - |tail|;
    assert name[cut..] == (tail + "-ingress")[8..];
    if q :| name == PublicName(service, q, namespace) {
      assert PublicName(service, q, namespace) == service + "-" + q + tail;
      assert (service + "-" + q + tail)[|service| + 1 + |q|..] == tail;
      assert name[cut..] == tail;
    }
    if HasSuffix(tail + "-ingress", tail) {
      var q := name[|service| + 1..cut];
      assert name == service + "-" + q + tail;
      assert PublicName(service, q, namespace) == service + "-" + q + tail;
    }
  }

  /** So a collision needs a namespace that is "ingress" or ends in "-ingress". */
  lemma IngressTail(namespace: string)
    requires HasSuffix("-" + namespace + "-ingress", "-" + namespace)
    ensures namespace == "ingress" || HasSuffix(namespace, "-ingress")
  {
    var tail := "-" + namespace;
    var long := tail + "-ingress";
    assert long[|tail|..] == "-ingress";
    assert forall i :: 0 <= i < |tail| ==> long[i + 8] == tail[i];
    assert long[8] == '-';
    if |tail| >= 8 {
      assert tail[|tail| - 8..] == long[|tail|..];
      assert namespace == tail[1..];
    }
  }
}
