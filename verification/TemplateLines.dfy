/** What the routing resources of a service port say: their names, kinds, labels and the lines of their text that make
    traffic arrive where it should (pkg/routing/template). */
module TemplateLines {
  import opened Text
  import opened Api
  import opened Metadata
  import opened RouteTypes
  import opened Templates
  import opened Ownership
  import opened Exporting
  import opened DistinctKeys

  /** Every kind deletion looks for in a mode is the kind of exactly one document of that mode. */
  lemma EveryKindHasItsDocument(mode: RouteType, g: Gvk) returns (i: nat)
    requires mode in AllRouteTypes() && g in GvksOf(mode)
    ensures i < |Documents(mode)| && Documents(mode)[i].gvk == g
    ensures forall j :: 0 <= j < |Documents(mode)| && Documents(mode)[j].gvk == g ==> j == i
  {
    i := DocumentOfKind(mode, g);
    forall j | 0 <= j < |Documents(mode)| && Documents(mode)[j].gvk == g ensures j == i {
      KindsDiffer(mode, i, j);
    }
  }

  lemma DocumentOfKind(mode: RouteType, g: Gvk) returns (i: nat)
    requires mode in AllRouteTypes() && g in GvksOf(mode)
    ensures i < |Documents(mode)| && Documents(mode)[i].gvk == g
  {
    if mode == EXTERNAL_ROUTE {
      i := if g == ROUTE then 0 else 1;
      assert "external"[0] == 'e' && "public"[0] == 'p';
    } else {
      i := if g == SERVICE then 0 else if g == GATEWAY then 1 else if g == VIRTUAL_SERVICE then 2 else 3;
    }
  }

  /* ---------- text within text ---------- */

  ghost predicate Within(s: string, part: string) {
    exists a, b :: s == a + part + b
  }

  lemma WithinMore(a: string, s: string, b: string, part: string)
    requires Within(s, part)
    ensures Within(a + s + b, part) && Within(a + (s + b), part)
  {
    var x, y :| s == x + part + y;
    assert a + s + b == (a + x) + part + (y + b) && a + (s + b) == a + s + b;
  }

  /** What some sections of a text say, the text says. */
  lemma SectionsWithin(body: seq<seq<Piece>>, i: nat, n: nat, d: ExposedService, part: string)
    requires i + n <= |body| && Within(RenderSections(body[i..i + n], d), part)
    ensures Within(RenderSections(body, d), part)
  {
    hide Within, RenderSections;
    assert body == body[..i] + body[i..] && body[i..] == body[i..i + n] + body[i + n..];
    RenderConcat(body[..i], body[i..], d);
    RenderConcat(body[i..i + n], body[i + n..], d);
    var a, s, b := RenderSections(body[..i], d), RenderSections(body[i..i + n], d), RenderSections(body[i + n..], d);
    WithinMore(a, s, b, part);
  }

  lemma SectionWithin(doc: Document, i: nat, d: ExposedService, part: string)
    requires i < |doc.body| && Within(Render(doc.body[i], d), part)
    ensures Within(TextOf(doc, d), part)
  {
    assert doc.body[i..i + 1] == [doc.body[i]];
    assert RenderSections([doc.body[i]], d) == Render(doc.body[i], d) + "";
    assert Render(doc.body[i], d) + "" == Render(doc.body[i], d);
    SectionsWithin(doc.body, i, 1, d, part);
  }

  lemma WholeWithin(s: string)
    ensures Within(s, s)
  {
    assert s == "" + s + "";
  }

  lemma {:induction false} RenderAppend(a: seq<Piece>, b: seq<Piece>, d: ExposedService)
    ensures Render(a + b, d) == Render(a, d) + Render(b, d)
    decreases |a|
  {
    if a == [] {
      assert a + b == b;
    } else {
      assert (a + b)[1..] == a[1..] + b;
      RenderAppend(a[1..], b, d);
    }
  }

  lemma RenderTwo(p: Piece, q: Piece, d: ExposedService)
    ensures Render([p], d) == RenderPiece(p, d)
    ensures Render([p, q], d) == RenderPiece(p, d) + RenderPiece(q, d)
  {
    RenderOne(q, [], d);
    RenderOne(p, [], d);
    RenderOne(p, [q], d);
    assert [p] + [q] == [p, q] && [q] + [] == [q] && [p] + [] == [p];
  }

  /** Some pieces in a row within a section. */
  lemma LineIn(doc: Document, s: nat, i: nat, ps: seq<Piece>, d: ExposedService)
    requires s < |doc.body| && i + |ps| <= |doc.body[s]| && doc.body[s][i..i + |ps|] == ps
    ensures Within(TextOf(doc, d), Render(ps, d))
  {
    RowIn(doc.body[s], i, ps, d);
    SectionWithin(doc, s, d, Render(ps, d));
  }

  lemma RowIn(section: seq<Piece>, i: nat, ps: seq<Piece>, d: ExposedService)
    requires i + |ps| <= |section| && section[i..i + |ps|] == ps
    ensures Within(Render(section, d), Render(ps, d))
  {
    hide Within, Render;
    var a, b := section[..i], section[i + |ps|..];
    assert section == a + (ps + b);
    RenderAppend(a, ps + b, d);
    RenderAppend(ps, b, d);
    WholeWithin(Render(ps, d));
    WithinMore(Render(a, d), Render(ps, d), Render(b, d), Render(ps, d));
  }

  lemma RenderThree(p: Piece, q: Piece, r: Piece, d: ExposedService)
    ensures Render([p, q, r], d) == RenderPiece(p, d) + RenderPiece(q, d) + RenderPiece(r, d)
  {
    RenderTwo(q, r, d);
    RenderOne(p, [q, r], d);
    assert [p] + [q, r] == [p, q, r];
  }

  lemma RenderFour(p: Piece, q: Piece, r: Piece, s: Piece, d: ExposedService)
    ensures Render([p, q, r, s], d) == RenderPiece(p, d) + RenderPiece(q, d) + RenderPiece(r, d) + RenderPiece(s, d)
  {
    RenderThree(q, r, s, d);
    RenderOne(p, [q, r, s], d);
    assert [p] + [q, r, s] == [p, q, r, s];
  }

  /** The end of a section and the beginning of the next one. */
  lemma LineAcross(doc: Document, s: nat, ps: seq<Piece>, qs: seq<Piece>, d: ExposedService)
    requires s + 1 < |doc.body| && |ps| <= |doc.body[s]| && |qs| <= |doc.body[s + 1]|
    requires doc.body[s][|doc.body[s]| - |ps|..] == ps && doc.body[s + 1][..|qs|] == qs
    ensures Within(TextOf(doc, d), Render(ps, d) + Render(qs, d))
  {
    var first, next := doc.body[s], doc.body[s + 1];
    assert doc.body[s..s + 2] == [first, next];
    var a := EndOf(first, ps, d);
    var b := StartOf(next, qs, d);
    TwoSections(first, next, d);
    hide Render, RenderSections, Within;
    Middle(a, Render(ps, d), Render(qs, d), b);
    SectionsWithin(doc.body, s, 2, d, Render(ps, d) + Render(qs, d));
  }

  lemma EndOf(section: seq<Piece>, ps: seq<Piece>, d: ExposedService) returns (a: string)
    requires |ps| <= |section| && section[|section| - |ps|..] == ps
    ensures Render(section, d) == a + Render(ps, d)
  {
    var before := section[..|section| - |ps|];
    assert section == before + ps;
    RenderAppend(before, ps, d);
    a := Render(before, d);
  }

  lemma StartOf(section: seq<Piece>, qs: seq<Piece>, d: ExposedService) returns (b: string)
    requires |qs| <= |section| && section[..|qs|] == qs
    ensures Render(section, d) == Render(qs, d) + b
  {
    var after := section[|qs|..];
    assert section == qs + after;
    RenderAppend(qs, after, d);
    b := Render(after, d);
  }

  lemma TwoSections(first: seq<Piece>, next: seq<Piece>, d: ExposedService)
    ensures RenderSections([first, next], d) == Render(first, d) + Render(next, d)
  {
    assert [first, next][1..] == [next] && [next][1..] == [];
    assert RenderSections([next], d) == Render(next, d) + "";
    assert Render(next, d) + "" == Render(next, d);
  }

  lemma Middle(a: string, b: string, c: string, d: string)
    ensures Within((a + b) + (c + d), b + c)
  {
    assert (a + b) + (c + d) == a + (b + c) + d;
  }

  /* ---------- the lines that matter ---------- */

  /** Name and namespace, as far as they are the same in all documents. */
  lemma MetadataLines(doc: Document, s: nat, d: ExposedService)
    requires s + 1 < |doc.body| && |doc.body[s]| >= 2 && |doc.body[s + 1]| >= 2
    requires doc.body[s][..2] == NAMED && doc.body[s + 1][..2] == IN_GATEWAY_NAMESPACE
    ensures Within(TextOf(doc, d), "\nmetadata:\n  name: " + d.publicServiceName)
    ensures Within(TextOf(doc, d), "\n  namespace: " + d.ingress.gatewayNamespace)
  {
    LineIn(doc, s, 0, NAMED, d);
    RenderTwo(NAMED[0], NAMED[1], d);
    LineIn(doc, s + 1, 0, IN_GATEWAY_NAMESPACE, d);
    RenderTwo(IN_GATEWAY_NAMESPACE[0], IN_GATEWAY_NAMESPACE[1], d);
  }

  lemma SuffixLine(doc: Document, s: nat, suffix: Plain, d: ExposedService)
    requires s < |doc.body| && |doc.body[s]| >= 4 && doc.body[s][..4] == NAMED + [Dash, Words(suffix)]
    ensures Within(TextOf(doc, d), "\nmetadata:\n  name: " + d.publicServiceName + "-" + suffix)
  {
    var ps := NAMED + [Dash, Words(suffix)];
    assert ps == [NAMED[0], NAMED[1], Dash, Words(suffix)];
    LineIn(doc, s, 0, ps, d);
    RenderFour(NAMED[0], NAMED[1], Dash, Words(suffix), d);
  }

  /** Where a VirtualService sends its traffic: to the exported service in its own namespace, at its port. */
  lemma DestinationLines(doc: Document, s: nat, d: ExposedService)
    requires s + 2 < |doc.body|
    requires doc.body[s] == TO_DESTINATION && doc.body[s + 1] == IN_MESH && doc.body[s + 2] == AT_PORT
    ensures Within(TextOf(doc, d), " destination:\n        host: " + d.serviceName
        + ("." + d.serviceNamespace + ".svc.cluster.local   # srv k8s"))
    ensures Within(TextOf(doc, d), "\n        port:\n          number: " + d.serviceTargetPort)
  {
    var end := [TO_DESTINATION[2], TO_DESTINATION[3]];
    assert TO_DESTINATION[2..] == end;
    LineAcross(doc, s, end, IN_MESH, d);
    RenderTwo(end[0], end[1], d);
    RenderThree(IN_MESH[0], IN_MESH[1], IN_MESH[2], d);
    LineIn(doc, s + 2, 0, [AT_PORT[0], AT_PORT[1]], d);
    RenderTwo(AT_PORT[0], AT_PORT[1], d);
  }

  /** A Service and a Gateway select the pods of the gateway. */
  lemma SelectorLine(doc: Document, s: nat, d: ExposedService)
    requires s < |doc.body| && |doc.body[s]| >= 4 && doc.body[s][..4] == SELECTING
    ensures Within(TextOf(doc, d),
      "\nspec:\n  selector:\n    " + d.ingress.selectorLabel + ": " + d.ingress.selectorValue)
  {
    LineIn(doc, s, 0, SELECTING, d);
    RenderFour(SELECTING[0], SELECTING[1], SELECTING[2], SELECTING[3], d);
  }

  /** Each public host is an item of the list. */
  lemma HostLines(doc: Document, s: nat, i: nat, d: ExposedService)
    requires s < |doc.body| && i < |doc.body[s]| && doc.body[s][i] == EachPublicHost
    ensures forall h :: h in d.PublicHosts() ==> Within(TextOf(doc, d), "\n    - " + h + "\n")
  {
    LineIn(doc, s, i, [EachPublicHost], d);
    RenderTwo(EachPublicHost, EachPublicHost, d);
    forall h | h in d.PublicHosts() ensures Within(TextOf(doc, d), "\n    - " + h + "\n") {
      ItemWithin(d.PublicHosts(), h);
      Through(TextOf(doc, d), HostItems(d.PublicHosts()), "\n    - " + h + "\n");
    }
  }

  lemma {:induction false} ItemWithin(hosts: seq<string>, h: string)
    requires h in hosts
    ensures Within(HostItems(hosts), "\n    - " + h + "\n")
    decreases |hosts|
  {
    var item := "\n    - " + hosts[0] + "\n";
    if h == hosts[0] {
      assert HostItems(hosts) == "" + item + HostItems(hosts[1..]);
    } else {
      ItemWithin(hosts[1..], h);
      WithinMore(item, HostItems(hosts[1..]), "", "\n    - " + h + "\n");
      assert item + HostItems(hosts[1..]) + "" == HostItems(hosts);
    }
  }

  lemma Through(s: string, part: string, inner: string)
    requires Within(s, part) && Within(part, inner)
    ensures Within(s, inner)
  {
    var a, b :| s == a + part + b;
    WithinMore(a, part, b, inner);
  }

  lemma ToIngressLine(doc: Document, s: nat, d: ExposedService)
    requires s < |doc.body| && doc.body[s] == TO_INGRESS
    ensures Within(TextOf(doc, d), "\nspec:\n  to:\n    kind: Service\n    name:" + " " + d.ingress.service)
  {
    LineIn(doc, s, 0, TO_INGRESS, d);
    RenderThree(TO_INGRESS[0], TO_INGRESS[1], TO_INGRESS[2], d);
  }

  lemma HostLine(doc: Document, s: nat, d: ExposedService)
    requires s < |doc.body| && doc.body[s] == FOR_HOST
    ensures Within(TextOf(doc, d), "\n  host: " + d.ExternalHost())
  {
    LineIn(doc, s, 0, FOR_HOST, d);
    RenderTwo(FOR_HOST[0], FOR_HOST[1], d);
  }

  /** The first four pieces of a section. */
  lemma FourIn(doc: Document, s: nat, d: ExposedService)
    requires s < |doc.body| && |doc.body[s]| >= 4
    ensures var ps := doc.body[s];
      Within(TextOf(doc, d), RenderPiece(ps[0], d) + RenderPiece(ps[1], d) + RenderPiece(ps[2], d)
          + RenderPiece(ps[3], d))
  {
    var ps := doc.body[s];
    assert ps[..4] == [ps[0], ps[1], ps[2], ps[3]];
    LineIn(doc, s, 0, ps[..4], d);
    RenderFour(ps[0], ps[1], ps[2], ps[3], d);
  }

  /* ---------- document by document ---------- */

  lemma RouteLines(d: ExposedService)
    ensures var text := TextOf(ROUTE_DOC, d);
      && Within(text, "\nmetadata:\n  name: " + d.publicServiceName + "-" + "route")
      && Within(text, "\n  namespace: " + d.ingress.gatewayNamespace)
      && Within(text, "\nspec:\n  to:\n    kind: Service\n    name:" + " " + d.ingress.service)
      && Within(text, "\n  host: " + d.ExternalHost())
  {
    hide TextOf, Within, Render, RenderSections;
    SuffixLine(ROUTE_DOC, 1, "route", d);
    MetadataLines(ROUTE_DOC, 1, d);
    ToIngressLine(ROUTE_DOC, 3, d);
    HostLine(ROUTE_DOC, 4, d);
  }

  lemma IngressLines(d: ExposedService)
    ensures var text := TextOf(INGRESS_DOC, d);
      && Within(text, "\nmetadata:\n  name: " + d.publicServiceName + "-" + "ingress")
      && Within(text, "\n  namespace: " + d.ingress.gatewayNamespace)
      && Within(text, "\nspec:\n  gateways:\n  " + "-" + " " + d.ingress.service)
      && Within(text, "\n  hosts:\n  " + "-" + " " + d.ExternalHost())
      && Within(text, " destination:\n        host: " + d.serviceName
           + ("." + d.serviceNamespace + ".svc.cluster.local   # srv k8s"))
      && Within(text, "\n        port:\n          number: " + d.serviceTargetPort)
  {
    hide TextOf, Within;
    SuffixLine(INGRESS_DOC, 2, "ingress", d);
    MetadataLines(INGRESS_DOC, 2, d);
    DestinationLines(INGRESS_DOC, 7, d);
    IngressSpec(d);
  }

  lemma IngressSpec(d: ExposedService)
    ensures Within(TextOf(INGRESS_DOC, d), "\nspec:\n  gateways:\n  " + "-" + " " + d.ingress.service)
    ensures Within(TextOf(INGRESS_DOC, d), "\n  hosts:\n  " + "-" + " " + d.ExternalHost())
  {
    hide TextOf, Within;
    FourIn(INGRESS_DOC, 4, d);
    FourIn(INGRESS_DOC, 5, d);
  }

  lemma ServiceLines(d: ExposedService)
    ensures var text := TextOf(SERVICE_DOC, d);
      && Within(text, "\nmetadata:\n  name: " + d.publicServiceName)
      && Within(text, "\n  namespace: " + d.ingress.gatewayNamespace)
      && Within(text, "\nspec:\n  selector:\n    " + d.ingress.selectorLabel + ": " + d.ingress.selectorValue)
      && Within(text, "name: " + d.publicServiceName + "-" + "certs")
  {
    hide TextOf, Within;
    MetadataLines(SERVICE_DOC, 1, d);
    SelectorLine(SERVICE_DOC, 4, d);
    CertLine(d);
  }

  lemma CertLine(d: ExposedService)
    ensures Within(TextOf(SERVICE_DOC, d), "name: " + d.publicServiceName + "-" + "certs")
  {
    hide TextOf, Within, Render, RenderSections;
    var ps := SERVED_WITH_CERT[7..11];
    assert ps == [SERVED_WITH_CERT[7], SERVED_WITH_CERT[8], SERVED_WITH_CERT[9], SERVED_WITH_CERT[10]];
    LineIn(SERVICE_DOC, 3, 7, ps, d);
    RenderFour(ps[0], ps[1], ps[2], ps[3], d);
  }

  lemma GatewayLines(d: ExposedService)
    ensures var text := TextOf(GATEWAY_DOC, d);
      && Within(text, "\nmetadata:\n  name: " + d.publicServiceName)
      && Within(text, "\n  namespace: " + d.ingress.gatewayNamespace)
      && Within(text, "\nspec:\n  selector:\n    " + d.ingress.selectorLabel + ": " + d.ingress.selectorValue)
      && (forall h :: h in d.PublicHosts() ==> Within(text, "\n    - " + h + "\n"))
      && Within(text, "\n    tls:\n      credentialName: " + d.publicServiceName + "-" + "certs")
  {
    hide TextOf, Within, Render, RenderSections;
    MetadataLines(GATEWAY_DOC, 2, d);
    SelectorLine(GATEWAY_DOC, 4, d);
    HostLines(GATEWAY_DOC, 5, 3, d);
    FourIn(GATEWAY_DOC, 7, d);
  }

  lemma PublicLines(d: ExposedService)
    ensures var text := TextOf(PUBLIC_VS_DOC, d);
      && Within(text, "\nmetadata:\n  name: " + d.publicServiceName)
      && Within(text, "\n  namespace: " + d.ingress.gatewayNamespace)
      && Within(text, "\nspec:\n  gateways:\n  " + "-" + " " + d.publicServiceName)
      && (forall h :: h in d.PublicHosts() ==> Within(text, "\n    - " + h + "\n"))
      && Within(text, " destination:\n        host: " + d.serviceName
           + ("." + d.serviceNamespace + ".svc.cluster.local   # srv k8s"))
      && Within(text, "\n        port:\n          number: " + d.serviceTargetPort)
  {
    MetadataLines(PUBLIC_VS_DOC, 2, d);
    FourIn(PUBLIC_VS_DOC, 4, d);
    hide TextOf, Within, Render, RenderSections;
    HostLines(PUBLIC_VS_DOC, 5, 1, d);
    DestinationLines(PUBLIC_VS_DOC, 7, d);
  }

  lemma RuleLines(d: ExposedService)
    ensures var text := TextOf(DESTINATION_RULE_DOC, d);
      && Within(text, "\nmetadata:\n  name: " + d.publicServiceName)
      && Within(text, "\n  namespace: " + d.ingress.gatewayNamespace)
      && Within(text, "\nspec:\n  host: " + d.publicServiceName + "." + d.ingress.gatewayNamespace)
  {
    hide TextOf, Within, Render, RenderSections;
    MetadataLines(DESTINATION_RULE_DOC, 2, d);
    FourIn(DESTINATION_RULE_DOC, 4, d);
  }

  /* ---------- what a service port gets ---------- */

  function NameFor(svc: Service, port: Port): string {
    svc.name + "-" + port.name + "-" + svc.namespace
  }

  /** The resources wanted for one port in one mode: which they are, and what they are labelled with. */
  lemma WantedResources(owner: Resource, ingress: IngressConfig, domain: string, svc: Service, port: Port,
                        mode: RouteType)
    requires mode in AllRouteTypes()
    ensures var rs := Desired(owner, ingress, domain, svc, port, mode);
      && RightKeys(mode, NameFor(svc, port), ingress.gatewayNamespace, rs)
      && (forall i :: 0 <= i < |rs| ==>
            && rs[i].obj.labels == map["platform.opendatahub.io/owner-name" := owner.key.name,
                                       "platform.opendatahub.io/owner-kind" := owner.key.gvk.kind,
                                       "platform.opendatahub.io/owner-uid" := owner.obj.uid,
                                       "app.kubernetes.io/managed-by" := "odh-routing-controller",
                                       "routing.opendatahub.io/type" := mode]
            && rs[i].obj.annotations ==
                 (if mode == "public" && i == 0
                  then map["service.beta.openshift.io/serving-cert-secret-name" := NameFor(svc, port) + "-certs"]
                  else map[])
            && rs[i].obj.finalizers == [] && rs[i].obj.owners == [] && rs[i].obj.uid == "" && !rs[i].obj.deleting)
  {
    var d := NewExposedService(svc, port, ingress, domain);
    ResourceKeys(mode, d);
    assert "external"[0] == 'e' && "public"[0] == 'p';
    hide TextOf;
  }

  ghost predicate Says(r: Resource, line: string) {
    r.obj.payload.Rendered? && Within(r.obj.payload.text, line)
  }

  /** Traffic from outside: the Route takes it from the external host to the ingress service, the VirtualService from
      there to the exported service. */
  lemma ExternalTraffic(owner: Resource, ingress: IngressConfig, domain: string, svc: Service, port: Port)
    ensures var rs, host := Desired(owner, ingress, domain, svc, port, "external"),
                            NameFor(svc, port) + "." + domain;
      && |rs| == 2
      && Says(rs[0], "\n  host: " + host)
      && Says(rs[0], "\nspec:\n  to:\n    kind: Service\n    name:" + " " + ingress.service)
      && Says(rs[1], "\nspec:\n  gateways:\n  " + "-" + " " + ingress.service)
      && Says(rs[1], "\n  hosts:\n  " + "-" + " " + host)
      && Says(rs[1], " destination:\n        host: " + svc.name
           + ("." + svc.namespace + ".svc.cluster.local   # srv k8s"))
      && Says(rs[1], "\n        port:\n          number: " + port.targetPort)
  {
    hide TextOf, Within;
    var d := NewExposedService(svc, port, ingress, domain);
    assert EXTERNAL_ROUTE[0] == 'e' && PUBLIC_ROUTE[0] == 'p';
    RouteLines(d);
    IngressLines(d);
  }

  /** Traffic from the cluster: the Service and the Gateway select the gateway's pods, the Gateway and the
      VirtualService know all three public hosts, and the VirtualService leads to the exported service. */
  lemma PublicTraffic(owner: Resource, ingress: IngressConfig, domain: string, svc: Service, port: Port)
    ensures var rs, base := Desired(owner, ingress, domain, svc, port, "public"),
                            NameFor(svc, port) + "." + ingress.gatewayNamespace;
      && |rs| == 4
      && Says(rs[0], "\nspec:\n  selector:\n    " + ingress.selectorLabel + ": " + ingress.selectorValue)
      && Says(rs[1], "\nspec:\n  selector:\n    " + ingress.selectorLabel + ": " + ingress.selectorValue)
      && (forall h | h in [base, base + ".svc", base + ".svc.cluster.local"] ::
            Says(rs[1], "\n    - " + h + "\n") && Says(rs[2], "\n    - " + h + "\n"))
      && Says(rs[0], "name: " + NameFor(svc, port) + "-" + "certs")
      && Says(rs[1], "\n    tls:\n      credentialName: " + NameFor(svc, port) + "-" + "certs")
      && Says(rs[2], "\nspec:\n  gateways:\n  " + "-" + " " + NameFor(svc, port))
      && Says(rs[2], " destination:\n        host: " + svc.name
           + ("." + svc.namespace + ".svc.cluster.local   # srv k8s"))
      && Says(rs[2], "\n        port:\n          number: " + port.targetPort)
      && Says(rs[3], "\nspec:\n  host: " + NameFor(svc, port) + "." + ingress.gatewayNamespace)
  {
    hide TextOf, Within;
    var d := NewExposedService(svc, port, ingress, domain);
    ServiceLines(d);
    GatewayLines(d);
    PublicLines(d);
    RuleLines(d);
  }
}
