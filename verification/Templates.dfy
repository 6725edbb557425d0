/** Routing templates: rendering, cutting the rendered text into documents, and the resources these stand for
    (pkg/routing/routing.go and its two templates). */
module Templates {
  import opened Text
  import opened Api
  import opened Metadata
  import opened RouteTypes

  const DOCUMENT_SEPARATOR := "---"

  datatype Field =
    | PublicServiceName | GatewayNamespace | IngressService | ExternalHostName
    | ServiceName | ServiceNamespace | ServiceTargetPort | SelectorLabel | SelectorValue

  /** Literal text with no dash in it. */
  type Plain = s: string | s != "" && forall i :: 0 <= i < |s| ==> s[i] != '-' witness " "

  /** Literal text comes as plain words and single dashes; `EachPublicHost` is the loop over the public hosts,
      one list item each. */
  datatype Piece = Words(text: Plain) | Dash | Hole(field: Field) | EachPublicHost

  /** The body comes in sections, each starting with literal text. */
  datatype Document = Document(gvk: Gvk, suffix: string, servingCert: bool, body: seq<seq<Piece>>)

  const SERVICE := Gvk("", "v1", "Service")
  const ROUTE := Gvk("route.openshift.io", "v1", "Route")
  const GATEWAY := Gvk("networking.istio.io", "v1beta1", "Gateway")
  const VIRTUAL_SERVICE := Gvk("networking.istio.io", "v1beta1", "VirtualService")
  const DESTINATION_RULE := Gvk("networking.istio.io", "v1beta1", "DestinationRule")

  const SERVING_CERT := "service.beta.openshift.io/serving-cert-secret-name"

  /* Sections of the templates. Long words come in several pieces, because the verifier checks a literal character by
     character. */
  const OF_ROUTE := [Words("apiVersion: route.openshift.io/v1\nkind:"), Words(" Route")]
  const OF_ISTIO := [Words("\napiVersion: networking.istio.io/v1beta1")]
  const OF_CORE := [Words("apiVersion: v1\nkind: Service")]
  const KIND_VIRTUAL_SERVICE := [Words("\nkind: VirtualService")]
  const KIND_GATEWAY := [Words("\nkind: Gateway")]
  const KIND_DESTINATION_RULE := [Words("\nkind: DestinationRule")]
  const NAMED := [Words("\nmetadata:\n  name: "), Hole(PublicServiceName)]
  const NAMED_ROUTE := NAMED + [Dash, Words("route"), Words(" # identity of the service being exposed")]
  const NAMED_INGRESS := NAMED + [Dash, Words("ingress")]
  const NAMED_OUTSIDE := NAMED + [Words(" # the name of the service outside"), Words(" the mesh")]
  const IN_GATEWAY_NAMESPACE := [Words("\n  namespace: "), Hole(GatewayNamespace)]
  const IN_POD_NAMESPACE := IN_GATEWAY_NAMESPACE + [Words(" # the namespace of the gateway pod")]
  const TO_INGRESS := [Words("\nspec:\n  to:\n    kind: Service\n    name:"), Words(" "), Hole(IngressService)]
  const FOR_HOST := [Words("\n  host: "), Hole(ExternalHostName)]
  const OVER_HTTPS :=
    [Words("\n  port:\n    targetPort: https"), Words("\n  tls:\n    termination: reencrypt"), Words("\n\n")]
  const VIA_INGRESS :=
    [Words("\nspec:\n  gateways:\n  "), Dash, Words(" "), Hole(IngressService), Words(" # name of wildcard Gateway")]
  const ON_ROUTE_HOST :=
    [Words("\n  hosts:\n  "), Dash, Words(" "), Hole(ExternalHostName), Words(" # hostname on the Route")]
  const HTTP_NAMED := [Words("\n  http:\n  "), Dash, Words(" name: "), Hole(PublicServiceName)]
  const HTTP_NAMED_INGRESS := HTTP_NAMED + [Dash, Words("ingress")]
  const TO_DESTINATION := [Words("\n    route:\n    "), Dash, Words(" destination:\n        host: "), Hole(ServiceName)]
  const IN_MESH := [Words("."), Hole(ServiceNamespace), Words(".svc.cluster.local   # srv k8s")]
  const AT_PORT := [Words("\n        port:\n          number: "), Hole(ServiceTargetPort), Words("\n")]
  const SERVED_WITH_CERT :=
    [Words("\n  annotations:\n    "), Words("service.beta.openshift.io/serving"), Dash, Words("cert"), Dash,
        Words("secret"), Dash, Words("name: ")]
    + [Hole(PublicServiceName), Dash, Words("certs"), Words(" # the serving secret for tls")]
  const SELECTING := [Words("\nspec:\n  selector:\n    "), Hole(SelectorLabel), Words(": "), Hole(SelectorValue)]
  const SELECTING_PODS := SELECTING + [Words(" # selects gateway pod(s)")]
  const ON_443 :=
    [Words("\n  ports:\n  "), Dash, Words(" name: https\n    port: 443\n   ")]
    + [Words(" targetPort: 8443\n    protocol: TCP"), Words("\n\n")]
  const SERVING_HOSTS := [Words("\n  servers:\n  "), Dash, Words(" hosts:\n"), EachPublicHost]
  const HTTPS_443 :=
    [Words("\n    port:\n      name: https\n"), Words("      number: 443\n"), Words("      protocol: HTTPS")]
  const WITH_CERT := [Words("\n    tls:\n      credentialName: "), Hole(PublicServiceName), Dash, Words("certs")]
  const SIMPLE_TLS := [Words(" # see Service definition"), Words("\n      mode: SIMPLE\n\n")]
  const VIA_PUBLIC_GATEWAY :=
    [Words("\nspec:\n  gateways:\n  "), Dash, Words(" "), Hole(PublicServiceName), Words(" # Gateway for"),
        Words(" public service\n  ")]
    + [Dash, Words(" mesh # for"), Words(" clients in the mesh")]
  const ON_PUBLIC_HOSTS := [Words("\n  hosts:\n"), EachPublicHost]
  const RULE_HOST :=
    [Words("\nspec:\n  host: "), Hole(PublicServiceName), Words("."), Hole(GatewayNamespace)]
    + [Words(".svc.cluster.local")]
  const NO_TLS := [Words("\n  trafficPolicy:\n    tls:\n      mode:"), Words(" DISABLE\n")]

  const ROUTE_DOC := Document(ROUTE, "-route", false,
    [OF_ROUTE, NAMED_ROUTE, IN_GATEWAY_NAMESPACE, TO_INGRESS, FOR_HOST, OVER_HTTPS])

  const INGRESS_DOC := Document(VIRTUAL_SERVICE, "-ingress", false,
    [OF_ISTIO, KIND_VIRTUAL_SERVICE, NAMED_INGRESS, IN_GATEWAY_NAMESPACE, VIA_INGRESS, ON_ROUTE_HOST,
     HTTP_NAMED_INGRESS, TO_DESTINATION, IN_MESH, AT_PORT])

  const SERVICE_DOC := Document(SERVICE, "", true,
    [OF_CORE, NAMED_OUTSIDE, IN_POD_NAMESPACE, SERVED_WITH_CERT, SELECTING_PODS, ON_443])

  const GATEWAY_DOC := Document(GATEWAY, "", false,
    [OF_ISTIO, KIND_GATEWAY, NAMED, IN_GATEWAY_NAMESPACE, SELECTING, SERVING_HOSTS, HTTPS_443, WITH_CERT, SIMPLE_TLS])

  const PUBLIC_VS_DOC := Document(VIRTUAL_SERVICE, "", false,
    [OF_ISTIO, KIND_VIRTUAL_SERVICE, NAMED, IN_GATEWAY_NAMESPACE, VIA_PUBLIC_GATEWAY, ON_PUBLIC_HOSTS,
     HTTP_NAMED, TO_DESTINATION, IN_MESH, AT_PORT])

  const DESTINATION_RULE_DOC := Document(DESTINATION_RULE, "", false,
    [OF_ISTIO, KIND_DESTINATION_RULE, NAMED, IN_GATEWAY_NAMESPACE, RULE_HOST, NO_TLS])

  function Documents(mode: RouteType): seq<Document> {
    if mode == PUBLIC_ROUTE then [SERVICE_DOC, GATEWAY_DOC, PUBLIC_VS_DOC, DESTINATION_RULE_DOC]
    else if mode == EXTERNAL_ROUTE then [ROUTE_DOC, INGRESS_DOC]
    else []
  }

  /* ---------- rendering ---------- */

  function FieldValue(f: Field, d: ExposedService): string {
    match f
    case PublicServiceName => d.publicServiceName
    case GatewayNamespace => d.ingress.gatewayNamespace
    case IngressService => d.ingress.service
    case ExternalHostName => d.ExternalHost()
    case ServiceName => d.serviceName
    case ServiceNamespace => d.serviceNamespace
    case ServiceTargetPort => d.serviceTargetPort
    case SelectorLabel => d.ingress.selectorLabel
    case SelectorValue => d.ingress.selectorValue
  }

  function HostItems(hosts: seq<string>): string {
    if hosts == [] then "" else "\n    - " + hosts[0] + "\n" + HostItems(hosts[1..])
  }

  function RenderPiece(p: Piece, d: ExposedService): string {
    match p
    case Words(text) => text
    case Dash => "-"
    case Hole(f) => FieldValue(f, d)
    case EachPublicHost => HostItems(d.PublicHosts())
  }

  function Render(ps: seq<Piece>, d: ExposedService): string {
    if ps == [] then "" else RenderPiece(ps[0], d) + Render(ps[1..], d)
  }

  function RenderSections(sections: seq<seq<Piece>>, d: ExposedService): string {
    if sections == [] then "" else Render(sections[0], d) + RenderSections(sections[1..], d)
  }

  function TextOf(doc: Document, d: ExposedService): string {
    RenderSections(doc.body, d)
  }

  function Texts(docs: seq<Document>, d: ExposedService): seq<string> {
    seq(|docs|, i requires 0 <= i < |docs| => TextOf(docs[i], d))
  }

  /** The template of a mode: its documents with separator lines between them. */
  function Template(docs: seq<Document>): seq<seq<Piece>> {
    if docs == [] then []
    else if |docs| == 1 then docs[0].body
    else docs[0].body + [[Dash, Dash, Dash]] + Template(docs[1..])
  }

  lemma {:induction false} RenderConcat(a: seq<seq<Piece>>, b: seq<seq<Piece>>, d: ExposedService)
    ensures RenderSections(a + b, d) == RenderSections(a, d) + RenderSections(b, d)
    decreases |a|
  {
    if a == [] {
      assert a + b == b;
    } else {
      assert (a + b)[1..] == a[1..] + b;
      RenderConcat(a[1..], b, d);
    }
  }

  lemma RenderOne(p: Piece, rest: seq<Piece>, d: ExposedService)
    ensures Render([p] + rest, d) == RenderPiece(p, d) + Render(rest, d)
  {
    assert ([p] + rest)[1..] == rest;
  }

  lemma RenderSeparator(d: ExposedService)
    ensures RenderSections([[Dash, Dash, Dash]], d) == DOCUMENT_SEPARATOR
  {
    RenderOne(Dash, [Dash, Dash], d);
    RenderOne(Dash, [Dash], d);
    RenderOne(Dash, [], d);
    assert [Dash] + [Dash, Dash] == [Dash, Dash, Dash] && [Dash] + [Dash] == [Dash, Dash] && [Dash] + [] == [Dash];
    assert [[Dash, Dash, Dash]][1..] == [];
  }

  /** Rendering the whole template joins the rendered documents. */
  lemma {:induction false} RenderTemplate(docs: seq<Document>, d: ExposedService)
    ensures RenderSections(Template(docs), d) == Join(Texts(docs, d), DOCUMENT_SEPARATOR)
    decreases |docs|
  {
    if |docs| == 1 {
      assert Texts(docs, d) == [TextOf(docs[0], d)];
    } else if |docs| > 1 {
      var sep := [[Dash, Dash, Dash]];
      RenderConcat(docs[0].body + sep, Template(docs[1..]), d);
      RenderConcat(docs[0].body, sep, d);
      RenderSeparator(d);
      RenderTemplate(docs[1..], d);
      assert Texts(docs, d)[1..] == Texts(docs[1..], d);
    }
  }

  /* ---------- loading ---------- */

  function DocumentKey(doc: Document, d: ExposedService): Key {
    Key(doc.gvk, d.ingress.gatewayNamespace, d.publicServiceName + doc.suffix)
  }

  /** The resource a document of the template decodes to. */
  function Decoded(doc: Document, d: ExposedService, text: string): Resource {
    Resource(DocumentKey(doc, d), 0,
      Obj("", map[],
        if doc.servingCert then map[SERVING_CERT := d.publicServiceName + "-certs"] else map[],
        [], [], false, Rendered(text)))
  }

  /** The resources of a mode for one service port. */
  function Resources(mode: RouteType, d: ExposedService): seq<Resource> {
    var docs := Documents(mode);
    seq(|docs|, i requires 0 <= i < |docs| => Decoded(docs[i], d, TextOf(docs[i], d)))
  }

  /** One resource of each kind in the gateway namespace: a Route and a VirtualService for the external mode, a Service,
      a Gateway, a VirtualService and a DestinationRule for the public mode. */
  ghost predicate RightKeys(mode: RouteType, name: string, namespace: string, rs: seq<Resource>) {
    && (mode == "external" ==>
          && |rs| == 2
          && rs[0].key == Key(Gvk("route.openshift.io", "v1", "Route"), namespace, name + "-route")
          && rs[1].key == Key(Gvk("networking.istio.io", "v1beta1", "VirtualService"), namespace, name + "-ingress"))
    && (mode == "public" ==>
          && |rs| == 4
          && rs[0].key == Key(Gvk("", "v1", "Service"), namespace, name)
          && rs[1].key == Key(Gvk("networking.istio.io", "v1beta1", "Gateway"), namespace, name)
          && rs[2].key == Key(Gvk("networking.istio.io", "v1beta1", "VirtualService"), namespace, name)
          && rs[3].key == Key(Gvk("networking.istio.io", "v1beta1", "DestinationRule"), namespace, name))
    && (mode == "external" || mode == "public")
  }

  lemma ResourceKeys(mode: RouteType, d: ExposedService)
    requires mode in AllRouteTypes()
    ensures RightKeys(mode, d.publicServiceName, d.ingress.gatewayNamespace, Resources(mode, d))
  {
    assert d.publicServiceName + "" == d.publicServiceName;
    assert "external"[0] == 'e' && "public"[0] == 'p';
  }

  /** No rendered document of the mode has a separator in it. */
  predicate Loadable(mode: RouteType, d: ExposedService) {
    && mode in AllRouteTypes()
    && forall text | text in Texts(Documents(mode), d) :: !Contains(text, DOCUMENT_SEPARATOR)
  }

  lemma SeparableDocument(s: string)
    requires s != "" && s[|s| - 1] != '-'
    ensures Separable(s, DOCUMENT_SEPARATOR) <==> !Contains(s, DOCUMENT_SEPARATOR)
  {
    var sep := DOCUMENT_SEPARATOR;
    var long := s + sep;
    assert OccursAt(long, sep, |s|);
    forall j: nat | j < |s| ensures OccursAt(long, sep, j) == OccursAt(s, sep, j) {
      if j + 3 <= |s| {
        assert long[j..j + 3] == s[j..j + 3];
      } else {
        assert long[j..j + 3][|s| - 1 - j] == s[|s| - 1];
      }
    }
  }

  lemma {:induction false} LastPiece(ps: seq<Piece>, d: ExposedService)
    requires ps != [] && ps[|ps| - 1].Words?
    ensures HasSuffix(Render(ps, d), ps[|ps| - 1].text)
    decreases |ps|
  {
    if |ps| == 1 {
      RenderOne(ps[0], [], d);
      assert ps == [ps[0]] + [];
    } else {
      LastPiece(ps[1..], d);
    }
  }

  lemma SuffixOfTail(a: string, b: string, tail: string)
    requires HasSuffix(b, tail)
    ensures HasSuffix(a + b, tail)
  {
    assert (a + b)[|a| + |b| - |tail|..] == b[|b| - |tail|..];
  }

  lemma {:induction false} LastSection(sections: seq<seq<Piece>>, d: ExposedService, tail: string)
    requires sections != [] && HasSuffix(Render(sections[|sections| - 1], d), tail)
    ensures HasSuffix(RenderSections(sections, d), tail)
    decreases |sections|
  {
    if |sections| == 1 {
      assert RenderSections(sections, d) == Render(sections[0], d) + "" == Render(sections[0], d);
    } else {
      assert sections[1..][|sections| - 2] == sections[|sections| - 1];
      LastSection(sections[1..], d, tail);
      hide HasSuffix, Render;
      SuffixOfTail(Render(sections[0], d), RenderSections(sections[1..], d), tail);
    }
  }

  /** Every document of a template ends in a line break. */
  lemma EndsInNewline(mode: RouteType, d: ExposedService, i: nat)
    requires i < |Documents(mode)|
    ensures HasSuffix(TextOf(Documents(mode)[i], d), "\n")
  {
    var body := Documents(mode)[i].body;
    var section := body[|body| - 1];
    var last := section[|section| - 1].text;
    assert last[|last| - 1] == '\n';
    LastPiece(section, d);
    assert HasSuffix(Render(section, d), "\n");
    LastSection(body, d, "\n");
  }

  /** Texts that do not end in a dash come back from their join exactly when none has a separator in it. */
  lemma JoinedDocuments(texts: seq<string>)
    requires texts != []
    requires forall i :: 0 <= i < |texts| ==> texts[i] != "" && texts[i][|texts[i]| - 1] != '-'
    ensures Split(Join(texts, DOCUMENT_SEPARATOR), DOCUMENT_SEPARATOR) == texts
       <==> forall text | text in texts :: !Contains(text, DOCUMENT_SEPARATOR)
  {
    SplitJoin(texts, DOCUMENT_SEPARATOR);
    forall i | 0 <= i < |texts|
      ensures Separable(texts[i], DOCUMENT_SEPARATOR) <==> !Contains(texts[i], DOCUMENT_SEPARATOR) {
      SeparableDocument(texts[i]);
    }
  }

  /** Cutting the rendered template on separators gives its documents exactly when no document has one in it. */
  lemma LoadableDocuments(docs: seq<Document>, d: ExposedService)
    requires docs != []
    requires forall i :: 0 <= i < |docs| ==>
      var text := Texts(docs, d)[i]; text != "" && text[|text| - 1] != '-'
    ensures Split(RenderSections(Template(docs), d), DOCUMENT_SEPARATOR) == Texts(docs, d)
       <==> forall text | text in Texts(docs, d) :: !Contains(text, DOCUMENT_SEPARATOR)
  {
    RenderTemplate(docs, d);
    JoinedDocuments(Texts(docs, d));
  }

  lemma LoadableTemplate(mode: RouteType, d: ExposedService)
    requires mode in AllRouteTypes()
    ensures Split(RenderSections(Template(Documents(mode)), d), DOCUMENT_SEPARATOR) == Texts(Documents(mode), d)
       <==> Loadable(mode, d)
  {
    var docs := Documents(mode);
    forall i | 0 <= i < |docs| ensures var text := Texts(docs, d)[i]; text != "" && text[|text| - 1] != '-' {
      EndsInNewline(mode, d, i);
    }
    LoadableDocuments(docs, d);
  }

  /** The first occurrence within `a` stays the first when something follows. */
  lemma FirstIndex(a: string, b: string)
    requires Contains(a, DOCUMENT_SEPARATOR)
    ensures 0 <= Index(a, DOCUMENT_SEPARATOR) <= |a| - 3
    ensures Index(a + DOCUMENT_SEPARATOR + b, DOCUMENT_SEPARATOR) == Index(a, DOCUMENT_SEPARATOR)
  {
    var all, i := a + DOCUMENT_SEPARATOR + b, Index(a, DOCUMENT_SEPARATOR);
    forall j: nat | j <= i ensures OccursAt(all, DOCUMENT_SEPARATOR, j) == OccursAt(a, DOCUMENT_SEPARATOR, j) {
      assert all[j..j + 3] == a[j..j + 3];
    }
  }

  /** What is left of a text after its first separator. */
  lemma AfterCut(a: string)
    requires Contains(a, DOCUMENT_SEPARATOR) && a[|a| - 1] != '-'
    ensures Index(a, DOCUMENT_SEPARATOR) + 3 < |a|
  {
    var i := Index(a, DOCUMENT_SEPARATOR);
    assert a[i..i + 3] == DOCUMENT_SEPARATOR && a[i + 2] == a[i..i + 3][2];
  }

  lemma CutOnce(a: string, b: string)
    requires Contains(a, DOCUMENT_SEPARATOR)
    ensures var i := Index(a, DOCUMENT_SEPARATOR);
      && Split(a, DOCUMENT_SEPARATOR) == [a[..i]] + Split(a[i + 3..], DOCUMENT_SEPARATOR)
      && Split(a + DOCUMENT_SEPARATOR + b, DOCUMENT_SEPARATOR)
        == [a[..i]] + Split(a[i + 3..] + DOCUMENT_SEPARATOR + b, DOCUMENT_SEPARATOR)
  {
    hide Index;
    FirstIndex(a, b);
    var i, all := Index(a, DOCUMENT_SEPARATOR), a + DOCUMENT_SEPARATOR + b;
    assert all[..i] == a[..i] && all[i + 3..] == a[i + 3..] + DOCUMENT_SEPARATOR + b;
  }

  /** Joining pulls nothing apart and nothing together: a text that does not end in a dash and what follows the
      separator are cut on their own. */
  lemma {:induction false} CutApart(a: string, b: string)
    requires a != "" && a[|a| - 1] != '-'
    ensures Split(a + DOCUMENT_SEPARATOR + b, DOCUMENT_SEPARATOR)
        == Split(a, DOCUMENT_SEPARATOR) + Split(b, DOCUMENT_SEPARATOR)
    decreases |a|
  {
    hide Index, Split, Separable;
    if Contains(a, DOCUMENT_SEPARATOR) {
      AfterCut(a);
      CutOnce(a, b);
      var i := Index(a, DOCUMENT_SEPARATOR);
      CutApart(a[i + 3..], b);
      Associative([a[..i]], Split(a[i + 3..], DOCUMENT_SEPARATOR), Split(b, DOCUMENT_SEPARATOR));
    } else {
      SeparableDocument(a);
      SplitStep(a, DOCUMENT_SEPARATOR, b);
      OnePiece(a);
    }
  }

  lemma Associative(a: seq<string>, b: seq<string>, c: seq<string>)
    ensures a + (b + c) == (a + b) + c
  {
  }

  lemma OnePiece(s: string)
    requires !Contains(s, DOCUMENT_SEPARATOR)
    ensures Split(s, DOCUMENT_SEPARATOR) == [s]
  {
  }

  /** A joined list falls into at least as many pieces as it has parts, and into as many exactly when no part has a
      separator in it. */
  lemma {:induction false} PiecesOfJoin(texts: seq<string>)
    requires texts != [] && forall i :: 0 <= i < |texts| ==> texts[i] != "" && texts[i][|texts[i]| - 1] != '-'
    ensures |Split(Join(texts, DOCUMENT_SEPARATOR), DOCUMENT_SEPARATOR)| >= |texts|
    ensures |Split(Join(texts, DOCUMENT_SEPARATOR), DOCUMENT_SEPARATOR)| == |texts|
       <==> forall i :: 0 <= i < |texts| ==> !Contains(texts[i], DOCUMENT_SEPARATOR)
    decreases |texts|
  {
    PiecesOfOne(texts[0]);
    if |texts| > 1 {
      var rest := texts[1..];
      CutApart(texts[0], Join(rest, DOCUMENT_SEPARATOR));
      PiecesOfJoin(rest);
      hide Split, Contains;
      assert Join(texts, DOCUMENT_SEPARATOR) == texts[0] + DOCUMENT_SEPARATOR + Join(rest, DOCUMENT_SEPARATOR);
      assert forall i :: 0 <= i < |rest| ==> rest[i] == texts[i + 1];
      assert forall i :: 1 <= i < |texts| ==> texts[i] == rest[i - 1];
    }
  }

  lemma PiecesOfOne(s: string)
    ensures |Split(s, DOCUMENT_SEPARATOR)| == 1 <==> !Contains(s, DOCUMENT_SEPARATOR)
  {
  }

  /** The rendered template has as many pieces as documents exactly when it can be loaded, and then they are these. */
  lemma LoadablePieces(mode: RouteType, d: ExposedService)
    ensures var pieces := Split(RenderSections(Template(Documents(mode)), d), DOCUMENT_SEPARATOR);
      && (|pieces| == |Documents(mode)| <==> Loadable(mode, d))
      && (Loadable(mode, d) ==> pieces == Texts(Documents(mode), d))
  {
    var docs, texts := Documents(mode), Texts(Documents(mode), d);
    if mode in AllRouteTypes() {
      forall i | 0 <= i < |docs| ensures texts[i] != "" && texts[i][|texts[i]| - 1] != '-' {
        EndsInNewline(mode, d, i);
      }
      LoadableTemplate(mode, d);
      RenderTemplate(docs, d);
      hide Split, RenderSections, Template, TextOf, Documents;
      PiecesOfJoin(texts);
    } else {
      assert docs == [];
    }
  }

  /** A text that falls into another number of pieces than the template has documents does not decode; that is exactly
      when a document has a separator in it. */
  method Load(d: ExposedService, mode: RouteType) returns (r: Result<seq<Resource>>)
    ensures r.Ok? <==> Loadable(mode, d)
    ensures r.Ok? ==> r == Ok(Resources(mode, d))
    ensures r.Ok? ==> RightKeys(mode, d.publicServiceName, d.ingress.gatewayNamespace, r.value)
  {
    hide Documents, Split, RenderSections, Template, TextOf, DocumentKey, RightKeys;
    LoadablePieces(mode, d);
    if Loadable(mode, d) { ResourceKeys(mode, d); }
    hide Loadable, AllRouteTypes;
    var docs := Documents(mode);
    var text := RenderSections(Template(docs), d);
    var pieces := Split(text, DOCUMENT_SEPARATOR);
    if |pieces| != |docs| {
      return Err(Failure("could not load routing template"));
    }
    var resources: seq<Resource> := [];
    for i := 0 to |pieces|
      invariant |resources| == i
      invariant forall j :: 0 <= j < i ==> resources[j] == Decoded(docs[j], d, pieces[j])
    {
      resources := resources + [Decoded(docs[i], d, pieces[i])];
    }
    assert resources == Resources(mode, d);
    return Ok(resources);
  }
}
