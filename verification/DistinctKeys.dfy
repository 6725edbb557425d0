/** When the resources rendered for one service never overwrite each other. */
module DistinctKeys {
  import opened Text
  import opened Api
  import opened Metadata
  import opened RouteTypes
  import opened Templates
  import opened TemplateText
  import opened Ownership
  import opened Exporting
  import opened RoutingController
  import opened Convergence

  predicate UniquePortNames(ports: seq<Port>) {
    forall p, q | p in ports && q in ports && p.name == q.name :: p == q
  }

  /** The external VirtualService of one port and the public one of some port clash exactly when "-namespace" is
      its own tail once "-ingress" is appended, whatever the service and the configuration. */
  lemma IngressClash(svc: Service, port: Port, ingress: IngressConfig, domain: string)
    ensures (exists q: Port :: DocumentKey(INGRESS_DOC, NewExposedService(svc, port, ingress, domain))
                            == DocumentKey(PUBLIC_VS_DOC, NewExposedService(svc, q, ingress, domain)))
       <==> HasSuffix("-" + svc.namespace + "-ingress", "-" + svc.namespace)
  {
    IngressNameCollision(svc.name, svc.namespace, port.name);
    var name := PublicName(svc.name, port.name, svc.namespace);
    forall q: Port
      ensures DocumentKey(PUBLIC_VS_DOC, NewExposedService(svc, q, ingress, domain)).name
          == PublicName(svc.name, q.name, svc.namespace)
    {
      assert PublicName(svc.name, q.name, svc.namespace) + "" == PublicName(svc.name, q.name, svc.namespace);
    }
    if q :| name + "-ingress" == PublicName(svc.name, q, svc.namespace) {
      assert DocumentKey(INGRESS_DOC, NewExposedService(svc, port, ingress, domain))
          == DocumentKey(PUBLIC_VS_DOC, NewExposedService(svc, Port(q, ""), ingress, domain));
    }
  }

  /** Within a mode the documents differ in kind. */
  lemma KindsDiffer(mode: RouteType, i: nat, j: nat)
    requires i < |Documents(mode)| && j < |Documents(mode)| && Documents(mode)[i].gvk == Documents(mode)[j].gvk
    ensures i == j
  {
    assert "Service"[0] == 'S' && "Gateway"[0] == 'G' && "VirtualService"[0] == 'V' && "DestinationRule"[0] == 'D'
        && "Route"[0] == 'R';
  }

  /** Between the modes the only common kind is VirtualService. */
  lemma KindInCommon(i: nat, j: nat)
    requires i < |Documents(EXTERNAL_ROUTE)| && j < |Documents(PUBLIC_ROUTE)|
    requires Documents(EXTERNAL_ROUTE)[i].gvk == Documents(PUBLIC_ROUTE)[j].gvk
    ensures Documents(EXTERNAL_ROUTE)[i] == INGRESS_DOC && Documents(PUBLIC_ROUTE)[j] == PUBLIC_VS_DOC
  {
    assert "Service"[0] == 'S' && "Gateway"[0] == 'G' && "VirtualService"[0] == 'V' && "DestinationRule"[0] == 'D'
        && "Route"[0] == 'R';
  }

  lemma SamePort(doc: Document, svc: Service, p: Port, q: Port, ingress: IngressConfig, domain: string)
    requires DocumentKey(doc, NewExposedService(svc, p, ingress, domain))
        == DocumentKey(doc, NewExposedService(svc, q, ingress, domain))
    ensures p.name == q.name
  {
    var a, b := PublicName(svc.name, p.name, svc.namespace), PublicName(svc.name, q.name, svc.namespace);
    assert a + doc.suffix == b + doc.suffix;
    assert |a| == |b| && a == (a + doc.suffix)[..|a|] && b == (b + doc.suffix)[..|b|];
    PublicNameInjective(svc.name, svc.namespace, p.name, q.name);
  }

  /** Two documents of one service with the same key are the same document of the same port. */
  lemma OneKeyOneDocument(svc: Service, p: Port, m: RouteType, i: nat, q: Port, n: RouteType, j: nat,
                          ingress: IngressConfig, domain: string)
    requires !HasSuffix("-" + svc.namespace + "-ingress", "-" + svc.namespace)
    requires i < |Documents(m)| && j < |Documents(n)|
    requires DocumentKey(Documents(m)[i], NewExposedService(svc, p, ingress, domain))
          == DocumentKey(Documents(n)[j], NewExposedService(svc, q, ingress, domain))
    ensures m == n && i == j && p.name == q.name
  {
    TemplateKinds(m, i);
    TemplateKinds(n, j);
    if m == n {
      KindsDiffer(m, i, j);
      SamePort(Documents(m)[i], svc, p, q, ingress, domain);
    } else if m == EXTERNAL_ROUTE {
      KindInCommon(i, j);
      IngressClash(svc, p, ingress, domain);
    } else {
      KindInCommon(j, i);
      IngressClash(svc, q, ingress, domain);
    }
  }

  /** One service with uniquely named ports in an ordinary namespace: every plan of it agrees with itself, so
      convergence, order independence and the fixed point hold of it. */
  lemma OneServiceAgrees(plan: seq<Resource>, owner: Resource, ingress: IngressConfig, found: Discovery, svc: Service)
    requires PlanFor(plan, owner, ingress, found) && (found.services.Ok? ==> found.services.value == [svc])
    requires UniquePortNames(svc.ports)
    requires svc.namespace != "ingress" && !HasSuffix(svc.namespace, "-ingress")
    ensures Agreed(plan)
  {
    if HasSuffix("-" + svc.namespace + "-ingress", "-" + svc.namespace) { IngressTail(svc.namespace); }
    var modes := Enabled(owner.obj.annotations);
    forall x | x in plan ensures x.obj.finalizers == [] && !x.obj.deleting {
      DesiredKinds(owner, ingress, found.domain.value, found.services.value, modes, x);
    }
    forall x, y | x in plan && y in plan && x.key == y.key ensures x == y {
      hide HasSuffix;
      OneKeyOneResource(owner, ingress, found.domain.value, svc, modes, x, y);
    }
  }

  /** Services with tidy names can always be exported: every template of every port falls into its documents. */
  lemma TidyServicesExport(ingress: IngressConfig, found: Discovery, annotations: map<string, string>)
    requires found.Found()
    requires forall svc, p | svc in found.services.value && p in svc.ports ::
      TidyExposure(svc, p, ingress, found.domain.value)
    ensures Exportable(ingress, found, Enabled(annotations))
  {
    forall svc | svc in found.services.value
      ensures AllLoadable(ingress, found.domain.value, svc, Enabled(annotations)) {
      hide Loadable, TidyExposure, NewExposedService;
      forall p, m | p in svc.ports && m in Enabled(annotations)
        ensures Loadable(m, NewExposedService(svc, p, ingress, found.domain.value)) {
        TidyExposureLoads(m, svc, p, ingress, found.domain.value);
      }
    }
  }

  /** The resource one document of the template asks for. */
  function Asked(owner: Resource, ingress: IngressConfig, domain: string, svc: Service, p: Port, m: RouteType,
                 i: nat): (x: Resource)
    requires i < |Documents(m)|
    ensures x.key == DocumentKey(Documents(m)[i], NewExposedService(svc, p, ingress, domain))
  {
    var d := NewExposedService(svc, p, ingress, domain);
    LabelledFor(owner, m, Decoded(Documents(m)[i], d, TextOf(Documents(m)[i], d)))
  }

  lemma AskedFor(owner: Resource, ingress: IngressConfig, domain: string, svc: Service, modes: set<RouteType>,
                 x: Resource)
    returns (p: Port, m: RouteType, i: nat)
    requires IsDesired(owner, ingress, domain, svc, modes, x)
    ensures p in svc.ports && m in modes && i < |Documents(m)| && x == Asked(owner, ingress, domain, svc, p, m, i)
  {
    p, m :| p in svc.ports && m in modes && x in Desired(owner, ingress, domain, svc, p, m);
    i :| 0 <= i < |Documents(m)| && x == Desired(owner, ingress, domain, svc, p, m)[i];
  }

  lemma OneKeyOneResource(owner: Resource, ingress: IngressConfig, domain: string, svc: Service, modes: set<RouteType>,
                          x: Resource, y: Resource)
    requires !HasSuffix("-" + svc.namespace + "-ingress", "-" + svc.namespace) && UniquePortNames(svc.ports)
    requires IsDesired(owner, ingress, domain, svc, modes, x) && IsDesired(owner, ingress, domain, svc, modes, y)
    requires x.key == y.key
    ensures x == y
  {
    hide Asked, IsDesired, DocumentKey, HasSuffix, Documents;
    var p, m, i := AskedFor(owner, ingress, domain, svc, modes, x);
    var q, n, j := AskedFor(owner, ingress, domain, svc, modes, y);
    OneKeyOneDocument(svc, p, m, i, q, n, j, ingress, domain);
  }

  /* ---------- several services ---------- */

  /** One document of one port of one service in one mode. */
  datatype Slot = Slot(svc: Service, port: Port, mode: RouteType, index: nat)

  predicate IsSlot(x: Slot, services: seq<Service>, modes: set<RouteType>) {
    x.svc in services && x.port in x.svc.ports && x.mode in modes && x.index < |Documents(x.mode)|
  }

  function NameOf(svc: Service, port: Port): string {
    PublicName(svc.name, port.name, svc.namespace)
  }

  function SlotKey(x: Slot, ingress: IngressConfig, domain: string): (k: Key)
    requires x.index < |Documents(x.mode)|
    ensures k.name == NameOf(x.svc, x.port) + Documents(x.mode)[x.index].suffix
    ensures k.gvk == Documents(x.mode)[x.index].gvk
  {
    DocumentKey(Documents(x.mode)[x.index], NewExposedService(x.svc, x.port, ingress, domain))
  }

  /** No two documents are rendered for one key. */
  ghost predicate KeysApart(services: seq<Service>, modes: set<RouteType>, ingress: IngressConfig, domain: string) {
    forall x, y | IsSlot(x, services, modes) && IsSlot(y, services, modes)
        && SlotKey(x, ingress, domain) == SlotKey(y, ingress, domain) :: x == y
  }

  /** Public names differ from port to port, and with both modes enabled none is another one followed by "-ingress". */
  ghost predicate NamesApart(services: seq<Service>, modes: set<RouteType>) {
    forall s, p, t, q | s in services && p in s.ports && t in services && q in t.ports ::
      && (NameOf(s, p) == NameOf(t, q) ==> s == t && p == q)
      && (EXTERNAL_ROUTE in modes && PUBLIC_ROUTE in modes ==> NameOf(s, p) + "-ingress" != NameOf(t, q))
  }

  lemma OneMode(x: Slot, y: Slot, ingress: IngressConfig, domain: string)
    requires x.index < |Documents(x.mode)| && y.index < |Documents(y.mode)| && x.mode == y.mode
    requires SlotKey(x, ingress, domain) == SlotKey(y, ingress, domain)
    ensures x.index == y.index && NameOf(x.svc, x.port) == NameOf(y.svc, y.port)
  {
    KindsDiffer(x.mode, x.index, y.index);
    hide NameOf, SlotKey, Documents;
    var a, b, suffix := NameOf(x.svc, x.port), NameOf(y.svc, y.port), Documents(x.mode)[x.index].suffix;
    assert a + suffix == b + suffix;
    assert |a| == |b| && a == (a + suffix)[..|a|] && b == (b + suffix)[..|b|];
  }

  lemma TwoModes(x: Slot, y: Slot, ingress: IngressConfig, domain: string)
    requires x.index < |Documents(EXTERNAL_ROUTE)| && y.index < |Documents(PUBLIC_ROUTE)| && x.mode == EXTERNAL_ROUTE
    requires y.mode == PUBLIC_ROUTE
    requires SlotKey(x, ingress, domain) == SlotKey(y, ingress, domain)
    ensures NameOf(x.svc, x.port) + "-ingress" == NameOf(y.svc, y.port)
  {
    KindInCommon(x.index, y.index);
    hide NameOf, SlotKey, Documents;
    assert NameOf(y.svc, y.port) + "" == NameOf(y.svc, y.port);
  }

  lemma SlotsApart(services: seq<Service>, modes: set<RouteType>, x: Slot, y: Slot, ingress: IngressConfig,
                   domain: string)
    requires NamesApart(services, modes) && IsSlot(x, services, modes) && IsSlot(y, services, modes)
    requires SlotKey(x, ingress, domain) == SlotKey(y, ingress, domain)
    ensures x == y
  {
    TemplateKinds(x.mode, x.index);
    TemplateKinds(y.mode, y.index);
    hide SlotKey, NameOf, Documents;
    if x.mode == y.mode {
      OneMode(x, y, ingress, domain);
    } else if x.mode == EXTERNAL_ROUTE {
      TwoModes(x, y, ingress, domain);
    } else {
      TwoModes(y, x, ingress, domain);
    }
  }

  /** Dashes in names make public names of different services coincide. */
  lemma AmbiguousNames(a: string, b: string, c: string, namespace: string)
    ensures PublicName(a + "-" + b, c, namespace) == PublicName(a, b + "-" + c, namespace)
  {
    assert a + "-" + b + "-" + c + "-" + namespace == a + "-" + (b + "-" + c) + "-" + namespace;
  }

  /** Two ports with one public name share every key. */
  lemma SharedName(services: seq<Service>, modes: set<RouteType>, s: Service, p: Port, t: Service, q: Port,
                   mode: RouteType, ingress: IngressConfig, domain: string)
    requires s in services && p in s.ports && t in services && q in t.ports && mode in modes && mode in AllRouteTypes()
    requires NameOf(s, p) == NameOf(t, q) && !(s == t && p == q)
    ensures !KeysApart(services, modes, ingress, domain)
  {
    var x, y := Slot(s, p, mode, 0), Slot(t, q, mode, 0);
    assert IsSlot(x, services, modes) && IsSlot(y, services, modes);
    assert SlotKey(x, ingress, domain) == SlotKey(y, ingress, domain);
    hide IsSlot, SlotKey;
  }

  lemma SharedIngress(services: seq<Service>, modes: set<RouteType>, s: Service, p: Port, t: Service, q: Port,
                      ingress: IngressConfig, domain: string)
    requires s in services && p in s.ports && t in services && q in t.ports && EXTERNAL_ROUTE in modes
    requires PUBLIC_ROUTE in modes
    requires NameOf(s, p) + "-ingress" == NameOf(t, q)
    ensures !KeysApart(services, modes, ingress, domain)
  {
    var x, y := Slot(s, p, EXTERNAL_ROUTE, 1), Slot(t, q, PUBLIC_ROUTE, 2);
    assert NameOf(t, q) + "" == NameOf(t, q);
    assert IsSlot(x, services, modes) && IsSlot(y, services, modes);
    assert SlotKey(x, ingress, domain) == SlotKey(y, ingress, domain);
    assert EXTERNAL_ROUTE[0] == 'e' && PUBLIC_ROUTE[0] == 'p';
    hide IsSlot, SlotKey, NameOf;
  }

  /** Rendered keys are distinct exactly when the public names are, and are no "-ingress" names of each other. */
  lemma KeysApartExactly(services: seq<Service>, annotations: map<string, string>, ingress: IngressConfig,
                         domain: string)
    requires Enabled(annotations) != {}
    ensures KeysApart(services, Enabled(annotations), ingress, domain) <==> NamesApart(services, Enabled(annotations))
  {
    var modes := Enabled(annotations);
    var mode :| mode in modes;
    assert mode in AllRouteTypes();
    hide Enabled, SlotKey, NameOf, Documents, AllRouteTypes;
    if NamesApart(services, modes) {
      forall x, y | IsSlot(x, services, modes) && IsSlot(y, services, modes)
          && SlotKey(x, ingress, domain) == SlotKey(y, ingress, domain)
        ensures x == y
      {
        SlotsApart(services, modes, x, y, ingress, domain);
      }
    } else {
      var s, p, t, q :| s in services && p in s.ports && t in services && q in t.ports
        && !((NameOf(s, p) == NameOf(t, q) ==> s == t && p == q)
             && (EXTERNAL_ROUTE in modes && PUBLIC_ROUTE in modes ==> NameOf(s, p) + "-ingress" != NameOf(t, q)));
      hide KeysApart;
      if NameOf(s, p) == NameOf(t, q) && !(s == t && p == q) {
        SharedName(services, modes, s, p, t, q, mode, ingress, domain);
      } else {
        SharedIngress(services, modes, s, p, t, q, ingress, domain);
      }
    }
  }

  /** Services whose public names are apart never overwrite each other's resources. */
  lemma ServicesAgree(plan: seq<Resource>, owner: Resource, ingress: IngressConfig, found: Discovery)
    requires PlanFor(plan, owner, ingress, found)
    requires found.Found() ==> NamesApart(found.services.value, Enabled(owner.obj.annotations))
    ensures Agreed(plan)
  {
    var modes := Enabled(owner.obj.annotations);
    hide Enabled, NamesApart, IsDesired;
    forall x | x in plan ensures x.obj.finalizers == [] && !x.obj.deleting {
      DesiredKinds(owner, ingress, found.domain.value, found.services.value, modes, x);
    }
    forall x, y | x in plan && y in plan && x.key == y.key ensures x == y {
      var s :| s in found.services.value && IsDesired(owner, ingress, found.domain.value, s, modes, x);
      var t :| t in found.services.value && IsDesired(owner, ingress, found.domain.value, t, modes, y);
      SameKeySameResource(owner, ingress, found.domain.value, found.services.value, s, t, modes, x, y);
    }
  }

  lemma SameKeySameResource(owner: Resource, ingress: IngressConfig, domain: string, services: seq<Service>, s: Service,
                            t: Service, modes: set<RouteType>, x: Resource, y: Resource)
    requires NamesApart(services, modes) && s in services && t in services && x.key == y.key
    requires IsDesired(owner, ingress, domain, s, modes, x) && IsDesired(owner, ingress, domain, t, modes, y)
    ensures x == y
  {
    hide Asked, IsDesired, NameOf, Documents, NamesApart;
    var p, m, i := AskedFor(owner, ingress, domain, s, modes, x);
    var q, n, j := AskedFor(owner, ingress, domain, t, modes, y);
    SlotsApart(services, modes, Slot(s, p, m, i), Slot(t, q, n, j), ingress, domain);
  }
}
