/** Creating routing resources for exported services and publishing their hosts
    (controllers/routingctrl/reconcile_resources.go). */
module Exporting {
  import opened Text
  import opened Api
  import opened Metadata
  import opened RouteTypes
  import opened Templates
  import opened Ownership
  import opened Server
  import opened Unstruct
  import opened Deletion

  const MANAGER := "odh-routing-controller"

  /* ---------- labels ---------- */

  function OwnershipLabels(owner: Resource): seq<Label> {
    AsOwner(owner) + [Label(APP_MANAGED_BY, MANAGER)]
  }

  /** What a created resource is labelled with. */
  function LabelsFor(owner: Resource, mode: RouteType): map<string, string> {
    map[OWNER_NAME := owner.key.name, OWNER_KIND := owner.key.gvk.kind, OWNER_UID := owner.obj.uid,
        APP_MANAGED_BY := MANAGER, EXPORT_TYPE := mode]
  }

  /** Type labels pile up behind the ownership labels while ports and modes are worked through. */
  ghost predicate Accumulated(owner: Resource, labels: seq<Label>) {
    && |labels| >= 4
    && labels[..4] == OwnershipLabels(owner)
    && forall i :: 4 <= i < |labels| ==> labels[i].key == EXPORT_TYPE
  }

  lemma {:induction false} AccumulatedOptions(o: Obj, owner: Resource, labels: seq<Label>)
    requires Accumulated(owner, labels) && o.labels == map[]
    ensures var r := OptionsApplied(o, AsOptions(labels));
      && r == o.(labels := r.labels)
      && r.labels - {EXPORT_TYPE} == LabelsFor(owner, "") - {EXPORT_TYPE}
    decreases |labels|
  {
    var n := |labels| - 1;
    assert AsOptions(labels)[..n] == AsOptions(labels[..n]);
    if n >= 4 {
      assert labels[..n][..4] == labels[..4];
      AccumulatedOptions(o, owner, labels[..n]);
    } else {
      var l := AsOptions(labels);
      assert labels == OwnershipLabels(owner);
      assert l[..3][..2] == l[..2] && l[..2][..1] == l[..1] && l[..1][..0] == [];
      assert OptionsApplied(o, l[..0]) == o;
      assert OptionsApplied(o, l[..1]) == OptionApplied(o, l[0]);
      assert OptionsApplied(o, l[..2]) == OptionApplied(OptionApplied(o, l[0]), l[1]);
      assert OptionsApplied(o, l[..3]) == OptionApplied(OptionApplied(OptionApplied(o, l[0]), l[1]), l[2]);
    }
  }

  /** Only the last type label counts: however many came before, a resource is labelled for its own mode. */
  lemma LastTypeWins(o: Obj, owner: Resource, labels: seq<Label>, mode: RouteType)
    requires Accumulated(owner, labels) && |labels| > 4 && labels[|labels| - 1].value == mode && o.labels == map[]
    ensures OptionsApplied(o, AsOptions(labels)) == o.(labels := LabelsFor(owner, mode))
  {
    hide OptionsApplied, AsOptions, Accumulated, LabelsFor;
    var n := |labels| - 1;
    AllButLast(o, owner, labels);
    AccumulatedOptions(o, owner, labels[..n]);
    TypeLabelDecides(OptionsApplied(o, AsOptions(labels[..n])).labels, owner, mode);
  }

  lemma AllButLast(o: Obj, owner: Resource, labels: seq<Label>)
    requires Accumulated(owner, labels) && |labels| > 4
    ensures var before := labels[..|labels| - 1];
      && Accumulated(owner, before)
      && OptionsApplied(o, AsOptions(labels)) ==
           OptionApplied(OptionsApplied(o, AsOptions(before)), SetLabel(EXPORT_TYPE, labels[|labels| - 1].value))
  {
    var n := |labels| - 1;
    assert labels[..n][..4] == labels[..4];
    assert AsOptions(labels)[..n] == AsOptions(labels[..n]);
  }

  lemma TypeLabelDecides(before: map<string, string>, owner: Resource, mode: RouteType)
    requires before - {EXPORT_TYPE} == LabelsFor(owner, "") - {EXPORT_TYPE}
    ensures before[EXPORT_TYPE := mode] == LabelsFor(owner, mode)
  {
    assert before[EXPORT_TYPE := mode] == (before - {EXPORT_TYPE})[EXPORT_TYPE := mode];
    assert LabelsFor(owner, mode) == (LabelsFor(owner, "") - {EXPORT_TYPE})[EXPORT_TYPE := mode];
  }

  /* ---------- what is wanted ---------- */

  function LabelledFor(owner: Resource, mode: RouteType, r: Resource): Resource {
    r.(obj := r.obj.(labels := LabelsFor(owner, mode)))
  }

  /** The resources one port asks for in one mode. */
  function Desired(owner: Resource, ingress: IngressConfig, domain: string, svc: Service, port: Port,
                   mode: RouteType): seq<Resource> {
    LabelledAll(owner, mode, Resources(mode, NewExposedService(svc, port, ingress, domain)))
  }

  function LabelledAll(owner: Resource, mode: RouteType, rs: seq<Resource>): seq<Resource> {
    seq(|rs|, i requires 0 <= i < |rs| => LabelledFor(owner, mode, rs[i]))
  }

  /** `x` is wanted for some port of the service in one of the modes. */
  ghost predicate IsDesired(owner: Resource, ingress: IngressConfig, domain: string, svc: Service,
                            modes: set<RouteType>, x: Resource) {
    exists p, m :: p in svc.ports && m in modes && x in Desired(owner, ingress, domain, svc, p, m)
  }

  ghost predicate IsDesiredOf(owner: Resource, ingress: IngressConfig, domain: string, services: seq<Service>,
                              modes: set<RouteType>, x: Resource) {
    exists svc :: svc in services && IsDesired(owner, ingress, domain, svc, modes, x)
  }

  /** Every template of every port can be loaded. */
  ghost predicate AllLoadable(ingress: IngressConfig, domain: string, svc: Service, modes: set<RouteType>) {
    PortsLoadable(ingress, domain, svc, svc.ports, modes)
  }

  ghost predicate PortsLoadable(ingress: IngressConfig, domain: string, svc: Service, ports: seq<Port>,
                                modes: set<RouteType>) {
    forall p, m | p in ports && m in modes :: Loadable(m, NewExposedService(svc, p, ingress, domain))
  }

  lemma OneMoreLoadable(ingress: IngressConfig, domain: string, svc: Service, ports: seq<Port>, port: Port,
                        modes: set<RouteType>)
    ensures PortsLoadable(ingress, domain, svc, [], modes)
    ensures PortsLoadable(ingress, domain, svc, ports + [port], modes)
       <==> (PortsLoadable(ingress, domain, svc, ports, modes)
             && forall m | m in modes :: Loadable(m, NewExposedService(svc, port, ingress, domain)))
  {
    hide Loadable, NewExposedService;
    if PortsLoadable(ingress, domain, svc, ports + [port], modes) {
      assert port in ports + [port];
      assert forall p | p in ports :: p in ports + [port];
    }
  }

  lemma SomeLoadable(ingress: IngressConfig, domain: string, svc: Service, ports: seq<Port>, modes: set<RouteType>,
                     n: nat)
    requires n <= |ports|
    ensures PortsLoadable(ingress, domain, svc, ports, modes) ==> PortsLoadable(ingress, domain, svc, ports[..n], modes)
  {
    hide Loadable, NewExposedService;
  }

  function ExternalHostsOf(ingress: IngressConfig, domain: string, svc: Service, ports: seq<Port>): seq<string> {
    if ports == [] then []
    else
      var n := |ports| - 1;
      var host := NewExposedService(svc, ports[n], ingress, domain).ExternalHost();
      ExternalHostsOf(ingress, domain, svc, ports[..n]) + [host]
  }

  lemma NoHosts(ingress: IngressConfig, domain: string, svc: Service)
    ensures ExternalHostsOf(ingress, domain, svc, []) == [] && PublicHostsOf(ingress, domain, svc, []) == []
  {
  }

  lemma HostsGrow(ingress: IngressConfig, domain: string, svc: Service, i: nat)
    requires i < |svc.ports|
    ensures var d := NewExposedService(svc, svc.ports[i], ingress, domain);
      && ExternalHostsOf(ingress, domain, svc, svc.ports[..i + 1])
           == ExternalHostsOf(ingress, domain, svc, svc.ports[..i]) + [d.ExternalHost()]
      && PublicHostsOf(ingress, domain, svc, svc.ports[..i + 1])
           == PublicHostsOf(ingress, domain, svc, svc.ports[..i]) + d.PublicHosts()
  {
    assert svc.ports[..i + 1][..i] == svc.ports[..i];
  }

  function PublicHostsOf(ingress: IngressConfig, domain: string, svc: Service, ports: seq<Port>): seq<string> {
    if ports == [] then []
    else
      var n := |ports| - 1;
      PublicHostsOf(ingress, domain, svc, ports[..n]) + NewExposedService(svc, ports[n], ingress, domain).PublicHosts()
  }

  /** The annotations once the hosts are published: both address annotations are replaced or gone. */
  function Propagated(a: map<string, string>, publicHosts: seq<string>,
                      externalHosts: seq<string>): map<string, string> {
    var a0 := a - {EXTERNAL_ADDRESSES, PUBLIC_ADDRESSES};
    var a1 := if publicHosts == [] then a0 else a0[PUBLIC_ADDRESSES := Join(publicHosts, ";")];
    if externalHosts == [] then a1 else a1[EXTERNAL_ADDRESSES := Join(externalHosts, ";")]
  }

  function PublishedFor(a: map<string, string>, ingress: IngressConfig, domain: string, svc: Service,
                        modes: set<RouteType>): map<string, string> {
    Propagated(a,
      if PUBLIC_ROUTE in modes then PublicHostsOf(ingress, domain, svc, svc.ports) else [],
      if EXTERNAL_ROUTE in modes then ExternalHostsOf(ingress, domain, svc, svc.ports) else [])
  }

  lemma PropagatedElsewhere(a: map<string, string>, publicHosts: seq<string>, externalHosts: seq<string>)
    ensures forall k | k !in {PUBLIC_ADDRESSES, EXTERNAL_ADDRESSES} ::
      Lookup(a, k) == Lookup(Propagated(a, publicHosts, externalHosts), k)
    ensures Enabled(a) == Enabled(Propagated(a, publicHosts, externalHosts))
  {
    AddressesKeepModes(a, Propagated(a, publicHosts, externalHosts));
  }

  /** Replaces the address annotations of the custom resource. */
  method PropagateHosts(target: Unstructured, publicHosts: seq<string>, externalHosts: seq<string>)
    modifies target`obj
    ensures target.obj == old(target.obj).(annotations := Propagated(old(target.obj).annotations, publicHosts,
        externalHosts))
  {
    var opts := [RemoveAnnotation(EXTERNAL_ADDRESSES), RemoveAnnotation(PUBLIC_ADDRESSES)];
    ghost var o := target.obj;
    ghost var o1 := OptionApplied(o, opts[0]);
    ghost var o2 := OptionApplied(o1, opts[1]);
    assert opts[..1] == [opts[0]] && opts[..0] == [];
    assert OptionsApplied(o, opts[..1]) == o1;
    assert o2 == OptionsApplied(o, opts);
    assert o.annotations - {EXTERNAL_ADDRESSES} - {PUBLIC_ADDRESSES}
        == o.annotations - {EXTERNAL_ADDRESSES, PUBLIC_ADDRESSES};
    if |publicHosts| > 0 {
      opts := opts + [SetAnnotation(PUBLIC_ADDRESSES, Join(publicHosts, ";"))];
      assert opts[..2] == [RemoveAnnotation(EXTERNAL_ADDRESSES), RemoveAnnotation(PUBLIC_ADDRESSES)];
    }
    ghost var o3 := OptionsApplied(o, opts);
    if |externalHosts| > 0 {
      ghost var before := opts;
      opts := opts + [SetAnnotation(EXTERNAL_ADDRESSES, Join(externalHosts, ";"))];
      assert opts[..|opts| - 1] == before;
    }
    target.ApplyMeta(opts);
  }

  /* ---------- one service ---------- */

  /** The run works for the holder of `owner`, in the configured namespace, and only for known modes. */
  ghost predicate WorksFor(r: Run, owner: Resource, gateway: string) {
    && r.cr == owner.key && r.uid == owner.obj.uid && r.gateway == gateway
    && !IsRoutingGvk(r.cr.gvk)
    && forall m | m in r.modes :: m in AllRouteTypes()
  }

  lemma LabelledResource(r: Run, owner: Resource, d: ExposedService, mode: RouteType, i: nat, k: Key, o: Obj)
    requires WorksFor(r, owner, d.ingress.gatewayNamespace) && mode in r.modes
    requires i < |Documents(mode)| && k == DocumentKey(Documents(mode)[i], d)
    requires o.labels == LabelsFor(owner, mode) && o.uid == "" && o.finalizers == [] && !o.deleting
    ensures Labelled(r, k, o)
  {
    TemplateKinds(mode, i);
  }

  /** Loads the templates of one mode for one port and applies them, labelled for the mode. */
  method ExportMode(server: ApiServer, owner: Resource, d: ExposedService, mode: RouteType, labels: seq<Label>,
                    ghost r: Run)
    returns (labels': seq<Label>, err: Option<Error>, ghost plan: seq<Resource>)
    requires Steady(server, r) && WorksFor(r, owner, d.ingress.gatewayNamespace) && mode in r.modes
    requires Accumulated(owner, labels)
    modifies server
    ensures Kept(server, r, old(server.history), old(server.world))
    ensures AllAsking(server.history, |old(server.history)|, Members(LabelledAll(owner, mode, Resources(mode, d))))
    ensures err == None ==>
      AllGranted(server.history, |old(server.history)|, Members(LabelledAll(owner, mode, Resources(mode, d))))
    ensures Accumulated(owner, labels')
    ensures err == None ==> Loadable(mode, d)
    ensures server.quiet ==>
      && (err == None <==> Loadable(mode, d))
      && plan == (if err == None then LabelledAll(owner, mode, Resources(mode, d)) else [])
      && server.world == old(server.world).(c := ApplySeq(old(server.world.c), plan))
  {
    hide Safe, Holds, Clean, UserRules, OwnStep, ApplyOp, Later, WellFormed, Loadable, KnownFinalizers, AsksFor,
         RightKeys, AllGranted, AllAsking;
    NoProgress(server, r);
    NoRequests(server.history, Members(LabelledAll(owner, mode, Resources(mode, d))));
    labels', plan := labels, [];
    var loaded := Load(d, mode);
    if loaded.Err? {
      return labels, Some(loaded.error), [];
    }
    labels' := labels + [Label(EXPORT_TYPE, mode)];
    assert labels'[..4] == labels[..4];
    var opts := AsOptions(labels');
    var resources := loaded.value;
    forall i | 0 <= i < |resources|
      ensures OptionsApplied(resources[i].obj, opts) == resources[i].obj.(labels := LabelsFor(owner, mode))
      ensures Labelled(r, resources[i].key, OptionsApplied(resources[i].obj, opts))
    {
      LastTypeWins(resources[i].obj, owner, labels', mode);
      LabelledResource(r, owner, d, mode, i, resources[i].key, OptionsApplied(resources[i].obj, opts));
    }
    plan := WithOptions(resources, opts);
    assert plan == LabelledAll(owner, mode, resources);
    err := Unstruct.Apply(server, resources, opts, r);
  }

  /* ---------- one port, one service, all services ---------- */

  /** What is wanted for one port in some modes. */
  ghost function PortWants(owner: Resource, ingress: IngressConfig, domain: string, svc: Service, port: Port,
                           modes: seq<RouteType>): iset<Resource> {
    iset x | IsWanted(owner, ingress, domain, svc, [port], modes, x)
  }

  ghost predicate IsWanted(owner: Resource, ingress: IngressConfig, domain: string, svc: Service, ports: seq<Port>,
                           modes: seq<RouteType>, x: Resource) {
    exists p, m :: p in ports && m in modes && x in Desired(owner, ingress, domain, svc, p, m)
  }

  /** What is wanted for some ports. */
  ghost function PortsWant(owner: Resource, ingress: IngressConfig, domain: string, svc: Service, ports: seq<Port>,
                           modes: seq<RouteType>): iset<Resource> {
    iset x | IsWanted(owner, ingress, domain, svc, ports, modes, x)
  }

  ghost function ServiceWants(owner: Resource, ingress: IngressConfig, domain: string, svc: Service,
                              modes: set<RouteType>): iset<Resource> {
    iset x | IsDesired(owner, ingress, domain, svc, modes, x)
  }

  ghost function ServicesWant(owner: Resource, ingress: IngressConfig, domain: string, services: seq<Service>,
                              modes: set<RouteType>): iset<Resource> {
    iset x | IsDesiredOf(owner, ingress, domain, services, modes, x)
  }

  /** The plan holds exactly the members of `xs`. */
  ghost predicate Lists(plan: seq<Resource>, xs: iset<Resource>) {
    forall x :: x in plan <==> x in xs
  }

  ghost predicate Within(plan: seq<Resource>, xs: iset<Resource>) {
    forall x | x in plan :: x in xs
  }

  lemma OneMoreMode(owner: Resource, ingress: IngressConfig, domain: string, svc: Service, port: Port,
                    modes: seq<RouteType>, mode: RouteType)
    ensures PortWants(owner, ingress, domain, svc, port, modes + [mode])
         == PortWants(owner, ingress, domain, svc, port, modes)
             + Members(Desired(owner, ingress, domain, svc, port, mode))
  {
    forall x ensures x in PortWants(owner, ingress, domain, svc, port, modes + [mode])
                <==> (x in PortWants(owner, ingress, domain, svc, port, modes)
                      || x in Desired(owner, ingress, domain, svc, port, mode))
    {
      assert mode in modes + [mode] && port in [port];
      if m :| m in modes && x in Desired(owner, ingress, domain, svc, port, m) { assert m in modes + [mode]; }
    }
  }

  lemma OneMorePort(owner: Resource, ingress: IngressConfig, domain: string, svc: Service, ports: seq<Port>,
                    modes: seq<RouteType>, port: Port)
    ensures PortsWant(owner, ingress, domain, svc, ports + [port], modes)
         == PortsWant(owner, ingress, domain, svc, ports, modes) + PortWants(owner, ingress, domain, svc, port, modes)
  {
    forall x ensures x in PortsWant(owner, ingress, domain, svc, ports + [port], modes)
                <==> (x in PortsWant(owner, ingress, domain, svc, ports, modes)
                      || x in PortWants(owner, ingress, domain, svc, port, modes))
    {
      if p, m :| p in ports && m in modes && x in Desired(owner, ingress, domain, svc, p, m) {
        assert p in ports + [port];
      }
      if m :| m in modes && x in Desired(owner, ingress, domain, svc, port, m) {
        assert port in ports + [port] && port in [port];
      }
    }
  }

  lemma SomeModes(owner: Resource, ingress: IngressConfig, domain: string, svc: Service, port: Port,
                  modes: seq<RouteType>, n: nat)
    requires n <= |modes|
    ensures PortWants(owner, ingress, domain, svc, port, modes[..n]) <= PortWants(owner, ingress, domain, svc, port,
        modes)
  {
  }

  lemma SomePorts(owner: Resource, ingress: IngressConfig, domain: string, svc: Service, ports: seq<Port>,
                  modes: seq<RouteType>, n: nat)
    requires n <= |ports|
    ensures PortsWant(owner, ingress, domain, svc, ports[..n], modes) <= PortsWant(owner, ingress, domain, svc, ports,
        modes)
  {
  }

  lemma NothingWanted(owner: Resource, ingress: IngressConfig, domain: string, svc: Service, port: Port,
                      modes: seq<RouteType>)
    ensures PortWants(owner, ingress, domain, svc, port, []) == iset{}
    ensures PortsWant(owner, ingress, domain, svc, [], modes) == iset{}
    ensures Lists([], PortsWant(owner, ingress, domain, svc, [], modes))
  {
  }

  lemma ListsIsWithin(plan: seq<Resource>, xs: iset<Resource>)
    ensures Lists(plan, xs) ==> Within(plan, xs)
  {
  }

  lemma ListsMore(plan: seq<Resource>, more: seq<Resource>, xs: iset<Resource>, ys: iset<Resource>)
    ensures Lists(plan, xs) && Lists(more, ys) ==> Lists(plan + more, xs + ys)
    ensures Within(plan, xs) && Within(more, ys) ==> Within(plan + more, xs + ys)
  {
  }

  /** The inner loop: one port in every enabled mode, in the order the modes came up; the first failure ends it. */
  method ExportPort(server: ApiServer, owner: Resource, svc: Service, port: Port, ingress: IngressConfig,
                    domain: string, exportModes: seq<RouteType>, labels: seq<Label>, ghost r: Run)
    returns (labels': seq<Label>, external: seq<string>, public: seq<string>, err: Option<Error>,
        ghost plan: seq<Resource>)
    requires Steady(server, r) && WorksFor(r, owner, ingress.gatewayNamespace)
    requires forall m | m in exportModes :: m in r.modes
    requires NoDuplicates(exportModes) && Accumulated(owner, labels)
    modifies server
    ensures Kept(server, r, old(server.history), old(server.world))
    ensures AllAsking(server.history, |old(server.history)|, PortWants(owner, ingress, domain, svc, port, exportModes))
    ensures err == None ==>
      AllGranted(server.history, |old(server.history)|, PortWants(owner, ingress, domain, svc, port, exportModes))
    ensures Accumulated(owner, labels')
    ensures err == None ==>
      external == if EXTERNAL_ROUTE in exportModes then [NewExposedService(svc, port, ingress,
          domain).ExternalHost()] else []
    ensures err == None ==>
      public == if PUBLIC_ROUTE in exportModes then NewExposedService(svc, port, ingress, domain).PublicHosts() else []
    ensures err == None ==> forall m | m in exportModes :: Loadable(m, NewExposedService(svc, port, ingress, domain))
    ensures server.quiet ==>
      && (err == None <==> forall m | m in exportModes :: Loadable(m, NewExposedService(svc, port, ingress, domain)))
      && Within(plan, PortWants(owner, ingress, domain, svc, port, exportModes))
      && (err == None ==> Lists(plan, PortWants(owner, ingress, domain, svc, port, exportModes)))
      && server.world == old(server.world).(c := ApplySeq(old(server.world.c), plan))
  {
    hide Safe, Holds, Clean, UserRules, OwnStep, ApplyOp, ApplySeq, Later, WellFormed, Loadable, Resources,
         LabelledAll, LabelsFor, DocumentKey, WorksFor, Accumulated, OwnSteps, HoldsAt, CleanAt, PortWants,
         KnownFinalizers, AllAsking, AllGranted, Desired;
    var d := NewExposedService(svc, port, ingress, domain);
    ghost var h0, w0 := server.history, server.world;
    labels', external, public, plan := labels, [], [], [];
    ApplyNothing(w0.c);
    NothingWanted(owner, ingress, domain, svc, port, exportModes);
    NoProgress(server, r);
    NoRequests(server.history, PortWants(owner, ingress, domain, svc, port, []));
    assert exportModes[..0] == [];
    for j := 0 to |exportModes|
      invariant Kept(server, r, h0, w0)
      invariant AllAsking(server.history, |h0|, PortWants(owner, ingress, domain, svc, port, exportModes[..j]))
      invariant AllGranted(server.history, |h0|, PortWants(owner, ingress, domain, svc, port, exportModes[..j]))
      invariant Accumulated(owner, labels')
      invariant external == if EXTERNAL_ROUTE in exportModes[..j] then [d.ExternalHost()] else []
      invariant public == if PUBLIC_ROUTE in exportModes[..j] then d.PublicHosts() else []
      invariant forall m | m in exportModes[..j] :: Loadable(m, d)
      invariant server.quiet ==> Lists(plan, PortWants(owner, ingress, domain, svc, port, exportModes[..j]))
      invariant server.quiet ==> server.world == w0.(c := ApplySeq(w0.c, plan))
    {
      var mode := exportModes[j];
      assert mode !in exportModes[..j] && mode in exportModes;
      assert exportModes[..j + 1] == exportModes[..j] + [mode];
      ghost var h1 := server.history;
      ghost var more: seq<Resource>;
      ghost var before, now := PortWants(owner, ingress, domain, svc, port, exportModes[..j]),
                               PortWants(owner, ingress, domain, svc, port, exportModes[..j + 1]);
      ghost var own := Members(Desired(owner, ingress, domain, svc, port, mode));
      labels', err, more := ExportMode(server, owner, d, mode, labels', r);
      DesiredIs(owner, ingress, domain, svc, port, mode);
      KeptTransitive(r, h0, h1, server.history);
      OneMoreMode(owner, ingress, domain, svc, port, exportModes[..j], mode);
      SomeModes(owner, ingress, domain, svc, port, exportModes, j + 1);
      AskingTransitive(h0, h1, server.history, before, own, now);
      if err == None { GrantedTransitive(h0, h1, server.history, before, own); }
      AskingMore(server.history, |h0|, now, PortWants(owner, ingress, domain, svc, port, exportModes));
      if server.quiet {
        ApplySeqConcat(w0.c, plan, more);
        PlanGrows(plan, more, before, own, now, err == None);
      }
      plan := plan + more;
      if err != None { return; }
      if mode == EXTERNAL_ROUTE {
        external := external + [d.ExternalHost()];
      } else if mode == PUBLIC_ROUTE {
        public := public + d.PublicHosts();
      }
    }
    assert exportModes[..|exportModes|] == exportModes;
    err := None;
  }

  lemma DesiredIs(owner: Resource, ingress: IngressConfig, domain: string, svc: Service, port: Port, mode: RouteType)
    ensures Desired(owner, ingress, domain, svc, port, mode)
         == LabelledAll(owner, mode, Resources(mode, NewExposedService(svc, port, ingress, domain)))
  {
  }

  /** A plan grows by what was carried out: all that was wanted, or part of it. */
  lemma PlanGrows(plan: seq<Resource>, more: seq<Resource>, before: iset<Resource>, own: iset<Resource>,
                  now: iset<Resource>, done: bool)
    requires Lists(plan, before) && now == before + own && Within(more, own) && (done ==> Lists(more, own))
    ensures Within(plan + more, now) && (done ==> Lists(plan + more, now))
  {
    ListsMore(plan, more, before, own);
  }

  lemma AskingMore(h: seq<Entry>, from: nat, xs: iset<Resource>, ys: iset<Resource>)
    requires AllAsking(h, from, xs) && xs <= ys
    ensures AllAsking(h, from, ys)
  {
    hide AsksFor;
  }

  lemma NoProgress(s: ApiServer, r: Run)
    requires Live(s)
    ensures Kept(s, r, s.history, s.world)
  {
  }

  lemma ApplyNothing(c: Cluster)
    ensures ApplySeq(c, []) == c
  {
  }

  /** Bookkeeping of one more port: what was asked for, what can be loaded, what was planned. */
  lemma PortDone(h0: seq<Entry>, h1: seq<Entry>, h2: seq<Entry>, owner: Resource, ingress: IngressConfig,
                 domain: string, svc: Service, i: nat, modes: seq<RouteType>, done: bool)
    requires i < |svc.ports| && h0 <= h1 <= h2
    requires AllGranted(h1, |h0|, PortsWant(owner, ingress, domain, svc, svc.ports[..i], modes))
    requires done ==> AllGranted(h2, |h1|, PortWants(owner, ingress, domain, svc, svc.ports[i], modes))
    requires AllAsking(h1, |h0|, PortsWant(owner, ingress, domain, svc, svc.ports[..i], modes))
    requires AllAsking(h2, |h1|, PortWants(owner, ingress, domain, svc, svc.ports[i], modes))
    ensures AllAsking(h2, |h0|, PortsWant(owner, ingress, domain, svc, svc.ports[..i + 1], modes))
    ensures AllAsking(h2, |h0|, PortsWant(owner, ingress, domain, svc, svc.ports, modes))
    ensures done ==> AllGranted(h2, |h0|, PortsWant(owner, ingress, domain, svc, svc.ports[..i + 1], modes))
  {
    var now := PortsWant(owner, ingress, domain, svc, svc.ports[..i + 1], modes);
    assert svc.ports[..i + 1] == svc.ports[..i] + [svc.ports[i]];
    OneMorePort(owner, ingress, domain, svc, svc.ports[..i], modes, svc.ports[i]);
    SomePorts(owner, ingress, domain, svc, svc.ports, modes, i + 1);
    hide PortsWant, PortWants, AllAsking, AllGranted;
    if done {
      GrantedTransitive(h0, h1, h2, PortsWant(owner, ingress, domain, svc, svc.ports[..i], modes),
        PortWants(owner, ingress, domain, svc, svc.ports[i], modes));
    }
    AskingTransitive(h0, h1, h2, PortsWant(owner, ingress, domain, svc, svc.ports[..i], modes),
      PortWants(owner, ingress, domain, svc, svc.ports[i], modes), now);
    AskingMore(h2, |h0|, now, PortsWant(owner, ingress, domain, svc, svc.ports, modes));
  }

  lemma PortLoadable(ingress: IngressConfig, domain: string, svc: Service, i: nat, modes: seq<RouteType>,
                     types: set<RouteType>)
    requires i < |svc.ports| && forall m :: m in modes <==> m in types
    ensures PortsLoadable(ingress, domain, svc, svc.ports[..i], types)
            && (forall m | m in modes :: Loadable(m, NewExposedService(svc, svc.ports[i], ingress, domain)))
       <==> PortsLoadable(ingress, domain, svc, svc.ports[..i + 1], types)
    ensures AllLoadable(ingress, domain, svc, types) ==> PortsLoadable(ingress, domain, svc, svc.ports[..i + 1], types)
  {
    assert svc.ports[..i + 1] == svc.ports[..i] + [svc.ports[i]];
    OneMoreLoadable(ingress, domain, svc, svc.ports[..i], svc.ports[i], types);
    SomeLoadable(ingress, domain, svc, svc.ports, types, i + 1);
    hide PortsLoadable, Loadable;
  }

  lemma PortPlanned(plan: seq<Resource>, more: seq<Resource>, owner: Resource, ingress: IngressConfig, domain: string,
                    svc: Service, i: nat, modes: seq<RouteType>, done: bool)
    requires i < |svc.ports| && Lists(plan, PortsWant(owner, ingress, domain, svc, svc.ports[..i], modes))
    requires Within(more, PortWants(owner, ingress, domain, svc, svc.ports[i], modes))
    requires done ==> Lists(more, PortWants(owner, ingress, domain, svc, svc.ports[i], modes))
    ensures Within(plan + more, PortsWant(owner, ingress, domain, svc, svc.ports, modes))
    ensures done ==> Lists(plan + more, PortsWant(owner, ingress, domain, svc, svc.ports[..i + 1], modes))
  {
    assert svc.ports[..i + 1] == svc.ports[..i] + [svc.ports[i]];
    OneMorePort(owner, ingress, domain, svc, svc.ports[..i], modes, svc.ports[i]);
    SomePorts(owner, ingress, domain, svc, svc.ports, modes, i + 1);
    hide PortsWant, PortWants;
    PlanGrows(plan, more, PortsWant(owner, ingress, domain, svc, svc.ports[..i], modes),
      PortWants(owner, ingress, domain, svc, svc.ports[i], modes), PortsWant(owner, ingress, domain, svc,
          svc.ports[..i + 1], modes), done);
  }

  /** Creates or updates what every port of the service needs in every enabled mode, then publishes the hosts. */
  method ExportService(server: ApiServer, target: Unstructured, svc: Service, ingress: IngressConfig, domain: string,
                       ghost r: Run)
    returns (err: Option<Error>, ghost plan: seq<Resource>)
    requires Steady(server, r) && WorksFor(r, target.Value(), ingress.gatewayNamespace)
    requires r.modes == Enabled(target.obj.annotations)
    modifies server, target`obj
    ensures Kept(server, r, old(server.history), old(server.world))
    ensures AllAsking(server.history, |old(server.history)|,
        ServiceWants(old(target.Value()), ingress, domain, svc, r.modes))
    ensures err == None ==>
      AllGranted(server.history, |old(server.history)|,
          ServiceWants(old(target.Value()), ingress, domain, svc, r.modes))
    ensures target.obj == if err == None
      then old(target.obj).(annotations := PublishedFor(old(target.obj).annotations, ingress, domain, svc, r.modes))
      else old(target.obj)
    ensures err == None ==> AllLoadable(ingress, domain, svc, r.modes)
    ensures server.quiet ==>
      && (err == None <==> AllLoadable(ingress, domain, svc, r.modes))
      && Within(plan, ServiceWants(old(target.Value()), ingress, domain, svc, r.modes))
      && (err == None ==> Lists(plan, ServiceWants(old(target.Value()), ingress, domain, svc, r.modes)))
      && server.world == old(server.world).(c := ApplySeq(old(server.world.c), plan))
  {
    hide Safe, Holds, Clean, UserRules, OwnStep, ApplyOp, ApplySeq, Later, WellFormed, Loadable, Enabled, Resources,
         LabelledAll, LabelsFor, DocumentKey, WorksFor, Accumulated, OwnSteps, HoldsAt, CleanAt, PortWants, PortsWant,
         Propagated, NewExposedService, IsDesired, Desired, AllRouteTypes, AsOwner, KnownFinalizers, AllAsking,
         AllGranted,
         ServiceWants, PortsLoadable, OwnershipLabels, IsRoutingGvk, Lists, Within, ExternalHostsOf, PublicHostsOf;
    var owner := target.Value();
    ghost var h0, w0 := server.history, server.world;
    var exportModes := ExtractExportModes(target.obj.annotations);
    var externalHosts: seq<string>, publicHosts: seq<string> := [], [];
    var labels := OwnershipLabels(owner);
    StartLabels(owner);
    plan := [];
    ApplyNothing(w0.c);
    NothingWanted(owner, ingress, domain, svc, Port("", ""), exportModes);
    NoProgress(server, r);
    NoRequests(server.history, PortsWant(owner, ingress, domain, svc, [], exportModes));
    PortsAreService(owner, ingress, domain, svc, exportModes, r.modes);
    OneMoreLoadable(ingress, domain, svc, [], Port("", ""), r.modes);
    NoHosts(ingress, domain, svc);
    for i := 0 to |svc.ports|
      invariant target.obj == owner.obj
      invariant Kept(server, r, h0, w0)
      invariant AllAsking(server.history, |h0|, PortsWant(owner, ingress, domain, svc, svc.ports[..i], exportModes))
      invariant AllGranted(server.history, |h0|, PortsWant(owner, ingress, domain, svc, svc.ports[..i], exportModes))
      invariant Accumulated(owner, labels)
      invariant externalHosts == if EXTERNAL_ROUTE in r.modes then ExternalHostsOf(ingress, domain, svc,
          svc.ports[..i]) else []
      invariant publicHosts == if PUBLIC_ROUTE in r.modes then PublicHostsOf(ingress, domain, svc, svc.ports[..i])
        else []
      invariant PortsLoadable(ingress, domain, svc, svc.ports[..i], r.modes)
      invariant server.quiet ==> Lists(plan, PortsWant(owner, ingress, domain, svc, svc.ports[..i], exportModes))
      invariant server.quiet ==> server.world == w0.(c := ApplySeq(w0.c, plan))
    {
      ghost var h1 := server.history;
      ghost var more: seq<Resource>;
      var external, public: seq<string>;
      labels, external, public, err, more := ExportPort(server, owner, svc, svc.ports[i], ingress, domain, exportModes,
          labels, r);
      KeptTransitive(r, h0, h1, server.history);
      assert svc.ports[..i + 1] == svc.ports[..i] + [svc.ports[i]];
      PortDone(h0, h1, server.history, owner, ingress, domain, svc, i, exportModes, err == None);
      PortLoadable(ingress, domain, svc, i, exportModes, r.modes);
      HostsGrow(ingress, domain, svc, i);
      if server.quiet {
        ApplySeqConcat(w0.c, plan, more);
        PortPlanned(plan, more, owner, ingress, domain, svc, i, exportModes, err == None);
      }
      plan := plan + more;
      if err != None { return; }
      externalHosts := externalHosts + external;
      publicHosts := publicHosts + public;
    }
    assert svc.ports[..|svc.ports|] == svc.ports;
    ListsIsWithin(plan, ServiceWants(owner, ingress, domain, svc, r.modes));
    PropagateHosts(target, publicHosts, externalHosts);
    err := None;
  }

  lemma NoRequests(h: seq<Entry>, xs: iset<Resource>)
    ensures AllAsking(h, |h|, xs) && (xs == iset{} ==> AllGranted(h, |h|, xs))
  {
  }

  lemma StartLabels(owner: Resource)
    ensures Accumulated(owner, OwnershipLabels(owner))
  {
  }

  lemma PortsAreService(owner: Resource, ingress: IngressConfig, domain: string, svc: Service, modes: seq<RouteType>,
                        types: set<RouteType>)
    requires forall m :: m in modes <==> m in types
    ensures PortsWant(owner, ingress, domain, svc, svc.ports, modes) == ServiceWants(owner, ingress, domain, svc, types)
  {
  }

  /** What the cluster answers when asked for the exported services and for its domain. */
  datatype Discovery = Discovery(services: Result<seq<Service>>, domain: Result<string>)
  {
    /** There is something to export. */
    predicate Found() {
      services.Ok? && services.value != [] && domain.Ok?
    }

    /** What keeps services from being exported. An empty list of services counts as a failure. */
    function Missing(): Error
      requires !Found()
    {
      if services.Err? then services.error
      else if services.value == [] then Failure("no exported services found")
      else domain.error
    }
  }

  /** Every service overwrites the addresses of the one before: the last one listed is what gets published. */
  function Published(a: map<string, string>, ingress: IngressConfig, found: Discovery,
                     modes: set<RouteType>): map<string, string> {
    if modes == {} then Propagated(a, [], [])
    else if found.Found() then
      PublishedFor(a, ingress, found.domain.value, found.services.value[|found.services.value| - 1], modes)
    else a
  }

  lemma PropagatedTwice(a: map<string, string>, p: seq<string>, e: seq<string>, p': seq<string>, e': seq<string>)
    ensures Propagated(Propagated(a, p, e), p', e') == Propagated(a, p', e')
  {
    assert Propagated(a, p, e) - {EXTERNAL_ADDRESSES, PUBLIC_ADDRESSES} == a - {EXTERNAL_ADDRESSES, PUBLIC_ADDRESSES};
  }

  /** Two states of the same custom resource want the same. */
  lemma SameOwnerWants(o: Resource, o': Resource, ingress: IngressConfig, domain: string, svc: Service,
                       modes: set<RouteType>, x: Resource)
    requires o.key == o'.key && o.obj.uid == o'.obj.uid
    ensures IsDesired(o, ingress, domain, svc, modes, x) <==> IsDesired(o', ingress, domain, svc, modes, x)
  {
    forall m ensures LabelsFor(o, m) == LabelsFor(o', m) {
    }
    forall p, m ensures Desired(o, ingress, domain, svc, p, m) == Desired(o', ingress, domain, svc, p, m) {
      var rs := Resources(m, NewExposedService(svc, p, ingress, domain));
      assert LabelledAll(o, m, rs) == LabelledAll(o', m, rs);
    }
  }

  /** Nothing but the address annotations may change. */
  ghost predicate AddressEdit(o: Obj, o': Obj) {
    o' == o.(annotations := o'.annotations) && OwnEdit(o, o') && Enabled(o.annotations) == Enabled(o'.annotations)
  }

  lemma PropagatedIsAddressEdit(o: Obj, p: seq<string>, e: seq<string>)
    ensures AddressEdit(o, o.(annotations := Propagated(o.annotations, p, e)))
  {
    PropagatedElsewhere(o.annotations, p, e);
  }

  /** There is something to export, and all of it can be rendered. */
  ghost predicate Exportable(ingress: IngressConfig, found: Discovery, modes: set<RouteType>) {
    found.Found() && forall svc | svc in found.services.value :: AllLoadable(ingress, found.domain.value, svc, modes)
  }

  /** The services all of whose templates can be loaded, in their order. */
  ghost function LoadableOnes(ingress: IngressConfig, domain: string, services: seq<Service>,
                              modes: set<RouteType>): (ones: seq<Service>)
    ensures |ones| <= |services|
  {
    if services == [] then []
    else
      var n := |services| - 1;
      LoadableOnes(ingress, domain, services[..n], modes)
          + if AllLoadable(ingress, domain, services[n], modes) then [services[n]] else []
  }

  /** What is found, without the services some template of which cannot be loaded. */
  ghost function Renderable(ingress: IngressConfig, found: Discovery, modes: set<RouteType>): Discovery {
    if found.services.Ok? && found.domain.Ok?
    then found.(services := Ok(LoadableOnes(ingress, found.domain.value, found.services.value, modes)))
    else found
  }

  /** Only wanted resources, and all that the loadable services want. */
  ghost predicate PartOf(plan: seq<Resource>, owner: Resource, ingress: IngressConfig, domain: string,
                         services: seq<Service>, modes: set<RouteType>) {
    && Within(plan, ServicesWant(owner, ingress, domain, services, modes))
    && (forall svc | svc in services && AllLoadable(ingress, domain, svc, modes) ::
          forall x | x in ServiceWants(owner, ingress, domain, svc, modes) :: x in plan)
  }

  lemma {:induction false} AllLoadableOnes(ingress: IngressConfig, domain: string, services: seq<Service>,
                                           modes: set<RouteType>)
    ensures LoadableOnes(ingress, domain, services, modes) == services
       <==> forall svc | svc in services :: AllLoadable(ingress, domain, svc, modes)
    ensures |LoadableOnes(ingress, domain, services, modes)| == |services| ==>
      LoadableOnes(ingress, domain, services, modes) == services
    decreases |services|
  {
    if services != [] {
      var n := |services| - 1;
      AllLoadableOnes(ingress, domain, services[..n], modes);
      hide AllLoadable;
      assert services == services[..n] + [services[n]];
    }
  }

  /** All loadable: the part is the whole. */
  lemma WholePlan(plan: seq<Resource>, owner: Resource, ingress: IngressConfig, domain: string, services: seq<Service>,
                  modes: set<RouteType>)
    requires PartOf(plan, owner, ingress, domain, services, modes)
    requires forall svc | svc in services :: AllLoadable(ingress, domain, svc, modes)
    ensures Lists(plan, ServicesWant(owner, ingress, domain, services, modes))
  {
    hide IsDesired, AllLoadable;
    forall x | x in ServicesWant(owner, ingress, domain, services, modes) ensures x in plan {
      var svc :| svc in services && IsDesired(owner, ingress, domain, svc, modes, x);
      assert x in ServiceWants(owner, ingress, domain, svc, modes);
    }
  }

  /** One more service on the list. */
  lemma OneMoreService(plan: seq<Resource>, more: seq<Resource>, owner: Resource, owner': Resource,
                       ingress: IngressConfig, domain: string, services: seq<Service>, svc: Service,
                       modes: set<RouteType>)
    requires PartOf(plan, owner, ingress, domain, services, modes)
    requires Within(more, ServiceWants(owner', ingress, domain, svc, modes))
    requires AllLoadable(ingress, domain, svc, modes) ==> Lists(more, ServiceWants(owner', ingress, domain, svc, modes))
    requires owner.key == owner'.key && owner.obj.uid == owner'.obj.uid
    ensures PartOf(plan + more, owner, ingress, domain, services + [svc], modes)
  {
    hide AllLoadable, ServiceWants, ServicesWant;
    SameWants(owner, owner', ingress, domain, svc, modes);
    ServicesGrow(owner, ingress, domain, services, svc, modes);
    forall s, x | s in services + [svc] && AllLoadable(ingress, domain, s, modes)
        && x in ServiceWants(owner, ingress, domain, s, modes)
      ensures x in plan + more
    {
      assert s in services || s == svc;
    }
  }

  lemma SameWants(o: Resource, o': Resource, ingress: IngressConfig, domain: string, svc: Service,
                  modes: set<RouteType>)
    requires o.key == o'.key && o.obj.uid == o'.obj.uid
    ensures ServiceWants(o, ingress, domain, svc, modes) == ServiceWants(o', ingress, domain, svc, modes)
  {
    forall x ensures IsDesired(o, ingress, domain, svc, modes, x) <==> IsDesired(o', ingress, domain, svc, modes, x) {
      SameOwnerWants(o, o', ingress, domain, svc, modes, x);
    }
    hide IsDesired;
  }

  lemma ServicesGrow(owner: Resource, ingress: IngressConfig, domain: string, services: seq<Service>, svc: Service,
                     modes: set<RouteType>)
    ensures ServicesWant(owner, ingress, domain, services + [svc], modes)
         == ServicesWant(owner, ingress, domain, services, modes) + ServiceWants(owner, ingress, domain, svc, modes)
  {
    hide IsDesired;
    forall x ensures IsDesiredOf(owner, ingress, domain, services + [svc], modes, x)
                <==> (IsDesiredOf(owner, ingress, domain, services, modes, x)
                      || IsDesired(owner, ingress, domain, svc, modes, x))
    {
      assert svc in services + [svc];
      if s :| s in services && IsDesired(owner, ingress, domain, s, modes, x) { assert s in services + [svc]; }
    }
  }

  /** The object after the services listed so far. */
  ghost predicate AddressedSoFar(o: Obj, o': Obj, ingress: IngressConfig, domain: string, services: seq<Service>,
                                 modes: set<RouteType>) {
    o' == o.(annotations := Published(o.annotations, ingress,
        Discovery(Ok(LoadableOnes(ingress, domain, services, modes)), Ok(domain)), modes))
  }

  /** The errors among the outcomes, in order. */
  ghost function Failures(outcomes: seq<Option<Error>>): seq<Error> {
    if outcomes == [] then []
    else Failures(outcomes[..|outcomes| - 1]) + Listed(outcomes[|outcomes| - 1])
  }

  /** The services without an error, in order. */
  ghost function Exported(services: seq<Service>, outcomes: seq<Option<Error>>): (ones: seq<Service>)
    requires |outcomes| == |services|
    ensures |ones| <= |services|
  {
    if services == [] then []
    else
      var n := |services| - 1;
      Exported(services[..n], outcomes[..n]) + if outcomes[n] == None then [services[n]] else []
  }

  /** Every service was tried: the errors are those of the services, every request for a service without an error was
      accepted, and the addresses are those of the last such service. */
  ghost predicate AllTried(h: seq<Entry>, from: nat, owner: Resource, o': Obj, ingress: IngressConfig, domain: string,
                           services: seq<Service>, modes: set<RouteType>, errs: seq<Error>,
                           outcomes: seq<Option<Error>>) {
    && |outcomes| == |services|
    && errs == Failures(outcomes)
    && (forall i :: 0 <= i < |services| && outcomes[i] == None ==>
          AllGranted(h, from, ServiceWants(owner, ingress, domain, services[i], modes)))
    && o' == owner.obj.(annotations := Published(owner.obj.annotations, ingress,
        Discovery(Ok(Exported(services, outcomes)), Ok(domain)), modes))
  }

  lemma NoneTried(h: seq<Entry>, owner: Resource, ingress: IngressConfig, domain: string, modes: set<RouteType>)
    requires modes != {}
    ensures AllTried(h, |h|, owner, owner.obj, ingress, domain, [], modes, [], [])
  {
  }

  lemma OneMoreTried(h0: seq<Entry>, h1: seq<Entry>, h2: seq<Entry>, owner: Resource, b: Obj, c: Obj,
                     ingress: IngressConfig, domain: string, services: seq<Service>, svc: Service,
                     modes: set<RouteType>, errs: seq<Error>, outcomes: seq<Option<Error>>, err: Option<Error>)
    requires h0 <= h1 <= h2 && modes != {}
    requires AllTried(h1, |h0|, owner, b, ingress, domain, services, modes, errs, outcomes)
    requires err == None ==> AllGranted(h2, |h1|, ServiceWants(owner, ingress, domain, svc, modes))
    requires c == if err == None then b.(annotations := PublishedFor(b.annotations, ingress, domain, svc, modes)) else b
    ensures AllTried(h2, |h0|, owner, c, ingress, domain, services + [svc], modes, errs + Listed(err), outcomes + [err])
  {
    hide PublishedFor, AllGranted, ServiceWants, Propagated;
    var all, told, n := services + [svc], outcomes + [err], |services|;
    assert all[..n] == services && told[..n] == outcomes;
    var ones := Exported(services, outcomes);
    if err == None && ones != [] {
      Overwrites(owner.obj.annotations, ingress, domain, ones[|ones| - 1], svc, modes);
    }
    forall i | 0 <= i < |all| && told[i] == None
      ensures AllGranted(h2, |h0|, ServiceWants(owner, ingress, domain, all[i], modes)) {
      if i < n {
        GrantedSince(h0, h0, h1, h2, ServiceWants(owner, ingress, domain, services[i], modes));
      } else {
        GrantedSince(h0, h1, h2, h2, ServiceWants(owner, ingress, domain, svc, modes));
      }
    }
  }

  method CreateRoutingResources(server: ApiServer, target: Unstructured, ingress: IngressConfig, found: Discovery,
                                ghost r: Run)
    returns (errs: seq<Error>, ghost plan: seq<Resource>, ghost outcomes: seq<Option<Error>>)
    requires Steady(server, r) && WorksFor(r, target.Value(), ingress.gatewayNamespace)
    requires r.modes == Enabled(target.obj.annotations)
    modifies server, target`obj
    ensures Kept(server, r, old(server.history), old(server.world))
    ensures r.modes != {} && found.Found() ==>
      AllTried(server.history, |old(server.history)|, old(target.Value()), target.obj, ingress, found.domain.value,
          found.services.value, r.modes, errs, outcomes)
    ensures found.Found() ==> AllAsking(server.history, |old(server.history)|,
      ServicesWant(old(target.Value()), ingress, found.domain.value, found.services.value, r.modes))
    ensures errs == [] && r.modes != {} ==>
      found.Found() && AllGranted(server.history, |old(server.history)|,
        ServicesWant(old(target.Value()), ingress, found.domain.value, found.services.value, r.modes))
    ensures AddressEdit(old(target.obj), target.obj)
    ensures errs == [] ==>
      target.obj == old(target.obj).(annotations := Published(old(target.obj).annotations, ingress, found, r.modes))
    ensures errs == [] ==> r.modes == {} || Exportable(ingress, found, r.modes)
    ensures errs != [] && target.obj != old(target.obj) ==>
      found.Found() && AddressedFor(old(target.obj), target.obj, ingress, found.domain.value, found.services.value,
          r.modes)
    ensures r.modes == {} ==>
      errs == [] && plan == [] && server.history == old(server.history) && server.world == old(server.world)
    ensures r.modes != {} && found.services.Err? ==> errs == [found.services.error]
    ensures r.modes != {} && found.services == Ok([]) ==> errs == [Failure("no exported services found")]
    ensures r.modes != {} && found.services.Ok? && found.services.value != [] && found.domain.Err? ==>
      errs == [found.domain.error]
    ensures r.modes != {} && !found.Found() ==>
      && errs == [found.Missing()] && plan == [] && target.obj == old(target.obj)
      && server.history == old(server.history) && server.world == old(server.world)
    ensures server.quiet && r.modes != {} && found.Found() ==>
      && |errs| == |found.services.value| - |LoadableOnes(ingress, found.domain.value, found.services.value, r.modes)|
      && PartOf(plan, old(target.Value()), ingress, found.domain.value, found.services.value, r.modes)
      && target.obj == old(target.obj).(annotations :=
           Published(old(target.obj).annotations, ingress, Renderable(ingress, found, r.modes), r.modes))
      && server.world == old(server.world).(c := ApplySeq(old(server.world.c), plan))
  {
    hide Safe, Holds, Clean, UserRules, OwnStep, ApplySeq, Later, WellFormed, Enabled, OwnSteps, HoldsAt, CleanAt,
         AllLoadable, IsDesired, Propagated, AddressEdit, ExternalHostsOf, PublicHostsOf, KnownFinalizers, AllAsking,
         AllGranted,
         ServicesWant, ServiceWants, LoadableOnes, PartOf, AddressedSoFar, Published, AllTried, PublishedFor,
         IsRoutingGvk, Lists, Within;
    ghost var owner, h0, w0 := target.Value(), server.history, server.world;
    plan := [];
    PropagatedIsAddressEdit(owner.obj, [], []);
    NoEdit(owner.obj);
    NoProgress(server, r);
    Unpublished(owner.obj, ingress, found, r.modes);
    NoRequests(server.history, iset{});
    var modes := ExtractExportModes(target.obj.annotations);
    if modes == [] {
      assert r.modes == {};
      PropagateHosts(target, [], []);
      if found.Found() {
        AskingMore(server.history, |h0|, iset{},
            ServicesWant(owner, ingress, found.domain.value, found.services.value, r.modes));
      }
      return [], plan, [];
    }
    assert modes[0] in r.modes;
    outcomes := [];
    if found.services.Err? { return [found.services.error], plan, outcomes; }
    var services := found.services.value;
    if services == [] { return [Failure("no exported services found")], plan, outcomes; }
    if found.domain.Err? { return [found.domain.error], plan, outcomes; }
    var domain := found.domain.value;
    errs := [];
    ApplyNothing(w0.c);
    NoServices(owner, ingress, domain, r.modes);
    NoneTried(server.history, owner, ingress, domain, r.modes);
    AskingMore(server.history, |h0|, iset{}, ServicesWant(owner, ingress, domain, [], r.modes));
    NothingWantedOfNone(owner, ingress, domain, r.modes);
    for i := 0 to |services|
      invariant Kept(server, r, h0, w0)
      invariant AllTried(server.history, |h0|, owner, target.obj, ingress, domain, services[..i], r.modes, errs,
          outcomes)
      invariant AllAsking(server.history, |h0|, ServicesWant(owner, ingress, domain, services[..i], r.modes))
      invariant errs == [] ==>
        AllGranted(server.history, |h0|, ServicesWant(owner, ingress, domain, services[..i], r.modes))
      invariant AddressEdit(owner.obj, target.obj) && target.obj.uid == owner.obj.uid
      invariant r.modes == Enabled(target.obj.annotations)
      invariant errs == [] ==> forall svc | svc in services[..i] :: AllLoadable(ingress, domain, svc, r.modes)
      invariant errs == [] ==> target.obj == owner.obj.(annotations :=
        if i == 0 then owner.obj.annotations
          else PublishedFor(owner.obj.annotations, ingress, domain, services[i - 1], r.modes))
      invariant target.obj == owner.obj || AddressedFor(owner.obj, target.obj, ingress, domain, services, r.modes)
      invariant server.quiet ==> |errs| == i - |LoadableOnes(ingress, domain, services[..i], r.modes)|
      invariant server.quiet ==> PartOf(plan, owner, ingress, domain, services[..i], r.modes)
      invariant server.quiet ==> AddressedSoFar(owner.obj, target.obj, ingress, domain, services[..i], r.modes)
      invariant server.quiet ==> server.world == w0.(c := ApplySeq(w0.c, plan))
    {
      ghost var h1, before := server.history, target.Value();
      ghost var more: seq<Resource>;
      var err: Option<Error>;
      err, more := ExportService(server, target, services[i], ingress, domain, r);
      KeptTransitive(r, h0, h1, server.history);
      assert services[..i + 1] == services[..i] + [services[i]] && services[i] in services;
      ServiceEdit(owner.obj, before.obj, target.obj, ingress, domain, services[i], r.modes, err == None);
      if err == None { LatestService(owner.obj, before.obj, ingress, domain, services, services[i], r.modes); }
      SameWants(owner, before, ingress, domain, services[i], r.modes);
      ServicesGrow(owner, ingress, domain, services[..i], services[i], r.modes);
      AskingTransitive(h0, h1, server.history, ServicesWant(owner, ingress, domain, services[..i], r.modes),
        ServiceWants(owner, ingress, domain, services[i], r.modes), ServicesWant(owner, ingress, domain,
            services[..i + 1], r.modes));
      if errs == [] && err == None {
        GrantedTransitive(h0, h1, server.history, ServicesWant(owner, ingress, domain, services[..i], r.modes),
          ServiceWants(owner, ingress, domain, services[i], r.modes));
      }
      if server.quiet {
        ApplySeqConcat(w0.c, plan, more);
        OneMoreService(plan, more, owner, before, ingress, domain, services[..i], services[i], r.modes);
        OneMoreAddressed(owner.obj, before.obj, target.obj, ingress, domain, services[..i], services[i], r.modes, err
            == None);
      }
      plan := plan + more;
      OneMoreTried(h0, h1, server.history, owner, before.obj, target.obj, ingress, domain, services[..i], services[i],
        r.modes, errs, outcomes, err);
      outcomes := outcomes + [err];
      assert errs + [] == errs;
      if err.Some? {
        errs := errs + [err.value];
      }
    }
    assert services[..|services|] == services;
    AllPublished(owner.obj, target.obj, ingress, found, r.modes, errs == [], server.quiet);
  }

  lemma NothingWantedOfNone(owner: Resource, ingress: IngressConfig, domain: string, modes: set<RouteType>)
    ensures ServicesWant(owner, ingress, domain, [], modes) == iset{}
  {
  }

  lemma Unpublished(o: Obj, ingress: IngressConfig, found: Discovery, modes: set<RouteType>)
    ensures modes == {} ==> Published(o.annotations, ingress, found, modes) == Propagated(o.annotations, [], [])
    ensures modes != {} ==> forall domain :: AddressedSoFar(o, o, ingress, domain, [], modes)
  {
  }

  lemma NoServices(owner: Resource, ingress: IngressConfig, domain: string, modes: set<RouteType>)
    ensures PartOf([], owner, ingress, domain, [], modes)
    ensures LoadableOnes(ingress, domain, [], modes) == []
  {
  }

  /** The next service, if it can be exported, takes the place of the one published before. */
  lemma OneMoreAddressed(a: Obj, b: Obj, c: Obj, ingress: IngressConfig, domain: string, services: seq<Service>,
                         svc: Service, modes: set<RouteType>, done: bool)
    requires modes != {} && AddressedSoFar(a, b, ingress, domain, services, modes)
    requires (done <==> AllLoadable(ingress, domain, svc, modes))
    requires c == if done then b.(annotations := PublishedFor(b.annotations, ingress, domain, svc, modes)) else b
    ensures AddressedSoFar(a, c, ingress, domain, services + [svc], modes)
    ensures |LoadableOnes(ingress, domain, services + [svc], modes)|
        == |LoadableOnes(ingress, domain, services, modes)| + if done then 1 else 0
  {
    assert (services + [svc])[..|services|] == services;
    var ones := LoadableOnes(ingress, domain, services, modes);
    if done && ones != [] {
      Overwrites(a.annotations, ingress, domain, ones[|ones| - 1], svc, modes);
    }
    hide PublishedFor, AllLoadable;
  }

  lemma AllPublished(o: Obj, o': Obj, ingress: IngressConfig, found: Discovery, modes: set<RouteType>, done: bool,
                     quiet: bool)
    requires found.Found() && modes != {}
    requires done ==> o' == o.(annotations :=
      PublishedFor(o.annotations, ingress, found.domain.value, found.services.value[|found.services.value| - 1], modes))
    requires quiet ==> AddressedSoFar(o, o', ingress, found.domain.value, found.services.value, modes)
    ensures done ==> o' == o.(annotations := Published(o.annotations, ingress, found, modes))
    ensures quiet ==>
      o' == o.(annotations := Published(o.annotations, ingress, Renderable(ingress, found, modes), modes))
  {
    hide PublishedFor, LoadableOnes;
  }

  /** The object with the addresses of one of the services. */
  ghost predicate AddressedFor(o: Obj, o': Obj, ingress: IngressConfig, domain: string, services: seq<Service>,
                               modes: set<RouteType>) {
    exists svc :: svc in services && o' == o.(annotations := PublishedFor(o.annotations, ingress, domain, svc, modes))
  }

  /** Whichever service was published last before, the next one takes its place. */
  lemma LatestService(a: Obj, b: Obj, ingress: IngressConfig, domain: string, services: seq<Service>, svc: Service,
                      modes: set<RouteType>)
    requires b == a || AddressedFor(a, b, ingress, domain, services, modes)
    ensures b.(annotations := PublishedFor(b.annotations, ingress, domain, svc, modes))
         == a.(annotations := PublishedFor(a.annotations, ingress, domain, svc, modes))
  {
    if b != a {
      var s :| s in services && b == a.(annotations := PublishedFor(a.annotations, ingress, domain, s, modes));
      Overwrites(a.annotations, ingress, domain, s, svc, modes);
    }
  }

  lemma NoEdit(o: Obj)
    ensures AddressEdit(o, o)
  {
  }

  lemma Overwrites(a: map<string, string>, ingress: IngressConfig, domain: string, svc: Service, svc': Service,
                   modes: set<RouteType>)
    ensures PublishedFor(PublishedFor(a, ingress, domain, svc, modes), ingress, domain, svc', modes)
        == PublishedFor(a, ingress, domain, svc', modes)
  {
    PropagatedTwice(a,
      if PUBLIC_ROUTE in modes then PublicHostsOf(ingress, domain, svc, svc.ports) else [],
      if EXTERNAL_ROUTE in modes then ExternalHostsOf(ingress, domain, svc, svc.ports) else [],
      if PUBLIC_ROUTE in modes then PublicHostsOf(ingress, domain, svc', svc'.ports) else [],
      if EXTERNAL_ROUTE in modes then ExternalHostsOf(ingress, domain, svc', svc'.ports) else []);
  }

  lemma ServiceEdit(a: Obj, b: Obj, c: Obj, ingress: IngressConfig, domain: string, svc: Service, modes: set<RouteType>,
                    done: bool)
    requires AddressEdit(a, b)
    requires c == if done then b.(annotations := PublishedFor(b.annotations, ingress, domain, svc, modes)) else b
    ensures AddressEdit(a, c) && c.uid == b.uid && Enabled(c.annotations) == Enabled(b.annotations)
  {
    if done {
      PropagatedIsAddressEdit(b,
        if PUBLIC_ROUTE in modes then PublicHostsOf(ingress, domain, svc, svc.ports) else [],
        if EXTERNAL_ROUTE in modes then ExternalHostsOf(ingress, domain, svc, svc.ports) else []);
    }
  }
}
