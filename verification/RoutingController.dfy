/** The routing controller (controllers/routingctrl/controller.go). */
module RoutingController {
  import opened Api
  import opened Metadata
  import opened RouteTypes
  import opened Templates
  import opened Ownership
  import opened Server
  import opened Unstruct
  import opened Deletion
  import opened Exporting

  /** The client's copy is what is stored right now. */
  ghost predicate Fresh(c: Cluster, r: Resource) {
    r.key in c.objects && r.key in c.versions && r == Stored(c, r.key)
  }

  function RunOf(r: Resource, gateway: string, combining: Combining): Run {
    Run(r.key, r.obj.uid, gateway, Enabled(r.obj.annotations), combining)
  }

  /** A guarded custom resource read just now gives its run everything it needs. */
  lemma FreshRunHolds(watch: Option<Watch>, s: World, target: Resource, gateway: string, combining: Combining)
    requires watch.Some? ==> Safe(watch.value, s) && watch.value.gateway == gateway
    requires Fresh(s.c, target) && FINALIZER in target.obj.finalizers
    ensures HoldsAt(watch, RunOf(target, gateway, combining), s)
  {
  }

  lemma FreshRunAligned(server: ApiServer, s: World, target: Resource, gateway: string)
    requires server.watch.Some? ==> Safe(server.watch.value, s) && server.watch.value.gateway == gateway
    requires Fresh(s.c, target) && !IsRoutingGvk(target.key.gvk)
    ensures Aligned(server, RunOf(target, gateway, server.combining), target)
    ensures WorksFor(RunOf(target, gateway, server.combining), target, gateway)
  {
  }

  lemma FreshObserved(c: Cluster, target: Resource)
    requires WellFormed(c) && Fresh(c, target)
    ensures Observed(c, target.key, target.version, target.obj) && Current(c, target)
  {
  }

  lemma FinalizerEdit(o: Obj)
    ensures OwnEdit(o, WithFinalizer(o, FINALIZER)) && FINALIZER in WithFinalizer(o, FINALIZER).finalizers
    ensures Edited(o, WithFinalizer(o, FINALIZER))
  {
  }

  /** The list with the own finalizer added is known from the state that was read. */
  lemma FreshIsSeen(s: ApiServer, target: Resource)
    requires s.Valid() && Fresh(s.world.c, target)
    ensures KnownEdit(s.history, target.key, target.obj, WithFinalizer(target.obj, FINALIZER))
  {
    if FINALIZER !in target.obj.finalizers {
      assert SeenWithout(s.history[|s.history| - 1], target.key, target.obj.finalizers + [FINALIZER]);
    }
  }

  /** After a delivered edit that added the finalizer, the client holds what is stored. */
  lemma DeliveredFinalizer(base: Obj, before: Resource, after: Resource, mid: World, now: World)
    requires WellFormed(now.c) && FINALIZER !in base.finalizers && before.obj == WithFinalizer(base, FINALIZER)
    requires Delivered(None, base, before, after, mid, now)
    ensures Fresh(now.c, after) && FINALIZER in after.obj.finalizers
  {
    ThreeWayConcurrent(base, before.obj, mid.c.objects[before.key]);
    assert ThreeWay(base, before.obj, mid.c.objects[before.key]).finalizers == before.obj.finalizers;
  }

  method EnsureResourceHasFinalizer(server: ApiServer, target: Unstructured) returns (err: Option<Error>)
    requires Live(server) && Fresh(server.world.c, target.Value()) && !IsRoutingGvk(target.key.gvk)
    modifies server, target
    ensures Live(server) && old(server.history) <= server.history
    ensures CrSteps(target.key, server.history, |old(server.history)|)
    ensures err == None ==> Fresh(server.world.c, target.Value()) && FINALIZER in target.obj.finalizers
    ensures server.quiet ==>
      && err == None && target.obj == WithFinalizer(old(target.obj), FINALIZER)
      && server.world == old(server.world).(c := Put(old(server.world.c), target.key,
          WithFinalizer(old(target.obj), FINALIZER)))
  {
    hide Safe, UserRules, CrEdit, Put, Later, WellFormed, OwnSteps, ThreeWay, OwnEdit, HoldsAt, CleanAt, Observed,
         KnownEdit, KnownFinalizers;
    ghost var base, before, w0 := target.obj, target.Value(), server.world;
    assert WellFormed(server.history[|server.history| - 1].world.c);
    FreshObserved(w0.c, before);
    FreshIsSeen(server, before);
    FinalizerEdit(base);
    var added := target.AddFinalizer(FINALIZER);
    if added {
      ghost var edited := target.Value();
      ghost var mid: World;
      err, mid := Unstruct.Patch(server, target, base, Run(target.key, "", "", {}, server.combining));
      assert WellFormed(server.history[|server.history| - 1].world.c);
      if err == None { DeliveredFinalizer(base, edited, target.Value(), mid, server.world); }
      ThreeWayAlone(base, edited.obj);
    } else {
      PutSame(w0.c, target.key, base);
      err := None;
    }
  }

  /* ---------- a live custom resource ---------- */

  function PublishedObj(owner: Resource, ingress: IngressConfig, found: Discovery): Obj {
    owner.obj.(annotations := Published(owner.obj.annotations, ingress, found, Enabled(owner.obj.annotations)))
  }

  /** What is to be removed before anything is created. */
  function UnusedSweep(rule: Combining, owner: Resource, gateway: string): Sweep {
    Sweep(rule, owner, gateway, UnusedTypes(Enabled(owner.obj.annotations)))
  }

  /** The rest of a live reconcile once the finalizer is known to be there, for a run that starts from `owner`. */
  function Served(rule: Combining, c: Cluster, owner: Resource, ingress: IngressConfig, found: Discovery,
                  plan: seq<Resource>): Cluster {
    var gone := OwnedOf(c, UnusedSweep(rule, owner, ingress.gatewayNamespace));
    Put(ApplySeq(Drop(c, gone), plan), owner.key, PublishedObj(owner, ingress, found))
  }

  /** The custom resource with the finalizer on it. */
  function GuardedTarget(target: Resource): Resource {
    target.(obj := WithFinalizer(target.obj, FINALIZER))
  }

  /** What a live reconcile makes of the stored state when nobody else is around. */
  function LiveRun(rule: Combining, c: Cluster, target: Resource, ingress: IngressConfig, found: Discovery,
                   plan: seq<Resource>): Cluster {
    Served(rule, Put(c, target.key, WithFinalizer(target.obj, FINALIZER)), GuardedTarget(target), ingress, found, plan)
  }

  /** What a reconcile of a custom resource marked for deletion makes of it. */
  function DeletionRun(rule: Combining, c: Cluster, target: Resource, gateway: string): Cluster {
    var modes := Enabled(target.obj.annotations);
    if modes == {} then c
    else Put(Drop(c, OwnedOf(c, Sweep(rule, target, gateway, modes))), target.key,
        WithoutFinalizer(target.obj, FINALIZER))
  }

  /** The plan of a run holds exactly what its services, ports and modes ask for. */
  ghost predicate PlanFor(plan: seq<Resource>, owner: Resource, ingress: IngressConfig, found: Discovery) {
    var modes := Enabled(owner.obj.annotations);
    if modes == {} || !found.Found() then plan == []
    else forall x :: x in plan <==> IsDesiredOf(owner, ingress, found.domain.value, found.services.value, modes, x)
  }

  /** The plan holds what is asked for as far as templates can be loaded: a service of which some cannot is exported up
      to that point. */
  ghost predicate PlanIn(plan: seq<Resource>, owner: Resource, ingress: IngressConfig, found: Discovery) {
    var modes := Enabled(owner.obj.annotations);
    if modes == {} || !found.Found() then plan == []
    else PartOf(plan, owner, ingress, found.domain.value, found.services.value, modes)
  }

  /** The only failure without faults: something is to be exported, but there is no service or no domain. */
  function ExportErrors(modes: set<RouteType>, found: Discovery): seq<Error> {
    if modes == {} || found.Found() then [] else [found.Missing()]
  }

  /** Services and domain are missing, or everything they ask for can be rendered. */
  ghost predicate Manageable(ingress: IngressConfig, found: Discovery, modes: set<RouteType>) {
    modes == {} || !found.Found() || Exportable(ingress, found, modes)
  }

  /** If everything can be rendered, the part is the whole. */
  lemma ManageableIsWhole(plan: seq<Resource>, owner: Resource, ingress: IngressConfig, found: Discovery)
    requires PlanIn(plan, owner, ingress, found) && Manageable(ingress, found, Enabled(owner.obj.annotations))
    ensures PlanFor(plan, owner, ingress, found)
    ensures PublishedObj(owner, ingress, Renderable(ingress, found, Enabled(owner.obj.annotations)))
        == PublishedObj(owner, ingress, found)
  {
    var modes := Enabled(owner.obj.annotations);
    RenderableElse(owner.obj.annotations, ingress, found, modes);
    if modes != {} && found.Found() {
      WholePlan(plan, owner, ingress, found.domain.value, found.services.value, modes);
      AllLoadableOnes(ingress, found.domain.value, found.services.value, modes);
      hide IsDesiredOf, AllLoadable, LoadableOnes, Published, PartOf;
    }
  }

  lemma RenderableElse(a: map<string, string>, ingress: IngressConfig, found: Discovery, modes: set<RouteType>)
    ensures modes == {} || !found.Found() ==>
      Published(a, ingress, Renderable(ingress, found, modes), modes) == Published(a, ingress, found, modes)
    ensures modes != {} && !found.Found() ==> Published(a, ingress, found, modes) == a
  {
    hide LoadableOnes, PublishedFor, Propagated;
    if modes != {} && !found.Found() && found.services.Ok? && found.domain.Ok? {
      assert LoadableOnes(ingress, found.domain.value, found.services.value, modes) == [];
    }
  }

  /** Creating routing resources leaves every object of another kind alone. */
  lemma {:induction false} ApplySeqElsewhere(c: Cluster, plan: seq<Resource>, k: Key)
    requires forall x | x in plan :: x.key != k && x.obj.finalizers == [] && !x.obj.deleting
    ensures SameAt(c, ApplySeq(c, plan), k)
    decreases |plan|
  {
    if plan != [] {
      ApplySeqElsewhere(c, plan[..|plan| - 1], k);
    }
  }

  lemma DesiredKinds(owner: Resource, ingress: IngressConfig, domain: string, services: seq<Service>,
                     modes: set<RouteType>, x: Resource)
    requires IsDesiredOf(owner, ingress, domain, services, modes, x)
    ensures IsRoutingGvk(x.key.gvk) && x.key.namespace == ingress.gatewayNamespace
    ensures x.obj.finalizers == [] && !x.obj.deleting && x.obj.uid == ""
  {
    hide Documents, IsDesiredOf, LabelsFor;
    var m, i, d := WantedDocument(owner, ingress, domain, services, modes, x);
    TemplateKinds(m, i);
  }

  /** Which document of which mode a wanted resource comes from. */
  lemma WantedDocument(owner: Resource, ingress: IngressConfig, domain: string, services: seq<Service>,
                       modes: set<RouteType>, x: Resource)
    returns (m: RouteType, i: nat, d: ExposedService)
    requires IsDesiredOf(owner, ingress, domain, services, modes, x)
    ensures m in modes && i < |Documents(m)| && d.ingress == ingress && x.key == DocumentKey(Documents(m)[i], d)
    ensures x.obj.labels == LabelsFor(owner, m) && x.obj.finalizers == [] && !x.obj.deleting && x.obj.uid == ""
  {
    hide LabelsFor, Documents, DocumentKey, Desired;
    var svc :| svc in services && IsDesired(owner, ingress, domain, svc, modes, x);
    var p, n :| p in svc.ports && n in modes && x in Desired(owner, ingress, domain, svc, p, n);
    m, d := n, NewExposedService(svc, p, ingress, domain);
    var rs := Desired(owner, ingress, domain, svc, p, m);
    var k :| 0 <= k < |rs| && x == rs[k];
    DesiredAt(owner, ingress, domain, svc, p, m, k);
    i := k;
  }

  lemma DesiredAt(owner: Resource, ingress: IngressConfig, domain: string, svc: Service, p: Port, m: RouteType, i: nat)
    requires i < |Desired(owner, ingress, domain, svc, p, m)|
    ensures i < |Documents(m)|
    ensures var x := Desired(owner, ingress, domain, svc, p, m)[i];
      && x.key == DocumentKey(Documents(m)[i], NewExposedService(svc, p, ingress, domain))
      && x.obj.labels == LabelsFor(owner, m) && x.obj.finalizers == [] && !x.obj.deleting && x.obj.uid == ""
  {
    hide LabelsFor, Documents, DocumentKey, TextOf, NewExposedService;
  }

  lemma PlanLeavesCr(c: Cluster, plan: seq<Resource>, owner: Resource, ingress: IngressConfig, found: Discovery)
    requires PlanIn(plan, owner, ingress, found) && !IsRoutingGvk(owner.key.gvk)
    ensures SameAt(c, ApplySeq(c, plan), owner.key)
  {
    hide IsDesiredOf, AllLoadable;
    forall x | x in plan ensures x.key != owner.key && x.obj.finalizers == [] && !x.obj.deleting {
      assert x in ServicesWant(owner, ingress, found.domain.value, found.services.value,
          Enabled(owner.obj.annotations));
      DesiredKinds(owner, ingress, found.domain.value, found.services.value, Enabled(owner.obj.annotations), x);
    }
    ApplySeqElsewhere(c, plan, owner.key);
  }

  /** Whether a run holds and what it left clean does not depend on the account. */
  lemma CleanStays(w: Watch, r: Run, s: World)
    ensures Holds(w, r, s) && r.uid == w.uid ==> Holds(w, r, s.(pending := s.pending * r.modes))
    ensures Clean(w, r, s) ==> Clean(w, r, s.(pending := s.pending * r.modes))
  {
  }

  /** A complete error-free run settles what was disabled before it began. */
  method Conclude(server: ApiServer, modes: set<RouteType>, ghost r: Run)
    requires Steady(server, r) && CleanAt(server.watch, r, server.world) && modes == r.modes
    requires server.watch.Some? && server.watch.value.uid == r.uid
    modifies server
    ensures Kept(server, r, old(server.history), old(server.world))
    ensures server.world.c == old(server.world.c)
  {
    hide OwnStep, Safe, KnownFinalizers, UserRules, WellFormed, Later, Enabled, Holds, Clean;
    ghost var w0 := server.world;
    Settling(server, r);
    server.Acknowledge(modes);
    ghost var n := |server.history| - 1;
    assert server.history[n - 1].world.c == w0.c && server.history[n].world.c == w0.c;
    UntouchedFinalizers(r.cr, server.history, n);
  }

  lemma Settling(server: ApiServer, r: Run)
    requires Steady(server, r) && CleanAt(server.watch, r, server.world)
    requires server.watch.Some? && server.watch.value.uid == r.uid
    ensures var w, s := server.watch.value, server.world;
      && Safe(w, s.(pending := s.pending * r.modes))
      && Holds(w, r, s.(pending := s.pending * r.modes)) && Clean(w, r, s.(pending := s.pending * r.modes))
      && OwnStep(r, s.c, s.c)
  {
    assert SafeAt(server.watch, server.history[|server.history| - 1]);
    SettleKeepsSafe(server.watch.value, r, server.world);
    NoStep(r, server.world.c);
    CleanStays(server.watch.value, r, server.world);
  }

  /** Addresses the client changed have arrived; labels, content and all other annotations are those of the object
      as it was stored before. */
  ghost predicate Arrived(base: Obj, edited: Obj, stored: Obj, o: Obj) {
    && OwnEdit(stored, o)
    && (edited.finalizers == base.finalizers ==> o.finalizers == stored.finalizers)
    && (forall a | a in {PUBLIC_ADDRESSES, EXTERNAL_ADDRESSES} ::
          Lookup(o.annotations, a) ==
            if Lookup(base.annotations, a) != Lookup(edited.annotations, a) then Lookup(edited.annotations, a)
            else Lookup(stored.annotations, a))
  }

  /** The step from `c` to `c'` delivered the addresses on top of what was stored in `c`. */
  ghost predicate Announced(key: Key, base: Obj, edited: Obj, c: Cluster, c': Cluster) {
    key in c.objects && exists o :: c' == Put(c, key, o) && Arrived(base, edited, c.objects[key], o)
  }

  /** A patch this client sent since entry `from` did. */
  ghost predicate AnnouncedSince(key: Key, base: Obj, edited: Obj, h: seq<Entry>, from: nat) {
    exists n :: from <= n < |h| && n > 0 && IsPatch(h[n], key)
        && Announced(key, base, edited, h[n - 1].world.c, h[n].world.c)
  }

  lemma DeliveredIsAnnounced(key: Key, base: Obj, edited: Obj, mid: World, now: World)
    requires Patched(key, base, edited, mid, now) && OwnEdit(base, edited)
    ensures Announced(key, base, edited, mid.c, now.c)
  {
    var stored := mid.c.objects[key];
    var o := ThreeWay(base, edited, stored);
    ThreeWayOwnEdit(base, edited, stored);
    ThreeWayConcurrent(base, edited, stored);
    forall a | a in {PUBLIC_ADDRESSES, EXTERNAL_ADDRESSES}
        && Lookup(base.annotations, a) != Lookup(edited.annotations, a)
      ensures Lookup(o.annotations, a) == Lookup(edited.annotations, a)
    {
      ThreeWayDelivers(base, edited, stored, a);
    }
    hide ThreeWay, OwnEdit, Put;
    assert Arrived(base, edited, stored, o);
  }

  /** The client's edits reach the custom resource; on a quiet server it ends up as the client has it. */
  method PatchTarget(server: ApiServer, target: Unstructured, ghost base: Obj, ghost r: Run)
    returns (err: Option<Error>)
    requires Live(server) && Observed(server.world.c, target.key, target.version, base)
    requires AddressEdit(base, target.obj) && FINALIZER in base.finalizers
    requires r.cr == target.key && !IsRoutingGvk(r.cr.gvk)
    modifies server, target
    ensures Kept(server, r, old(server.history), old(server.world))
    ensures err == None ==>
      && |server.history| >= 2 && LastStep(server.history, |old(server.history)|,
          server.history[|server.history| - 2].world)
      && IsPatch(server.history[|server.history| - 1], target.key)
      && Announced(target.key, base, old(target.obj), server.history[|server.history| - 2].world.c, server.world.c)
    ensures server.quiet && Current(old(server.world.c), old(target.Value()))
            && old(server.world.c).objects[target.key] == base ==>
      err == None && server.world == old(server.world).(c := Put(old(server.world.c), target.key, old(target.obj)))
  {
    ghost var edited := target.obj;
    assert Edited(base, edited) && OwnEdit(base, edited) && KnownEdit(server.history, target.key, base, edited);
    ThreeWayAlone(base, edited);
    hide Safe, Holds, Clean, UserRules, Put, OwnEdit, OwnStep, ThreeWay, AddressEdit, Announced, KnownEdit,
         KnownFinalizers;
    ghost var mid: World;
    err, mid := Unstruct.Patch(server, target, base, r);
    if err == None { DeliveredIsAnnounced(target.key, base, edited, mid, server.world); }
  }

  /** What creation without faults comes to, in one place. */
  lemma CreationSettled(owner: Resource, o: Obj, ingress: IngressConfig, found: Discovery, errs: seq<Error>,
                        plan: seq<Resource>)
    requires var modes := Enabled(owner.obj.annotations);
      && (errs == [] ==> o == PublishedObj(owner, ingress, found) && (modes == {} || Exportable(ingress, found, modes)))
      && (modes == {} ==> errs == [] && plan == [])
      && (modes != {} && !found.Found() ==> errs == [found.Missing()] && plan == [] && o == owner.obj)
      && (modes != {} && found.Found() ==>
            && |errs| == |found.services.value| - |LoadableOnes(ingress, found.domain.value, found.services.value,
                modes)|
            && PartOf(plan, owner, ingress, found.domain.value, found.services.value, modes)
            && o == PublishedObj(owner, ingress, Renderable(ingress, found, modes)))
    ensures var modes := Enabled(owner.obj.annotations);
      && PlanIn(plan, owner, ingress, found)
      && o == PublishedObj(owner, ingress, Renderable(ingress, found, modes))
      && (errs == [] <==> modes == {} || Exportable(ingress, found, modes))
      && (Manageable(ingress, found, modes) ==> errs == ExportErrors(modes, found))
  {
    var modes := Enabled(owner.obj.annotations);
    RenderableElse(owner.obj.annotations, ingress, found, modes);
    if found.Found() { AllLoadableOnes(ingress, found.domain.value, found.services.value, modes); }
    hide Published, AllLoadable, LoadableOnes, Enabled, PartOf;
  }

  /** Since entry `from` what is not wanted any more was deleted and all that is wanted was created or applied, every
      request with success. */
  ghost predicate Managed(rule: Combining, owner: Resource, ingress: IngressConfig, found: Discovery, h: seq<Entry>,
                          from: nat) {
    var modes, unused := Enabled(owner.obj.annotations), UnusedSweep(rule, owner, ingress.gatewayNamespace);
    && AllRequested(unused, AllKinds(unused.types), h, from, |h|)
    && (modes != {} ==>
          && found.Found()
          && AllGranted(h, from, ServicesWant(owner, ingress, found.domain.value, found.services.value, modes)))
  }

  lemma ManagedSince(rule: Combining, owner: Resource, ingress: IngressConfig, found: Discovery, h0: seq<Entry>,
                     h1: seq<Entry>, h2: seq<Entry>, h3: seq<Entry>)
    requires h0 <= h1 <= h2 <= h3 && Managed(rule, owner, ingress, found, h2, |h1|)
    ensures Managed(rule, owner, ingress, found, h3, |h0|)
  {
    var unused := UnusedSweep(rule, owner, ingress.gatewayNamespace);
    hide Requested, AllGranted, ServicesWant, AllKinds, Enabled, UnusedSweep;
    forall g | g in AllKinds(unused.types) ensures Requested(unused, g, h3, |h0|, |h3|) {
      RequestedLater(unused, g, h2, h3, |h1|, |h3|);
      RequestedSince(unused, g, h3, |h0|, |h1|);
    }
    if Enabled(owner.obj.annotations) != {} {
      GrantedSince(h0, h1, h2, h3, ServicesWant(owner, ingress, found.domain.value, found.services.value,
          Enabled(owner.obj.annotations)));
    }
  }

  lemma RequestedSince(s: Sweep, kind: Gvk, h: seq<Entry>, from: nat, later: nat)
    requires from <= later && Requested(s, kind, h, later, |h|)
    ensures Requested(s, kind, h, from, |h|)
  {
  }

  /** What became of the tasks of one reconcile, and the object the last of them delivers. */
  datatype Report = Report(removal: Option<Error>, creation: seq<Error>, exports: seq<Option<Error>>, edited: Obj,
                           patch: Option<Error>)

  /** Removal and creation were both tried: without an error all requests due were accepted, and what keeps services
      from being exported was told. */
  ghost predicate Attempted(rule: Combining, owner: Resource, ingress: IngressConfig, found: Discovery, h: seq<Entry>,
                            from: nat, report: Report) {
    var modes, unused := Enabled(owner.obj.annotations), UnusedSweep(rule, owner, ingress.gatewayNamespace);
    && (report.removal == None ==> AllRequested(unused, AllKinds(unused.types), h, from, |h|))
    && if modes == {} then report.creation == [] && report.edited == PublishedObj(owner, ingress, found)
       else if !found.Found() then report.creation == [found.Missing()] && report.edited == owner.obj
       else AllTried(h, from, owner, report.edited, ingress, found.domain.value, found.services.value, modes,
           report.creation, report.exports)
  }

  lemma BothAttempted(rule: Combining, owner: Resource, ingress: IngressConfig, found: Discovery, h0: seq<Entry>,
                      h1: seq<Entry>, h2: seq<Entry>, report: Report)
    requires h0 <= h1 <= h2
    requires var unused := UnusedSweep(rule, owner, ingress.gatewayNamespace);
      report.removal == None ==> AllRequested(unused, AllKinds(unused.types), h1, |h0|, |h1|)
    requires var modes := Enabled(owner.obj.annotations);
      if modes == {} then report.creation == [] && report.edited == PublishedObj(owner, ingress, found)
      else if !found.Found() then report.creation == [found.Missing()] && report.edited == owner.obj
      else AllTried(h2, |h1|, owner, report.edited, ingress, found.domain.value, found.services.value, modes,
          report.creation, report.exports)
    ensures Attempted(rule, owner, ingress, found, h2, |h0|, report)
  {
    var unused := UnusedSweep(rule, owner, ingress.gatewayNamespace);
    hide AllRequested, AllKinds, UnusedSweep, Enabled, PublishedObj;
    if report.removal == None { RequestsLast(unused, AllKinds(unused.types), h1, h2, |h0|, |h2|); }
    if Enabled(owner.obj.annotations) != {} && found.Found() {
      TriedWithin(h0, h1, h2, h2, owner, report.edited, ingress, found.domain.value, found.services.value,
        Enabled(owner.obj.annotations), report.creation, report.exports);
    }
    hide AllTried;
  }

  lemma {:induction false} NoFailures(outcomes: seq<Option<Error>>, i: nat)
    requires Failures(outcomes) == [] && i < |outcomes|
    ensures outcomes[i] == None
    decreases |outcomes|
  {
    var n := |outcomes| - 1;
    assert Failures(outcomes) == Failures(outcomes[..n]) + Listed(outcomes[n]);
    if i < n { NoFailures(outcomes[..n], i); }
  }

  /** If none of the tasks failed, all was managed. */
  lemma NothingFailed(rule: Combining, owner: Resource, ingress: IngressConfig, found: Discovery, h: seq<Entry>,
                      from: nat, report: Report)
    requires Attempted(rule, owner, ingress, found, h, from, report)
    requires report.removal == None && report.creation == []
    ensures Managed(rule, owner, ingress, found, h, from)
  {
    var modes := Enabled(owner.obj.annotations);
    hide AllRequested, AllKinds, UnusedSweep, Enabled, PublishedObj, Granted, IsDesired, Published, Failures;
    if modes != {} {
      var services, domain := found.services.value, found.domain.value;
      forall x | x in ServicesWant(owner, ingress, domain, services, modes) ensures Granted(h, from, x) {
        var svc :| svc in services && IsDesired(owner, ingress, domain, svc, modes, x);
        var i :| 0 <= i < |services| && services[i] == svc;
        NoFailures(report.exports, i);
        assert x in ServiceWants(owner, ingress, domain, svc, modes);
      }
    }
  }

  lemma TriedWithin(h0: seq<Entry>, h1: seq<Entry>, h2: seq<Entry>, h3: seq<Entry>, owner: Resource, o': Obj,
                    ingress: IngressConfig, domain: string, services: seq<Service>, modes: set<RouteType>,
                    errs: seq<Error>, outcomes: seq<Option<Error>>)
    requires h0 <= h1 <= h2 <= h3
    requires AllTried(h2, |h1|, owner, o', ingress, domain, services, modes, errs, outcomes)
    ensures AllTried(h3, |h0|, owner, o', ingress, domain, services, modes, errs, outcomes)
  {
    hide AllGranted, ServiceWants, Published, Exported, Failures;
    forall i | 0 <= i < |services| && outcomes[i] == None
      ensures AllGranted(h3, |h0|, ServiceWants(owner, ingress, domain, services[i], modes)) {
      GrantedSince(h0, h1, h2, h3, ServiceWants(owner, ingress, domain, services[i], modes));
    }
  }

  lemma AttemptedSince(rule: Combining, owner: Resource, ingress: IngressConfig, found: Discovery, h0: seq<Entry>,
                       h1: seq<Entry>, h2: seq<Entry>, h3: seq<Entry>, report: Report)
    requires h0 <= h1 <= h2 <= h3 && Attempted(rule, owner, ingress, found, h2, |h1|, report)
    ensures Attempted(rule, owner, ingress, found, h3, |h0|, report)
  {
    var unused := UnusedSweep(rule, owner, ingress.gatewayNamespace);
    hide Requested, AllKinds, Enabled, UnusedSweep, PublishedObj, AllTried;
    if report.removal == None {
      forall g | g in AllKinds(unused.types) ensures Requested(unused, g, h3, |h0|, |h3|) {
        RequestedLater(unused, g, h2, h3, |h1|, |h3|);
        RequestedSince(unused, g, h3, |h0|, |h1|);
      }
    }
    if Enabled(owner.obj.annotations) != {} && found.Found() {
      TriedWithin(h0, h1, h2, h3, owner, report.edited, ingress, found.domain.value, found.services.value,
        Enabled(owner.obj.annotations), report.creation, report.exports);
    }
  }

  /** The errors are those of the tasks, in this order; whatever became of the others, the patch without an error of its
      own delivered what they left to deliver. */
  ghost predicate Told(rule: Combining, owner: Resource, ingress: IngressConfig, found: Discovery, h: seq<Entry>,
                       from: nat, report: Report, errs: seq<Error>) {
    && errs == Listed(report.removal) + report.creation + Listed(report.patch)
    && Attempted(rule, owner, ingress, found, h, from, report)
    && (report.patch == None ==> AnnouncedSince(owner.key, owner.obj, report.edited, h, from))
  }

  lemma ToldSince(rule: Combining, owner: Resource, ingress: IngressConfig, found: Discovery, h0: seq<Entry>,
                  h1: seq<Entry>, h2: seq<Entry>, report: Report, errs: seq<Error>)
    requires h0 <= h1 <= h2 && Told(rule, owner, ingress, found, h2, |h1|, report, errs)
    ensures Told(rule, owner, ingress, found, h2, |h0|, report, errs)
  {
    hide Attempted, Announced;
    AttemptedSince(rule, owner, ingress, found, h0, h1, h2, h2, report);
  }

  lemma PatchTold(rule: Combining, owner: Resource, ingress: IngressConfig, found: Discovery, h0: seq<Entry>,
                  h1: seq<Entry>, h2: seq<Entry>, h3: seq<Entry>, report: Report, err: Option<Error>)
    requires h0 <= h1 <= h2 <= h3 && Attempted(rule, owner, ingress, found, h1, |h0|, report)
    requires err == None ==>
      && |h2| >= 2 && |h1| < |h2| && IsPatch(h2[|h2| - 1], owner.key)
      && Announced(owner.key, owner.obj, report.edited, h2[|h2| - 2].world.c, h2[|h2| - 1].world.c)
    ensures Told(rule, owner, ingress, found, h3, |h0|, report.(patch := err),
      Listed(report.removal) + report.creation + Listed(err))
  {
    assert Attempted(rule, owner, ingress, found, h1, |h0|, report.(patch := err));
    hide Attempted, Announced;
    AttemptedSince(rule, owner, ingress, found, h0, h0, h1, h3, report.(patch := err));
    if err == None {
      var n := |h2| - 1;
      assert h3[n] == h2[n] && h3[n - 1] == h2[n - 1];
    }
  }

  /** Without other clients and faults, except that removal may fail: what was removed and created, and what is to be
      delivered. */
  ghost predicate QuietlyManaged(rule: Combining, c: Cluster, c': Cluster, owner: Resource, o': Obj,
                                 ingress: IngressConfig, found: Discovery, plan: seq<Resource>, gone: set<Key>) {
    && PlanIn(plan, owner, ingress, found)
    && o' == PublishedObj(owner, ingress, Renderable(ingress, found, Enabled(owner.obj.annotations)))
    && gone <= OwnedOf(c, UnusedSweep(rule, owner, ingress.gatewayNamespace))
    && c' == ApplySeq(Drop(c, gone), plan)
    && SameAt(c, c', owner.key)
  }

  /** If removal does not fail either: everything unwanted is gone, and these are the errors. */
  ghost predicate CalmlyManaged(rule: Combining, c: Cluster, owner: Resource, ingress: IngressConfig, found: Discovery,
                                errs: seq<Error>, gone: set<Key>) {
    var modes := Enabled(owner.obj.annotations);
    && gone == OwnedOf(c, UnusedSweep(rule, owner, ingress.gatewayNamespace))
    && (errs == [] <==> modes == {} || Exportable(ingress, found, modes))
    && (Manageable(ingress, found, modes) ==> errs == ExportErrors(modes, found))
  }

  lemma NotRouting(r: Run, owner: Resource, gateway: string)
    requires WorksFor(r, owner, gateway)
    ensures !IsRoutingGvk(owner.key.gvk)
  {
  }

  lemma QuietlyDone(rule: Combining, c: Cluster, owner: Resource, o': Obj, ingress: IngressConfig, found: Discovery,
                    errs: seq<Error>, plan: seq<Resource>, gone: set<Key>, unusedErr: Option<Error>)
    requires var modes := Enabled(owner.obj.annotations);
      && PlanIn(plan, owner, ingress, found)
      && o' == PublishedObj(owner, ingress, Renderable(ingress, found, modes))
      && (errs == [] <==> modes == {} || Exportable(ingress, found, modes))
      && (Manageable(ingress, found, modes) ==> errs == ExportErrors(modes, found))
    requires gone <= OwnedOf(c, UnusedSweep(rule, owner, ingress.gatewayNamespace))
    requires unusedErr == None ==> gone == OwnedOf(c, UnusedSweep(rule, owner, ingress.gatewayNamespace))
    requires SameAt(c, Drop(c, gone), owner.key)
    requires SameAt(Drop(c, gone), ApplySeq(Drop(c, gone), plan), owner.key)
    ensures QuietlyManaged(rule, c, ApplySeq(Drop(c, gone), plan), owner, o', ingress, found, plan, gone)
    ensures unusedErr == None ==> CalmlyManaged(rule, c, owner, ingress, found, errs, gone)
  {
  }

  /** First remove what is not wanted any more, then create what is, whatever became of the removal. */
  method ReconcileResources(server: ApiServer, target: Unstructured, ingress: IngressConfig, found: Discovery,
                            ghost r: Run)
    returns (errs: seq<Error>, ghost plan: seq<Resource>, ghost gone: set<Key>, ghost report: Report)
    requires Steady(server, r) && r == RunOf(target.Value(), ingress.gatewayNamespace, server.combining)
    requires Aligned(server, r, target.Value()) && WorksFor(r, target.Value(), ingress.gatewayNamespace)
    modifies server, target`obj
    ensures Kept(server, r, old(server.history), old(server.world))
    ensures AddressEdit(old(target.obj), target.obj)
    ensures errs == Listed(report.removal) + report.creation && report.edited == target.obj
    ensures Attempted(server.combining, old(target.Value()), ingress, found, server.history, |old(server.history)|,
        report)
    ensures errs == [] ==> CleanAt(server.watch, r, server.world)
    ensures errs == [] || r.modes == {} ==> target.obj == PublishedObj(old(target.Value()), ingress, found)
    ensures r.modes != {} && !found.Found() ==> found.Missing() in errs && target.obj == old(target.obj)
    ensures server.quiet ==>
      && QuietlyManaged(server.combining, old(server.world.c), server.world.c, old(target.Value()), target.obj, ingress,
          found, plan, gone)
      && server.world == old(server.world).(c := server.world.c)
    ensures server.Calm() ==>
      CalmlyManaged(server.combining, old(server.world.c), old(target.Value()), ingress, found, errs, gone)
  {
    hide Safe, Holds, Clean, UserRules, Drop, OwnStep, Later, WellFormed, Enabled, OwnSteps, HoldsAt, CleanAt, OwnedOf,
         Published, ApplySeq, Removals, Observed, AddressEdit, Aligned, WorksFor, PartOf, AllAsking, PlanIn,
         Exportable, Manageable, ExportErrors, Renderable, KnownFinalizers, AllRequested, NoneFailed, LoadableOnes,
         AllGranted, ServicesWant, AllTried, Attempted, AllKinds, UnusedTypes, LeftAlone,
         SweptAt, Removal, Sweeps, QuietlyManaged, CalmlyManaged;
    ghost var h0, w0, owner := server.history, server.world, target.Value();
    var unusedErr: Option<Error>;
    NotRouting(r, target.Value(), ingress.gatewayNamespace);
    unusedErr, gone := RemoveUnusedRoutingResources(server, target, ingress.gatewayNamespace, r);
    ghost var h1, w1 := server.history, server.world;
    if server.quiet {
      DropLeavesCr(w0.c, UnusedSweep(server.combining, owner, ingress.gatewayNamespace), target.key, gone);
    }
    ghost var outcomes: seq<Option<Error>>;
    errs, plan, outcomes := CreateRoutingResources(server, target, ingress, found, r);
    report := Report(unusedErr, errs, outcomes, target.obj, None);
    BothAttempted(server.combining, owner, ingress, found, h0, h1, server.history, report);
    KeptTransitive(r, h0, h1, server.history);
    ApplyNothing(w1.c);
    if server.quiet {
      CreationSettled(owner, target.obj, ingress, found, errs, plan);
      PlanLeavesCr(w1.c, plan, owner, ingress, found);
      QuietlyDone(server.combining, w0.c, owner, target.obj, ingress, found, errs, plan, gone, unusedErr);
    }
    if unusedErr.Some? { errs := [unusedErr.value] + errs; }
  }

  /** Since entry `from` everything was done for a live custom resource that was stored as `owner` with the finalizer on
      it, and the addresses were delivered. */
  ghost predicate LiveDone(rule: Combining, owner: Resource, ingress: IngressConfig, found: Discovery, h: seq<Entry>,
                           from: nat) {
    && FINALIZER in owner.obj.finalizers
    && Managed(rule, owner, ingress, found, h, from)
    && AnnouncedSince(owner.key, owner.obj, PublishedObj(owner, ingress, found), h, from)
  }

  lemma PatchedLast(rule: Combining, owner: Resource, ingress: IngressConfig, found: Discovery, h0: seq<Entry>,
                    h1: seq<Entry>, h2: seq<Entry>, h3: seq<Entry>)
    requires h0 <= h1 <= h2 <= h3 && |h2| >= 2 && |h1| < |h2|
    requires FINALIZER in owner.obj.finalizers && Managed(rule, owner, ingress, found, h1, |h0|)
    requires IsPatch(h2[|h2| - 1], owner.key)
    requires Announced(owner.key, owner.obj, PublishedObj(owner, ingress, found), h2[|h2| - 2].world.c,
      h2[|h2| - 1].world.c)
    ensures LiveDone(rule, owner, ingress, found, h3, |h0|)
  {
    hide Managed, Announced, PublishedObj;
    ManagedSince(rule, owner, ingress, found, h0, h0, h1, h3);
    var n := |h2| - 1;
    assert h3[n] == h2[n] && h3[n - 1] == h2[n - 1];
  }

  lemma LiveDoneSince(rule: Combining, owner: Resource, ingress: IngressConfig, found: Discovery, h0: seq<Entry>,
                      h1: seq<Entry>, h2: seq<Entry>)
    requires h0 <= h1 <= h2 && LiveDone(rule, owner, ingress, found, h2, |h1|)
    ensures LiveDone(rule, owner, ingress, found, h2, |h0|)
  {
    hide Managed, Announced, PublishedObj;
    ManagedSince(rule, owner, ingress, found, h0, h1, h2, h2);
  }

  /** The rest of a live reconcile once the finalizer is in place. The custom resource is patched in any case. */
  method Serve(server: ApiServer, target: Unstructured, ingress: IngressConfig, found: Discovery, ghost r: Run)
    returns (errs: seq<Error>, ghost plan: seq<Resource>, ghost gone: set<Key>, ghost report: Report)
    requires Live(server) && Fresh(server.world.c, target.Value()) && FINALIZER in target.obj.finalizers
    requires !IsRoutingGvk(target.key.gvk) && r == RunOf(target.Value(), ingress.gatewayNamespace, server.combining)
    requires server.watch.Some? ==> server.watch.value.gateway == ingress.gatewayNamespace
    modifies server, target
    ensures Kept(server, r, old(server.history), old(server.world)) && HoldsAt(server.watch, r, server.world)
    ensures Told(server.combining, old(target.Value()), ingress, found, server.history, |old(server.history)|, report,
        errs)
    ensures errs == [] ==> CleanAt(server.watch, r, server.world)
    ensures errs == [] ==>
      LiveDone(server.combining, old(target.Value()), ingress, found, server.history, |old(server.history)|)
    ensures r.modes != {} && !found.Found() ==> found.Missing() in errs
    ensures server.quiet ==>
      && PlanIn(plan, old(target.Value()), ingress, found)
      && gone <= OwnedOf(old(server.world.c),
          UnusedSweep(server.combining, old(target.Value()), ingress.gatewayNamespace))
      && server.world.c == Put(ApplySeq(Drop(old(server.world.c), gone), plan), target.key,
           PublishedObj(old(target.Value()), ingress, Renderable(ingress, found, r.modes)))
    ensures server.Calm() ==>
      && gone == OwnedOf(old(server.world.c),
          UnusedSweep(server.combining, old(target.Value()), ingress.gatewayNamespace))
      && (errs == [] <==> r.modes == {} || Exportable(ingress, found, r.modes))
      && (Manageable(ingress, found, r.modes) ==> errs == ExportErrors(r.modes, found))
  {
    hide Safe, Holds, Clean, UserRules, Drop, Put, OwnStep, Later, WellFormed, Enabled, OwnSteps, HoldsAt, CleanAt,
         OwnedOf, Published, ApplySeq, Observed, AddressEdit, Exportable, PlanIn, Aligned, WorksFor, Announced,
         KnownFinalizers, Renderable, Managed, LiveDone, PublishedObj, Attempted, Told;
    ghost var h0, w0, base, owner := server.history, server.world, target.obj, target.Value();
    var modes, uid := Enabled(target.obj.annotations), target.obj.uid;
    RunStarts(server, target.Value(), ingress.gatewayNamespace, r);
    errs, plan, gone, report := ReconcileResources(server, target, ingress, found, r);
    ghost var h1 := server.history;
    if errs == [] { NothingFailed(server.combining, owner, ingress, found, h1, |h0|, report); }
    StillObserved(server, h0, w0, target.key, target.version, base);
    var err := PatchTarget(server, target, base, r);
    KeptTransitive(r, h0, h1, server.history);
    assert errs + [] == errs;
    if err.Some? { errs := errs + [err.value]; }
    ghost var h2 := server.history;
    if errs == [] && server.watch.Some? && server.watch.value.uid == uid {
      Conclude(server, modes, r);
      KeptTransitive(r, h0, h2, server.history);
    }
    assert errs == Listed(report.removal) + report.creation + Listed(err);
    PatchTold(server.combining, owner, ingress, found, h0, h1, h2, server.history, report, err);
    report := report.(patch := err);
    if errs == [] { PatchedLast(server.combining, owner, ingress, found, h0, h1, h2, server.history); }
  }

  lemma RunStarts(s: ApiServer, target: Resource, gateway: string, r: Run)
    requires Live(s) && Fresh(s.world.c, target) && FINALIZER in target.obj.finalizers && !IsRoutingGvk(target.key.gvk)
    requires r == RunOf(target, gateway, s.combining) && (s.watch.Some? ==> s.watch.value.gateway == gateway)
    ensures Steady(s, r) && Aligned(s, r, target) && WorksFor(r, target, gateway)
    ensures Observed(s.world.c, target.key, target.version, target.obj)
  {
    assert SafeAt(s.watch, s.history[|s.history| - 1]);
    assert WellFormed(s.history[|s.history| - 1].world.c);
    FreshRunHolds(s.watch, s.world, target, gateway, s.combining);
    FreshRunAligned(s, s.world, target, gateway);
    FreshObserved(s.world.c, target);
  }

  /** What is wanted and what is owned does not depend on the version the custom resource was read at. */
  lemma VersionIsNoMatter(rule: Combining, c: Cluster, o: Resource, o': Resource, ingress: IngressConfig,
                          found: Discovery, plan: seq<Resource>)
    requires o.key == o'.key && o.obj == o'.obj
    ensures Served(rule, c, o, ingress, found, plan) == Served(rule, c, o', ingress, found, plan)
    ensures PlanIn(plan, o, ingress, found) == PlanIn(plan, o', ingress, found)
  {
    var modes := Enabled(o.obj.annotations);
    SameSweep(c, UnusedSweep(rule, o, ingress.gatewayNamespace), UnusedSweep(rule, o', ingress.gatewayNamespace));
    if modes != {} && found.Found() {
      forall svc
        ensures ServiceWants(o, ingress, found.domain.value, svc, modes)
            == ServiceWants(o', ingress, found.domain.value, svc, modes) {
        SameWants(o, o', ingress, found.domain.value, svc, modes);
      }
      SameServicesWant(o, o', ingress, found.domain.value, found.services.value, modes);
      hide AllLoadable, ServiceWants, ServicesWant;
    }
  }

  lemma SameServicesWant(o: Resource, o': Resource, ingress: IngressConfig, domain: string, services: seq<Service>,
                         modes: set<RouteType>)
    requires o.key == o'.key && o.obj.uid == o'.obj.uid
    ensures ServicesWant(o, ingress, domain, services, modes) == ServicesWant(o', ingress, domain, services, modes)
  {
    forall svc, x
      ensures IsDesired(o, ingress, domain, svc, modes, x) == IsDesired(o', ingress, domain, svc, modes, x) {
      SameOwnerWants(o, o', ingress, domain, svc, modes, x);
    }
    hide IsDesired;
  }

  lemma SameSweep(c: Cluster, s: Sweep, s': Sweep)
    requires s'.(owner := s.owner) == s && s.owner.key == s'.owner.key && s.owner.obj.uid == s'.owner.obj.uid
    ensures OwnedOf(c, s) == OwnedOf(c, s')
  {
    assert forall k, o :: InScope(s, AllKinds(s.types), k, o) == InScope(s', AllKinds(s.types), k, o);
  }

  /** The run is the one of the custom resource as it was stored at entry `start`. */
  ghost predicate RunFrom(r: Run, h: seq<Entry>, start: nat, key: Key, gateway: string, combining: Combining) {
    && start < |h|
    && key in h[start].world.c.objects && key in h[start].world.c.versions
    && r == RunOf(Stored(h[start].world.c, key), gateway, combining)
  }

  /** At that entry the custom resource was guarded. */
  ghost predicate GuardedAt(h: seq<Entry>, start: nat, key: Key) {
    start < |h| && key in h[start].world.c.objects && FINALIZER in h[start].world.c.objects[key].finalizers
  }

  lemma RunFromNow(s: ApiServer, target: Resource, gateway: string)
    requires s.Valid() && Fresh(s.world.c, target)
    ensures RunFrom(RunOf(target, gateway, s.combining), s.history, |s.history| - 1, target.key, gateway, s.combining)
    ensures FINALIZER in target.obj.finalizers ==> GuardedAt(s.history, |s.history| - 1, target.key)
  {
  }

  lemma RunFromLater(r: Run, h: seq<Entry>, h': seq<Entry>, start: nat, key: Key, gateway: string, combining: Combining)
    requires h <= h' && RunFrom(r, h, start, key, gateway, combining)
    ensures RunFrom(r, h', start, key, gateway, combining)
    ensures GuardedAt(h, start, key) ==> GuardedAt(h', start, key)
  {
    assert h[start] == h'[start];
  }

  /** A reconcile of a custom resource that is not marked for deletion. The run it makes is the one of the custom
      resource as stored at entry `start`: when it was fetched, or when the finalizer had been put on. */
  method ReconcileLive(server: ApiServer, target: Unstructured, ingress: IngressConfig, found: Discovery)
    returns (errs: seq<Error>, ghost plan: seq<Resource>, ghost r: Run, ghost start: nat, ghost report: Report)
    requires Live(server) && Fresh(server.world.c, target.Value()) && !IsRoutingGvk(target.key.gvk)
    requires server.watch.Some? ==> server.watch.value.gateway == ingress.gatewayNamespace
    modifies server, target
    ensures Live(server) && old(server.history) <= server.history
    ensures |old(server.history)| - 1 <= start
    ensures RunFrom(r, server.history, start, target.key, ingress.gatewayNamespace, server.combining)
    ensures OwnSteps(r, server.history, |old(server.history)|)
    ensures errs == [] ==>
      GuardedAt(server.history, start, target.key) && HoldsAt(server.watch, r, server.world)
          && CleanAt(server.watch, r, server.world)
    ensures (|errs| == 1 && CrSteps(target.key, server.history, |old(server.history)|))
         || Told(server.combining, Stored(server.history[start].world.c, target.key), ingress, found, server.history,
             |old(server.history)|, report, errs)
    ensures errs == [] ==>
      LiveDone(server.combining, Stored(server.history[start].world.c, target.key), ingress, found, server.history,
          |old(server.history)|)
    ensures server.Calm() ==>
      LiveOutcome(server.combining, old(server.world.c), server.world.c, old(target.Value()), ingress, found, errs,
          plan)
  {
    hide Safe, Holds, Clean, UserRules, Put, OwnStep, Later, WellFormed, Enabled, OwnSteps, CrSteps, HoldsAt, CleanAt,
         Exportable, PlanIn, PlanFor, Published, KnownFinalizers, RunFrom, GuardedAt, ApplySeq, OwnedOf, Manageable,
         Renderable, LiveDone, Told;
    ghost var h0 := server.history;
    r := RunOf(target.Value(), ingress.gatewayNamespace, server.combining);
    start := |h0| - 1;
    RunFromNow(server, target.Value(), ingress.gatewayNamespace);
    var err := EnsureResourceHasFinalizer(server, target);
    ghost var h1 := server.history;
    RunFromLater(r, h0, h1, start, target.key, ingress.gatewayNamespace, server.combining);
    CrStepsAreOwn(r, h1, |h0|);
    report := Report(None, [], [], target.obj, None);
    if err.Some? { return [err.value], [], r, start, report; }
    r := RunOf(target.Value(), ingress.gatewayNamespace, server.combining);
    start := |h1| - 1;
    RunFromNow(server, target.Value(), ingress.gatewayNamespace);
    CrStepsAreOwn(r, h1, |h0|);
    ghost var owner, w1 := target.Value(), server.world;
    ghost var gone: set<Key>;
    errs, plan, gone, report := Serve(server, target, ingress, found, r);
    RunFromLater(r, h1, server.history, start, target.key, ingress.gatewayNamespace, server.combining);
    KeptTransitive(r, h0, h1, server.history);
    assert server.history[start] == h1[start];
    ToldSince(server.combining, owner, ingress, found, h0, h1, server.history, report, errs);
    if errs == [] { LiveDoneSince(server.combining, owner, ingress, found, h0, h1, server.history); }
    if server.Calm() {
      ServedOutcome(server.combining, w1.c, owner, GuardedTarget(old(target.Value())), ingress, found, plan, gone,
          server.world.c);
    }
  }

  lemma ServedOutcome(rule: Combining, c: Cluster, owner: Resource, guarded: Resource, ingress: IngressConfig,
                      found: Discovery, plan: seq<Resource>, gone: set<Key>, c': Cluster)
    requires owner.key == guarded.key && owner.obj == guarded.obj
    requires PlanIn(plan, owner, ingress, found)
    requires gone == OwnedOf(c, UnusedSweep(rule, owner, ingress.gatewayNamespace))
    requires c' == Put(ApplySeq(Drop(c, gone), plan), owner.key,
      PublishedObj(owner, ingress, Renderable(ingress, found, Enabled(owner.obj.annotations))))
    ensures PlanIn(plan, guarded, ingress, found)
    ensures c' == Served(rule, c, guarded, ingress, Renderable(ingress, found, Enabled(guarded.obj.annotations)), plan)
    ensures Manageable(ingress, found, Enabled(guarded.obj.annotations)) ==>
      PlanFor(plan, guarded, ingress, found) && c' == Served(rule, c, guarded, ingress, found, plan)
  {
    hide Put, ApplySeq, OwnedOf, Published, PlanFor, PartOf, Drop, Manageable, Enabled, Renderable;
    VersionIsNoMatter(rule, c, owner, guarded, ingress, Renderable(ingress, found, Enabled(owner.obj.annotations)),
        plan);
    VersionIsNoMatter(rule, c, owner, guarded, ingress, found, plan);
    if Manageable(ingress, found, Enabled(guarded.obj.annotations)) {
      ManageableIsWhole(plan, guarded, ingress, found);
    }
  }

  /** What a reconcile of a live custom resource does when nobody else is around: all that templates can be loaded for
      is there, and errors are reported exactly when something is missing. */
  ghost predicate LiveOutcome(rule: Combining, c: Cluster, c': Cluster, target: Resource, ingress: IngressConfig,
                              found: Discovery, errs: seq<Error>, plan: seq<Resource>) {
    var modes := Enabled(target.obj.annotations);
    && PlanIn(plan, GuardedTarget(target), ingress, found)
    && c' == LiveRun(rule, c, target, ingress, Renderable(ingress, found, modes), plan)
    && (errs == [] <==> modes == {} || Exportable(ingress, found, modes))
    && (Manageable(ingress, found, modes) ==>
          && errs == ExportErrors(modes, found) && PlanFor(plan, GuardedTarget(target), ingress, found)
          && c' == LiveRun(rule, c, target, ingress, found, plan))
  }

  /** What a reconcile of the resource at `key` does when nobody else is around. */
  ghost predicate ReconcileOutcome(rule: Combining, c: Cluster, c': Cluster, key: Key, ingress: IngressConfig,
                                   found: Discovery, errs: seq<Error>, plan: seq<Resource>) {
    if key !in c.objects || key !in c.versions then errs == [] && c' == c
    else if c.objects[key].deleting then errs == []
        && c' == DeletionRun(rule, c, Stored(c, key), ingress.gatewayNamespace)
    else LiveOutcome(rule, c, c', Stored(c, key), ingress, found, errs, plan)
  }

  /** Without errors everything was done: for the resource as stored at entry `start`, or it was not there. */
  ghost predicate ReconcileDone(rule: Combining, h: seq<Entry>, start: nat, from: nat, key: Key, ingress: IngressConfig,
                                found: Discovery)
    requires start < |h|
  {
    var c := h[start].world.c;
    if key !in c.objects || key !in c.versions then NoneOwn(h, from)
    else
      || (c.objects[key].deleting && Finished(rule, Stored(c, key), ingress.gatewayNamespace, h, from))
      || (UnmarkedAt(h, from, start, key) && LiveDone(rule, Stored(c, key), ingress, found, h, from))
  }

  /** At some state from just before entry `from` to entry `start` the resource was not marked for deletion. */
  ghost predicate UnmarkedAt(h: seq<Entry>, from: nat, start: nat, key: Key)
    requires start < |h|
  {
    exists i :: 0 <= i <= start && from <= i + 1 && key in h[i].world.c.objects && !h[i].world.c.objects[key].deleting
  }

  lemma FinishedSince(rule: Combining, owner: Resource, gateway: string, h0: seq<Entry>, h1: seq<Entry>, h2: seq<Entry>)
    requires h0 <= h1 <= h2 && NoneOwn(h1, |h0|) && Finished(rule, owner, gateway, h2, |h1|)
    ensures Finished(rule, owner, gateway, h2, |h0|)
  {
    var modes := Enabled(owner.obj.annotations);
    hide Requested, Released, Enabled, AllKinds;
    assert forall i :: |h0| <= i < |h1| ==> h2[i] == h1[i];
    if modes != {} {
      forall g | g in AllKinds(modes) ensures Requested(Sweep(rule, owner, gateway, modes), g, h2, |h0|, |h2|) {
        RequestedSince(Sweep(rule, owner, gateway, modes), g, h2, |h0|, |h1|);
      }
    }
  }

  lemma AbsentIsDone(rule: Combining, h0: seq<Entry>, h1: seq<Entry>, key: Key, ingress: IngressConfig,
                     found: Discovery)
    requires h0 <= h1 && h1 != [] && NoneOwn(h1, |h0|) && key !in h1[|h1| - 1].world.c.objects
    ensures ReconcileDone(rule, h1, |h1| - 1, |h0|, key, ingress, found)
  {
  }

  lemma HandledIsDone(rule: Combining, h0: seq<Entry>, h1: seq<Entry>, h2: seq<Entry>, owner: Resource,
                      ingress: IngressConfig, found: Discovery)
    requires h0 <= h1 <= h2 && h1 != [] && NoneOwn(h1, |h0|) && Fresh(h1[|h1| - 1].world.c, owner)
    requires owner.obj.deleting && Finished(rule, owner, ingress.gatewayNamespace, h2, |h1|)
    ensures ReconcileDone(rule, h2, |h1| - 1, |h0|, owner.key, ingress, found)
  {
    hide Finished;
    FinishedSince(rule, owner, ingress.gatewayNamespace, h0, h1, h2);
    assert h2[|h1| - 1] == h1[|h1| - 1];
  }

  lemma ServedIsDone(r: Run, rule: Combining, h0: seq<Entry>, h1: seq<Entry>, h2: seq<Entry>, start: nat, key: Key,
                     ingress: IngressConfig, found: Discovery)
    requires h0 <= h1 <= h2 && h1 != [] && |h1| - 1 <= start < |h2|
    requires key in h1[|h1| - 1].world.c.objects && !h1[|h1| - 1].world.c.objects[key].deleting
    requires RunFrom(r, h2, start, key, ingress.gatewayNamespace, rule)
    requires LiveDone(rule, Stored(h2[start].world.c, key), ingress, found, h2, |h1|)
    ensures ReconcileDone(rule, h2, start, |h0|, key, ingress, found)
  {
    hide LiveDone;
    LiveDoneSince(rule, Stored(h2[start].world.c, key), ingress, found, h0, h1, h2);
    assert h2[|h1| - 1] == h1[|h1| - 1];
  }

  lemma NothingOwnSince(r: Run, h0: seq<Entry>, h1: seq<Entry>)
    requires h0 <= h1 && NoneOwn(h1, |h0|)
    ensures OwnSteps(r, h1, |h0|)
  {
  }

  lemma DeletionStarts(s: ApiServer, target: Resource, gateway: string, r: Run)
    requires Live(s) && Fresh(s.world.c, target) && !IsRoutingGvk(target.key.gvk)
    requires r == RunOf(target, gateway, s.combining) && (s.watch.Some? ==> s.watch.value.gateway == gateway)
    ensures Aligned(s, r, target) && Observed(s.world.c, target.key, target.version, target.obj)
    ensures Current(s.world.c, target)
  {
    assert SafeAt(s.watch, s.history[|s.history| - 1]);
    assert WellFormed(s.history[|s.history| - 1].world.c);
    FreshRunAligned(s, s.world, target, gateway);
    FreshObserved(s.world.c, target);
  }

  /** What a reconcile of the stored resource at `key` does when nobody else is around. */
  ghost predicate FoundOutcome(rule: Combining, c: Cluster, c': Cluster, key: Key, ingress: IngressConfig,
                               found: Discovery, errs: seq<Error>, plan: seq<Resource>)
    requires key in c.objects && key in c.versions
  {
    if c.objects[key].deleting then errs == [] && c' == DeletionRun(rule, c, Stored(c, key), ingress.gatewayNamespace)
    else LiveOutcome(rule, c, c', Stored(c, key), ingress, found, errs, plan)
  }

  lemma OutcomeOfFound(rule: Combining, c: Cluster, c': Cluster, key: Key, ingress: IngressConfig, found: Discovery,
                       errs: seq<Error>, plan: seq<Resource>)
    requires key in c.objects && key in c.versions && FoundOutcome(rule, c, c', key, ingress, found, errs, plan)
    ensures ReconcileOutcome(rule, c, c', key, ingress, found, errs, plan)
  {
    hide LiveOutcome, DeletionRun;
  }

  /** The errors are those of the tasks of a live reconcile, or there is one that ended the reconcile early: the
      resource could not be read, or deletion failed, or the finalizer could not be put on, so that at most the
      finalizer of the custom resource changed. */
  ghost predicate ReconcileTold(rule: Combining, h: seq<Entry>, start: nat, from: nat, key: Key, ingress: IngressConfig,
                                found: Discovery, report: Report, errs: seq<Error>)
    requires start < |h|
  {
    || (|errs| <= 1 && NoneOwn(h, from))
    || (|errs| <= 1 && key in h[start].world.c.objects && h[start].world.c.objects[key].deleting)
    || (|errs| == 1 && CrSteps(key, h, from))
    || (key in h[start].world.c.objects && key in h[start].world.c.versions
        && Told(rule, Stored(h[start].world.c, key), ingress, found, h, from, report, errs))
  }

  lemma NothingTold(rule: Combining, h0: seq<Entry>, h1: seq<Entry>, start: nat, key: Key, ingress: IngressConfig,
                    found: Discovery, report: Report, errs: seq<Error>)
    requires h0 <= h1 && start < |h1| && NoneOwn(h1, |h0|) && |errs| <= 1
    ensures ReconcileTold(rule, h1, start, |h0|, key, ingress, found, report, errs)
  {
  }

  lemma ToldLater(rule: Combining, h0: seq<Entry>, h1: seq<Entry>, h2: seq<Entry>, start: nat, key: Key,
                  ingress: IngressConfig, found: Discovery, report: Report, errs: seq<Error>)
    requires h0 <= h1 <= h2 && NoneOwn(h1, |h0|) && start < |h2|
    requires ReconcileTold(rule, h2, start, |h1|, key, ingress, found, report, errs)
    ensures ReconcileTold(rule, h2, start, |h0|, key, ingress, found, report, errs)
  {
    hide Told, CrEdit, KnownFinalizers, OwnStep;
    assert forall i :: |h0| <= i < |h1| ==> h2[i] == h1[i];
    if key in h2[start].world.c.objects && key in h2[start].world.c.versions
        && Told(rule, Stored(h2[start].world.c, key), ingress, found, h2, |h1|, report, errs) {
      ToldSince(rule, Stored(h2[start].world.c, key), ingress, found, h0, h1, h2, report, errs);
    }
  }

  lemma DoneLater(rule: Combining, h0: seq<Entry>, h1: seq<Entry>, h2: seq<Entry>, start: nat, key: Key,
                  ingress: IngressConfig, found: Discovery)
    requires h0 <= h1 <= h2 && h1 != [] && NoneOwn(h1, |h0|) && |h1| - 1 <= start < |h2|
    requires ReconcileDone(rule, h2, start, |h1|, key, ingress, found)
    ensures ReconcileDone(rule, h2, start, |h0|, key, ingress, found)
  {
    hide LiveDone, Finished;
    var c := h2[start].world.c;
    assert forall i :: |h0| <= i < |h1| ==> h2[i] == h1[i];
    if key in c.objects && key in c.versions {
      var owner := Stored(c, key);
      if Finished(rule, owner, ingress.gatewayNamespace, h2, |h1|) {
        FinishedSince(rule, owner, ingress.gatewayNamespace, h0, h1, h2);
      }
      if LiveDone(rule, owner, ingress, found, h2, |h1|) { LiveDoneSince(rule, owner, ingress, found, h0, h1, h2); }
    }
  }

  /** The rest of a reconcile once the custom resource was fetched. */
  method ReconcileFound(server: ApiServer, target: Unstructured, ingress: IngressConfig, found: Discovery)
    returns (errs: seq<Error>, ghost plan: seq<Resource>, ghost r: Run, ghost start: nat, ghost report: Report)
    requires Live(server) && Fresh(server.world.c, target.Value()) && !IsRoutingGvk(target.key.gvk)
    requires server.watch.Some? ==> server.watch.value.gateway == ingress.gatewayNamespace
    modifies server, target
    ensures Live(server) && old(server.history) <= server.history
    ensures |old(server.history)| - 1 <= start < |server.history|
    ensures RunFrom(r, server.history, start, target.key, ingress.gatewayNamespace, server.combining)
    ensures OwnSteps(r, server.history, |old(server.history)|)
    ensures ReconcileTold(server.combining, server.history, start, |old(server.history)|, target.key, ingress, found,
        report, errs)
    ensures errs == [] ==>
      ReconcileDone(server.combining, server.history, start, |old(server.history)|, target.key, ingress, found)
    ensures server.Calm() ==>
      FoundOutcome(server.combining, old(server.world.c), server.world.c, target.key, ingress, found, errs, plan)
  {
    hide Safe, Holds, Clean, UserRules, Put, OwnStep, Later, WellFormed, Enabled, OwnSteps, HoldsAt, CleanAt,
         LiveOutcome, Aligned, Observed, KnownFinalizers, DeletedFirst, AllRequested, NoneFailed, LiveDone,
         ReleasedLast, ReconcileDone, Told, CrSteps;
    plan := [];
    ghost var h1 := server.history;
    ghost var owner := target.Value();
    r := RunOf(owner, ingress.gatewayNamespace, server.combining);
    start := |h1| - 1;
    report := Report(None, [], [], target.obj, None);
    RunFromNow(server, owner, ingress.gatewayNamespace);
    if IsMarkedForDeletion(target.obj) {
      DeletionStarts(server, owner, ingress.gatewayNamespace, r);
      var err: Option<Error>;
      ghost var gone: set<Key>;
      err, gone := HandleResourceDeletion(server, target, ingress.gatewayNamespace, r);
      RunFromLater(r, h1, server.history, start, target.key, ingress.gatewayNamespace, server.combining);
      errs := if err.Some? then [err.value] else [];
      if err == None { HandledIsDone(server.combining, h1, h1, server.history, owner, ingress, found); }
    } else {
      errs, plan, r, start, report := ReconcileLive(server, target, ingress, found);
      if errs == [] {
        ServedIsDone(r, server.combining, h1, h1, server.history, start, target.key, ingress, found);
      }
    }
  }

  class Controller {
    const component: Gvk
    var active: bool
    var config: IngressConfig

    constructor (component: Gvk, config: IngressConfig)
      ensures this.component == component && this.config == config && active
    {
      this.component, this.config, active := component, config, true;
    }

    method Activate(config: IngressConfig)
      modifies this
      ensures active && this.config == config
    {
      active, this.config := true, config;
    }

    method Deactivate()
      modifies this`active
      ensures !active
    {
      active := false;
    }

    function KeyOf(namespace: string, name: string): Key {
      Key(component, namespace, name)
    }

    /** One reconcile request. `found` is what looking for services and domain will answer. Every step is one of the run
        that belongs to the custom resource as stored at entry `start`, or there is none at all. */
    method Reconcile(server: ApiServer, namespace: string, name: string, found: Discovery)
      returns (errs: seq<Error>, ghost plan: seq<Resource>, ghost r: Run, ghost start: nat, ghost report: Report)
      requires Live(server) && !IsRoutingGvk(component)
      requires server.watch.Some? ==> server.watch.value.gateway == config.gatewayNamespace
      modifies server
      ensures Live(server) && old(server.history) <= server.history
      ensures r.cr == KeyOf(namespace, name) && r.gateway == config.gatewayNamespace && r.combining == server.combining
      ensures OwnSteps(r, server.history, |old(server.history)|)
      ensures NoneOwn(server.history, |old(server.history)|)
           || (|old(server.history)| - 1 <= start
               && RunFrom(r, server.history, start, KeyOf(namespace, name), config.gatewayNamespace, server.combining))
      ensures !active ==> errs == [] && server.history == old(server.history) && server.looks == old(server.looks)
      ensures active ==>
        |old(server.history)| - 1 <= start < |server.history|
            && ReconcileTold(server.combining, server.history, start, |old(server.history)|, KeyOf(namespace, name),
                config, found, report, errs)
      ensures active && errs == [] ==>
        |old(server.history)| - 1 <= start < |server.history|
            && ReconcileDone(server.combining, server.history, start, |old(server.history)|, KeyOf(namespace, name),
                config, found)
      ensures active && server.Calm() ==>
        ReconcileOutcome(server.combining, old(server.world.c), server.world.c, KeyOf(namespace, name), config, found,
            errs, plan)
    {
      hide Safe, Holds, Clean, UserRules, Put, OwnStep, Later, WellFormed, Enabled, OwnSteps, HoldsAt, CleanAt,
           LiveOutcome, Aligned, Observed, KnownFinalizers, RunFrom, LiveDone, ReleasedLast, ReconcileDone,
           ReconcileTold, FoundOutcome;
      plan := [];
      ghost var h0, w0 := server.history, server.world;
      r := Run(KeyOf(namespace, name), "", config.gatewayNamespace, {}, server.combining);
      start := |h0| - 1;
      report := Report(None, [], [], Obj("", map[], map[], [], [], false, Rendered("")), None);
      NoProgress(server, r);
      if !active { return [], [], r, start, report; }
      var source := Fetch(server, KeyOf(namespace, name), r);
      start := |server.history| - 1;
      NothingTold(server.combining, h0, server.history, start, KeyOf(namespace, name), config, found, report,
        if source.Err? && source.error != NotFound then [source.error] else []);
      if source == Err(NotFound) {
        AbsentIsDone(server.combining, h0, server.history, KeyOf(namespace, name), config, found);
        return [], [], r, start, report;
      }
      if source.Err? { return [source.error], [], r, start, report; }
      var target := new Unstructured(source.value);
      ghost var h1, w1 := server.history, server.world;
      errs, plan, r, start, report := ReconcileFound(server, target, config, found);
      NothingOwnSince(r, h0, h1);
      KeptTransitive(r, h0, h1, server.history);
      FromRun(r, server.history, start, KeyOf(namespace, name), config.gatewayNamespace, server.combining);
      ToldLater(server.combining, h0, h1, server.history, start, KeyOf(namespace, name), config, found, report, errs);
      if errs == [] {
        DoneLater(server.combining, h0, h1, server.history, start, KeyOf(namespace, name), config, found);
      }
      if server.Calm() {
        OutcomeOfFound(server.combining, w1.c, server.world.c, KeyOf(namespace, name), config, found, errs, plan);
      }
    }
  }

  lemma FromRun(r: Run, h: seq<Entry>, start: nat, key: Key, gateway: string, combining: Combining)
    requires RunFrom(r, h, start, key, gateway, combining)
    ensures r.cr == key && r.gateway == gateway && r.combining == combining
  {
  }
}
