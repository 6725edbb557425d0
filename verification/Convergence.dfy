/** What a complete reconcile arrives at, in whatever order its loops run, and that a second one changes nothing. */
module Convergence {
  import opened Text
  import opened Api
  import opened Metadata
  import opened RouteTypes
  import opened Templates
  import opened Ownership
  import opened Server
  import opened Unstruct
  import opened Deletion
  import opened Exporting
  import opened RoutingController

  /* ---------- applying a list of resources ---------- */

  /** Resources with the same key are the same; none comes with finalizers or a deletion mark. */
  ghost predicate Agreed(plan: seq<Resource>) {
    && (forall x, y | x in plan && y in plan && x.key == y.key :: x == y)
    && (forall x | x in plan :: x.obj.finalizers == [] && !x.obj.deleting)
  }

  /** `o` is what applying `plan` to `objects` leaves at `k`. */
  ghost predicate LaidOver(objects: map<Key, Obj>, plan: seq<Resource>, k: Key, after: Option<Obj>) {
    && (forall x | x in plan && x.key == k :: after == Some(Applied(objects, k, x.obj)))
    && ((forall x | x in plan :: x.key != k) ==> after == if k in objects then Some(objects[k]) else None)
  }

  /** Applying the same source again changes nothing. */
  lemma MergeTwice(stored: Obj, source: Obj)
    ensures Merge(Merge(stored, source), source) == Merge(stored, source)
    ensures Merge(source, source) == source
  {
    assert stored.labels + source.labels + source.labels == stored.labels + source.labels;
    assert stored.annotations + source.annotations + source.annotations == stored.annotations + source.annotations;
    assert source.labels + source.labels == source.labels
        && source.annotations + source.annotations == source.annotations;
  }

  /** However often and in whatever order the resources come: each ends up laid once over what was there before. */
  lemma {:induction false} AppliedPlan(c: Cluster, plan: seq<Resource>)
    requires WellFormed(c) && Agreed(plan)
    ensures WellFormed(ApplySeq(c, plan))
    ensures forall k :: LaidOver(c.objects, plan, k, At(ApplySeq(c, plan), k))
    decreases |plan|
  {
    if plan != [] {
      var n := |plan| - 1;
      var init, last := plan[..n], plan[n];
      AppliedPlan(c, init);
      var before := ApplySeq(c, init);
      var o := Applied(before.objects, last.key, last.obj);
      assert plan == init + [last];
      AppliedLast(c, init, before, last);
      PutIsLater(before, last.key, o);
      assert forall k :: At(Put(before, last.key, o), k) == if k == last.key then Some(o) else At(before, k);
      hide WellFormed, Merge, Agreed, Applied, Put, At, Later;
      forall k ensures LaidOver(c.objects, plan, k, At(ApplySeq(c, plan), k)) {
        LaidOverStep(c.objects, init, last, k, At(before, k), At(ApplySeq(c, plan), k));
      }
    }
  }

  lemma LaidOverStep(objects: map<Key, Obj>, init: seq<Resource>, last: Resource, k: Key, before: Option<Obj>,
                     after: Option<Obj>)
    requires Agreed(init + [last]) && LaidOver(objects, init, k, before)
    requires after == if k == last.key then Some(Applied(objects, k, last.obj)) else before
    ensures LaidOver(objects, init + [last], k, after)
  {
    hide Applied;
    assert last in init + [last];
    assert forall x | x in init + [last] && x.key == last.key :: x == last;
    assert forall x :: x in init + [last] <==> x in init || x == last;
  }

  lemma AppliedLast(c: Cluster, init: seq<Resource>, before: Cluster, last: Resource)
    requires WellFormed(before) && WellFormed(c) && Agreed(init + [last])
    requires LaidOver(c.objects, init, last.key, At(before, last.key))
    ensures var o := Applied(before.objects, last.key, last.obj);
      o == Applied(c.objects, last.key, last.obj) && !(o.deleting && o.finalizers == [])
  {
    if x :| x in init && x.key == last.key {
      assert x in init + [last] && last in init + [last];
      if last.key in c.objects { MergeTwice(c.objects[last.key], last.obj); }
      MergeTwice(last.obj, last.obj);
    }
  }

  lemma LaidOnce(objects: map<Key, Obj>, plan: seq<Resource>, plan': seq<Resource>, k: Key, a: Option<Obj>,
                 b: Option<Obj>)
    requires forall x :: x in plan <==> x in plan'
    requires LaidOver(objects, plan, k, a) && LaidOver(objects, plan', k, b)
    ensures a == b
  {
    hide Applied;
    if x :| x in plan && x.key == k { assert x in plan'; }
  }

  lemma SameObjects(a: Cluster, b: Cluster)
    requires forall k :: At(a, k) == At(b, k)
    ensures a.objects == b.objects
  {
    forall k ensures (k in a.objects <==> k in b.objects) && (k in a.objects ==> a.objects[k] == b.objects[k]) {
      assert At(a, k) == At(b, k);
    }
  }

  /** The order in which the resources are applied does not matter. */
  lemma ApplyOrder(c: Cluster, plan: seq<Resource>, plan': seq<Resource>)
    requires WellFormed(c) && Agreed(plan) && forall x :: x in plan <==> x in plan'
    ensures ApplySeq(c, plan).objects == ApplySeq(c, plan').objects
  {
    AppliedPlan(c, plan);
    AppliedPlan(c, plan');
    var a, b := ApplySeq(c, plan), ApplySeq(c, plan');
    hide ApplySeq, Applied, Agreed, WellFormed, LaidOver, At;
    forall k ensures At(a, k) == At(b, k) {
      LaidOnce(c.objects, plan, plan', k, At(a, k), At(b, k));
    }
    SameObjects(a, b);
  }

  /** Applying what is there already is no write at all: not even a version changes. */
  lemma {:induction false} ApplyAgain(c: Cluster, plan: seq<Resource>)
    requires forall x | x in plan :: x.key in c.objects && Merge(c.objects[x.key], x.obj) == c.objects[x.key]
    ensures ApplySeq(c, plan) == c
    decreases |plan|
  {
    if plan != [] {
      ApplyAgain(c, plan[..|plan| - 1]);
    }
  }

  /* ---------- one live reconcile ---------- */

  /** A live custom resource, guarded, and a plan of what it asks for. */
  ghost predicate Serving(c: Cluster, owner: Resource, ingress: IngressConfig, found: Discovery, plan: seq<Resource>) {
    && WellFormed(c) && At(c, owner.key) == Some(owner.obj)
    && !IsRoutingGvk(owner.key.gvk) && !owner.obj.deleting && FINALIZER in owner.obj.finalizers
    && PlanFor(plan, owner, ingress, found) && Agreed(plan)
  }

  function Unwanted(rule: Combining, c: Cluster, owner: Resource, gateway: string): set<Key> {
    OwnedOf(c, UnusedSweep(rule, owner, gateway))
  }

  /** Except at `key`, the state `c'` is `plan` laid over `objects`. */
  ghost predicate LaidElsewhere(objects: map<Key, Obj>, plan: seq<Resource>, key: Key, c': Cluster) {
    forall k | k != key :: LaidOver(objects, plan, k, At(c', k))
  }

  lemma LaidAt(objects: map<Key, Obj>, plan: seq<Resource>, key: Key, c': Cluster, k: Key)
    requires LaidElsewhere(objects, plan, key, c') && k != key
    ensures LaidOver(objects, plan, k, At(c', k))
  {
  }

  /** The state a run leaves, object by object. */
  lemma ServedObjects(rule: Combining, c: Cluster, owner: Resource, ingress: IngressConfig, found: Discovery,
                      plan: seq<Resource>)
    requires Serving(c, owner, ingress, found, plan)
    ensures var c1, c' := Drop(c, Unwanted(rule, c, owner, ingress.gatewayNamespace)), Served(rule, c, owner, ingress,
        found, plan);
      && WellFormed(c')
      && At(c', owner.key) == Some(PublishedObj(owner, ingress, found))
      && LaidElsewhere(c1.objects, plan, owner.key, c')
  {
    var c1 := Drop(c, Unwanted(rule, c, owner, ingress.gatewayNamespace));
    hide WellFormed, Later;
    DropIsLater(c, Unwanted(rule, c, owner, ingress.gatewayNamespace));
    var c2, o := ApplySeq(c1, plan), PublishedObj(owner, ingress, found);
    hide ApplySeq, WellFormed, Drop, OwnedOf, Published, LaidOver, Agreed, PlanFor, Later;
    AppliedPlan(c1, plan);
    PutIsLater(c2, owner.key, o);
    assert forall k | k != owner.key :: At(Put(c2, owner.key, o), k) == At(c2, k);
  }

  /** Every wanted resource carries the labels of its owner and of an enabled mode. */
  lemma DesiredLabels(owner: Resource, ingress: IngressConfig, domain: string, services: seq<Service>,
                      modes: set<RouteType>, x: Resource)
    requires IsDesiredOf(owner, ingress, domain, services, modes, x)
    ensures exists m :: m in modes && x.obj.labels == LabelsFor(owner, m)
  {
    hide IsDesiredOf, LabelsFor;
    var m, i, d := WantedDocument(owner, ingress, domain, services, modes, x);
  }

  /** What a complete reconcile promises about the state `c'` it leaves. */
  ghost predicate Converged(rule: Combining, c: Cluster, c': Cluster, owner: Resource, ingress: IngressConfig,
                            found: Discovery) {
    var modes := Enabled(owner.obj.annotations);
    && At(c', owner.key) == Some(PublishedObj(owner, ingress, found))
    && Unwanted(rule, c', owner, ingress.gatewayNamespace) == {}
    && (forall x | Wanted(owner, ingress, found, x) :: Provided(c', x))
    && (forall k | k != owner.key && k !in Unwanted(rule, c, owner, ingress.gatewayNamespace)
                   && (forall x | Wanted(owner, ingress, found, x) :: x.key != k) :: At(c', k) == At(c, k))
  }

  /** The template resource is there, with its labels, annotations and content. */
  ghost predicate Provided(c: Cluster, x: Resource) {
    && x.key in c.objects
    && (forall l | l in x.obj.labels :: Lookup(c.objects[x.key].labels, l) == Some(x.obj.labels[l]))
    && (forall l | l in x.obj.annotations :: Lookup(c.objects[x.key].annotations, l) == Some(x.obj.annotations[l]))
    && c.objects[x.key].payload == x.obj.payload
  }

  lemma MergedIsProvided(c: Cluster, x: Resource)
    ensures Provided(c, x) <==> x.key in c.objects && Merge(c.objects[x.key], x.obj) == c.objects[x.key]
  {
    if x.key in c.objects {
      var o, m := c.objects[x.key], Merge(c.objects[x.key], x.obj);
      forall l ensures Lookup(m.labels, l) == if l in x.obj.labels then Some(x.obj.labels[l]) else Lookup(o.labels, l)
               ensures Lookup(m.annotations, l)
                    == if l in x.obj.annotations then Some(x.obj.annotations[l]) else Lookup(o.annotations, l) {
        MergedParts(o, x.obj, l);
      }
      if Provided(c, x) {
        assert m.labels == o.labels && m.annotations == o.annotations;
      }
    }
  }

  ghost predicate Wanted(owner: Resource, ingress: IngressConfig, found: Discovery, x: Resource) {
    var modes := Enabled(owner.obj.annotations);
    modes != {} && found.Found() && IsDesiredOf(owner, ingress, found.domain.value, found.services.value, modes, x)
  }

  lemma PlanIsWanted(owner: Resource, ingress: IngressConfig, found: Discovery, plan: seq<Resource>)
    requires PlanFor(plan, owner, ingress, found)
    ensures forall x :: x in plan <==> Wanted(owner, ingress, found, x)
  {
    hide IsDesiredOf;
  }

  /** Nothing unwanted is left: what was there is gone, and what was applied is of an enabled mode. */
  lemma NotUnwanted(rule: Combining, c: Cluster, owner: Resource, ingress: IngressConfig, found: Discovery,
                    plan: seq<Resource>, k: Key, o: Obj)
    requires PlanFor(plan, owner, ingress, found)
    requires LaidOver(Drop(c, Unwanted(rule, c, owner, ingress.gatewayNamespace)).objects, plan, k, Some(o))
    ensures var s := UnusedSweep(rule, owner, ingress.gatewayNamespace); !InScope(s, AllKinds(s.types), k, o)
  {
    var c1 := Drop(c, Unwanted(rule, c, owner, ingress.gatewayNamespace));
    if x :| x in plan && x.key == k {
      hide PlanFor, Merge;
      LaidLabels(c1.objects, owner, ingress, found, plan, x, o);
    } else {
      hide PlanFor, InScope;
      assert k in c.objects && o == c.objects[k] && k !in Unwanted(rule, c, owner, ingress.gatewayNamespace);
    }
  }

  lemma NothingUnwanted(rule: Combining, c: Cluster, c': Cluster, owner: Resource, ingress: IngressConfig,
                        found: Discovery, plan: seq<Resource>)
    requires Serving(c, owner, ingress, found, plan)
    requires LaidElsewhere(Drop(c, Unwanted(rule, c, owner, ingress.gatewayNamespace)).objects, plan, owner.key, c')
    ensures Unwanted(rule, c', owner, ingress.gatewayNamespace) == {}
  {
    var s := UnusedSweep(rule, owner, ingress.gatewayNamespace);
    var objects := Drop(c, Unwanted(rule, c, owner, ingress.gatewayNamespace)).objects;
    forall k | k in c'.objects ensures !InScope(s, AllKinds(s.types), k, c'.objects[k]) {
      if k == owner.key {
        assert forall g | g in AllKinds(s.types) :: IsRoutingGvk(g);
      } else {
        hide PlanFor, Agreed, Unwanted, LaidElsewhere, LaidOver, InScope, WellFormed;
        LaidAt(objects, plan, owner.key, c', k);
        NotUnwanted(rule, c, owner, ingress, found, plan, k, c'.objects[k]);
      }
    }
  }

  lemma WantedIsProvided(objects: map<Key, Obj>, c': Cluster, owner: Resource, ingress: IngressConfig, found: Discovery,
                         plan: seq<Resource>, x: Resource)
    requires x in plan && PlanFor(plan, owner, ingress, found) && !IsRoutingGvk(owner.key.gvk)
    requires LaidElsewhere(objects, plan, owner.key, c')
    ensures Provided(c', x)
  {
    DesiredKinds(owner, ingress, found.domain.value, found.services.value, Enabled(owner.obj.annotations), x);
    LaidAt(objects, plan, owner.key, c', x.key);
    hide PlanFor, Merge, LaidElsewhere;
    if x.key in objects { MergeTwice(objects[x.key], x.obj); }
    MergeTwice(x.obj, x.obj);
    MergedIsProvided(c', x);
    hide Provided;
  }

  lemma AllProvided(objects: map<Key, Obj>, c': Cluster, owner: Resource, ingress: IngressConfig, found: Discovery,
                    plan: seq<Resource>)
    requires PlanFor(plan, owner, ingress, found) && !IsRoutingGvk(owner.key.gvk)
    requires LaidElsewhere(objects, plan, owner.key, c')
    ensures forall x | Wanted(owner, ingress, found, x) :: Provided(c', x)
  {
    hide PlanFor, LaidElsewhere, Provided, Wanted;
    PlanIsWanted(owner, ingress, found, plan);
    forall x | Wanted(owner, ingress, found, x) ensures Provided(c', x) {
      WantedIsProvided(objects, c', owner, ingress, found, plan, x);
    }
  }

  lemma OthersUntouched(c: Cluster, gone: set<Key>, c': Cluster, owner: Resource, ingress: IngressConfig,
                        found: Discovery, plan: seq<Resource>)
    requires PlanFor(plan, owner, ingress, found) && LaidElsewhere(Drop(c, gone).objects, plan, owner.key, c')
    ensures forall k | k != owner.key && k !in gone && (forall x | Wanted(owner, ingress, found, x) :: x.key != k) ::
      At(c', k) == At(c, k)
  {
    hide PlanFor, LaidElsewhere, Wanted;
    PlanIsWanted(owner, ingress, found, plan);
    forall k | k != owner.key && k !in gone && (forall x | Wanted(owner, ingress, found, x) :: x.key != k)
      ensures At(c', k) == At(c, k) {
      LaidAt(Drop(c, gone).objects, plan, owner.key, c', k);
    }
  }

  /** One fault-free run, whatever the order of its loops, converges: the published custom resource, everything
      wanted, nothing of a disabled mode, and all else as it was. */
  lemma ServedConverges(rule: Combining, c: Cluster, owner: Resource, ingress: IngressConfig, found: Discovery,
                        plan: seq<Resource>)
    requires Serving(c, owner, ingress, found, plan)
    ensures Converged(rule, c, Served(rule, c, owner, ingress, found, plan), owner, ingress, found)
  {
    var c', gone := Served(rule, c, owner, ingress, found, plan), Unwanted(rule, c, owner, ingress.gatewayNamespace);
    var objects := Drop(c, gone).objects;
    hide Served, Published, Unwanted, Wanted, PlanFor, Agreed, WellFormed, Provided, LaidElsewhere, Drop;
    ServedObjects(rule, c, owner, ingress, found, plan);
    NothingUnwanted(rule, c, c', owner, ingress, found, plan);
    AllProvided(objects, c', owner, ingress, found, plan);
    OthersUntouched(c, gone, c', owner, ingress, found, plan);
  }

  /* ---------- a second reconcile ---------- */

  lemma PublishedTwice(a: map<string, string>, ingress: IngressConfig, found: Discovery, modes: set<RouteType>)
    ensures Published(Published(a, ingress, found, modes), ingress, found, modes) == Published(a, ingress, found, modes)
    ensures Enabled(Published(a, ingress, found, modes)) == Enabled(a)
  {
    if modes == {} {
      PropagatedTwice(a, [], [], [], []);
      PropagatedElsewhere(a, [], []);
    } else if found.Found() {
      var svc := found.services.value[|found.services.value| - 1];
      Overwrites(a, ingress, found.domain.value, svc, svc, modes);
      PropagatedElsewhere(a,
        if PUBLIC_ROUTE in modes then PublicHostsOf(ingress, found.domain.value, svc, svc.ports) else [],
        if EXTERNAL_ROUTE in modes then ExternalHostsOf(ingress, found.domain.value, svc, svc.ports) else []);
    }
  }

  lemma SameOwnerWanted(o: Resource, o': Resource, ingress: IngressConfig, found: Discovery)
    requires o.key == o'.key && o.obj.uid == o'.obj.uid && Enabled(o.obj.annotations) == Enabled(o'.obj.annotations)
    ensures forall x :: Wanted(o, ingress, found, x) <==> Wanted(o', ingress, found, x)
  {
    var modes := Enabled(o.obj.annotations);
    if modes != {} && found.Found() {
      forall svc, x
        ensures IsDesired(o, ingress, found.domain.value, svc, modes, x)
            == IsDesired(o', ingress, found.domain.value, svc, modes, x)
      {
        SameOwnerWants(o, o', ingress, found.domain.value, svc, modes, x);
      }
    }
    hide IsDesired;
  }

  lemma SameOwnerUnwanted(rule: Combining, c: Cluster, o: Resource, o': Resource, gateway: string)
    requires o.key == o'.key && o.obj.uid == o'.obj.uid && Enabled(o.obj.annotations) == Enabled(o'.obj.annotations)
    ensures Unwanted(rule, c, o, gateway) == Unwanted(rule, c, o', gateway)
  {
  }

  /** A converged state stays as it is, versions included, for every plan of what is wanted. */
  lemma ServedAgain(rule: Combining, c: Cluster, c': Cluster, owner: Resource, after: Resource, ingress: IngressConfig,
                    found: Discovery, plan: seq<Resource>)
    requires Converged(rule, c, c', owner, ingress, found)
    requires after.key == owner.key && after.obj == PublishedObj(owner, ingress, found)
    requires PlanFor(plan, after, ingress, found)
    ensures Served(rule, c', after, ingress, found, plan) == c'
  {
    PublishedTwice(owner.obj.annotations, ingress, found, Enabled(owner.obj.annotations));
    assert PublishedObj(after, ingress, found) == after.obj;
    SameOwnerWanted(owner, after, ingress, found);
    SameOwnerUnwanted(rule, c', owner, after, ingress.gatewayNamespace);
    PlanIsWanted(after, ingress, found, plan);
    hide Wanted, PlanFor, Published, OwnedOf, ApplySeq, Merge, Provided;
    assert Drop(c', {}) == c';
    forall x | x in plan ensures x.key in c'.objects && Merge(c'.objects[x.key], x.obj) == c'.objects[x.key] {
      assert Wanted(owner, ingress, found, x);
      MergedIsProvided(c', x);
    }
    ApplyAgain(c', plan);
  }

  /* ---------- the theorems about Reconcile ---------- */

  /** A stored custom resource that is not marked for deletion, with a plan of what it asks for. */
  ghost predicate LiveWith(c: Cluster, target: Resource, ingress: IngressConfig, found: Discovery,
                           plan: seq<Resource>) {
    && WellFormed(c) && Fresh(c, target) && !target.obj.deleting && !IsRoutingGvk(target.key.gvk)
    && PlanFor(plan, GuardedTarget(target), ingress, found) && Agreed(plan)
  }

  /** The state once the finalizer is on. */
  function WithGuard(c: Cluster, target: Resource): Cluster {
    Put(c, target.key, WithFinalizer(target.obj, FINALIZER))
  }

  lemma LiveServes(c: Cluster, target: Resource, ingress: IngressConfig, found: Discovery, plan: seq<Resource>)
    requires LiveWith(c, target, ingress, found, plan)
    ensures Serving(WithGuard(c, target), GuardedTarget(target), ingress, found, plan)
    ensures forall k | k != target.key :: At(WithGuard(c, target), k) == At(c, k)
  {
    PutIsLater(c, target.key, WithFinalizer(target.obj, FINALIZER));
    hide PlanFor, Agreed, WellFormed;
  }

  /** One fault-free reconcile converges. */
  lemma Reconciled(rule: Combining, c: Cluster, target: Resource, ingress: IngressConfig, found: Discovery,
                   plan: seq<Resource>)
    requires LiveWith(c, target, ingress, found, plan)
    ensures Converged(rule, WithGuard(c, target), LiveRun(rule, c, target, ingress, found, plan),
        GuardedTarget(target), ingress, found)
    ensures "routing.opendatahub.io/finalizer" in GuardedTarget(target).obj.finalizers
  {
    LiveServes(c, target, ingress, found, plan);
    ServedConverges(rule, WithGuard(c, target), GuardedTarget(target), ingress, found, plan);
  }

  /** A second one changes nothing, not even a version, whatever order its loops run in. */
  lemma ReconciledTwice(rule: Combining, c: Cluster, target: Resource, ingress: IngressConfig, found: Discovery,
                        plan: seq<Resource>, plan': seq<Resource>)
    requires LiveWith(c, target, ingress, found, plan)
    ensures var c' := LiveRun(rule, c, target, ingress, found, plan);
      && target.key in c'.objects && target.key in c'.versions && !c'.objects[target.key].deleting
      && (PlanFor(plan', GuardedTarget(Stored(c', target.key)), ingress, found) ==>
            LiveRun(rule, c', Stored(c', target.key), ingress, found, plan') == c')
  {
    Reconciled(rule, c, target, ingress, found, plan);
    LiveServes(c, target, ingress, found, plan);
    ServedObjects(rule, WithGuard(c, target), GuardedTarget(target), ingress, found, plan);
    var c' := LiveRun(rule, c, target, ingress, found, plan);
    var after := Stored(c', target.key);
    assert after.obj == PublishedObj(GuardedTarget(target), ingress, found) && GuardedTarget(after) == after;
    if PlanFor(plan', after, ingress, found) {
      ServedAgain(rule, WithGuard(c, target), c', GuardedTarget(target), after, ingress, found, plan');
    }
  }

  /** Every order of the loops leads to the same objects. */
  lemma ReconcileOrder(rule: Combining, c: Cluster, target: Resource, ingress: IngressConfig, found: Discovery,
                       plan: seq<Resource>, plan': seq<Resource>)
    requires LiveWith(c, target, ingress, found, plan) && PlanFor(plan', GuardedTarget(target), ingress, found)
    ensures LiveRun(rule, c, target, ingress, found, plan).objects
        == LiveRun(rule, c, target, ingress, found, plan').objects
  {
    LiveServes(c, target, ingress, found, plan);
    hide PlanFor, Published, OwnedOf, ApplySeq, Agreed, Put, WellFormed, IsDesiredOf;
    PlanIsWanted(GuardedTarget(target), ingress, found, plan);
    PlanIsWanted(GuardedTarget(target), ingress, found, plan');
    var c1, gone := WithGuard(c, target), Unwanted(rule, WithGuard(c, target), GuardedTarget(target),
        ingress.gatewayNamespace);
    DropIsLater(c1, gone);
    hide Wanted, Unwanted;
    ApplyOrder(Drop(c1, gone), plan, plan');
    SamePut(ApplySeq(Drop(c1, gone), plan), ApplySeq(Drop(c1, gone), plan'), target.key,
        PublishedObj(GuardedTarget(target), ingress, found));
  }

  lemma SamePut(a: Cluster, b: Cluster, k: Key, o: Obj)
    requires a.objects == b.objects
    ensures Put(a, k, o).objects == Put(b, k, o).objects
  {
  }

  /** A resource with the tags of its owner and mode is one that removal looks for. */
  lemma TaggedIsInScope(rule: Combining, owner: Resource, gateway: string, types: set<RouteType>, k: Key, o: Obj)
    requires Tagged(owner.key, gateway, k, o) && OwnedBy(o, owner.obj.uid) && OfType(o, types)
    ensures InScope(Sweep(rule, owner, gateway, types), AllKinds(types), k, o)
  {
  }

  /** Where ownership is tagged properly, the custom resource does not own itself. */
  lemma OwnsNotItself(c: Cluster, target: Resource, gateway: string)
    requires Fresh(c, target) && !IsRoutingGvk(target.key.gvk)
    requires forall k | k in c.objects && OwnedBy(c.objects[k], target.obj.uid) ::
      Tagged(target.key, gateway, k, c.objects[k])
    ensures target.key in c.objects && !OwnedBy(c.objects[target.key], target.obj.uid)
    ensures !OwnedBy(target.obj, target.obj.uid)
  {
    hide OwnedBy;
    if OwnedBy(c.objects[target.key], target.obj.uid) { assert false; }
  }

  /** The custom resource of a run is not one of its own resources, before or after. */
  lemma NotItsOwn(rule: Combining, c: Cluster, target: Resource, ingress: IngressConfig, found: Discovery,
                  plan: seq<Resource>)
    requires LiveWith(c, target, ingress, found, plan) && !OwnedBy(target.obj, target.obj.uid)
    ensures var c', c0 := LiveRun(rule, c, target, ingress, found, plan), WithGuard(c, target);
      && target.key in c'.objects && !OwnedBy(c'.objects[target.key], target.obj.uid)
      && LaidElsewhere(Drop(c0, Unwanted(rule, c0, GuardedTarget(target), ingress.gatewayNamespace)).objects, plan,
          target.key, c')
  {
    LiveServes(c, target, ingress, found, plan);
    hide Published, LaidElsewhere, Unwanted, WellFormed, PlanFor, Agreed, Put, Drop, Served;
    ServedObjects(rule, WithGuard(c, target), GuardedTarget(target), ingress, found, plan);
  }

  /** If every owned resource was of a kind of its type, none of a disabled mode is left. */
  lemma OnlyEnabledModes(rule: Combining, c: Cluster, target: Resource, ingress: IngressConfig, found: Discovery,
                         plan: seq<Resource>)
    requires LiveWith(c, target, ingress, found, plan)
    requires forall k | k in c.objects && OwnedBy(c.objects[k], target.obj.uid) ::
      Tagged(target.key, ingress.gatewayNamespace, k, c.objects[k])
    ensures var c' := LiveRun(rule, c, target, ingress, found, plan);
      forall k | k in c'.objects && OwnedBy(c'.objects[k], target.obj.uid) ::
        OfType(c'.objects[k], Enabled(target.obj.annotations))
  {
    var c', c0, owner := LiveRun(rule, c, target, ingress, found, plan), WithGuard(c, target), GuardedTarget(target);
    hide LiveRun, Published, LaidOver, LaidElsewhere, WellFormed, Put, Unwanted, PlanFor, Agreed, Tagged, Serving,
         Enabled, OwnedBy;
    OwnsNotItself(c, target, ingress.gatewayNamespace);
    LiveServes(c, target, ingress, found, plan);
    NotItsOwn(rule, c, target, ingress, found, plan);
    var objects := Drop(c0, Unwanted(rule, c0, owner, ingress.gatewayNamespace)).objects;
    hide LiveWith, Drop, OfType, WithGuard;
    forall k | k in c'.objects && OwnedBy(c'.objects[k], target.obj.uid)
      ensures OfType(c'.objects[k], Enabled(target.obj.annotations)) {
      assert At(c0, k) == At(c, k);
      LaidAt(objects, plan, owner.key, c', k);
      LeftOver(rule, c0, owner, ingress, found, plan, k, c'.objects[k]);
    }
  }

  lemma LeftOver(rule: Combining, c: Cluster, owner: Resource, ingress: IngressConfig, found: Discovery,
                 plan: seq<Resource>, k: Key, o: Obj)
    requires PlanFor(plan, owner, ingress, found) && OwnedBy(o, owner.obj.uid)
    requires LaidOver(Drop(c, Unwanted(rule, c, owner, ingress.gatewayNamespace)).objects, plan, k, Some(o))
    requires k in c.objects && OwnedBy(c.objects[k], owner.obj.uid) ==>
      Tagged(owner.key, ingress.gatewayNamespace, k, c.objects[k])
    ensures OfType(o, Enabled(owner.obj.annotations))
  {
    var modes, gw := Enabled(owner.obj.annotations), ingress.gatewayNamespace;
    var c1 := Drop(c, Unwanted(rule, c, owner, gw));
    if x :| x in plan && x.key == k {
      hide PlanFor, Merge, InScope;
      LaidLabels(c1.objects, owner, ingress, found, plan, x, o);
    } else {
      hide PlanFor, InScope;
      assert k in c.objects && o == c.objects[k] && k !in Unwanted(rule, c, owner, gw);
      if !OfType(o, modes) {
        assert OfType(o, UnusedTypes(modes));
        TaggedIsInScope(rule, owner, gw, UnusedTypes(modes), k, o);
      }
    }
  }

  lemma LaidLabels(objects: map<Key, Obj>, owner: Resource, ingress: IngressConfig, found: Discovery,
                   plan: seq<Resource>, x: Resource, o: Obj)
    requires PlanFor(plan, owner, ingress, found) && x in plan && o == Applied(objects, x.key, x.obj)
    ensures OfType(o, Enabled(owner.obj.annotations))
  {
    DesiredLabels(owner, ingress, found.domain.value, found.services.value, Enabled(owner.obj.annotations), x);
    assert o.labels[EXPORT_TYPE] == x.obj.labels[EXPORT_TYPE];
  }
}
