/** What a reconcile leaves of a custom resource marked for deletion and of its routing resources. */
module Finalization {
  import opened Api
  import opened Metadata
  import opened RouteTypes
  import opened Templates
  import opened Ownership
  import opened Server
  import opened Unstruct
  import opened Deletion
  import opened Exporting
  import opened RoutingController
  import opened Convergence

  ghost predicate Dying(c: Cluster, target: Resource) {
    WellFormed(c) && Fresh(c, target) && target.obj.deleting && !IsRoutingGvk(target.key.gvk)
  }

  /** What deletion is after: the resources of the enabled modes. */
  function EnabledSweep(rule: Combining, target: Resource, gateway: string): Sweep {
    Sweep(rule, target, gateway, Enabled(target.obj.annotations))
  }

  /** Resources in the gateway namespace whose kind belongs to an enabled mode and whose labels name an enabled mode
      and, if options add up, the owner. */
  predicate Doomed(rule: Combining, target: Resource, gateway: string, k: Key, o: Obj) {
    InScope(EnabledSweep(rule, target, gateway), AllKinds(Enabled(target.obj.annotations)), k, o)
  }

  /** Exactly the doomed resources go, and of the custom resource exactly the own finalizer, which takes it along
      if it was the last one. */
  lemma DeletedExactly(rule: Combining, c: Cluster, target: Resource, gateway: string)
    requires Dying(c, target)
    ensures var c' := DeletionRun(rule, c, target, gateway);
      && (forall k | k != target.key ::
            At(c', k) == if k in c.objects && Doomed(rule, target, gateway, k, c.objects[k]) then None else At(c, k))
      && (Enabled(target.obj.annotations) != {} ==>
            At(c', target.key) == if WithoutFinalizer(target.obj, FINALIZER).finalizers == [] then None
                                  else Some(WithoutFinalizer(target.obj, FINALIZER)))
  {
    DoomedAreSwept(rule, c, target, gateway);
    hide Doomed, OwnedOf, WithoutFinalizer, Enabled;
    if EnabledSweep(rule, target, gateway).types != {} {
      PutElsewhere(Drop(c, OwnedOf(c, EnabledSweep(rule, target, gateway))), target.key,
          WithoutFinalizer(target.obj, FINALIZER));
    }
  }

  lemma DoomedAreSwept(rule: Combining, c: Cluster, target: Resource, gateway: string)
    requires !IsRoutingGvk(target.key.gvk)
    ensures forall k ::
      (k in OwnedOf(c, EnabledSweep(rule, target, gateway))
       <==> (k in c.objects && Doomed(rule, target, gateway, k, c.objects[k])))
    ensures forall o :: !Doomed(rule, target, gateway, target.key, o)
    ensures Enabled(target.obj.annotations) == {} ==> forall k, o :: !Doomed(rule, target, gateway, k, o)
  {
  }

  lemma PutElsewhere(c: Cluster, k: Key, o: Obj)
    requires k in c.objects && o.deleting && (c.objects[k].finalizers == [] ==> o != c.objects[k])
    ensures forall j | j != k :: At(Put(c, k, o), j) == At(c, j)
    ensures At(Put(c, k, o), k) == if o.finalizers == [] then None else Some(o)
  {
  }

  /** The finalizer is dropped exactly when some mode is enabled: with none the custom resource stays behind, marked
      for deletion and guarded. No other finalizer is lost or added either way. */
  lemma FinalizerDropped(rule: Combining, c: Cluster, target: Resource, gateway: string)
    requires Dying(c, target) && "routing.opendatahub.io/finalizer" in target.obj.finalizers
    ensures var c', own := DeletionRun(rule, c, target, gateway), "routing.opendatahub.io/finalizer";
      && (target.key in c'.objects && own in c'.objects[target.key].finalizers <==>
            Enabled(target.obj.annotations) == {})
      && (forall f | f != own && f in target.obj.finalizers ::
            target.key in c'.objects && f in c'.objects[target.key].finalizers)
      && (target.key in c'.objects ==> forall f | f in c'.objects[target.key].finalizers :: f in target.obj.finalizers)
  {
    DeletedExactly(rule, c, target, gateway);
    forall f
      ensures f in WithoutFinalizer(target.obj, FINALIZER).finalizers
         <==> f in target.obj.finalizers && f != FINALIZER {
      WithoutKeepsOthers(target.obj.finalizers, FINALIZER, f);
    }
    if Enabled(target.obj.annotations) == {} {
      assert DeletionRun(rule, c, target, gateway).objects[target.key] == target.obj;
    }
    hide Enabled;
  }

  /** Deletion leaves nothing behind exactly when everything labelled with the owner's uid was of an enabled mode, of a
      kind of the enabled modes, in the gateway namespace and labelled with its name and kind: a resource of a mode that
      was disabled and never cleaned up stays for ever. */
  lemma NothingLeftBehind(rule: Combining, c: Cluster, target: Resource, gateway: string)
    requires Dying(c, target)
    ensures var c' := DeletionRun(rule, c, target, gateway);
      (forall k | k != target.key && k in c'.objects :: !OwnedBy(c'.objects[k], target.obj.uid))
      <==> (forall k | k != target.key && k in c.objects && OwnedBy(c.objects[k], target.obj.uid) ::
              Doomed(rule, target, gateway, k, c.objects[k]))
  {
    DeletedExactly(rule, c, target, gateway);
    var c' := DeletionRun(rule, c, target, gateway);
    hide DeletionRun, Doomed, Dying;
    forall k | k != target.key
      ensures (k in c'.objects && OwnedBy(c'.objects[k], target.obj.uid)) <==>
              (k in c.objects && OwnedBy(c.objects[k], target.obj.uid)
                  && !Doomed(rule, target, gateway, k, c.objects[k]))
    {
      assert At(c', k) == if k in c.objects && Doomed(rule, target, gateway, k, c.objects[k]) then None else At(c, k);
    }
  }

  /* ---------- a complete reconcile, then the mark, then deletion ---------- */

  /** A wanted resource is of a kind of its type and carries the names of its owner. */
  lemma DesiredTagged(owner: Resource, ingress: IngressConfig, domain: string, services: seq<Service>,
                      modes: set<RouteType>, x: Resource)
    requires IsDesiredOf(owner, ingress, domain, services, modes, x)
    ensures Tagged(owner.key, ingress.gatewayNamespace, x.key, x.obj)
  {
    hide Documents, IsDesiredOf, GvksOf;
    var m, i, d := WantedDocument(owner, ingress, domain, services, modes, x);
    TemplateKinds(m, i);
  }

  lemma MergedTagged(cr: Key, gateway: string, objects: map<Key, Obj>, x: Resource)
    requires Tagged(cr, gateway, x.key, x.obj)
    ensures Tagged(cr, gateway, x.key, Applied(objects, x.key, x.obj))
  {
    var o := Applied(objects, x.key, x.obj);
    assert forall l | l in x.obj.labels :: l in o.labels && o.labels[l] == x.obj.labels[l];
  }

  lemma LaidIsTagged(c: Cluster, gone: set<Key>, owner: Resource, ingress: IngressConfig, found: Discovery,
                     plan: seq<Resource>, k: Key, o: Obj)
    requires PlanFor(plan, owner, ingress, found) && LaidOver(Drop(c, gone).objects, plan, k, Some(o))
    requires OwnedBy(o, owner.obj.uid)
    requires k in c.objects && OwnedBy(c.objects[k], owner.obj.uid) ==>
      Tagged(owner.key, ingress.gatewayNamespace, k, c.objects[k])
    ensures Tagged(owner.key, ingress.gatewayNamespace, k, o)
  {
    hide Tagged, IsDesiredOf, Applied;
    if x :| x in plan && x.key == k {
      DesiredTagged(owner, ingress, found.domain.value, found.services.value, Enabled(owner.obj.annotations), x);
      MergedTagged(owner.key, ingress.gatewayNamespace, Drop(c, gone).objects, x);
    }
  }

  /** Ownership that was tagged properly still is after a reconcile. */
  lemma StillTagged(rule: Combining, c: Cluster, target: Resource, ingress: IngressConfig, found: Discovery,
                    plan: seq<Resource>)
    requires LiveWith(c, target, ingress, found, plan)
    requires forall k | k in c.objects && OwnedBy(c.objects[k], target.obj.uid) ::
      Tagged(target.key, ingress.gatewayNamespace, k, c.objects[k])
    ensures var c' := LiveRun(rule, c, target, ingress, found, plan);
      forall k | k in c'.objects && OwnedBy(c'.objects[k], target.obj.uid) ::
        Tagged(target.key, ingress.gatewayNamespace, k, c'.objects[k])
  {
    var c', c0, owner := LiveRun(rule, c, target, ingress, found, plan), WithGuard(c, target), GuardedTarget(target);
    hide LiveRun, Published, LaidOver, LaidElsewhere, WellFormed, Put, Unwanted, PlanFor, Agreed, Tagged, Serving,
         Enabled, OwnedBy;
    OwnsNotItself(c, target, ingress.gatewayNamespace);
    LiveServes(c, target, ingress, found, plan);
    NotItsOwn(rule, c, target, ingress, found, plan);
    var gone := Unwanted(rule, c0, owner, ingress.gatewayNamespace);
    forall k | k in c'.objects && OwnedBy(c'.objects[k], target.obj.uid)
      ensures Tagged(target.key, ingress.gatewayNamespace, k, c'.objects[k]) {
      assert At(c0, k) == At(c, k);
      LaidAt(Drop(c0, gone).objects, plan, owner.key, c', k);
      LaidIsTagged(c0, gone, owner, ingress, found, plan, k, c'.objects[k]);
    }
  }

  /** `c'` is `c` with the custom resource marked for deletion. */
  ghost predicate MarkedSince(c: Cluster, c': Cluster, key: Key) {
    WellFormed(c') && key in c.objects && c'.objects == c.objects[key := c.objects[key].(deleting := true)]
  }

  /** A complete reconcile, then the mark, then deletion: nothing labelled with the uid is left. It takes no more than
      that resources owned before the reconcile were of a kind of their type and named their owner. */
  lemma CleanDeletion(rule: Combining, c: Cluster, target: Resource, ingress: IngressConfig, found: Discovery,
                      plan: seq<Resource>, marked: Cluster)
    requires LiveWith(c, target, ingress, found, plan)
    requires forall k | k in c.objects && OwnedBy(c.objects[k], target.obj.uid) ::
      Tagged(target.key, ingress.gatewayNamespace, k, c.objects[k])
    requires MarkedSince(LiveRun(rule, c, target, ingress, found, plan), marked, target.key)
    ensures target.key in marked.objects && target.key in marked.versions
    ensures var c' := DeletionRun(rule, marked, Stored(marked, target.key), ingress.gatewayNamespace);
      forall k | k in c'.objects :: !OwnedBy(c'.objects[k], target.obj.uid)
  {
    var c1 := LiveRun(rule, c, target, ingress, found, plan);
    OnlyEnabledModes(rule, c, target, ingress, found, plan);
    StillTagged(rule, c, target, ingress, found, plan);
    hide LiveRun, WellFormed, PlanFor, Agreed, Tagged, Enabled, OwnedBy, OfType, DeletionRun, LaidElsewhere;
    OwnsNotItself(c, target, ingress.gatewayNamespace);
    NotItsOwn(rule, c, target, ingress, found, plan);
    AfterReconcile(rule, c, target, ingress, found, plan);
    MarkedThenDeleted(rule, c1, target, ingress.gatewayNamespace, marked);
  }

  lemma AfterReconcile(rule: Combining, c: Cluster, target: Resource, ingress: IngressConfig, found: Discovery,
                       plan: seq<Resource>)
    requires LiveWith(c, target, ingress, found, plan)
    ensures var c' := LiveRun(rule, c, target, ingress, found, plan);
      && target.key in c'.objects && c'.objects[target.key].uid == target.obj.uid
      && Enabled(c'.objects[target.key].annotations) == Enabled(target.obj.annotations)
  {
    LiveServes(c, target, ingress, found, plan);
    PublishedTwice(target.obj.annotations, ingress, found, Enabled(target.obj.annotations));
    hide Published, LaidElsewhere, Unwanted, WellFormed, PlanFor, Agreed, Put, Drop, Served, Enabled;
    ServedObjects(rule, WithGuard(c, target), GuardedTarget(target), ingress, found, plan);
  }

  lemma MarkedThenDeleted(rule: Combining, c: Cluster, target: Resource, gateway: string, marked: Cluster)
    requires !IsRoutingGvk(target.key.gvk) && target.key in c.objects && MarkedSince(c, marked, target.key)
    requires c.objects[target.key].uid == target.obj.uid && !OwnedBy(c.objects[target.key], target.obj.uid)
    requires Enabled(c.objects[target.key].annotations) == Enabled(target.obj.annotations)
    requires forall k | k in c.objects && OwnedBy(c.objects[k], target.obj.uid) ::
      Tagged(target.key, gateway, k, c.objects[k]) && OfType(c.objects[k], Enabled(target.obj.annotations))
    ensures target.key in marked.versions
    ensures var c' := DeletionRun(rule, marked, Stored(marked, target.key), gateway);
      forall k | k in c'.objects :: !OwnedBy(c'.objects[k], target.obj.uid)
  {
    var dying := Stored(marked, target.key);
    assert Dying(marked, dying);
    NothingLeftBehind(rule, marked, dying, gateway);
    DeletedExactly(rule, marked, dying, gateway);
    var c' := DeletionRun(rule, marked, dying, gateway);
    forall k | k != target.key && k in marked.objects && OwnedBy(marked.objects[k], target.obj.uid)
      ensures Doomed(rule, dying, gateway, k, marked.objects[k])
    {
      assert marked.objects[k] == c.objects[k];
      TaggedIsInScope(rule, dying, gateway, Enabled(target.obj.annotations), k, c.objects[k]);
    }
    hide Doomed, Tagged, OwnedBy, Enabled, Dying, WithoutFinalizer;
    if target.key in c'.objects {
      DyingLabels(rule, marked, dying, gateway);
    }
  }

  lemma DyingLabels(rule: Combining, c: Cluster, target: Resource, gateway: string)
    requires Dying(c, target) && target.key in DeletionRun(rule, c, target, gateway).objects
    ensures DeletionRun(rule, c, target, gateway).objects[target.key].labels == target.obj.labels
  {
    DeletedExactly(rule, c, target, gateway);
    if Enabled(target.obj.annotations) == {} { assert DeletionRun(rule, c, target, gateway) == c; }
    hide DeletionRun, Doomed, Enabled;
    assert At(DeletionRun(rule, c, target, gateway), target.key)
        == Some(DeletionRun(rule, c, target, gateway).objects[target.key]);
  }

  /** Were the controller activated for another gateway namespace, deletion would leave nothing behind exactly if there
      was nothing: resources in the former namespace are out of its reach. */
  lemma MovedGateway(rule: Combining, c: Cluster, target: Resource, gateway: string, moved: string)
    requires Dying(c, target)
    requires forall k | k in c.objects && OwnedBy(c.objects[k], target.obj.uid) ::
      Tagged(target.key, gateway, k, c.objects[k]) && OfType(c.objects[k], Enabled(target.obj.annotations))
    ensures (forall k | k != target.key && k in DeletionRun(rule, c, target, moved).objects ::
               !OwnedBy(DeletionRun(rule, c, target, moved).objects[k], target.obj.uid))
       <==> moved == gateway || (forall k | k in c.objects :: !OwnedBy(c.objects[k], target.obj.uid))
  {
    NothingLeftBehind(rule, c, target, moved);
    hide DeletionRun;
    assert !OwnedBy(c.objects[target.key], target.obj.uid);
    forall k | k in c.objects && OwnedBy(c.objects[k], target.obj.uid)
      ensures Doomed(rule, target, moved, k, c.objects[k]) <==> moved == gateway {
      if moved == gateway { TaggedIsInScope(rule, target, gateway, Enabled(target.obj.annotations), k, c.objects[k]); }
    }
  }

  /** Adding the own finalizer with a patch that met a concurrent writer: exactly the finalizers the client knew of
      are kept, whatever the other writer added or removed meanwhile. */
  lemma FinalizerRace(base: Obj, stored: Obj, f: string)
    requires FINALIZER !in base.finalizers
    ensures f in ThreeWay(base, WithFinalizer(base, FINALIZER), stored).finalizers
       <==> f in base.finalizers || f == FINALIZER
  {
    ThreeWayConcurrent(base, WithFinalizer(base, FINALIZER), stored);
  }
}
