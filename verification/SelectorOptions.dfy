/** Two label selectors on one delete request: what becomes of other owners' resources, depending on how the client
    library combines the options (controllers/routingctrl/delete_resources.go). */
module SelectorOptions {
  import opened Api
  import opened Metadata
  import opened RouteTypes
  import opened Templates
  import opened Ownership
  import opened Server
  import opened Unstruct
  import opened Deletion

  /** A resource of one of the types, of a kind of them, in the gateway namespace. */
  predicate OfKindAndType(gateway: string, types: set<RouteType>, k: Key, o: Obj) {
    k.gvk in AllKinds(types) && k.namespace == gateway && OfType(o, types)
  }

  /** All such resources carry the owner's three labels. */
  ghost predicate SoleOwner(c: Cluster, owner: Resource, gateway: string, types: set<RouteType>) {
    forall k | k in c.objects && OfKindAndType(gateway, types, k, c.objects[k]) :: LabelledBy(c.objects[k], owner)
  }

  /** If options add up, a removal takes the owner's resources and no others. If a later selector takes the place of
      the earlier one, it takes all resources of those kinds and types, so that it takes only the owner's exactly when
      there are no others. */
  lemma TakesOnlyOwn(c: Cluster, owner: Resource, gateway: string, types: set<RouteType>)
    ensures forall k | k in OwnedOf(c, Sweep(Conjoined, owner, gateway, types)) :: LabelledBy(c.objects[k], owner)
    ensures OwnedOf(c, Sweep(Replacing, owner, gateway, types)) == set k | k in c.objects
        && OfKindAndType(gateway, types, k, c.objects[k])
    ensures (forall k | k in OwnedOf(c, Sweep(Replacing, owner, gateway, types)) :: LabelledBy(c.objects[k], owner))
       <==> SoleOwner(c, owner, gateway, types)
  {
    forall k, o
      ensures InScope(Sweep(Replacing, owner, gateway, types), AllKinds(types), k, o)
         <==> OfKindAndType(gateway, types, k, o) {
    }
    hide OfKindAndType, LabelledBy, AllKinds;
  }

  /** The two ways of combining come to the same state exactly then. */
  lemma SameRemoval(c: Cluster, owner: Resource, gateway: string, types: set<RouteType>)
    ensures Drop(c, OwnedOf(c, Sweep(Replacing, owner, gateway, types)))
        == Drop(c, OwnedOf(c, Sweep(Conjoined, owner, gateway, types)))
       <==> SoleOwner(c, owner, gateway, types)
  {
    var all, own := OwnedOf(c, Sweep(Replacing, owner, gateway, types)), OwnedOf(c,
        Sweep(Conjoined, owner, gateway, types));
    TakesOnlyOwn(c, owner, gateway, types);
    forall k ensures k in own <==> k in all && LabelledBy(c.objects[k], owner) {
    }
    hide OwnedOf, LabelledBy, OfKindAndType;
    if !SoleOwner(c, owner, gateway, types) {
      var k :| k in all && !LabelledBy(c.objects[k], owner);
      assert k in c.objects && k !in own;
      assert k !in Drop(c, all).objects && k in Drop(c, own).objects;
    } else {
      assert all == own;
    }
  }

  /** Whichever way, no own step of a removal touches a resource of another kind, type or namespace; and if options add
      up, none that lacks one of the owner's labels, shared kinds included. */
  lemma RemovalSpares(s: Sweep, kinds: seq<Gvk>, h: seq<Entry>, from: nat, i: nat, k: Key)
    requires Removals(s, kinds, h, from) && from <= i < |h| && h[i].own && i > 0 && k in h[i - 1].world.c.objects
    requires var o := h[i - 1].world.c.objects[k];
      k.gvk !in kinds || k.namespace != s.gateway || !OfType(o, s.types)
          || (s.rule.Conjoined? && !LabelledBy(o, s.owner))
    ensures Untouched(h[i - 1].world.c, h[i].world.c, k)
  {
    hide Sweeps, LabelledBy, OfType;
    assert Removal(s, kinds, h[i - 1].world.c, h[i].world.c);
  }

  /* ---------- two owners ---------- */

  function VirtualServiceOf(owner: string, uid: string): Obj {
    Obj("", map[OWNER_NAME := owner, OWNER_KIND := "Component", OWNER_UID := uid, EXPORT_TYPE := PUBLIC_ROUTE],
        map[], [], [], false, Rendered(""))
  }

  function TwoOwners(): Cluster {
    var a, b := Key(VIRTUAL_SERVICE, "gateway", "a"), Key(VIRTUAL_SERVICE, "gateway", "b");
    Cluster(map[a := VirtualServiceOf("a", "1"), b := VirtualServiceOf("b", "2")], map[a := 1, b := 2], 2)
  }

  /** A state with two owners: removing the public resources of "a" takes those of "b" along exactly if options do not
      add up. */
  lemma TwoOwnersWitness()
    ensures var c := TwoOwners();
      var owner := Resource(Key(Gvk("opendatahub.io", "v1", "Component"), "apps", "a"), 0,
                            Obj("1", map[], map[], [], [], false, Component(Other)));
      var b := Key(VIRTUAL_SERVICE, "gateway", "b");
      && WellFormed(c) && !LabelledBy(c.objects[b], owner)
      && b in Drop(c, OwnedOf(c, Sweep(Conjoined, owner, "gateway", {PUBLIC_ROUTE}))).objects
      && b !in Drop(c, OwnedOf(c, Sweep(Replacing, owner, "gateway", {PUBLIC_ROUTE}))).objects
  {
    var c, b := TwoOwners(), Key(VIRTUAL_SERVICE, "gateway", "b");
    var owner := Resource(Key(Gvk("opendatahub.io", "v1", "Component"), "apps", "a"), 0,
                          Obj("1", map[], map[], [], [], false, Component(Other)));
    assert VIRTUAL_SERVICE == PUBLIC_GVKS[2] && PUBLIC_ROUTE in {PUBLIC_ROUTE};
    assert VIRTUAL_SERVICE in AllKinds({PUBLIC_ROUTE});
    LabelsOfB(owner);
    hide LabelledBy, AllKinds, VirtualServiceOf;
    assert OfType(c.objects[b], {PUBLIC_ROUTE});
  }

  lemma LabelsOfB(owner: Resource)
    requires owner.obj.uid == "1"
    ensures var o := VirtualServiceOf("b", "2");
      !LabelledBy(o, owner) && EXPORT_TYPE in o.labels && o.labels[EXPORT_TYPE] == PUBLIC_ROUTE && !o.deleting
    ensures !VirtualServiceOf("a", "1").deleting
  {
    assert "2"[0] != "1"[0];
    assert OWNER_UID[0] == 'p' && EXPORT_TYPE[0] == 'r';
  }
}
