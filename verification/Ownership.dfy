/** Who owns a routing resource, and the promise the routing controller has to keep in every state: no resource
    without its owner, and no owner without a finalizer while it has resources. */
module Ownership {
  import opened Api
  import opened Metadata
  import opened RouteTypes
  import opened Templates

  const FINALIZER := "routing.opendatahub.io/finalizer"

  /* ---------- kinds per route type (controllers/routingctrl/gvk.go) ---------- */

  const EXTERNAL_GVKS := [ROUTE, VIRTUAL_SERVICE]
  const PUBLIC_GVKS := [SERVICE, GATEWAY, VIRTUAL_SERVICE, DESTINATION_RULE]

  function GvksOf(t: RouteType): seq<Gvk> {
    if t == EXTERNAL_ROUTE then EXTERNAL_GVKS else if t == PUBLIC_ROUTE then PUBLIC_GVKS else []
  }

  predicate IsRoutingGvk(g: Gvk) {
    g in EXTERNAL_GVKS || g in PUBLIC_GVKS
  }

  /** What a template creates is of a kind that deletion looks for. */
  lemma TemplateKinds(mode: RouteType, i: nat)
    requires i < |Documents(mode)|
    ensures mode in AllRouteTypes() && Documents(mode)[i].gvk in GvksOf(mode)
  {
  }

  /* ---------- ownership ---------- */

  predicate OwnedBy(o: Obj, uid: string) {
    Lookup(o.labels, OWNER_UID) == Some(uid)
  }

  predicate OfType(o: Obj, types: set<RouteType>) {
    EXPORT_TYPE in o.labels && o.labels[EXPORT_TYPE] in types
  }

  /** The custom resource whose routing is watched over, and the namespace its resources live in. */
  datatype Watch = Watch(cr: Key, uid: string, gateway: string)

  predicate ValidWatch(w: Watch) {
    w.uid != "" && !IsRoutingGvk(w.cr.gvk)
  }

  /** A resource of a known route type, of a kind of that type, labelled with its owner's name and kind. */
  ghost predicate Tagged(cr: Key, gateway: string, k: Key, o: Obj) {
    && k.namespace == gateway
    && Lookup(o.labels, OWNER_NAME) == Some(cr.name)
    && Lookup(o.labels, OWNER_KIND) == Some(cr.gvk.kind)
    && EXPORT_TYPE in o.labels
    && o.labels[EXPORT_TYPE] in AllRouteTypes()
    && k.gvk in GvksOf(o.labels[EXPORT_TYPE])
  }

  predicate SameTags(o: Obj, o': Obj) {
    forall l | l in {OWNER_NAME, OWNER_KIND, OWNER_UID, EXPORT_TYPE} :: Lookup(o.labels, l) == Lookup(o'.labels, l)
  }

  /** The stored state, and the modes the user disabled since the last complete reconcile that saw them disabled. */
  datatype World = World(c: Cluster, pending: set<RouteType>)

  predicate Present(w: Watch, c: Cluster) {
    w.cr in c.objects && c.objects[w.cr].uid == w.uid
  }

  predicate Guarded(w: Watch, c: Cluster) {
    Present(w, c) && FINALIZER in c.objects[w.cr].finalizers
  }

  /** Modes whose resources a deletion of the custom resource would find, or that are still to be cleaned up. */
  function Accounted(w: Watch, s: World): set<RouteType> {
    (if Present(w, s.c) then Enabled(s.c.objects[w.cr].annotations) else {}) + s.pending
  }

  ghost predicate Safe(w: Watch, s: World) {
    && (forall k | k in s.c.objects && OwnedBy(s.c.objects[k], w.uid) ::
          && Guarded(w, s.c)
          && Tagged(w.cr, w.gateway, k, s.c.objects[k])
          && OfType(s.c.objects[k], Accounted(w, s)))
    && (Present(w, s.c) && s.c.objects[w.cr].deleting ==> s.pending == {})
    && (forall k | k in s.c.objects && s.c.objects[k].uid == w.uid :: k == w.cr)
  }

  /** The promise itself: a resource labelled with `uid` has its owner, and the owner holds the finalizer. */
  ghost predicate NoOrphans(uid: string, c: Cluster) {
    forall k | k in c.objects && OwnedBy(c.objects[k], uid) ::
      exists owner :: owner in c.objects && c.objects[owner].uid == uid && FINALIZER in c.objects[owner].finalizers
  }

  lemma SafeMeansNoOrphans(w: Watch, s: World)
    requires Safe(w, s)
    ensures NoOrphans(w.uid, s.c)
  {
  }

  /* ---------- what everybody else may do meanwhile ---------- */

  /** Users and other controllers never hand out the uid again, never take the finalizer off, never label a
      resource as owned by the custom resource or change such labels. A mode that is disabled goes on the account; it
      leaves it by being enabled again. The deletion mark stays, is set only when nothing is on the account, and no
      mode is disabled after it. Everything else is open to them. */
  predicate UserRules(w: Watch, s: World, s': World) {
    && (forall k | k in s'.c.objects && OwnedBy(s'.c.objects[k], w.uid) ::
          k in s.c.objects && SameTags(s.c.objects[k], s'.c.objects[k]))
    && (forall k | k in s'.c.objects && s'.c.objects[k].uid == w.uid :: k in s.c.objects && s.c.objects[k].uid == w.uid)
    && (Guarded(w, s.c) ==> Guarded(w, s'.c))
    && (Present(w, s.c) && Present(w, s'.c) ==>
          var o, o' := s.c.objects[w.cr], s'.c.objects[w.cr];
          && (s.pending + Enabled(o.annotations)) - Enabled(o'.annotations) <= s'.pending
          && (o.deleting ==> o'.deleting)
          && (o'.deleting ==> s'.pending == {}))
  }

  predicate Rely(w: Option<Watch>, s: World, s': World) {
    && WellFormed(s'.c)
    && Later(s.c, s'.c)
    && (w.Some? ==> UserRules(w.value, s, s'))
  }

  lemma RelyReflexive(w: Option<Watch>, s: World)
    requires WellFormed(s.c) && (w.Some? ==> Safe(w.value, s))
    ensures Rely(w, s, s)
  {
  }

  lemma RelyTransitive(w: Option<Watch>, s: World, t: World, u: World)
    requires Rely(w, s, t) && Rely(w, t, u)
    ensures Rely(w, s, u)
  {
    LaterTransitive(s.c, t.c, u.c);
  }

  /** Nobody else can break the promise. */
  lemma SafeUnderRely(w: Watch, s: World, s': World)
    requires Safe(w, s) && Rely(Some(w), s, s')
    ensures Safe(w, s')
  {
    forall k | k in s'.c.objects && OwnedBy(s'.c.objects[k], w.uid)
      ensures OwnedBy(s.c.objects[k], w.uid) && Tagged(w.cr, w.gateway, k, s'.c.objects[k])
      ensures OfType(s'.c.objects[k], Accounted(w, s'))
    {
      assert forall l | l in {OWNER_NAME, OWNER_KIND, OWNER_UID, EXPORT_TYPE} ::
        Lookup(s.c.objects[k].labels, l) == Lookup(s'.c.objects[k].labels, l);
      assert Lookup(s.c.objects[k].labels, OWNER_UID) == Lookup(s'.c.objects[k].labels, OWNER_UID);
      assert Lookup(s.c.objects[k].labels, OWNER_NAME) == Lookup(s'.c.objects[k].labels, OWNER_NAME);
      assert Lookup(s.c.objects[k].labels, OWNER_KIND) == Lookup(s'.c.objects[k].labels, OWNER_KIND);
      assert Lookup(s.c.objects[k].labels, EXPORT_TYPE) == Lookup(s'.c.objects[k].labels, EXPORT_TYPE);
    }
  }

  /* ---------- a reconcile under way ---------- */

  /** A reconcile works for the custom resource at `cr` with `uid`, in namespace `gateway`, for `modes`, with a client
      that combines options by `combining`. */
  datatype Run = Run(cr: Key, uid: string, gateway: string, modes: set<RouteType>, combining: Combining)

  /** What a run may count on from the moment it knows the finalizer to be there: its own resource is guarded and
      its modes are accounted for. A run for anybody else never meets the watched resource. */
  ghost predicate Holds(w: Watch, r: Run, s: World) {
    if r.uid == w.uid then r.cr == w.cr && r.gateway == w.gateway && Guarded(w, s.c) && r.modes <= Accounted(w, s)
    else r.cr == w.cr ==> !Present(w, s.c)
  }

  /** No resource of the run's owner has a type outside the run's modes. */
  ghost predicate Clean(w: Watch, r: Run, s: World) {
    r.uid == w.uid ==> forall k | k in s.c.objects && OwnedBy(s.c.objects[k], w.uid) :: OfType(s.c.objects[k], r.modes)
  }

  lemma HoldsUnderRely(w: Watch, r: Run, s: World, s': World)
    requires Rely(Some(w), s, s') && Holds(w, r, s)
    ensures Holds(w, r, s')
  {
  }

  lemma CleanUnderRely(w: Watch, r: Run, s: World, s': World)
    requires Rely(Some(w), s, s') && Clean(w, r, s)
    ensures Clean(w, r, s')
  {
    if r.uid == w.uid {
      forall k | k in s'.c.objects && OwnedBy(s'.c.objects[k], w.uid) ensures OfType(s'.c.objects[k], r.modes) {
        assert Lookup(s.c.objects[k].labels, OWNER_UID) == Lookup(s'.c.objects[k].labels, OWNER_UID);
        assert Lookup(s.c.objects[k].labels, EXPORT_TYPE) == Lookup(s'.c.objects[k].labels, EXPORT_TYPE);
      }
    }
  }

  /* ---------- the controller's own steps ---------- */

  /** A resource as the run labels it. */
  ghost predicate Labelled(r: Run, k: Key, source: Obj) {
    && Tagged(r.cr, r.gateway, k, source)
    && OwnedBy(source, r.uid)
    && OfType(source, r.modes)
    && source.uid == "" && source.finalizers == [] && !source.deleting
  }

  /** Applying it leaves its labels on whatever was stored before. */
  lemma AppliedLabels(r: Run, objects: map<Key, Obj>, k: Key, source: Obj)
    requires Labelled(r, k, source)
    ensures var o := Applied(objects, k, source);
      Tagged(r.cr, r.gateway, k, o) && OwnedBy(o, r.uid) && OfType(o, r.modes)
    ensures Applied(objects, k, source).uid == if k in objects then objects[k].uid else ""
  {
  }

  lemma PutKeepsSafe(w: Watch, r: Run, s: World, k: Key, o: Obj)
    requires ValidWatch(w) && Safe(w, s) && Holds(w, r, s) && k != w.cr
    requires Tagged(r.cr, r.gateway, k, o) && OwnedBy(o, r.uid) && OfType(o, r.modes)
    requires o.uid == if k in s.c.objects then s.c.objects[k].uid else ""
    ensures var s' := s.(c := Put(s.c, k, o));
      Safe(w, s') && Holds(w, r, s') && (Clean(w, r, s) ==> Clean(w, r, s'))
  {
    var s' := s.(c := Put(s.c, k, o));
    assert Accounted(w, s') == Accounted(w, s) && Present(w, s'.c) == Present(w, s.c)
        && Guarded(w, s'.c) == Guarded(w, s.c);
    forall j | j in s'.c.objects && OwnedBy(s'.c.objects[j], w.uid)
      ensures Guarded(w, s'.c) && Tagged(w.cr, w.gateway, j, s'.c.objects[j])
      ensures OfType(s'.c.objects[j], Accounted(w, s'))
    {
      assert j == k || s'.c.objects[j] == s.c.objects[j];
    }
  }

  lemma ApplyKeepsSafe(w: Watch, r: Run, s: World, k: Key, source: Obj)
    requires ValidWatch(w) && Safe(w, s) && Holds(w, r, s) && Labelled(r, k, source)
    ensures var s' := s.(c := ApplyOp(s.c, k, source));
      Safe(w, s') && Holds(w, r, s') && (Clean(w, r, s) ==> Clean(w, r, s'))
  {
    AppliedLabels(r, s.c.objects, k, source);
    PutKeepsSafe(w, r, s, k, Applied(s.c.objects, k, source));
  }

  lemma DropKeepsSafe(w: Watch, r: Run, s: World, gone: set<Key>)
    requires ValidWatch(w) && Safe(w, s) && w.cr !in gone
    ensures var s' := s.(c := Drop(s.c, gone));
      Safe(w, s') && (Holds(w, r, s) ==> Holds(w, r, s')) && (Clean(w, r, s) ==> Clean(w, r, s'))
  {
  }

  /** What the controller may change on the custom resource itself: the address annotations and the finalizers. */
  ghost predicate OwnEdit(o: Obj, o': Obj) {
    && o' == o.(annotations := o'.annotations, finalizers := o'.finalizers)
    && (forall a | a !in {PUBLIC_ADDRESSES, EXTERNAL_ADDRESSES} ::
          Lookup(o.annotations, a) == Lookup(o'.annotations, a))
  }

  /** Everything but the custom resource at `k` is as it was, and that one's labels and uid are. */
  lemma EditedState(s: World, k: Key, o': Obj)
    requires k in s.c.objects && OwnEdit(s.c.objects[k], o')
    ensures var c' := Put(s.c, k, o');
      && (forall j | j in c'.objects ::
            j in s.c.objects && c'.objects[j].labels == s.c.objects[j].labels
                && c'.objects[j].uid == s.c.objects[j].uid)
      && (forall j | j != k :: j in c'.objects <==> j in s.c.objects)
      && (forall j | j != k && j in c'.objects :: c'.objects[j] == s.c.objects[j])
      && (k in c'.objects ==> c'.objects[k] == o')
      && (k !in c'.objects ==> o'.deleting && o'.finalizers == [])
  {
  }

  /** The custom resource itself as others see it stays the same: there, guarded, marked or not, with its modes. */
  lemma EditKeepsGuard(w: Watch, s: World, k: Key, o': Obj)
    requires k in s.c.objects && OwnEdit(s.c.objects[k], o')
    requires FINALIZER in s.c.objects[k].finalizers ==> FINALIZER in o'.finalizers
    ensures var s' := s.(c := Put(s.c, k, o'));
      && (Guarded(w, s.c) ==> Guarded(w, s'.c) && Accounted(w, s') == Accounted(w, s))
      && (Present(w, s'.c) ==> Present(w, s.c) && s'.c.objects[w.cr].deleting == s.c.objects[w.cr].deleting)
  {
    AddressesKeepModes(s.c.objects[k].annotations, o'.annotations);
    EditedState(s, k, o');
    hide Put, Enabled;
  }

  lemma EditKeepsHold(w: Watch, r: Run, s: World, k: Key, o': Obj)
    requires ValidWatch(w) && k in s.c.objects && OwnEdit(s.c.objects[k], o')
    requires FINALIZER in s.c.objects[k].finalizers ==> FINALIZER in o'.finalizers
    ensures var s' := s.(c := Put(s.c, k, o'));
      (Holds(w, r, s) ==> Holds(w, r, s')) && (Clean(w, r, s) ==> Clean(w, r, s'))
  {
    hide Put, Accounted, Guarded, OwnEdit;
    EditKeepsGuard(w, s, k, o');
    EditedState(s, k, o');
  }

  lemma EditKeepsSafe(w: Watch, r: Run, s: World, k: Key, o': Obj)
    requires ValidWatch(w) && Safe(w, s) && !IsRoutingGvk(k.gvk)
    requires k in s.c.objects && OwnEdit(s.c.objects[k], o')
    requires FINALIZER in s.c.objects[k].finalizers ==> FINALIZER in o'.finalizers
    ensures var s' := s.(c := Put(s.c, k, o'));
      Safe(w, s') && (Holds(w, r, s) ==> Holds(w, r, s')) && (Clean(w, r, s) ==> Clean(w, r, s'))
  {
    assert !OwnedBy(s.c.objects[k], w.uid);
    hide Put, Accounted, Guarded, OwnEdit, Holds, Clean, GvksOf;
    EditKeepsHold(w, r, s, k, o');
    EditKeepsGuard(w, s, k, o');
    EditedState(s, k, o');
  }

  /** The finalizer may go once nothing is owned any more. */
  lemma ReleaseKeepsSafe(w: Watch, s: World, k: Key, o': Obj)
    requires ValidWatch(w) && Safe(w, s) && !IsRoutingGvk(k.gvk)
    requires k in s.c.objects && OwnEdit(s.c.objects[k], o')
    requires k == w.cr && Present(w, s.c) ==> forall j | j in s.c.objects :: !OwnedBy(s.c.objects[j], w.uid)
    ensures Safe(w, s.(c := Put(s.c, k, o')))
  {
    AddressesKeepModes(s.c.objects[k].annotations, o'.annotations);
    EditedState(s, k, o');
    assert !OwnedBy(s.c.objects[k], w.uid);
    hide Put, Enabled, GvksOf, OwnEdit, IsRoutingGvk, AllRouteTypes;
  }

  /** A complete clean run settles what was pending outside its modes. */
  lemma SettleKeepsSafe(w: Watch, r: Run, s: World)
    requires Safe(w, s) && Holds(w, r, s) && Clean(w, r, s) && r.uid == w.uid
    ensures Safe(w, s.(pending := s.pending * r.modes))
  {
  }

  /* ---------- what the controller's steps look like to others ---------- */

  ghost predicate Untouched(c: Cluster, c': Cluster, k: Key) {
    (k in c.objects <==> k in c'.objects) && (k in c.objects ==> c.objects[k] == c'.objects[k])
  }

  /** Writes or removes routing resources in the gateway namespace, writing only what carries the run's label in
      the end and, if the options of a delete request add up, removing only what carried it before. */
  ghost predicate ResourceStep(r: Run, c: Cluster, c': Cluster) {
    && (forall k | k in c.objects || k in c'.objects ::
          Untouched(c, c', k) || (k != r.cr && k.namespace == r.gateway && IsRoutingGvk(k.gvk)))
    && (forall k | k in c'.objects && !Untouched(c, c', k) ::
          OwnedBy(c'.objects[k], r.uid) && c'.objects[k].uid == if k in c.objects then c.objects[k].uid else "")
    && (r.combining.Conjoined? ==> forall k | k in c.objects && k !in c'.objects :: OwnedBy(c.objects[k], r.uid))
  }

  /** Edits the custom resource, which goes away only if it was marked for deletion. */
  ghost predicate CrStep(cr: Key, c: Cluster, c': Cluster) {
    && (forall k | k in c.objects || k in c'.objects :: k == cr || Untouched(c, c', k))
    && (cr in c'.objects ==> cr in c.objects && OwnEdit(c.objects[cr], c'.objects[cr]))
    && (cr in c.objects && cr !in c'.objects ==> c.objects[cr].deleting)
  }

  ghost predicate OwnStep(r: Run, c: Cluster, c': Cluster) {
    WellFormed(c') && Later(c, c') && (ResourceStep(r, c, c') || CrStep(r.cr, c, c'))
  }

  /** One controller's step is something another run can live with: it keeps the rules of every other custom
      resource with another uid. */
  lemma OwnStepKeepsRules(w: Watch, r: Run, s: World, c': Cluster)
    requires ValidWatch(w) && Safe(w, s) && OwnStep(r, s.c, c')
    requires r.cr != w.cr && r.uid != w.uid && !IsRoutingGvk(r.cr.gvk)
    ensures Rely(Some(w), s, s.(c := c'))
  {
    assert w.cr in s.c.objects || w.cr in c'.objects ==> Untouched(s.c, c', w.cr);
    forall k | k in c'.objects && OwnedBy(c'.objects[k], w.uid)
      ensures k in s.c.objects && SameTags(s.c.objects[k], c'.objects[k])
    {
      assert k == r.cr || Untouched(s.c, c', k);
    }
  }
}
