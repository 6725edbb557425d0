/** Removing routing resources by label, and letting go of the custom resource afterwards
    (controllers/routingctrl/delete_resources.go and gvk.go). */
module Deletion {
  import opened Api
  import opened Metadata
  import opened RouteTypes
  import opened Templates
  import opened Ownership
  import opened Server
  import opened Unstruct

  /* ---------- modes and kinds ---------- */

  /** The enabled modes, in whatever order the annotations come up. */
  method ExtractExportModes(annotations: map<string, string>) returns (modes: seq<RouteType>)
    ensures NoDuplicates(modes)
    ensures forall m :: m in modes <==> m in Enabled(annotations)
  {
    modes := [];
    var keys := annotations.Keys;
    while keys != {}
      invariant keys <= annotations.Keys
      invariant NoDuplicates(modes)
      invariant forall m :: m in modes <==> m in Enabled(annotations) && EXPORT_MODE_PREFIX + m !in keys
    {
      var key :| key in keys;
      ghost var before := modes;
      if annotations[key] == "true" {
        var mode, valid := IsValidRouteType(key);
        if valid {
          modes := modes + [mode];
        }
      }
      forall m | EXPORT_MODE_PREFIX + m == key ensures m == key[|EXPORT_MODE_PREFIX|..] {
      }
      keys := keys - {key};
    }
  }

  /** The kinds of all given modes, each once, in whatever order a set of them comes up. */
  method RoutingResourceGvks(modes: seq<RouteType>) returns (gvks: seq<Gvk>)
    ensures NoDuplicates(gvks)
    ensures forall g :: g in gvks <==> exists m :: m in modes && g in GvksOf(m)
  {
    var kinds: set<Gvk> := {};
    for i := 0 to |modes|
      invariant forall g :: g in kinds <==> exists m :: m in modes[..i] && g in GvksOf(m)
    {
      var list := GvksOf(modes[i]);
      ghost var before := kinds;
      for j := 0 to |list|
        invariant forall g :: g in kinds <==> g in before || g in list[..j]
      {
        kinds := kinds + {list[j]};
      }
      assert modes[..i + 1] == modes[..i] + [modes[i]];
      assert list[..|list|] == list;
    }
    assert modes[..|modes|] == modes;
    gvks := [];
    var rest := kinds;
    while rest != {}
      invariant rest <= kinds && NoDuplicates(gvks)
      invariant forall g :: g in gvks <==> g in kinds && g !in rest
    {
      var g :| g in rest;
      gvks := gvks + [g];
      rest := rest - {g};
    }
  }

  /* ---------- deleting what one owner has ---------- */

  /** What a series of delete requests is after: resources of some types that `owner` has in `gateway`, asked for by a
      client that combines options by `rule`. */
  datatype Sweep = Sweep(rule: Combining, owner: Resource, gateway: string, types: set<RouteType>)

  function OwnerLabels(owner: Resource): map<string, string> {
    map[OWNER_NAME := owner.key.name, OWNER_KIND := owner.key.gvk.kind, OWNER_UID := owner.obj.uid]
  }

  /** The options of every request, in the order they are given. */
  function OptionsFor(s: Sweep): seq<DeleteOption> {
    [InNamespace(s.gateway), MatchingLabels(OwnerLabels(s.owner)), MatchingSelector(Choice(EXPORT_TYPE, s.types))]
  }

  /** The object carries the owner's three labels. */
  predicate LabelledBy(o: Obj, owner: Resource) {
    && Lookup(o.labels, OWNER_NAME) == Some(owner.key.name)
    && Lookup(o.labels, OWNER_KIND) == Some(owner.key.gvk.kind)
    && Lookup(o.labels, OWNER_UID) == Some(owner.obj.uid)
  }

  /** Gateway-namespace resources of the given kinds that carry one of the types and, if options add up, the owner's
      three labels. */
  predicate InScope(s: Sweep, kinds: seq<Gvk>, k: Key, o: Obj) {
    && k.gvk in kinds
    && k.namespace == s.gateway
    && (s.rule.Conjoined? ==> LabelledBy(o, s.owner))
    && OfType(o, s.types)
  }

  function Scoped(c: Cluster, s: Sweep, kinds: seq<Gvk>): set<Key> {
    set k | k in c.objects && InScope(s, kinds, k, c.objects[k])
  }

  /** One step of this client removes resources in scope and does nothing else. */
  ghost predicate Removal(s: Sweep, kinds: seq<Gvk>, c: Cluster, c': Cluster) {
    && c'.objects.Keys <= c.objects.Keys
    && (forall k | k in c'.objects :: c'.objects[k] == c.objects[k])
    && (forall k | k in c.objects && k !in c'.objects :: InScope(s, kinds, k, c.objects[k]))
  }

  /** The request asks for the resources of one kind. */
  ghost predicate Sweeps(s: Sweep, kind: Gvk, sent: Sent) {
    sent.Deleted? && sent.gvk == kind && sent.options == OptionsFor(s)
  }

  /** Every step of this client since entry `from` comes from a delete request for one of the kinds, and removes only
      what is in scope. */
  ghost predicate Removals(s: Sweep, kinds: seq<Gvk>, h: seq<Entry>, from: nat) {
    forall i :: from <= i < |h| && h[i].own ==>
      i > 0 && Removal(s, kinds, h[i - 1].world.c, h[i].world.c) && exists g :: g in kinds && Sweeps(s, g, h[i].sent)
  }

  /** Between the two entries there was a successful delete request for this kind. */
  ghost predicate Requested(s: Sweep, kind: Gvk, h: seq<Entry>, from: nat, to: nat) {
    exists i :: from <= i < to && i < |h| && h[i].own && Sweeps(s, kind, h[i].sent) && h[i].sent.err == None
  }

  ghost predicate AllRequested(s: Sweep, kinds: seq<Gvk>, h: seq<Entry>, from: nat, to: nat) {
    forall g | g in kinds :: Requested(s, g, h, from, to)
  }

  /** No delete request of this client between the two entries failed. */
  ghost predicate NoneFailed(h: seq<Entry>, from: nat, to: nat) {
    forall i :: from <= i < to && i < |h| && h[i].own && h[i].sent.Deleted? ==> h[i].sent.err == None
  }

  lemma RemovalsTransitive(s: Sweep, kinds: seq<Gvk>, h0: seq<Entry>, h1: seq<Entry>, h2: seq<Entry>)
    requires h0 <= h1 <= h2 && Removals(s, kinds, h1, |h0|) && Removals(s, kinds, h2, |h1|)
    ensures Removals(s, kinds, h2, |h0|)
  {
    hide Removal, Sweeps;
    forall i | |h0| <= i < |h2| && h2[i].own
      ensures i > 0 && Removal(s, kinds, h2[i - 1].world.c, h2[i].world.c)
        && exists g :: g in kinds && Sweeps(s, g, h2[i].sent)
    {
      if i < |h1| { assert h1[i] == h2[i]; assert i > 0 && h1[i - 1] == h2[i - 1]; }
    }
  }

  lemma RequestedLater(s: Sweep, kind: Gvk, h1: seq<Entry>, h2: seq<Entry>, from: nat, to: nat)
    requires h1 <= h2 && Requested(s, kind, h1, from, |h1|) && |h1| <= to
    ensures Requested(s, kind, h2, from, to)
  {
    var i :| from <= i < |h1| && h1[i].own && Sweeps(s, kind, h1[i].sent) && h1[i].sent.err == None;
    assert h2[i] == h1[i];
  }

  lemma RequestsLast(s: Sweep, kinds: seq<Gvk>, h1: seq<Entry>, h2: seq<Entry>, from: nat, to: nat)
    requires h1 <= h2 && AllRequested(s, kinds, h1, from, |h1|) && |h1| <= to
    ensures AllRequested(s, kinds, h2, from, to)
  {
    forall g | g in kinds ensures Requested(s, g, h2, from, to) {
      RequestedLater(s, g, h1, h2, from, to);
    }
  }

  lemma NoneFailedSoFar(h0: seq<Entry>, h1: seq<Entry>, h2: seq<Entry>)
    requires h0 <= h1 <= h2
    ensures NoneFailed(h2, |h0|, |h2|) <==> NoneFailed(h1, |h0|, |h1|) && NoneFailed(h2, |h1|, |h2|)
  {
    assert forall i :: 0 <= i < |h1| ==> h1[i] == h2[i];
  }

  /** The watched owner has no resource of these types left, among the given kinds. */
  ghost predicate Swept(w: Watch, uid: string, kinds: seq<Gvk>, types: set<RouteType>, s: World) {
    uid == w.uid ==>
      forall k | k in s.c.objects && OwnedBy(s.c.objects[k], w.uid) && OfType(s.c.objects[k], types) :: k.gvk !in kinds
  }

  ghost predicate SweptAt(watch: Option<Watch>, uid: string, kinds: seq<Gvk>, types: set<RouteType>, s: World) {
    watch.Some? ==> Swept(watch.value, uid, kinds, types, s)
  }

  lemma SweptUnderRely(watch: Option<Watch>, uid: string, kinds: seq<Gvk>, types: set<RouteType>, s: World, s': World)
    requires Rely(watch, s, s') && SweptAt(watch, uid, kinds, types, s)
    ensures SweptAt(watch, uid, kinds, types, s')
  {
    if watch.Some? && uid == watch.value.uid {
      var w := watch.value;
      forall k | k in s'.c.objects && OwnedBy(s'.c.objects[k], w.uid) && OfType(s'.c.objects[k], types)
        ensures k.gvk !in kinds {
        assert Lookup(s.c.objects[k].labels, OWNER_UID) == Lookup(s'.c.objects[k].labels, OWNER_UID);
        assert Lookup(s.c.objects[k].labels, EXPORT_TYPE) == Lookup(s'.c.objects[k].labels, EXPORT_TYPE);
      }
    }
  }

  /** What the options of one request come to. */
  lemma SelectorOf(s: Sweep, kind: Gvk)
    ensures Selected(s.rule, kind, OptionsFor(s)) ==
      Selector(kind, s.gateway, if s.rule.Conjoined? then OwnerLabels(s.owner) else map[],
          Some(Choice(EXPORT_TYPE, s.types)))
  {
    var o := OptionsFor(s);
    assert o[..2][..1] == o[..1] && o[..1][..0] == [];
    assert Selected(s.rule, kind, []) == Selector(kind, "", map[], None);
    assert Selected(s.rule, kind, o[..1]) == Selector(kind, s.gateway, map[], None);
    assert map[] + OwnerLabels(s.owner) == OwnerLabels(s.owner);
    assert Selected(s.rule, kind, o[..2]) == Selector(kind, s.gateway, OwnerLabels(s.owner), None);
  }

  lemma HasOwnerLabels(o: Obj, owner: Resource)
    ensures HasLabels(o, OwnerLabels(owner)) <==> LabelledBy(o, owner)
  {
    var l := OwnerLabels(owner);
    assert l[OWNER_NAME] == owner.key.name && l[OWNER_KIND] == owner.key.gvk.kind && l[OWNER_UID] == owner.obj.uid;
  }

  /** One delete request picks what is in scope for its kind. */
  lemma SelectorScope(s: Sweep, kind: Gvk, k: Key, o: Obj)
    ensures Matches(Selected(s.rule, kind, OptionsFor(s)), k, o) <==> InScope(s, [kind], k, o)
  {
    SelectorOf(s, kind);
    HasOwnerLabels(o, s.owner);
    hide Selected, OptionsFor, OwnerLabels, LabelledBy;
  }

  lemma MatchingIsScoped(c: Cluster, s: Sweep, kind: Gvk)
    ensures Matching(c, Selected(s.rule, kind, OptionsFor(s))) == Scoped(c, s, [kind])
  {
    hide Matches, InScope;
    forall k | k in c.objects
      ensures Matches(Selected(s.rule, kind, OptionsFor(s)), k, c.objects[k]) <==> InScope(s, [kind], k, c.objects[k])
    {
      SelectorScope(s, kind, k, c.objects[k]);
    }
  }

  /** Removing for one more kind. */
  lemma DropMore(c: Cluster, s: Sweep, kinds: seq<Gvk>, kind: Gvk, gone: set<Key>, more: set<Key>)
    requires gone <= Scoped(c, s, kinds) && more <= Scoped(Drop(c, gone), s, [kind])
    ensures Drop(Drop(c, gone), more) == Drop(c, gone + more)
    ensures gone + more <= Scoped(c, s, kinds + [kind])
    ensures gone == Scoped(c, s, kinds) && more == Scoped(Drop(c, gone), s, [kind]) ==>
      gone + more == Scoped(c, s, kinds + [kind])
  {
    forall k, o ensures InScope(s, kinds + [kind], k, o) <==> InScope(s, kinds, k, o) || InScope(s, [kind], k, o) {
    }
    hide InScope;
  }

  /** The run works for `owner` with the server's way of combining options, and if that is the watched resource, in the
      watched namespace. */
  ghost predicate Aligned(server: ApiServer, r: Run, owner: Resource) {
    && owner.key == r.cr && owner.obj.uid == r.uid && !IsRoutingGvk(r.cr.gvk) && r.combining == server.combining
    && (server.watch.Some? && r.uid == server.watch.value.uid ==>
          r.cr == server.watch.value.cr && r.gateway == server.watch.value.gateway)
  }

  ghost predicate SweepOf(r: Run, s: Sweep) {
    s.owner.key == r.cr && s.owner.obj.uid == r.uid && s.gateway == r.gateway && s.rule == r.combining
  }

  lemma DropIsResourceStep(r: Run, s: Sweep, kind: Gvk, c: Cluster, gone: set<Key>)
    requires IsRoutingGvk(kind) && !IsRoutingGvk(r.cr.gvk) && SweepOf(r, s)
    requires gone <= Scoped(c, s, [kind])
    ensures ResourceStep(r, c, Drop(c, gone)) && Removal(s, [kind], c, Drop(c, gone))
    ensures Untouched(c, Drop(c, gone), r.cr)
  {
    var c' := Drop(c, gone);
    forall k | k in gone ensures k in c.objects && InScope(s, [kind], k, c.objects[k]) {
    }
    assert forall k | k in gone ::
      k.gvk == kind && k.namespace == r.gateway && (r.combining.Conjoined? ==> OwnedBy(c.objects[k], r.uid));
    hide InScope, IsRoutingGvk, OwnedBy, Scoped;
    assert forall k | k in c.objects && k !in gone :: Untouched(c, c', k);
  }

  lemma DropIsOwnStep(r: Run, s: Sweep, kind: Gvk, c: Cluster, gone: set<Key>)
    requires WellFormed(c) && IsRoutingGvk(kind) && !IsRoutingGvk(r.cr.gvk) && SweepOf(r, s)
    requires gone <= Scoped(c, s, [kind])
    ensures OwnStep(r, c, Drop(c, gone)) && Removal(s, [kind], c, Drop(c, gone)) && Untouched(c, Drop(c, gone), r.cr)
  {
    hide ResourceStep, Removal, Drop, WellFormed, Later, IsRoutingGvk, Scoped, Untouched;
    DropIsLater(c, gone);
    DropIsResourceStep(r, s, kind, c, gone);
  }

  lemma DropSpares(w: Watch, r: Run, s: Sweep, kind: Gvk, mid: World, gone: set<Key>)
    requires ValidWatch(w) && Safe(w, mid) && IsRoutingGvk(kind)
    requires gone <= Scoped(mid.c, s, [kind])
    ensures var now := mid.(c := Drop(mid.c, gone));
      Safe(w, now) && (Holds(w, r, mid) ==> Holds(w, r, now)) && (Clean(w, r, mid) ==> Clean(w, r, now))
  {
    assert w.cr !in gone;
    hide Scoped, InScope, Safe, Holds, Clean, Drop;
    DropKeepsSafe(w, r, mid, gone);
  }

  /** After the delete request for one more kind, that kind is swept as well. */
  lemma SweptByDrop(server: ApiServer, r: Run, s: Sweep, done: seq<Gvk>, kind: Gvk, mid: World, gone: set<Key>)
    requires Aligned(server, r, s.owner) && SweepOf(r, s)
    requires (server.watch.Some? ==> Safe(server.watch.value, mid)) && SweptAt(server.watch, r.uid, done, s.types, mid)
    ensures SweptAt(server.watch, r.uid, done, s.types, mid.(c := Drop(mid.c, gone)))
    ensures gone == Scoped(mid.c, s, [kind]) ==>
      SweptAt(server.watch, r.uid, done + [kind], s.types, mid.(c := Drop(mid.c, gone)))
  {
    var w := server.watch;
    if w.Some? && r.uid == w.value.uid && gone == Scoped(mid.c, s, [kind]) {
      var c' := Drop(mid.c, gone);
      forall k | k in c'.objects && OwnedBy(c'.objects[k], r.uid) && OfType(c'.objects[k], s.types)
        ensures k.gvk !in done + [kind] {
        assert Tagged(w.value.cr, w.value.gateway, k, mid.c.objects[k]);
        assert k !in gone;
      }
    }
  }

  lemma KeptByRemoving(server: ApiServer, r: Run, s: Sweep, kind: Gvk, h0: seq<Entry>, w0: World, mid: World,
                       gone: set<Key>)
    requires OneCall(server, h0, w0, mid)
    requires Aligned(server, r, s.owner) && SweepOf(r, s) && IsRoutingGvk(kind)
    requires gone <= Scoped(mid.c, s, [kind]) && server.world == mid.(c := Drop(mid.c, gone))
    requires Sweeps(s, kind, server.history[|server.history| - 1].sent)
    ensures Kept(server, r, h0, w0) && Removals(s, [kind], server.history, |h0|)
  {
    hide OwnStep, Removal, Safe, Holds, Clean, Drop, Scoped, UserRules, WellFormed, Later, KnownFinalizers, Untouched,
         Sweeps;
    var n := |server.history| - 1;
    assert server.history[n].world == server.world && WellFormed(server.history[n - 1].world.c);
    DropIsOwnStep(r, s, kind, mid.c, gone);
    UntouchedFinalizers(r.cr, server.history, n);
    if server.watch.Some? && Safe(server.watch.value, mid) { DropSpares(server.watch.value, r, s, kind, mid, gone); }
    assert kind in [kind];
    KeptByWriting(server, r, h0, w0, mid);
  }

  /** The delete request for one kind. */
  method DeleteKind(server: ApiServer, kind: Gvk, options: seq<DeleteOption>, ghost s: Sweep, ghost done: seq<Gvk>,
                    ghost r: Run)
    returns (err: Option<Error>, ghost gone: set<Key>)
    requires Live(server) && Aligned(server, r, s.owner) && SweepOf(r, s) && IsRoutingGvk(kind)
    requires options == OptionsFor(s) && SweptAt(server.watch, r.uid, done, s.types, server.world)
    modifies server
    ensures Kept(server, r, old(server.history), old(server.world))
    ensures Removals(s, [kind], server.history, |old(server.history)|)
    ensures if err == None then Requested(s, kind, server.history, |old(server.history)|, |server.history|)
            else !NoneFailed(server.history, |old(server.history)|, |server.history|)
    ensures err == None ==> NoneFailed(server.history, |old(server.history)|, |server.history|)
    ensures SweptAt(server.watch, r.uid, if err == None then done + [kind] else done, s.types, server.world)
    ensures server.Calm() ==> err == None
    ensures server.quiet ==>
      && gone <= Scoped(old(server.world.c), s, [kind])
      && (err == None ==> gone == Scoped(old(server.world.c), s, [kind]))
      && server.world == old(server.world).(c := Drop(old(server.world.c), gone))
  {
    hide Holds, Clean, Drop, UserRules, Swept, InScope, OwnStep, Removal, Safe, Later, WellFormed, Matches,
         KnownFinalizers, Selected, OptionsFor;
    ghost var h0, w0 := server.history, server.world;
    ghost var mid: World;
    err, mid, gone := server.DeleteAllOf(kind, options);
    MatchingIsScoped(mid.c, s, kind);
    SweptUnderRely(server.watch, r.uid, done, s.types, w0, mid);
    assert SafeAt(server.watch, server.history[|server.history| - 2]);
    SweptByDrop(server, r, s, done, kind, mid, gone);
    KeptByRemoving(server, r, s, kind, h0, w0, mid, gone);
    ghost var last := |server.history| - 1;
    assert server.history[last].own && Sweeps(s, kind, server.history[last].sent)
        && server.history[last].sent.err == err;
  }

  /** Deletes the owner's resources of the given types, kind by kind; the first failure ends it. */
  method DeleteOwnedResources(server: ApiServer, target: Unstructured, modes: seq<RouteType>, gvks: seq<Gvk>,
                              gateway: string, ghost r: Run)
    returns (err: Option<Error>, ghost gone: set<Key>)
    requires Live(server) && Aligned(server, r, target.Value()) && r.gateway == gateway
    requires modes != [] && forall g | g in gvks :: IsRoutingGvk(g)
    modifies server
    ensures Kept(server, r, old(server.history), old(server.world))
    ensures var s := Sweep(server.combining, target.Value(), gateway, set m | m in modes);
      && Removals(s, gvks, server.history, |old(server.history)|)
      && (err == None ==> AllRequested(s, gvks, server.history, |old(server.history)|, |server.history|))
      && (err == None ==> SweptAt(server.watch, r.uid, gvks, s.types, server.world))
      && (server.quiet ==>
            && gone <= Scoped(old(server.world.c), s, gvks)
            && (err == None ==> gone == Scoped(old(server.world.c), s, gvks))
            && server.world == old(server.world).(c := Drop(old(server.world.c), gone)))
    ensures err == None <==> NoneFailed(server.history, |old(server.history)|, |server.history|)
    ensures server.Calm() ==> err == None
  {
    hide Holds, Clean, Drop, UserRules, Swept, InScope, OwnStep, Removal, Safe, Later, WellFormed, Scoped,
         KnownFinalizers, Requested, Sweeps;
    var types: set<RouteType> := {};
    for i := 0 to |modes|
      invariant types == set m | m in modes[..i]
    {
      types := types + {modes[i]};
    }
    assert modes[..|modes|] == modes;
    var owner := target.Value();
    var labels := Metadata.MatchingLabels(AsOwner(owner));
    OwnerLabelsMatch(owner, labels);
    var options := [InNamespace(gateway), Api.MatchingLabels(labels), MatchingSelector(Choice(EXPORT_TYPE, types))];
    ghost var s := Sweep(server.combining, owner, gateway, types);
    ghost var h0, w0 := server.history, server.world;
    gone := {};
    NothingScoped(w0.c, s);
    NothingSwept(server.watch, r.uid, types, w0);
    for i := 0 to |gvks|
      invariant Kept(server, r, h0, w0)
      invariant Removals(s, gvks, server.history, |h0|)
      invariant AllRequested(s, gvks[..i], server.history, |h0|, |server.history|)
      invariant NoneFailed(server.history, |h0|, |server.history|)
      invariant SweptAt(server.watch, r.uid, gvks[..i], types, server.world)
      invariant server.quiet ==> gone <= Scoped(w0.c, s, gvks[..i]) && server.world == w0.(c := Drop(w0.c, gone))
      invariant server.quiet ==> gone == Scoped(w0.c, s, gvks[..i])
    {
      ghost var h1, w1, before := server.history, server.world, gone;
      ghost var more: set<Key>;
      assert gvks[..i + 1] == gvks[..i] + [gvks[i]];
      err, more := DeleteKind(server, gvks[i], options, s, gvks[..i], r);
      gone := gone + more;
      OneMoreKind(server.history, h0, h1, s, gvks, i, err);
      if server.quiet {
        DropMore(w0.c, s, gvks[..i], gvks[i], before, more);
        ScopedPrefix(w0.c, s, gvks, i + 1);
      }
      KeptTransitive(r, h0, h1, server.history);
      if err != None { return; }
    }
    assert gvks[..|gvks|] == gvks;
    err := None;
  }

  lemma ScopedPrefix(c: Cluster, s: Sweep, kinds: seq<Gvk>, n: nat)
    requires n <= |kinds|
    ensures Scoped(c, s, kinds[..n]) <= Scoped(c, s, kinds)
  {
  }

  /** Bookkeeping of one more request. */
  lemma OneMoreKind(h2: seq<Entry>, h0: seq<Entry>, h1: seq<Entry>, s: Sweep, gvks: seq<Gvk>, i: nat,
                    err: Option<Error>)
    requires h0 <= h1 <= h2 && i < |gvks|
    requires Removals(s, gvks, h1, |h0|) && Removals(s, [gvks[i]], h2, |h1|)
    requires AllRequested(s, gvks[..i], h1, |h0|, |h1|) && NoneFailed(h1, |h0|, |h1|)
    requires err == None ==> Requested(s, gvks[i], h2, |h1|, |h2|) && NoneFailed(h2, |h1|, |h2|)
    requires err != None ==> !NoneFailed(h2, |h1|, |h2|)
    ensures Removals(s, gvks, h2, |h0|)
    ensures err == None ==> AllRequested(s, gvks[..i + 1], h2, |h0|, |h2|)
    ensures NoneFailed(h2, |h0|, |h2|) <==> err == None
  {
    MoreKinds(s, gvks[i], gvks, h2, |h1|);
    RemovalsTransitive(s, gvks, h0, h1, h2);
    NoneFailedSoFar(h0, h1, h2);
    RequestsLast(s, gvks[..i], h1, h2, |h0|, |h2|);
    hide Removals, NoneFailed, Sweeps;
    if err == None {
      forall g | g in gvks[..i + 1] ensures Requested(s, g, h2, |h0|, |h2|) {
        assert g in gvks[..i] || g == gvks[i];
      }
    }
  }

  lemma OwnerLabelsMatch(owner: Resource, labels: map<string, string>)
    requires forall k :: Lookup(labels, k) == LastValue(AsOwner(owner), k)
    ensures labels == OwnerLabels(owner)
  {
    var l := AsOwner(owner);
    forall k ensures LastValue(l, k) == Lookup(OwnerLabels(owner), k) {
      assert l[..2][..1] == l[..1] && l[..1][..0] == [];
      assert LastValue(l[..1], k) == if k == OWNER_NAME then Some(owner.key.name) else LastValue([], k);
      assert LastValue(l[..2], k) == if k == OWNER_KIND then Some(owner.key.gvk.kind) else LastValue(l[..1], k);
    }
    forall k ensures k in labels <==> k in OwnerLabels(owner)
             ensures k in labels ==> labels[k] == OwnerLabels(owner)[k] {
      assert Lookup(labels, k) == Lookup(OwnerLabels(owner), k);
    }
  }

  lemma NothingScoped(c: Cluster, s: Sweep)
    ensures Scoped(c, s, []) == {} && Drop(c, {}) == c
  {
  }

  lemma NothingSwept(watch: Option<Watch>, uid: string, types: set<RouteType>, s: World)
    ensures SweptAt(watch, uid, [], types, s)
  {
  }

  lemma MoreKinds(s: Sweep, kind: Gvk, kinds: seq<Gvk>, h: seq<Entry>, from: nat)
    requires kind in kinds && Removals(s, [kind], h, from)
    ensures Removals(s, kinds, h, from)
  {
    hide Sweeps;
    forall i | from <= i < |h| && h[i].own
      ensures i > 0 && Removal(s, kinds, h[i - 1].world.c, h[i].world.c)
        && exists g :: g in kinds && Sweeps(s, g, h[i].sent)
    {
      assert i > 0 && Removal(s, [kind], h[i - 1].world.c, h[i].world.c);
    }
  }

  /* ---------- letting the custom resource go ---------- */

  ghost predicate KindsCovered(gvks: seq<Gvk>, modes: set<RouteType>) {
    forall m, g | m in modes && g in GvksOf(m) :: g in gvks
  }

  /** A custom resource marked for deletion whose enabled modes have been swept owns nothing any more. */
  lemma NothingLeft(w: Watch, gvks: seq<Gvk>, s: World)
    requires Safe(w, s) && Present(w, s.c) && s.c.objects[w.cr].deleting
    requires KindsCovered(gvks, Enabled(s.c.objects[w.cr].annotations))
    requires Swept(w, w.uid, gvks, Enabled(s.c.objects[w.cr].annotations), s)
    ensures forall k | k in s.c.objects :: !OwnedBy(s.c.objects[k], w.uid)
  {
  }

  /** The step from `mid` to `now` took exactly the own finalizer off the object `base`. */
  ghost predicate Released(key: Key, base: Obj, mid: Cluster, now: Cluster) {
    At(mid, key) == Some(base) && now == Put(mid, key, WithoutFinalizer(base, FINALIZER))
  }

  /** The last step of this client, made since entry `from`, took exactly the own finalizer off. */
  ghost predicate ReleasedLast(key: Key, base: Obj, h: seq<Entry>, from: nat) {
    |h| >= 2 && LastStep(h, from, h[|h| - 2].world) && Released(key, base, h[|h| - 2].world.c, h[|h| - 1].world.c)
  }

  /** The update that takes the finalizer off, if it went through, was safe and touched nothing else. */
  lemma ReleaseKeeps(watch: Option<Watch>, target: Resource, base: Obj, gvks: seq<Gvk>, mid: World, now: World)
    requires WellFormed(mid.c) && (watch.Some? ==> ValidWatch(watch.value) && Safe(watch.value, mid))
    requires Observed(mid.c, target.key, target.version, base) && target.obj == WithoutFinalizer(base, FINALIZER)
    requires base.deleting
    requires !IsRoutingGvk(target.key.gvk) && KindsCovered(gvks, Enabled(base.annotations))
    requires SweptAt(watch, base.uid, gvks, Enabled(base.annotations), mid)
    requires now == mid || (UpdateOp(mid.c, target) == Ok(now.c) && now.pending == mid.pending)
    ensures CrEdit(target.key, mid.c, now.c)
    ensures UpdateOp(mid.c, target) == Ok(now.c) ==> Released(target.key, base, mid.c, now.c)
    ensures Current(mid.c, target) ==> UpdateOp(mid.c, target) == Ok(Put(mid.c, target.key, target.obj))
    ensures watch.Some? ==> Safe(watch.value, now)
  {
    if UpdateOp(mid.c, target) == Ok(now.c) {
      assert mid.c.objects[target.key] == base;
      assert now.c == Put(mid.c, target.key, target.obj);
    }
    if now != mid {
      EditIsCrEdit(target.key, mid.c, target.obj);
      if watch.Some? {
        if target.key == watch.value.cr && Present(watch.value, mid.c) { NothingLeft(watch.value, gvks, mid); }
        ReleaseKeepsSafe(watch.value, mid, target.key, target.obj);
      }
    }
  }

  lemma ReleasedFinalizers(key: Key, base: Obj, h: seq<Entry>, n: nat)
    requires 0 < n < |h| && (h[n].world == h[n - 1].world || Released(key, base, h[n - 1].world.c, h[n].world.c))
    ensures KnownFinalizers(key, h, n)
  {
  }

  /** Sends the update that takes the finalizer off; `base` is what was read. */
  method SendRelease(server: ApiServer, target: Resource, ghost base: Obj, ghost gvks: seq<Gvk>)
    returns (err: Option<Error>)
    requires Live(server) && Observed(server.world.c, target.key, target.version, base)
    requires target.obj == WithoutFinalizer(base, FINALIZER) && base.deleting
    requires !IsRoutingGvk(target.key.gvk) && KindsCovered(gvks, Enabled(base.annotations))
    requires SweptAt(server.watch, base.uid, gvks, Enabled(base.annotations), server.world)
    modifies server
    ensures Live(server) && old(server.history) <= server.history
    ensures CrSteps(target.key, server.history, |old(server.history)|)
    ensures forall i :: |old(server.history)| <= i < |server.history| && server.history[i].own ==>
      server.history[i].sent.Wrote?
    ensures err == None ==> ReleasedLast(target.key, base, server.history, |old(server.history)|)
    ensures server.quiet && Current(old(server.world.c), target) ==>
      err == None && server.world == old(server.world).(c := Put(old(server.world.c), target.key, target.obj))
  {
    hide Safe, Swept, KindsCovered, UserRules, CrEdit, Put, Later, KnownFinalizers, Released, WithoutFinalizer,
         Observed, WellFormed, UpdateOp, Enabled, Current;
    ghost var w0 := server.world;
    ghost var mid: World;
    err, mid := server.Update(target);
    ghost var n := |server.history| - 1;
    assert server.history[n].world == server.world && server.history[n - 1].world == mid;
    assert SafeAt(server.watch, server.history[n - 1]) && WellFormed(server.history[n - 1].world.c);
    SweptUnderRely(server.watch, base.uid, gvks, Enabled(base.annotations), w0, mid);
    ObservedLasts(w0.c, mid.c, target.key, target.version, base);
    ReleaseKeeps(server.watch, target, base, gvks, mid, server.world);
    ReleasedFinalizers(target.key, base, server.history, n);
  }

  lemma NoCrSteps(key: Key, h: seq<Entry>)
    ensures CrSteps(key, h, |h|)
  {
  }

  /** Takes the finalizer off if it is there. */
  method RemoveFinalizer(server: ApiServer, target: Unstructured, ghost gvks: seq<Gvk>) returns (err: Option<Error>)
    requires Live(server) && Observed(server.world.c, target.key, target.version, target.obj) && target.obj.deleting
    requires !IsRoutingGvk(target.key.gvk) && KindsCovered(gvks, Enabled(target.obj.annotations))
    requires SweptAt(server.watch, target.obj.uid, gvks, Enabled(target.obj.annotations), server.world)
    modifies server, target
    ensures Live(server) && old(server.history) <= server.history
    ensures CrSteps(target.key, server.history, |old(server.history)|)
    ensures forall i :: |old(server.history)| <= i < |server.history| && server.history[i].own ==>
      server.history[i].sent.Wrote?
    ensures err == None && FINALIZER in old(target.obj).finalizers ==>
      ReleasedLast(target.key, old(target.obj), server.history, |old(server.history)|)
    ensures server.quiet && Current(old(server.world.c), old(target.Value())) ==>
      && err == None
      && server.world == old(server.world).(c := Put(old(server.world.c), target.key,
          WithoutFinalizer(old(target.obj), FINALIZER)))
  {
    hide Live, SweptAt, KindsCovered, CrSteps, Put, Released, WithoutFinalizer, Observed, Enabled, IsRoutingGvk,
         Without, ReleasedLast;
    ghost var base := target.obj;
    NoCrSteps(target.key, server.history);
    if FINALIZER in target.obj.finalizers {
      target.RemoveFinalizer(FINALIZER);
      err := SendRelease(server, target.Value(), base, gvks);
    } else {
      NoFinalizer(target.obj);
      PutCurrent(server.world.c, target.Value());
      err := None;
    }
  }

  /** Storing what was read of the current version changes nothing. */
  lemma PutCurrent(c: Cluster, r: Resource)
    requires Observed(c, r.key, r.version, r.obj)
    ensures Current(c, r) ==> Put(c, r.key, r.obj) == c
  {
  }

  lemma {:induction false} WithoutAbsent(names: seq<string>, name: string)
    requires name !in names
    ensures Without(names, name) == names
    decreases |names|
  {
    if names != [] {
      WithoutAbsent(names[..|names| - 1], name);
    }
  }

  lemma NoFinalizer(o: Obj)
    requires FINALIZER !in o.finalizers
    ensures WithoutFinalizer(o, FINALIZER) == o
  {
    WithoutAbsent(o.finalizers, FINALIZER);
  }

  lemma PutSame(c: Cluster, k: Key, o: Obj)
    ensures k in c.objects && c.objects[k] == o ==> Put(c, k, o) == c
  {
  }

  /* ---------- the two uses of deletion ---------- */

  /** The kinds of a set of modes, in one fixed order. */
  function AllKinds(types: set<RouteType>): seq<Gvk> {
    (if EXTERNAL_ROUTE in types then EXTERNAL_GVKS else []) + (if PUBLIC_ROUTE in types then PUBLIC_GVKS else [])
  }

  /** What a sweep is after, kinds being looked for as the types say. */
  function OwnedOf(c: Cluster, s: Sweep): set<Key> {
    Scoped(c, s, AllKinds(s.types))
  }

  lemma KindsOfModes(modes: seq<RouteType>, gvks: seq<Gvk>)
    requires forall g :: g in gvks <==> exists m :: m in modes && g in GvksOf(m)
    ensures var types := set m | m in modes;
      && (forall g :: g in gvks <==> g in AllKinds(types))
      && KindsCovered(gvks, types) && (forall g | g in gvks :: IsRoutingGvk(g))
  {
    var types := set m | m in modes;
    forall g ensures g in gvks <==> g in AllKinds(types) {
      assert EXTERNAL_ROUTE in types <==> EXTERNAL_ROUTE in modes;
      assert PUBLIC_ROUTE in types <==> PUBLIC_ROUTE in modes;
    }
  }

  /** The order in which the kinds come up does not matter. */
  lemma SameKinds(s: Sweep, kinds: seq<Gvk>, kinds': seq<Gvk>, c: Cluster, h: seq<Entry>, from: nat)
    requires forall g :: g in kinds <==> g in kinds'
    ensures Scoped(c, s, kinds) == Scoped(c, s, kinds')
    ensures Removals(s, kinds, h, from) ==> Removals(s, kinds', h, from)
    ensures AllRequested(s, kinds, h, from, |h|) ==> AllRequested(s, kinds', h, from, |h|)
  {
    forall k, o ensures InScope(s, kinds, k, o) == InScope(s, kinds', k, o) {
    }
    hide Sweeps, InScope, Requested;
    if Removals(s, kinds, h, from) {
      forall i | from <= i < |h| && h[i].own
        ensures i > 0 && Removal(s, kinds', h[i - 1].world.c, h[i].world.c)
          && exists g :: g in kinds' && Sweeps(s, g, h[i].sent)
      {
        assert i > 0 && Removal(s, kinds, h[i - 1].world.c, h[i].world.c);
      }
    }
  }

  function UnusedTypes(modes: set<RouteType>): set<RouteType> {
    (set t | t in AllRouteTypes()) - modes
  }

  /** Sweeping everything unused leaves only the run's own types. */
  lemma SweptUnusedIsClean(w: Watch, r: Run, gvks: seq<Gvk>, s: World)
    requires Safe(w, s) && KindsCovered(gvks, UnusedTypes(r.modes)) && Swept(w, r.uid, gvks, UnusedTypes(r.modes), s)
    ensures Clean(w, r, s)
  {
    if r.uid == w.uid {
      forall k | k in s.c.objects && OwnedBy(s.c.objects[k], w.uid) ensures OfType(s.c.objects[k], r.modes) {
        assert Tagged(w.cr, w.gateway, k, s.c.objects[k]);
        var t := s.c.objects[k].labels[EXPORT_TYPE];
        if t in UnusedTypes(r.modes) { assert false; }
      }
    }
  }

  lemma NothingUnused(c: Cluster, s: Sweep)
    requires s.types == {}
    ensures OwnedOf(c, s) == {} && Drop(c, {}) == c
  {
  }

  /** Before anything is created: resources of modes that are not enabled go. */
  method RemoveUnusedRoutingResources(server: ApiServer, target: Unstructured, gateway: string, ghost r: Run)
    returns (err: Option<Error>, ghost gone: set<Key>)
    requires Steady(server, r) && Aligned(server, r, target.Value()) && r.gateway == gateway
    requires r.modes == Enabled(target.obj.annotations)
    modifies server
    ensures Kept(server, r, old(server.history), old(server.world))
    ensures var s := Sweep(server.combining, target.Value(), gateway, UnusedTypes(r.modes));
      && Removals(s, AllKinds(s.types), server.history, |old(server.history)|)
      && (err == None ==> AllRequested(s, AllKinds(s.types), server.history, |old(server.history)|, |server.history|))
      && (server.quiet ==>
            && gone <= OwnedOf(old(server.world.c), s)
            && (err == None ==> gone == OwnedOf(old(server.world.c), s))
            && server.world == old(server.world).(c := Drop(old(server.world.c), gone)))
    ensures err == None <==> NoneFailed(server.history, |old(server.history)|, |server.history|)
    ensures err == None ==> CleanAt(server.watch, r, server.world)
    ensures server.Calm() ==> err == None
  {
    hide Safe, Holds, Clean, Swept, UserRules, Drop, InScope, Removal, OwnStep, GvksOf, AllKinds, KindsCovered, Later,
         WellFormed, Enabled, KnownFinalizers, Requested, Sweeps, Scoped;
    var owner := target.Value();
    ghost var h0, w0 := server.history, server.world;
    var modes := ExtractExportModes(target.obj.annotations);
    var unused := UnusedRouteTypes(modes);
    ghost var s := Sweep(server.combining, owner, gateway, UnusedTypes(r.modes));
    assert s.types == set m | m in unused;
    assert SafeAt(server.watch, server.history[|server.history| - 1]);
    if unused == [] {
      AllModesClean(server.watch, r, server.world);
      assert s.types == {};
      NothingUnused(w0.c, s);
      NoKinds(s, server.history);
      return None, {};
    }
    var gvks := RoutingResourceGvks(unused);
    KindsOfModes(unused, gvks);
    err, gone := DeleteOwnedResources(server, target, unused, gvks, gateway, r);
    SameKinds(s, gvks, AllKinds(s.types), w0.c, server.history, |h0|);
    assert SafeAt(server.watch, server.history[|server.history| - 1]);
    if err == None && server.watch.Some? { SweptUnusedIsClean(server.watch.value, r, gvks, server.world); }
  }

  lemma NoKinds(s: Sweep, h: seq<Entry>)
    requires s.types == {}
    ensures AllRequested(s, AllKinds(s.types), h, |h|, |h|)
  {
  }

  lemma AllModesClean(watch: Option<Watch>, r: Run, s: World)
    requires watch.Some? ==> Safe(watch.value, s)
    requires UnusedTypes(r.modes) == {}
    ensures CleanAt(watch, r, s)
  {
    if watch.Some? {
      forall t | t in AllRouteTypes() ensures t in r.modes {
        assert t !in UnusedTypes(r.modes);
      }
    }
  }

  /** No own step of this client since entry `from` touched `k`. */
  ghost predicate LeftAlone(k: Key, h: seq<Entry>, from: nat) {
    forall i :: from <= i < |h| && h[i].own ==> i > 0 && Untouched(h[i - 1].world.c, h[i].world.c, k)
  }

  lemma RemovalsLeaveCr(s: Sweep, kinds: seq<Gvk>, cr: Key, h: seq<Entry>, from: nat)
    requires Removals(s, kinds, h, from) && cr.gvk !in kinds
    ensures LeftAlone(cr, h, from)
  {
    forall i | from <= i < |h| && h[i].own ensures i > 0 && Untouched(h[i - 1].world.c, h[i].world.c, cr) {
      assert i > 0 && Removal(s, kinds, h[i - 1].world.c, h[i].world.c);
    }
  }

  /** Object and version at this key are the same in both states. */
  ghost predicate SameAt(c: Cluster, c': Cluster, k: Key) {
    && (k in c'.objects <==> k in c.objects) && (k in c.objects ==> c'.objects[k] == c.objects[k])
    && (k in c'.versions <==> k in c.versions) && (k in c.versions ==> c'.versions[k] == c.versions[k])
  }

  lemma DropLeavesCr(c: Cluster, s: Sweep, cr: Key, gone: set<Key>)
    requires !IsRoutingGvk(cr.gvk) && gone <= OwnedOf(c, s)
    ensures SameAt(c, Drop(c, gone), cr)
  {
    assert cr !in OwnedOf(c, s);
  }

  /** Nothing here reaches back before `h0`: what was read stays what it was. */
  lemma StillObserved(s: ApiServer, h0: seq<Entry>, w0: World, k: Key, version: nat, o: Obj)
    requires s.Valid() && h0 <= s.history && h0 != [] && h0[|h0| - 1].world == w0
    requires Observed(w0.c, k, version, o)
    ensures Observed(s.world.c, k, version, o)
  {
    assert s.history[|h0| - 1] == h0[|h0| - 1];
    ObservedLasts(w0.c, s.world.c, k, version, o);
  }

  /** Own step `i` is a delete request that leaves the custom resource alone, or it comes after a successful delete
      request for every kind and no failed one. */
  ghost predicate InDeletionOrder(s: Sweep, key: Key, h: seq<Entry>, from: nat, i: nat)
    requires i < |h|
  {
    i > 0 && if h[i].sent.Deleted? then Untouched(h[i - 1].world.c, h[i].world.c, key)
             else AllRequested(s, AllKinds(s.types), h, from, i) && NoneFailed(h, from, i)
  }

  ghost predicate DeletedFirst(s: Sweep, key: Key, h: seq<Entry>, from: nat) {
    forall i :: from <= i < |h| && h[i].own ==> InDeletionOrder(s, key, h, from, i)
  }

  lemma OnlyDeletes(s: Sweep, kinds: seq<Gvk>, key: Key, h: seq<Entry>, from: nat)
    requires Removals(s, kinds, h, from) && LeftAlone(key, h, from)
    ensures DeletedFirst(s, key, h, from)
  {
    hide Removal, Requested, NoneFailed, Untouched;
  }

  /** Everything deleted, then the finalizer. */
  lemma DeletesThenUpdate(s: Sweep, key: Key, h0: seq<Entry>, h1: seq<Entry>, h2: seq<Entry>)
    requires h0 <= h1 <= h2 && DeletedFirst(s, key, h1, |h0|)
    requires AllRequested(s, AllKinds(s.types), h1, |h0|, |h1|) && NoneFailed(h1, |h0|, |h1|)
    requires forall i :: |h1| <= i < |h2| && h2[i].own ==> h2[i].sent.Wrote?
    requires forall i :: |h0| <= i < |h1| && h1[i].own ==> h1[i].sent.Deleted?
    requires h1 != []
    ensures DeletedFirst(s, key, h2, |h0|) && NoneFailed(h2, |h0|, |h2|)
  {
    hide AllRequested, Untouched, AllKinds;
    forall i | |h0| <= i < |h2| && h2[i].own ensures InDeletionOrder(s, key, h2, |h0|, i) {
      if i < |h1| {
        assert h1[i] == h2[i] && InDeletionOrder(s, key, h1, |h0|, i);
        assert h1[i - 1] == h2[i - 1];
      } else {
        RequestsLast(s, AllKinds(s.types), h1, h2, |h0|, i);
        NoneFailedUntil(h0, h1, h2, i);
      }
    }
    NoneFailedUntil(h0, h1, h2, |h2|);
  }

  lemma NoneFailedUntil(h0: seq<Entry>, h1: seq<Entry>, h2: seq<Entry>, to: nat)
    requires h0 <= h1 <= h2 && to <= |h2| && NoneFailed(h1, |h0|, |h1|)
    requires forall i :: |h1| <= i < |h2| && h2[i].own ==> h2[i].sent.Wrote?
    ensures NoneFailed(h2, |h0|, to)
  {
    assert forall i :: 0 <= i < |h1| ==> h1[i] == h2[i];
  }

  /** Since entry `from` everything of the enabled modes was deleted, every request with success, and then the finalizer
      was taken off; with no mode enabled there was nothing to do. */
  ghost predicate Finished(rule: Combining, owner: Resource, gateway: string, h: seq<Entry>, from: nat) {
    var modes := Enabled(owner.obj.annotations);
    if modes == {} then NoneOwn(h, from)
    else
      && AllRequested(Sweep(rule, owner, gateway, modes), AllKinds(modes), h, from, |h|)
      && (FINALIZER in owner.obj.finalizers ==> ReleasedLast(owner.key, owner.obj, h, from))
  }

  /** The custom resource is marked for deletion: sweep its enabled modes, and only then take the finalizer off. */
  method HandleResourceDeletion(server: ApiServer, target: Unstructured, gateway: string, ghost r: Run)
    returns (err: Option<Error>, ghost gone: set<Key>)
    requires Live(server) && Aligned(server, r, target.Value()) && r.gateway == gateway
    requires r.modes == Enabled(target.obj.annotations)
    requires Observed(server.world.c, target.key, target.version, target.obj) && target.obj.deleting
    modifies server, target
    ensures Live(server) && old(server.history) <= server.history && OwnSteps(r, server.history, |old(server.history)|)
    ensures r.modes == {} ==> err == None && server.history == old(server.history)
    ensures DeletedFirst(Sweep(server.combining, old(target.Value()), gateway, r.modes), target.key, server.history,
        |old(server.history)|)
    ensures !NoneFailed(server.history, |old(server.history)|, |server.history|) ==>
      err != None && LeftAlone(target.key, server.history, |old(server.history)|)
    ensures err == None ==>
      Finished(server.combining, old(target.Value()), gateway, server.history, |old(server.history)|)
    ensures server.quiet ==>
      gone <= OwnedOf(old(server.world.c), Sweep(server.combining, old(target.Value()), gateway, r.modes))
    ensures server.quiet && err != None && Current(old(server.world.c), old(target.Value())) ==>
      server.world == old(server.world).(c := Drop(old(server.world.c), gone))
    ensures server.quiet && err == None && r.modes != {} && Current(old(server.world.c), old(target.Value())) ==>
      && gone == OwnedOf(old(server.world.c), Sweep(server.combining, old(target.Value()), gateway, r.modes))
      && server.world == old(server.world).(c :=
           Put(Drop(old(server.world.c), gone), target.key, WithoutFinalizer(old(target.obj), FINALIZER)))
    ensures server.Calm() && Current(old(server.world.c), old(target.Value())) ==> err == None
  {
    hide Safe, Holds, Clean, Swept, UserRules, Drop, Put, Scoped, InScope, Removal, OwnStep, GvksOf, AllKinds,
         KindsCovered, Later, WellFormed, Enabled, Observed, WithoutFinalizer, KnownFinalizers, Requested, Sweeps,
         DeletedFirst, NoneFailed, CrSteps, OwnSteps;
    ghost var h0, w0, owner := server.history, server.world, target.Value();
    ghost var s := Sweep(server.combining, owner, gateway, r.modes);
    var modes := ExtractExportModes(target.obj.annotations);
    NothingYet(s, target.key, h0, r);
    if modes == [] {
      assert r.modes == {};
      return None, {};
    }
    assert modes[0] in r.modes;
    var gvks := RoutingResourceGvks(modes);
    KindsOfModes(modes, gvks);
    assert s.types == set m | m in modes;
    err, gone := DeleteOwnedResources(server, target, modes, gvks, gateway, r);
    SameKinds(s, gvks, AllKinds(s.types), w0.c, server.history, |h0|);
    RemovalsLeaveCr(s, gvks, target.key, server.history, |h0|);
    OnlyDeletes(s, gvks, target.key, server.history, |h0|);
    if err != None { return; }
    ghost var h1, w1 := server.history, server.world;
    AllDeletes(s, gvks, h1, |h0|);
    StillObserved(server, h0, w0, target.key, target.version, target.obj);
    if server.quiet { DropLeavesCr(w0.c, s, target.key, gone); }
    err := RemoveFinalizer(server, target, gvks);
    CrStepsAreOwn(r, server.history, |h1|);
    KeptTransitive(r, h0, h1, server.history);
    DeletesThenUpdate(s, target.key, h0, h1, server.history);
    RequestsLast(s, AllKinds(s.types), h1, server.history, |h0|, |server.history|);
  }

  lemma AllDeletes(s: Sweep, kinds: seq<Gvk>, h: seq<Entry>, from: nat)
    requires Removals(s, kinds, h, from)
    ensures forall i :: from <= i < |h| && h[i].own ==> h[i].sent.Deleted?
  {
    hide Removal;
  }

  lemma NothingYet(s: Sweep, key: Key, h: seq<Entry>, r: Run)
    ensures DeletedFirst(s, key, h, |h|) && NoneFailed(h, |h|, |h|) && OwnSteps(r, h, |h|)
    ensures s.types == {} ==> AllRequested(s, AllKinds(s.types), h, |h|, |h|)
  {
  }
}
