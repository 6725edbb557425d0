/** Writing unstructured objects: apply a list of resources, patch one object with retries (pkg/unstruct/funcs.go). */
module Unstruct {
  import opened Api
  import opened Metadata
  import opened RouteTypes
  import opened Ownership
  import opened Server

  /** retry.DefaultRetry makes at most this many attempts. */
  const ATTEMPTS := 5

  predicate IsMarkedForDeletion(o: Obj) {
    o.deleting
  }

  /* ---------- a sequence of applies ---------- */

  /** The resources one after the other, each created or applied. */
  function ApplySeq(c: Cluster, plan: seq<Resource>): Cluster {
    if plan == [] then c
    else
      var r := plan[|plan| - 1];
      ApplyOp(ApplySeq(c, plan[..|plan| - 1]), r.key, r.obj)
  }

  function WithOptions(resources: seq<Resource>, opts: seq<MetaOption>): seq<Resource> {
    seq(|resources|, i requires 0 <= i < |resources| => resources[i].(obj := OptionsApplied(resources[i].obj, opts)))
  }

  lemma {:induction false} ApplySeqConcat(c: Cluster, a: seq<Resource>, b: seq<Resource>)
    ensures ApplySeq(c, a + b) == ApplySeq(ApplySeq(c, a), b)
    decreases |b|
  {
    if b == [] {
      assert a + b == a;
    } else {
      assert (a + b)[..|a + b| - 1] == a + b[..|b| - 1];
      ApplySeqConcat(c, a, b[..|b| - 1]);
    }
  }

  /** The promise has been kept so far. */
  ghost predicate Live(s: ApiServer)
    reads s
  {
    s.Valid() && s.Sound() && (s.watch.Some? ==> ValidWatch(s.watch.value))
  }

  ghost predicate HoldsAt(watch: Option<Watch>, r: Run, w: World) {
    watch.Some? ==> Holds(watch.value, r, w)
  }

  ghost predicate CleanAt(watch: Option<Watch>, r: Run, w: World) {
    watch.Some? ==> Clean(watch.value, r, w)
  }

  /** What a run needs to work on: the promise, and its hold on the custom resource. */
  ghost predicate Steady(s: ApiServer, r: Run)
    reads s
  {
    Live(s) && HoldsAt(s.watch, r, s.world)
  }

  /** `finalizers` is a list somebody read at this entry, with the own finalizer added. */
  ghost predicate SeenWithout(e: Entry, key: Key, finalizers: seq<string>) {
    && key in e.world.c.objects
    && FINALIZER !in e.world.c.objects[key].finalizers
    && finalizers == e.world.c.objects[key].finalizers + [FINALIZER]
  }

  ghost predicate SeenBefore(h: seq<Entry>, n: nat, key: Key, finalizers: seq<string>)
    requires n <= |h|
  {
    exists j :: 0 <= j < n && SeenWithout(h[j], key, finalizers)
  }

  /** Step `i` keeps the finalizers of `key`, or takes the own one off, or stores a list it was stored with before,
      the own one added. */
  ghost predicate KnownFinalizers(key: Key, h: seq<Entry>, i: nat)
    requires 0 < i < |h|
  {
    key in h[i - 1].world.c.objects && key in h[i].world.c.objects ==>
      var f, f' := h[i - 1].world.c.objects[key].finalizers, h[i].world.c.objects[key].finalizers;
      f' == f || f' == Without(f, FINALIZER) || SeenBefore(h, i, key, f')
  }

  lemma KnownEarlier(key: Key, h1: seq<Entry>, h2: seq<Entry>, i: nat)
    requires h1 <= h2 && 0 < i < |h1| && KnownFinalizers(key, h1, i)
    ensures KnownFinalizers(key, h2, i)
  {
    assert h1[i] == h2[i] && h1[i - 1] == h2[i - 1];
    forall f | SeenBefore(h1, i, key, f) ensures SeenBefore(h2, i, key, f) {
      var j :| 0 <= j < i && SeenWithout(h1[j], key, f);
      assert h1[j] == h2[j];
    }
  }

  lemma SeenLater(h1: seq<Entry>, h2: seq<Entry>, key: Key, finalizers: seq<string>)
    requires h1 <= h2 && SeenBefore(h1, |h1|, key, finalizers)
    ensures SeenBefore(h2, |h2|, key, finalizers)
  {
    var j :| 0 <= j < |h1| && SeenWithout(h1[j], key, finalizers);
    assert h1[j] == h2[j];
  }

  /** Every step of this client since entry `from` is one the run may take. */
  ghost predicate OwnSteps(r: Run, h: seq<Entry>, from: nat) {
    forall i :: from <= i < |h| && h[i].own ==>
      i > 0 && OwnStep(r, h[i - 1].world.c, h[i].world.c) && KnownFinalizers(r.cr, h, i)
  }

  /** The run went on properly since the history was `h0` and the state `w0`; what held and what was clean still
      is. */
  ghost predicate Kept(s: ApiServer, r: Run, h0: seq<Entry>, w0: World)
    reads s
  {
    && Live(s)
    && (HoldsAt(s.watch, r, w0) ==> HoldsAt(s.watch, r, s.world))
    && (CleanAt(s.watch, r, w0) ==> CleanAt(s.watch, r, s.world))
    && h0 <= s.history
    && OwnSteps(r, s.history, |h0|)
  }

  lemma KeptByLooking(s: ApiServer, r: Run, h0: seq<Entry>, w0: World)
    requires Live(s) && h0 <= s.history
    requires Rely(s.watch, w0, s.world)
    requires forall i :: |h0| <= i < |s.history| ==> !s.history[i].own
    ensures Kept(s, r, h0, w0)
  {
    if s.watch.Some? {
      if Holds(s.watch.value, r, w0) { HoldsUnderRely(s.watch.value, r, w0, s.world); }
      if Clean(s.watch.value, r, w0) { CleanUnderRely(s.watch.value, r, w0, s.world); }
    }
  }

  /** Since the history was `h0` and the state `w0`, others led to `mid`, and then this client made the last step. */
  ghost predicate OneCall(s: ApiServer, h0: seq<Entry>, w0: World, mid: World)
    reads s
  {
    && s.Valid() && (s.watch.Some? ==> ValidWatch(s.watch.value))
    && h0 <= s.history && |h0| < |s.history| && |s.history| >= 2
    && s.history[|s.history| - 2].world == mid && s.history[|s.history| - 1].own
    && Rely(s.watch, w0, mid)
    && (forall i :: |h0| <= i < |s.history| - 1 ==> !s.history[i].own)
    && (forall i :: 0 <= i < |s.history| - 1 ==> SafeAt(s.watch, s.history[i]))
  }

  /** A write keeps the run going if its own step does. */
  lemma KeptByWriting(s: ApiServer, r: Run, h0: seq<Entry>, w0: World, mid: World)
    requires OneCall(s, h0, w0, mid)
    requires OwnStep(r, mid.c, s.world.c) && KnownFinalizers(r.cr, s.history, |s.history| - 1)
    requires s.watch.Some? && Safe(s.watch.value, mid) && (HoldsAt(s.watch, r, w0) ==> Holds(s.watch.value, r, mid)) ==>
      && Safe(s.watch.value, s.world)
      && (Holds(s.watch.value, r, mid) ==> Holds(s.watch.value, r, s.world))
      && (Clean(s.watch.value, r, mid) ==> Clean(s.watch.value, r, s.world))
    ensures Kept(s, r, h0, w0)
  {
    hide Safe, Holds, Clean, OwnStep, UserRules, WellFormed, Later, KnownFinalizers;
    var n := |s.history| - 1;
    assert SafeAt(s.watch, s.history[n - 1]);
    if s.watch.Some? {
      if Holds(s.watch.value, r, w0) { HoldsUnderRely(s.watch.value, r, w0, mid); }
      if Clean(s.watch.value, r, w0) { CleanUnderRely(s.watch.value, r, w0, mid); }
      assert SafeAt(s.watch, s.history[n]);
    }
  }

  lemma KeptTransitive(r: Run, h0: seq<Entry>, h1: seq<Entry>, h2: seq<Entry>)
    requires h0 <= h1 <= h2 && OwnSteps(r, h1, |h0|) && OwnSteps(r, h2, |h1|)
    ensures OwnSteps(r, h2, |h0|)
  {
    hide OwnStep, KnownFinalizers;
    forall i | |h0| <= i < |h2| && h2[i].own
      ensures i > 0 && OwnStep(r, h2[i - 1].world.c, h2[i].world.c) && KnownFinalizers(r.cr, h2, i)
    {
      if i < |h1| {
        assert h1[i] == h2[i];
        assert i > 0 && h1[i - 1] == h2[i - 1];
        KnownEarlier(r.cr, h1, h2, i);
      }
    }
  }

  /** A step that leaves the custom resource alone leaves its finalizers alone. */
  lemma UntouchedFinalizers(key: Key, h: seq<Entry>, i: nat)
    requires 0 < i < |h| && Untouched(h[i - 1].world.c, h[i].world.c, key)
    ensures KnownFinalizers(key, h, i)
  {
  }

  lemma PutIsResourceStep(r: Run, c: Cluster, k: Key, o: Obj)
    requires k != r.cr && k.namespace == r.gateway && IsRoutingGvk(k.gvk)
    requires OwnedBy(o, r.uid) && !(o.deleting && o.finalizers == [])
    requires o.uid == if k in c.objects then c.objects[k].uid else ""
    ensures ResourceStep(r, c, Put(c, k, o))
  {
    var c' := Put(c, k, o);
    assert k in c'.objects && c'.objects[k] == o;
    assert forall j | j in c.objects || j in c'.objects :: j == k || Untouched(c, c', j);
    hide IsRoutingGvk, OwnedBy;
  }

  lemma PutIsOwnStep(r: Run, c: Cluster, k: Key, o: Obj)
    requires WellFormed(c) && k != r.cr && k.namespace == r.gateway && IsRoutingGvk(k.gvk)
    requires OwnedBy(o, r.uid) && !(o.deleting && o.finalizers == [])
    requires o.uid == if k in c.objects then c.objects[k].uid else ""
    ensures OwnStep(r, c, Put(c, k, o))
  {
    hide ResourceStep, Put, WellFormed, Later, IsRoutingGvk, OwnedBy;
    PutIsLater(c, k, o);
    PutIsResourceStep(r, c, k, o);
  }

  lemma ApplyIsOwnStep(r: Run, c: Cluster, k: Key, source: Obj)
    requires WellFormed(c) && Labelled(r, k, source) && !IsRoutingGvk(r.cr.gvk)
    ensures OwnStep(r, c, ApplyOp(c, k, source))
  {
    AppliedLabels(r, c.objects, k, source);
    PutIsOwnStep(r, c, k, Applied(c.objects, k, source));
  }

  lemma NoStep(r: Run, c: Cluster)
    requires WellFormed(c)
    ensures OwnStep(r, c, c)
  {
  }

  lemma ApplyLeaves(c: Cluster, k: Key, source: Obj, key: Key)
    requires key != k
    ensures Untouched(c, ApplyOp(c, k, source), key)
  {
  }

  lemma KeptByApplying(s: ApiServer, r: Run, h0: seq<Entry>, w0: World, mid: World, k: Key, source: Obj)
    requires OneCall(s, h0, w0, mid) && HoldsAt(s.watch, r, w0)
    requires Labelled(r, k, source) && !IsRoutingGvk(r.cr.gvk)
    requires s.world == mid || s.world == mid.(c := ApplyOp(mid.c, k, source))
    ensures Kept(s, r, h0, w0)
  {
    hide OwnStep, Safe, Holds, Clean, Put, ApplyOp, Labelled, KnownFinalizers, WellFormed, Later, UserRules,
         IsRoutingGvk;
    assert WellFormed(s.history[|s.history| - 2].world.c) && s.history[|s.history| - 1].world == s.world;
    ApplyIsOwnStep(r, mid.c, k, source);
    LabelledElsewhere(r, k, source);
    ApplyLeaves(mid.c, k, source, r.cr);
    NoStep(r, mid.c);
    UntouchedFinalizers(r.cr, s.history, |s.history| - 1);
    if s.watch.Some? && Safe(s.watch.value, mid) && Holds(s.watch.value, r, mid) {
      ApplyKeepsSafe(s.watch.value, r, mid, k, source);
    }
    KeptByWriting(s, r, h0, w0, mid);
  }

  lemma LabelledElsewhere(r: Run, k: Key, source: Obj)
    requires Labelled(r, k, source) && !IsRoutingGvk(r.cr.gvk)
    ensures k != r.cr
  {
  }

  /* ---------- what is asked for ---------- */

  /** The request creates or applies `x`. */
  ghost predicate AsksFor(sent: Sent, x: Resource) {
    sent.Wrote? && (sent.request == Creating(x.key, x.obj) || sent.request == Applying(x.key, x.obj))
  }

  /** Every request of this client since entry `from` creates or applies one of `xs`. */
  ghost predicate AllAsking(h: seq<Entry>, from: nat, xs: iset<Resource>) {
    forall i :: from <= i < |h| && h[i].own ==> exists x :: x in xs && AsksFor(h[i].sent, x)
  }

  lemma AskingTransitive(h0: seq<Entry>, h1: seq<Entry>, h2: seq<Entry>, xs: iset<Resource>, ys: iset<Resource>,
                         zs: iset<Resource>)
    requires h0 <= h1 <= h2 && AllAsking(h1, |h0|, xs) && AllAsking(h2, |h1|, ys) && xs <= zs && ys <= zs
    ensures AllAsking(h2, |h0|, zs)
  {
    forall i | |h0| <= i < |h2| && h2[i].own ensures exists x :: x in zs && AsksFor(h2[i].sent, x) {
      if i < |h1| { assert h1[i] == h2[i]; }
    }
  }

  /** The request was carried out, or there was an object already where one was to be created. */
  ghost predicate Accepted(sent: Sent) {
    sent.Wrote? && (sent.err == None || (sent.request.Creating? && sent.err == Some(AlreadyExists)))
  }

  /** A request for `x` that this client sent since entry `from` was accepted. */
  ghost predicate Granted(h: seq<Entry>, from: nat, x: Resource) {
    exists i :: from <= i < |h| && h[i].own && AsksFor(h[i].sent, x) && Accepted(h[i].sent)
  }

  ghost predicate AllGranted(h: seq<Entry>, from: nat, xs: iset<Resource>) {
    forall x :: x in xs ==> Granted(h, from, x)
  }

  /** What was granted stays so as the history goes on. */
  lemma GrantedSince(h0: seq<Entry>, h1: seq<Entry>, h2: seq<Entry>, h3: seq<Entry>, xs: iset<Resource>)
    requires h0 <= h1 <= h2 <= h3 && AllGranted(h2, |h1|, xs)
    ensures AllGranted(h3, |h0|, xs)
  {
    hide AsksFor, Accepted;
    forall x | x in xs ensures Granted(h3, |h0|, x) {
      var i :| |h1| <= i < |h2| && h2[i].own && AsksFor(h2[i].sent, x) && Accepted(h2[i].sent);
      assert h3[i] == h2[i];
    }
  }

  /** The members of a list. */
  ghost function Members(plan: seq<Resource>): iset<Resource> {
    iset x | x in plan
  }

  lemma NoneGranted(h: seq<Entry>)
    ensures AllGranted(h, |h|, Members([])) && forall xs :: AllAsking(h, |h|, xs)
  {
  }

  lemma OneMoreMember(plan: seq<Resource>, n: nat)
    requires n < |plan|
    ensures Members(plan[..n + 1]) == Members(plan[..n]) + iset{plan[n]}
    ensures iset{plan[n]} <= Members(plan)
  {
    assert plan[..n + 1] == plan[..n] + [plan[n]];
  }

  lemma GrantedTransitive(h0: seq<Entry>, h1: seq<Entry>, h2: seq<Entry>, xs: iset<Resource>, ys: iset<Resource>)
    requires h0 <= h1 <= h2 && AllGranted(h1, |h0|, xs) && AllGranted(h2, |h1|, ys)
    ensures AllGranted(h2, |h0|, xs + ys)
  {
    hide AsksFor, Accepted;
    forall x | x in xs + ys ensures Granted(h2, |h0|, x) {
      if x in xs {
        var i :| |h0| <= i < |h1| && h1[i].own && AsksFor(h1[i].sent, x) && Accepted(h1[i].sent);
        assert h2[i] == h1[i];
      } else {
        assert Granted(h2, |h1|, x);
      }
    }
  }

  /** A live read in the course of a run. */
  method Fetch(server: ApiServer, k: Key, ghost r: Run) returns (found: Result<Resource>)
    requires Live(server)
    modifies server
    ensures Kept(server, r, old(server.history), old(server.world))
    ensures server.looks == old(server.looks) + [Look(k, |old(server.history)|)]
    ensures Rely(server.watch, old(server.world), server.world)
    ensures forall i :: |old(server.history)| <= i < |server.history| ==> !server.history[i].own
    ensures found.Err? ==> found.error == NotFound || found.error.Failure?
    ensures found.Ok? ==>
      k in server.world.c.objects && k in server.world.c.versions && found.value == Stored(server.world.c, k)
    ensures found == Err(NotFound) ==> k !in server.world.c.objects
    ensures server.quiet ==> server.world == old(server.world)
    ensures server.quiet ==>
      found == if k in server.world.c.objects then Ok(Stored(server.world.c, k)) else Err(NotFound)
  {
    found := server.Get(k);
    KeptByLooking(server, r, old(server.history), old(server.world));
  }

  method CreateOrApply(server: ApiServer, source: Resource, present: bool, ghost r: Run) returns (err: Option<Error>)
    requires Steady(server, r)
    requires Labelled(r, source.key, source.obj) && !IsRoutingGvk(r.cr.gvk)
    requires server.quiet ==> (present <==> source.key in server.world.c.objects)
    modifies server
    ensures Kept(server, r, old(server.history), old(server.world))
    ensures AllAsking(server.history, |old(server.history)|, iset{source})
    ensures err == None ==> AllGranted(server.history, |old(server.history)|, iset{source})
    ensures err.Some? ==> err.value.Failure?
    ensures server.quiet ==>
      err == None && server.world == old(server.world).(c := ApplyOp(old(server.world.c), source.key, source.obj))
  {
    hide Safe, Holds, Clean, Labelled, UserRules, Later, WellFormed, OwnStep, Put, Merge, KnownFinalizers;
    ghost var mid: World;
    if present {
      err, mid := server.Apply(source.key, source.obj);
    } else {
      err, mid := server.Create(source.key, source.obj);
      if err == Some(AlreadyExists) { err := None; }
    }
    assert server.world == mid || server.world == mid.(c := ApplyOp(mid.c, source.key, source.obj));
    ghost var last := |server.history| - 1;
    assert source in iset{source} && server.history[last].own && AsksFor(server.history[last].sent, source);
    assert err == None ==> Accepted(server.history[last].sent);
    KeptByApplying(server, r, old(server.history), old(server.world), mid, source.key, source.obj);
  }

  lemma NothingAsked(h0: seq<Entry>, h1: seq<Entry>, x: Resource)
    requires h0 <= h1 && NoneOwn(h1, |h0|)
    ensures AllAsking(h1, |h0|, iset{x})
  {
  }

  /** Creates the resource, or applies it over what is there. */
  method ApplyOne(server: ApiServer, source: Resource, ghost r: Run) returns (err: Option<Error>)
    requires Steady(server, r)
    requires Labelled(r, source.key, source.obj) && !IsRoutingGvk(r.cr.gvk)
    modifies server
    ensures Kept(server, r, old(server.history), old(server.world))
    ensures AllAsking(server.history, |old(server.history)|, iset{source})
    ensures err == None ==> AllGranted(server.history, |old(server.history)|, iset{source})
    ensures err.Some? ==> err.value.Failure?
    ensures server.quiet ==>
      err == None && server.world == old(server.world).(c := ApplyOp(old(server.world.c), source.key, source.obj))
  {
    hide AllAsking, AllGranted, KnownFinalizers, OwnStep, Safe, Holds, Clean, Put, Merge;
    var found := Fetch(server, source.key, r);
    NothingAsked(old(server.history), server.history, source);
    if found.Err? && found.error != NotFound {
      return Some(found.error);
    }
    ghost var h := server.history;
    err := CreateOrApply(server, source, found.Ok?, r);
    KeptTransitive(r, old(server.history), h, server.history);
    AskingTransitive(old(server.history), h, server.history, iset{source}, iset{source}, iset{source});
    if err == None { GrantedSince(old(server.history), h, server.history, server.history, iset{source}); }
  }

  /** Options are put on every resource before it is created or applied; the first failure ends the list. */
  method Apply(server: ApiServer, resources: seq<Resource>, opts: seq<MetaOption>, ghost r: Run)
    returns (err: Option<Error>)
    requires Steady(server, r) && !IsRoutingGvk(r.cr.gvk)
    requires forall i :: 0 <= i < |resources| ==> Labelled(r, resources[i].key, OptionsApplied(resources[i].obj, opts))
    modifies server
    ensures Kept(server, r, old(server.history), old(server.world))
    ensures AllAsking(server.history, |old(server.history)|, Members(WithOptions(resources, opts)))
    ensures err == None ==>
      AllGranted(server.history, |old(server.history)|, Members(WithOptions(resources, opts)))
    ensures err.Some? ==> err.value.Failure?
    ensures server.quiet ==>
      err == None && server.world
          == old(server.world).(c := ApplySeq(old(server.world.c), WithOptions(resources, opts)))
  {
    hide Safe, Holds, Clean, UserRules, Later, WellFormed, OwnStep, ApplyOp, Labelled, KnownFinalizers, AllAsking,
         AllGranted, Members;
    ghost var plan := WithOptions(resources, opts);
    ghost var wanted := Members(plan);
    NoneGranted(server.history);
    assert plan[..0] == [];
    for i := 0 to |resources|
      invariant Kept(server, r, old(server.history), old(server.world))
      invariant AllAsking(server.history, |old(server.history)|, wanted)
      invariant AllGranted(server.history, |old(server.history)|, Members(plan[..i]))
      invariant server.quiet ==> server.world == old(server.world).(c := ApplySeq(old(server.world.c), plan[..i]))
    {
      var o := ApplyMetaOptions(resources[i].obj, opts);
      ghost var h := server.history;
      err := ApplyOne(server, resources[i].(obj := o), r);
      KeptTransitive(r, old(server.history), h, server.history);
      assert plan[i] == resources[i].(obj := o);
      OneMoreMember(plan, i);
      AskingTransitive(old(server.history), h, server.history, wanted, iset{plan[i]}, wanted);
      if err != None { return; }
      GrantedTransitive(old(server.history), h, server.history, Members(plan[..i]), iset{plan[i]});
      assert plan[..i + 1][..i] == plan[..i] && plan[i] == resources[i].(obj := o);
    }
    assert plan[..|resources|] == plan;
    err := None;
  }

  /* ---------- patching with retries ---------- */

  /** Only these parts of an object differ between what was read and what the client made of it. */
  ghost predicate Edited(base: Obj, edited: Obj) {
    edited == base.(labels := edited.labels, annotations := edited.annotations, finalizers := edited.finalizers,
        payload := edited.payload)
  }

  /** The client's edits of `base` carried over to what is stored. */
  function ThreeWay(base: Obj, edited: Obj, stored: Obj): Obj {
    PatchObj(stored, MergeFrom(Resource(Key(Gvk("", "", ""), "", ""), 0, base),
        Resource(Key(Gvk("", "", ""), "", ""), 0, edited)))
  }

  /** Nobody else wrote: the edits arrive as they were made. */
  lemma ThreeWayAlone(base: Obj, edited: Obj)
    requires Edited(base, edited)
    ensures ThreeWay(base, edited, base) == edited
  {
    PatchRoundTrip(base.labels, edited.labels);
    PatchRoundTrip(base.annotations, edited.annotations);
  }

  /** Somebody else wrote in between: of the labels and annotations only the edited ones change. Finalizers are one
      list and content is one value: the stored one if the client did not edit it, otherwise the client's. */
  lemma ThreeWayConcurrent(base: Obj, edited: Obj, stored: Obj)
    ensures var o := ThreeWay(base, edited, stored);
      && (forall l | Lookup(base.labels, l) == Lookup(edited.labels, l) ::
            Lookup(o.labels, l) == Lookup(stored.labels, l))
      && (forall a | Lookup(base.annotations, a) == Lookup(edited.annotations, a) ::
            Lookup(o.annotations, a) == Lookup(stored.annotations, a))
      && o.finalizers == (if base.finalizers == edited.finalizers then stored.finalizers else edited.finalizers)
      && o.payload == (if base.payload == edited.payload then stored.payload else edited.payload)
      && o.uid == stored.uid && o.owners == stored.owners && o.deleting == stored.deleting
  {
    forall l | Lookup(base.labels, l) == Lookup(edited.labels, l)
      ensures Lookup(ThreeWay(base, edited, stored).labels, l) == Lookup(stored.labels, l)
    {
      PatchElsewhere(stored.labels, base.labels, edited.labels, l);
    }
    forall a | Lookup(base.annotations, a) == Lookup(edited.annotations, a)
      ensures Lookup(ThreeWay(base, edited, stored).annotations, a) == Lookup(stored.annotations, a)
    {
      PatchElsewhere(stored.annotations, base.annotations, edited.annotations, a);
    }
  }

  /** What the client did edit arrives, whatever was stored. */
  lemma ThreeWayDelivers(base: Obj, edited: Obj, stored: Obj, a: string)
    requires Lookup(base.annotations, a) != Lookup(edited.annotations, a)
    ensures Lookup(ThreeWay(base, edited, stored).annotations, a) == Lookup(edited.annotations, a)
  {
  }

  lemma ThreeWayOwnEdit(base: Obj, edited: Obj, stored: Obj)
    requires OwnEdit(base, edited)
    ensures OwnEdit(stored, ThreeWay(base, edited, stored))
    ensures FINALIZER in edited.finalizers && FINALIZER in stored.finalizers ==>
      FINALIZER in ThreeWay(base, edited, stored).finalizers
  {
    ThreeWayConcurrent(base, edited, stored);
    var o := ThreeWay(base, edited, stored);
    forall l ensures l in o.labels <==> l in stored.labels
             ensures l in o.labels ==> o.labels[l] == stored.labels[l] {
      assert Lookup(o.labels, l) == Lookup(stored.labels, l);
    }
    assert o.labels == stored.labels;
  }

  /** Every step of this client since entry `from` edits the custom resource and nothing else. */
  ghost predicate CrSteps(cr: Key, h: seq<Entry>, from: nat) {
    forall i :: from <= i < |h| && h[i].own ==>
      i > 0 && CrEdit(cr, h[i - 1].world.c, h[i].world.c) && KnownFinalizers(cr, h, i)
  }

  ghost predicate CrEdit(cr: Key, c: Cluster, c': Cluster) {
    WellFormed(c') && Later(c, c') && CrStep(cr, c, c')
  }

  lemma CrStepsTransitive(cr: Key, h0: seq<Entry>, h1: seq<Entry>, h2: seq<Entry>)
    requires h0 <= h1 <= h2 && CrSteps(cr, h1, |h0|) && CrSteps(cr, h2, |h1|)
    ensures CrSteps(cr, h2, |h0|)
  {
    hide CrEdit, KnownFinalizers;
    forall i | |h0| <= i < |h2| && h2[i].own
      ensures i > 0 && CrEdit(cr, h2[i - 1].world.c, h2[i].world.c) && KnownFinalizers(cr, h2, i)
    {
      if i < |h1| {
        assert h1[i] == h2[i];
        assert i > 0 && h1[i - 1] == h2[i - 1];
        KnownEarlier(cr, h1, h2, i);
      }
    }
  }

  lemma CrStepsAreOwn(r: Run, h: seq<Entry>, from: nat)
    requires CrSteps(r.cr, h, from)
    ensures OwnSteps(r, h, from)
  {
    hide CrStep, KnownFinalizers, WellFormed, Later;
    forall i | from <= i < |h| && h[i].own
      ensures i > 0 && OwnStep(r, h[i - 1].world.c, h[i].world.c) && KnownFinalizers(r.cr, h, i)
    {
      assert i > 0 && CrEdit(r.cr, h[i - 1].world.c, h[i].world.c);
    }
  }

  lemma EditIsCrStep(cr: Key, c: Cluster, o: Obj)
    requires cr in c.objects && OwnEdit(c.objects[cr], o)
    ensures CrStep(cr, c, Put(c, cr, o))
  {
  }

  lemma EditIsCrEdit(cr: Key, c: Cluster, o: Obj)
    requires WellFormed(c) && cr in c.objects && OwnEdit(c.objects[cr], o)
    ensures CrEdit(cr, c, Put(c, cr, o))
  {
    hide WellFormed, Later, OwnEdit, CrStep, Put;
    EditIsCrStep(cr, c, o);
    PutIsLater(c, cr, o);
  }

  /** A patch made against a version that is not the current one any more is rejected, now and later. */
  lemma StalePatchConflicts(c: Cluster, c': Cluster, target: Resource, current: Resource, base: Obj)
    requires WellFormed(c) && WellFormed(c') && Later(c, c')
    requires Observed(c, target.key, target.version, base)
    requires target.key in c.versions && current.version == c.versions[target.key] != target.version
    ensures MergePatchOp(c', target.key, MergeFrom(current, target)).Err?
  {
  }

  /** A patch made against the current version carries the client's edits and nothing else. */
  lemma FreshPatch(c: Cluster, k: Key, base: Obj, current: Resource, target: Resource)
    requires current.version == target.version && current.obj == base
    requires k in c.objects && k in c.versions
    ensures MergePatchOp(c, k, MergeFrom(current, target)) == Ok(Put(c, k, ThreeWay(base, target.obj, c.objects[k])))
  {
  }

  /** The edit the client wants to see on the stored object. */
  ghost predicate Patched(key: Key, base: Obj, edited: Obj, before: World, after: World) {
    && key in before.c.objects
    && after == before.(c := Put(before.c, key, ThreeWay(base, edited, before.c.objects[key])))
  }

  /** What a patch attempt leaves behind: the edits on the stored object and in the client's hands, or nothing. */
  ghost predicate Delivered(err: Option<Error>, base: Obj, before: Resource, after: Resource, mid: World, now: World) {
    if err == None then
      && Patched(before.key, base, before.obj, mid, now)
      && after == Answered(now.c, before.key, ThreeWay(base, before.obj, mid.c.objects[before.key]))
    else
      after == before
  }

  lemma NotDelivered(target: Resource, base: Obj, error: Error, w: World)
    ensures Delivered(Some(error), base, target, target, w, w)
  {
  }

  /** This client made the last step of `h`, from `mid`, and not before entry `from`. */
  ghost predicate LastStep(h: seq<Entry>, from: nat, mid: World) {
    |h| >= 2 && from < |h| && h[|h| - 2].world == mid && h[|h| - 1].own
  }

  /** The entry stands for a patch of `key` that succeeded. */
  ghost predicate IsPatch(e: Entry, key: Key) {
    e.own && e.sent.Wrote? && e.sent.request.Patching? && e.sent.request.key == key && e.sent.err == None
  }

  /** The client kept the finalizers it read, or added its own to a list it had read. */
  ghost predicate KnownEdit(h: seq<Entry>, key: Key, base: Obj, edited: Obj) {
    edited.finalizers == base.finalizers || SeenBefore(h, |h|, key, edited.finalizers)
  }

  lemma KnownEditLater(h1: seq<Entry>, h2: seq<Entry>, key: Key, base: Obj, edited: Obj)
    requires h1 <= h2 && KnownEdit(h1, key, base, edited)
    ensures KnownEdit(h2, key, base, edited)
  {
    if edited.finalizers != base.finalizers { SeenLater(h1, h2, key, edited.finalizers); }
  }

  predicate Current(c: Cluster, r: Resource) {
    r.key in c.objects && r.key in c.versions && c.versions[r.key] == r.version
  }

  /** Carrying the edits over keeps what a write has to keep. */
  lemma PatchKeeps(w: Option<Watch>, r: Run, mid: World, now: World, base: Obj, edited: Obj)
    requires WellFormed(mid.c) && (w.Some? ==> ValidWatch(w.value))
    requires OwnEdit(base, edited) && FINALIZER in edited.finalizers && !IsRoutingGvk(r.cr.gvk)
    requires now == mid || Patched(r.cr, base, edited, mid, now)
    ensures CrEdit(r.cr, mid.c, now.c) && OwnStep(r, mid.c, now.c)
    ensures w.Some? && Safe(w.value, mid) ==>
      && Safe(w.value, now)
      && (Holds(w.value, r, mid) ==> Holds(w.value, r, now))
      && (Clean(w.value, r, mid) ==> Clean(w.value, r, now))
  {
    if now != mid {
      var stored := mid.c.objects[r.cr];
      ThreeWayOwnEdit(base, edited, stored);
      EditIsCrEdit(r.cr, mid.c, ThreeWay(base, edited, stored));
      if w.Some? && Safe(w.value, mid) {
        EditKeepsSafe(w.value, r, mid, r.cr, ThreeWay(base, edited, stored));
      }
    }
  }

  /** A patch stores the finalizers that were stored, or the list the client made. */
  lemma PatchedFinalizers(h: seq<Entry>, n: nat, key: Key, base: Obj, edited: Obj)
    requires 0 < n < |h| && n == |h| - 1 && KnownEdit(h[..n], key, base, edited)
    requires h[n].world == h[n - 1].world || Patched(key, base, edited, h[n - 1].world, h[n].world)
    ensures KnownFinalizers(key, h, n)
  {
    if key in h[n - 1].world.c.objects {
      ThreeWayConcurrent(base, edited, h[n - 1].world.c.objects[key]);
      hide ThreeWay;
      if SeenBefore(h[..n], n, key, edited.finalizers) {
        var j :| 0 <= j < n && SeenWithout(h[..n][j], key, edited.finalizers);
        assert h[..n][j] == h[j];
      }
    }
  }

  lemma KeptByEditing(s: ApiServer, r: Run, h0: seq<Entry>, w0: World, mid: World, base: Obj, edited: Obj)
    requires OneCall(s, h0, w0, mid) && KnownEdit(h0, r.cr, base, edited)
    requires OwnEdit(base, edited) && FINALIZER in edited.finalizers && !IsRoutingGvk(r.cr.gvk)
    requires s.world == mid || Patched(r.cr, base, edited, mid, s.world)
    ensures Kept(s, r, h0, w0) && CrSteps(r.cr, s.history, |h0|)
  {
    hide OwnStep, CrEdit, Safe, Holds, Clean, Put, OwnEdit, ThreeWay, Patched, UserRules, KnownEdit, KnownFinalizers;
    var n := |s.history| - 1;
    assert s.history[n].world == s.world && WellFormed(s.history[n - 1].world.c);
    PatchKeeps(s.watch, r, mid, s.world, base, edited);
    KnownEditLater(h0, s.history[..n], r.cr, base, edited);
    PatchedFinalizers(s.history, n, r.cr, base, edited);
    KeptByWriting(s, r, h0, w0, mid);
  }

  /** What a patch request leaves, given what was fetched for it. */
  lemma SentPatch(seen: Cluster, mid: World, now: World, err: Option<Error>, current: Resource, sent: Resource,
                  base: Obj)
    requires WellFormed(seen) && WellFormed(mid.c) && Later(seen, mid.c)
    requires Observed(seen, sent.key, sent.version, base)
    requires sent.key in seen.objects && sent.key in seen.versions && current == Stored(seen, sent.key)
    requires Settled(err, MergePatchOp(mid.c, sent.key, MergeFrom(current, sent)), mid, now)
    ensures now == mid || Patched(sent.key, base, sent.obj, mid, now)
    ensures err == None ==> Patched(sent.key, base, sent.obj, mid, now)
    ensures err == Some(Conflict) ==> now == mid
    ensures mid.c == seen && current.version == sent.version ==>
      MergePatchOp(mid.c, sent.key, MergeFrom(current, sent)).Ok?
  {
    hide ThreeWay, Put, MergeFrom, WellFormed, Later;
    if current.version == sent.version {
      assert current.obj == base;
      if sent.key in mid.c.objects && sent.key in mid.c.versions { FreshPatch(mid.c, sent.key, base, current, sent); }
    } else {
      StalePatchConflicts(seen, mid.c, sent, current, base);
    }
  }

  /** Sends the difference between what was fetched and what the client made of its own copy. */
  method SendPatch(server: ApiServer, target: Unstructured, current: Resource, ghost base: Obj, ghost r: Run)
    returns (err: Option<Error>, ghost mid: World)
    requires Live(server) && Observed(server.world.c, target.key, target.version, base)
    requires target.key in server.world.c.objects && target.key in server.world.c.versions
    requires current == Stored(server.world.c, target.key)
    requires OwnEdit(base, target.obj) && FINALIZER in target.obj.finalizers
    requires KnownEdit(server.history, target.key, base, target.obj)
    requires r.cr == target.key && !IsRoutingGvk(r.cr.gvk)
    modifies server`world, server`history, target
    ensures Kept(server, r, old(server.history), old(server.world))
    ensures CrSteps(target.key, server.history, |old(server.history)|)
    ensures Rely(server.watch, old(server.world), mid) && LastStep(server.history, |old(server.history)|, mid)
    ensures err == None ==> IsPatch(server.history[|server.history| - 1], target.key)
    ensures SentLast(server.history, |old(server.history)|, err)
    ensures Delivered(err, base, old(target.Value()), target.Value(), mid, server.world)
    ensures err == Some(Conflict) ==> server.world == mid
    ensures Writes(server.history) == Writes(old(server.history)) + 1
    ensures server.quiet ==> mid == old(server.world)
    ensures server.quiet && current.version == old(target.version) ==> err == None
  {
    hide Safe, Holds, Clean, UserRules, Put, OwnEdit, OwnStep, Writes, MergePatchOp, MergeFrom, ThreeWay, Later,
         WellFormed, KnownEdit, Observed, CrSteps;
    ghost var h0, w0 := server.history, server.world;
    var answer: Option<Resource>;
    var before := target.Value();
    err, answer, mid := server.Patch(target.key, MergeFrom(current, before));
    assert WellFormed(server.history[|h0| - 1].world.c) && WellFormed(server.history[|server.history| - 2].world.c);
    SentPatch(w0.c, mid, server.world, err, current, before, base);
    PatchAnswers(mid.c, current, before, base, w0.c);
    if err == None {
      target.Refresh(answer.value.version, answer.value.obj);
    }
    KeptByEditing(server, r, h0, w0, mid, base, before.obj);
    OneWrite(h0, server.history);
  }

  /** The object a successful patch answers with holds the edits. */
  lemma PatchAnswers(c: Cluster, current: Resource, sent: Resource, base: Obj, seen: Cluster)
    requires WellFormed(seen) && WellFormed(c) && Later(seen, c)
    requires Observed(seen, sent.key, sent.version, base)
    requires sent.key in seen.objects && sent.key in seen.versions && current == Stored(seen, sent.key)
    ensures MergePatchOp(c, sent.key, MergeFrom(current, sent)).Ok? ==>
      sent.key in c.objects && PatchObj(c.objects[sent.key], MergeFrom(current, sent))
          == ThreeWay(base, sent.obj, c.objects[sent.key])
  {
    if current.version != sent.version {
      StalePatchConflicts(seen, c, sent, current, base);
    }
  }

  lemma NoCrStep(key: Key, h: seq<Entry>, from: nat)
    requires NoneOwn(h, from)
    ensures CrSteps(key, h, from)
  {
  }

  /** One attempt: fetch the object and send the difference. */
  method PatchOnce(server: ApiServer, target: Unstructured, ghost base: Obj, ghost r: Run)
    returns (err: Option<Error>, ghost mid: World)
    requires Live(server) && Observed(server.world.c, target.key, target.version, base)
    requires OwnEdit(base, target.obj) && FINALIZER in target.obj.finalizers
    requires KnownEdit(server.history, target.key, base, target.obj)
    requires r.cr == target.key && !IsRoutingGvk(r.cr.gvk)
    modifies server, target
    ensures Kept(server, r, old(server.history), old(server.world))
    ensures CrSteps(target.key, server.history, |old(server.history)|)
    ensures Rely(server.watch, old(server.world), mid)
    ensures Delivered(err, base, old(target.Value()), target.Value(), mid, server.world)
    ensures err == None ==>
      LastStep(server.history, |old(server.history)|, mid) && IsPatch(server.history[|server.history| - 1], target.key)
    ensures err == Some(Conflict) ==> server.world == mid && Writes(server.history) == Writes(old(server.history)) + 1
    ensures Writes(server.history) <= Writes(old(server.history)) + 1
    ensures OneTry(server.history, |old(server.history)|, err)
    ensures old(server.looks) <= server.looks
    ensures FetchedAnew(server.history, |old(server.history)|, server.looks, |old(server.looks)|, target.key)
    ensures server.quiet ==> mid == old(server.world)
    ensures server.quiet && Current(mid.c, old(target.Value())) ==> err == None
  {
    hide Safe, Holds, Clean, UserRules, Put, OwnEdit, OwnStep, ThreeWay, Writes, KnownEdit, KnownFinalizers, CrEdit,
         FetchedAnew, SentLast, OneTry, Delivered, IsPatch, Observed, CrSteps, OwnSteps, HoldsAt, CleanAt, SafeAt,
         Later, WellFormed, IsRoutingGvk, Rely;
    ghost var h0, w0, l0 := server.history, server.world, server.looks;
    var current := Fetch(server, target.key, r);
    WritesOfOthers(h0, server.history);
    FetchedOnce(h0, server.history, server.history, l0, server.looks, target.key, None);
    NoCrStep(target.key, server.history, |h0|);
    mid := server.world;
    if current.Err? {
      NoTry(server.history, |h0|, current.error);
      NotDelivered(target.Value(), base, current.error, mid);
      return Some(current.error), mid;
    }
    ghost var h1, w1 := server.history, server.world;
    ObservedLasts(w0.c, w1.c, target.key, target.version, base);
    KnownEditLater(h0, h1, target.key, base, target.obj);
    err, mid := SendPatch(server, target, current.value, base, r);
    FetchedOnce(h0, h1, server.history, l0, server.looks, target.key, err);
    TriedOnce(h0, h1, server.history, err);
    KeptTransitive(r, h0, h1, server.history);
    CrStepsTransitive(target.key, h0, h1, server.history);
    RelyTransitive(server.watch, w0, w1, mid);
  }

  /** Sends the client's edits, again after every conflict, a bounded number of times; only when that bound is used
      up is a conflict reported. */
  method Patch(server: ApiServer, target: Unstructured, ghost base: Obj, ghost r: Run)
    returns (err: Option<Error>, ghost mid: World)
    requires Live(server) && Observed(server.world.c, target.key, target.version, base)
    requires OwnEdit(base, target.obj) && FINALIZER in target.obj.finalizers
    requires KnownEdit(server.history, target.key, base, target.obj)
    requires r.cr == target.key && !IsRoutingGvk(r.cr.gvk)
    modifies server, target
    ensures Kept(server, r, old(server.history), old(server.world))
    ensures CrSteps(target.key, server.history, |old(server.history)|)
    ensures Rely(server.watch, old(server.world), mid)
    ensures Delivered(err, base, old(target.Value()), target.Value(), mid, server.world)
    ensures err == None ==>
      LastStep(server.history, |old(server.history)|, mid) && IsPatch(server.history[|server.history| - 1], target.key)
    ensures Writes(server.history) <= Writes(old(server.history)) + 5
    ensures err == Some(Conflict) ==> Writes(server.history) == Writes(old(server.history)) + 5
    ensures AgainAfterConflict(server.history, |old(server.history)|)
    ensures old(server.looks) <= server.looks
    ensures FetchedAnew(server.history, |old(server.history)|, server.looks, |old(server.looks)|, target.key)
    ensures server.quiet ==> mid == old(server.world)
    ensures server.quiet && Current(mid.c, old(target.Value())) ==> err == None
  {
    hide Safe, Holds, Clean, UserRules, Put, OwnEdit, OwnStep, ThreeWay, Writes, KnownEdit, KnownFinalizers, CrEdit,
         OwnSteps, CrSteps, HoldsAt, CleanAt, Rely, Observed, WellFormed, Later, Patched, IsPatch,
         AgainAfterConflict, FetchedAnew, OneTry, Refused;
    ghost var h0, w0, l0 := server.history, server.world, server.looks;
    err, mid := PatchOnce(server, target, base, r);
    TriedAgain(h0, h0, server.history, err);
    for attempt := 1 to ATTEMPTS
      invariant Kept(server, r, h0, w0) && CrSteps(target.key, server.history, |h0|)
      invariant Rely(server.watch, w0, mid)
      invariant Delivered(err, base, old(target.Value()), target.Value(), mid, server.world)
      invariant err == None ==>
        LastStep(server.history, |h0|, mid) && IsPatch(server.history[|server.history| - 1], target.key)
      invariant err == Some(Conflict) ==> server.world == mid && Writes(server.history) == Writes(h0) + attempt
      invariant Writes(server.history) <= Writes(h0) + attempt
      invariant server.quiet ==> mid == w0
      invariant server.quiet && Current(mid.c, old(target.Value())) ==> err == None
      invariant AgainAfterConflict(server.history, |h0|)
      invariant err == Some(Conflict) ==>
        forall i :: |h0| <= i < |server.history| && server.history[i].own ==> Refused(server.history[i])
      invariant l0 <= server.looks && FetchedAnew(server.history, |h0|, server.looks, |l0|, target.key)
    {
      if err != Some(Conflict) { return; }
      ghost var h1, w1, l1 := server.history, server.world, server.looks;
      ObservedLasts(w0.c, w1.c, target.key, target.version, base);
      KnownEditLater(h0, h1, target.key, base, target.obj);
      err, mid := PatchOnce(server, target, base, r);
      TriedAgain(h0, h1, server.history, err);
      FetchedMore(h0, h1, server.history, l0, l1, server.looks, target.key);
      KeptTransitive(r, h0, h1, server.history);
      CrStepsTransitive(target.key, h0, h1, server.history);
      RelyTransitive(server.watch, w0, w1, mid);
    }
  }
}
