/** The API server as one client sees it. Between any two of its calls others may change the stored state, a call
    may fail, and a failed call may have taken effect all the same. A crashed client is one whose remaining calls
    all fail. `history` keeps every state there ever was, who made it, and with which request. */
module Server {
  import opened Api
  import opened Ownership

  /** A request that may change the stored state, and what the client was told about it. */
  datatype Sent =
    | Nothing
    | Wrote(request: Request, err: Option<Error>)
    | Deleted(gvk: Gvk, options: seq<DeleteOption>, err: Option<Error>)

  /** A read of this client, sent when the history had `at` entries. */
  datatype Look = Look(key: Key, at: nat)

  datatype Entry = Entry(own: bool, sent: Sent, world: World)

  ghost predicate SafeAt(watch: Option<Watch>, e: Entry) {
    watch.Some? ==> Safe(watch.value, e.world)
  }

  /** What becomes of a request whose effect, had it been carried out, would have been `op`. */
  ghost predicate Settled(err: Option<Error>, op: Result<Cluster>, before: World, after: World) {
    match err
    case None => op.Ok? && after == before.(c := op.value)
    case Some(Failure(_)) => after == before || (op.Ok? && after == before.(c := op.value))
    case Some(e) => op == Err(e) && after == before
  }

  function Stored(c: Cluster, k: Key): Resource
    requires k in c.objects && k in c.versions
  {
    Resource(k, c.versions[k], c.objects[k])
  }

  /** The object an answer to a write carries: what was stored, or what was last stored before it went away. */
  function Answered(c: Cluster, k: Key, o: Obj): Resource {
    Resource(k, if k in c.versions then c.versions[k] else c.clock, o)
  }

  /** This client made no step since entry `from`. */
  ghost predicate NoneOwn(h: seq<Entry>, from: nat) {
    forall i :: from <= i < |h| ==> !h[i].own
  }

  /** Since entry `from` this client sent requests only again after a conflict. */
  ghost predicate AgainAfterConflict(h: seq<Entry>, from: nat) {
    forall i, j :: from <= i < j < |h| && h[i].own && h[j].own ==> Refused(h[i])
  }

  /** The request met another version than it was made for. */
  ghost predicate Refused(e: Entry) {
    e.sent.Wrote? && e.sent.err == Some(Conflict)
  }

  /** The one request since entry `from` is the last entry, and was answered with `err`. */
  ghost predicate SentLast(h: seq<Entry>, from: nat, err: Option<Error>) {
    && from < |h| && NoneOwn(h[..|h| - 1], from)
    && h[|h| - 1].own && h[|h| - 1].sent.Wrote? && h[|h| - 1].sent.err == err
  }

  /** The client looked `k` up after its first `first` reads, when the history had `at` entries or more. */
  ghost predicate LookedUp(looks: seq<Look>, first: nat, k: Key, at: nat) {
    exists i :: first <= i < |looks| && looks[i].key == k && looks[i].at >= at
  }

  /** Before entry `i` the client looked `k` up and sent nothing in between. */
  ghost predicate FetchedBefore(h: seq<Entry>, from: nat, looks: seq<Look>, first: nat, k: Key, i: nat)
    requires i <= |h|
  {
    exists l :: first <= l < |looks| && looks[l].key == k && from <= looks[l].at <= i && NoneOwn(h[..i], looks[l].at)
  }

  /** Every request since entry `from` comes right after a look at `k`. */
  ghost predicate FetchedAnew(h: seq<Entry>, from: nat, looks: seq<Look>, first: nat, k: Key) {
    forall i :: from <= i < |h| && h[i].own ==> FetchedBefore(h, from, looks, first, k, i)
  }

  lemma FetchedMore(h0: seq<Entry>, h1: seq<Entry>, h2: seq<Entry>, l0: seq<Look>, l1: seq<Look>, l2: seq<Look>, k: Key)
    requires h0 <= h1 <= h2 && l0 <= l1 <= l2
    requires FetchedAnew(h1, |h0|, l1, |l0|, k) && FetchedAnew(h2, |h1|, l2, |l1|, k)
    ensures FetchedAnew(h2, |h0|, l2, |l0|, k)
  {
    forall i | |h0| <= i < |h2| && h2[i].own ensures FetchedBefore(h2, |h0|, l2, |l0|, k, i) {
      if i < |h1| {
        assert h1[i] == h2[i] && FetchedBefore(h1, |h0|, l1, |l0|, k, i);
        var l :| |l0| <= l < |l1| && l1[l].key == k && |h0| <= l1[l].at <= i && NoneOwn(h1[..i], l1[l].at);
        assert h2[..i] == h1[..i] && l2[l] == l1[l];
      } else {
        assert FetchedBefore(h2, |h1|, l2, |l1|, k, i);
      }
    }
  }

  lemma FetchedNone(h: seq<Entry>, looks: seq<Look>, k: Key)
    ensures FetchedAnew(h, |h|, looks, |looks|, k)
  {
  }

  /** A look, then one request. */
  lemma FetchedOnce(h0: seq<Entry>, h1: seq<Entry>, h2: seq<Entry>, l0: seq<Look>, l1: seq<Look>, k: Key,
                    err: Option<Error>)
    requires h0 <= h1 <= h2 && NoneOwn(h1, |h0|) && (SentLast(h2, |h1|, err) || h2 == h1)
    requires l1 == l0 + [Look(k, |h0|)]
    ensures FetchedAnew(h2, |h0|, l1, |l0|, k)
  {
    var n := |h2| - 1;
    assert l1[|l0|] == Look(k, |h0|);
    forall i | |h0| <= i < |h2| && h2[i].own ensures FetchedBefore(h2, |h0|, l1, |l0|, k, i) {
      assert forall j :: |h0| <= j < |h1| ==> h2[j] == h1[j];
      assert forall j :: |h1| <= j < n ==> h2[j] == h2[..n][j];
      assert NoneOwn(h2[..i], |h0|);
    }
  }

  lemma LookedUpLater(l0: seq<Look>, l1: seq<Look>, l2: seq<Look>, l3: seq<Look>, k: Key, at: nat, at': nat)
    requires l0 <= l1 <= l2 <= l3 && LookedUp(l2, |l1|, k, at) && at' <= at
    ensures LookedUp(l3, |l0|, k, at')
  {
    var i :| |l1| <= i < |l2| && l2[i].key == k && l2[i].at >= at;
    assert l3[i] == l2[i];
  }

  lemma NothingSince(h0: seq<Entry>, h1: seq<Entry>, h2: seq<Entry>)
    requires h0 <= h1 <= h2 && NoneOwn(h2, |h1|)
    requires forall i :: |h0| <= i < |h1| && h1[i].own ==> Refused(h1[i])
    ensures AgainAfterConflict(h2, |h0|)
  {
    assert forall i :: |h0| <= i < |h1| ==> h2[i] == h1[i];
  }

  /** There was one request since entry `from`, the last step, or none and no conflict. */
  ghost predicate OneTry(h: seq<Entry>, from: nat, err: Option<Error>) {
    SentLast(h, from, err) || (NoneOwn(h, from) && err != Some(Conflict))
  }

  lemma NoTry(h: seq<Entry>, from: nat, error: Error)
    requires NoneOwn(h, from) && error != Conflict
    ensures OneTry(h, from, Some(error))
  {
  }

  lemma TriedOnce(h0: seq<Entry>, h1: seq<Entry>, h2: seq<Entry>, err: Option<Error>)
    requires h0 <= h1 <= h2 && NoneOwn(h1, |h0|) && SentLast(h2, |h1|, err)
    ensures OneTry(h2, |h0|, err)
  {
    var n := |h2| - 1;
    assert forall i :: |h0| <= i < |h1| ==> h2[..n][i] == h1[i];
  }

  /** One more try after nothing but conflicts. */
  lemma TriedAgain(h0: seq<Entry>, h1: seq<Entry>, h2: seq<Entry>, err: Option<Error>)
    requires h0 <= h1 <= h2 && OneTry(h2, |h1|, err)
    requires forall i :: |h0| <= i < |h1| && h1[i].own ==> Refused(h1[i])
    ensures AgainAfterConflict(h2, |h0|)
    ensures err == Some(Conflict) ==> forall i :: |h0| <= i < |h2| && h2[i].own ==> Refused(h2[i])
  {
    if SentLast(h2, |h1|, err) { OnceMore(h0, h1, h1, h2, err); } else { NothingSince(h0, h1, h2); }
  }

  lemma FirstAgain(h0: seq<Entry>, h1: seq<Entry>, h2: seq<Entry>)
    requires h0 <= h1 <= h2 && NoneOwn(h1, |h0|) && AgainAfterConflict(h2, |h1|)
    ensures AgainAfterConflict(h2, |h0|)
  {
    assert forall i :: |h0| <= i < |h1| ==> h2[i] == h1[i];
  }

  /** One more request after nothing but conflicts. */
  lemma OnceMore(h0: seq<Entry>, h1: seq<Entry>, h2: seq<Entry>, h3: seq<Entry>, err: Option<Error>)
    requires h0 <= h1 <= h2 <= h3 && NoneOwn(h2, |h1|) && SentLast(h3, |h2|, err)
    requires forall i :: |h0| <= i < |h1| && h1[i].own ==> Refused(h1[i])
    ensures AgainAfterConflict(h3, |h0|)
    ensures err == Some(Conflict) ==> forall i :: |h0| <= i < |h3| && h3[i].own ==> Refused(h3[i])
  {
    var n := |h3| - 1;
    assert forall i :: |h0| <= i < |h1| ==> h3[i] == h1[i];
    assert forall i :: |h1| <= i < |h2| ==> h3[i] == h2[i];
    assert forall i :: |h2| <= i < n ==> h3[i] == h3[..n][i];
  }

  /** How many requests that may write this client has sent. */
  function Writes(h: seq<Entry>): nat {
    if h == [] then 0 else Writes(h[..|h| - 1]) + if h[|h| - 1].own then 1 else 0
  }

  lemma {:induction false} WritesOfOthers(h0: seq<Entry>, h: seq<Entry>)
    requires h0 <= h && forall i :: |h0| <= i < |h| ==> !h[i].own
    ensures Writes(h) == Writes(h0)
    decreases |h|
  {
    if |h| > |h0| {
      WritesOfOthers(h0, h[..|h| - 1]);
    } else {
      assert h == h0;
    }
  }

  lemma OneWrite(h0: seq<Entry>, h: seq<Entry>)
    requires h0 <= h && |h0| < |h| && h[|h| - 1].own && forall i :: |h0| <= i < |h| - 1 ==> !h[i].own
    ensures Writes(h) == Writes(h0) + 1
  {
    WritesOfOthers(h0, h[..|h| - 1]);
  }

  class ApiServer {
    /** A quiet server has no other clients and no faults, except that requests to delete a collection may fail if it
        is brittle. */
    const quiet: bool
    const brittle: bool
    const combining: Combining
    const watch: Option<Watch>
    var world: World
    var history: seq<Entry>
    var looks: seq<Look>

    constructor (quiet: bool, brittle: bool, combining: Combining, watch: Option<Watch>, start: World)
      requires WellFormed(start.c)
      ensures Valid() && this.quiet == quiet && this.brittle == brittle && this.combining == combining
      ensures this.watch == watch
      ensures world == start && history == [Entry(false, Nothing, start)] && looks == []
    {
      this.quiet, this.brittle, this.combining, this.watch := quiet, brittle, combining, watch;
      world, history, looks := start, [Entry(false, Nothing, start)], [];
    }

    predicate Calm() {
      quiet && !brittle
    }

    ghost predicate Valid()
      reads this
    {
      && history != []
      && history[|history| - 1].world == world
      && (forall i :: 0 <= i < |history| ==> WellFormed(history[i].world.c) && Later(history[i].world.c, world.c))
    }

    /** Every state so far kept the promise. */
    ghost predicate Sound()
      reads this
    {
      forall i :: 0 <= i < |history| ==> SafeAt(watch, history[i])
    }

    /** Others went on from the old state, `own` of the entries being this client's. */
    twostate predicate Grown()
      reads this
    {
      && Valid()
      && old(history) <= history
    }

    /** A call that only read: whatever happened was done by others. */
    twostate predicate Looked()
      reads this
    {
      && Grown()
      && Sound()
      && Rely(watch, old(world), world)
      && (forall i :: |old(history)| <= i < |history| ==> !history[i].own)
      && (quiet ==> history == old(history))
    }

    /** A call that wrote: others led from the old state to `mid`, this client from there to the current one. */
    twostate predicate Called(mid: World)
      reads this
    {
      && Grown()
      && |history| > |old(history)|
      && |history| >= 2 && history[|history| - 2].world == mid
      && history[|history| - 1].own
      && (forall i :: |old(history)| <= i < |history| - 1 ==> !history[i].own)
      && (forall i :: 0 <= i < |history| - 1 ==> SafeAt(watch, history[i]))
      && Rely(watch, old(world), mid)
      && (quiet ==> mid == old(world) && history == old(history) + [history[|history| - 1]])
    }

    /* ---------- recording ---------- */

    method Record(own: bool, sent: Sent, next: World)
      requires Valid() && WellFormed(next.c) && Later(world.c, next.c)
      modifies this`world, this`history
      ensures Valid() && world == next && history == old(history) + [Entry(own, sent, next)]
    {
      forall i | 0 <= i < |history| ensures Later(history[i].world.c, next.c) {
        LaterTransitive(history[i].world.c, world.c, next.c);
      }
      world, history := next, history + [Entry(own, sent, next)];
    }

    /** Any number of steps of others. */
    method Interfere()
      requires Valid() && Sound()
      modifies this`world, this`history
      ensures Looked()
    {
      assert SafeAt(watch, history[|history| - 1]);
      RelyReflexive(watch, world);
      var steps: nat :| true;
      if quiet { steps := 0; }
      for i := 0 to steps
        invariant Looked()
        invariant quiet ==> steps == 0
      {
        assert SafeAt(watch, history[|history| - 1]);
        RelyReflexive(watch, world);
        var next: World :| Rely(watch, world, next);
        RelyTransitive(watch, old(world), world, next);
        if watch.Some? { SafeUnderRely(watch.value, world, next); }
        Record(false, Nothing, next);
      }
    }

    /** Carries a request out, or loses it, or loses only the answer. */
    method Settle(r: Request, op: Result<Cluster>) returns (err: Option<Error>)
      requires Valid()
      requires op.Ok? ==> WellFormed(op.value) && Later(world.c, op.value)
      requires op.Err? ==> !op.error.Failure?
      modifies this`world, this`history
      ensures Valid() && history == old(history) + [Entry(true, Wrote(r, err), world)]
      ensures Settled(err, op, old(world), world)
      ensures quiet ==> err == if op.Ok? then None else Some(op.error)
    {
      var lost, late: bool := *, *;
      if op.Ok? && ((!lost || late) || quiet) {
        err := if lost && !quiet then Some(Failure("no answer")) else None;
        Record(true, Wrote(r, err), world.(c := op.value));
      } else {
        err := if op.Ok? || (lost && !quiet) then Some(Failure("not reached")) else Some(op.error);
        Record(true, Wrote(r, err), world);
      }
    }

    /* ---------- reading ---------- */

    /** A live read. */
    method Get(k: Key) returns (r: Result<Resource>)
      requires Valid() && Sound()
      modifies this
      ensures Looked() && looks == old(looks) + [Look(k, |old(history)|)]
      ensures r.Ok? ==> k in world.c.objects && k in world.c.versions && r.value == Stored(world.c, k)
      ensures r.Err? ==> r.error == NotFound || r.error.Failure?
      ensures r == Err(NotFound) ==> k !in world.c.objects
      ensures quiet ==>
        r == if k in world.c.objects && k in world.c.versions then Ok(Stored(world.c, k)) else Err(NotFound)
    {
      looks := looks + [Look(k, |history|)];
      Interfere();
      var lost: bool := *;
      if lost && !quiet { return Err(Failure("no answer")); }
      r := if k in world.c.objects then Ok(Stored(world.c, k)) else Err(NotFound);
    }

    /** A read from a cache that may lag behind: the answer was right at some state so far. */
    method GetCached(k: Key) returns (r: Result<Resource>)
      requires Valid() && Sound()
      modifies this
      ensures Looked() && looks == old(looks) + [Look(k, |old(history)|)]
      ensures r.Ok? ==> r.value.key == k && Observed(world.c, k, r.value.version, r.value.obj)
      ensures r.Ok? ==>
        exists i :: 0 <= i < |history| && k in history[i].world.c.objects && k in history[i].world.c.versions
                                    && r.value == Stored(history[i].world.c, k)
      ensures r.Err? ==> r.error == NotFound || r.error.Failure?
      ensures r == Err(NotFound) ==> exists i :: 0 <= i < |history| && k !in history[i].world.c.objects
      ensures quiet ==>
        r == if k in world.c.objects && k in world.c.versions then Ok(Stored(world.c, k)) else Err(NotFound)
    {
      looks := looks + [Look(k, |history|)];
      Interfere();
      var lost: bool := *;
      if lost && !quiet { return Err(Failure("no answer")); }
      var i :| 0 <= i < |history|;
      if quiet { i := |history| - 1; }
      var c := history[i].world.c;
      if k !in c.objects { return Err(NotFound); }
      ObservedLasts(c, world.c, k, c.versions[k], c.objects[k]);
      r := Ok(Stored(c, k));
    }

    /* ---------- writing ---------- */

    /** One request that writes one object, after others had their turn. */
    method Write(r: Request) returns (err: Option<Error>, ghost mid: World)
      requires Valid() && Sound()
      modifies this`world, this`history
      ensures Called(mid) && history[|history| - 1].sent == Wrote(r, err)
      ensures Settled(err, Outcome(mid.c, r), mid, world)
      ensures quiet ==> err == if Outcome(mid.c, r).Ok? then None else Some(Outcome(mid.c, r).error)
    {
      hide Outcome, WellFormed, Later, UserRules;
      Interfere();
      mid := world;
      assert WellFormed(history[|history| - 1].world.c);
      OutcomeIsLater(world.c, r);
      err := Settle(r, Outcome(world.c, r));
    }

    method Create(k: Key, o: Obj) returns (err: Option<Error>, ghost mid: World)
      requires Valid() && Sound()
      modifies this`world, this`history
      ensures Called(mid) && history[|history| - 1].sent == Wrote(Creating(k, o), err)
      ensures Settled(err, CreateOp(mid.c, k, o), mid, world)
      ensures quiet ==> err == if k in mid.c.objects then Some(AlreadyExists) else None
    {
      err, mid := Write(Creating(k, o));
    }

    /** Server-side apply with forced ownership. */
    method Apply(k: Key, source: Obj) returns (err: Option<Error>, ghost mid: World)
      requires Valid() && Sound()
      modifies this`world, this`history
      ensures Called(mid) && history[|history| - 1].sent == Wrote(Applying(k, source), err)
      ensures Settled(err, Ok(ApplyOp(mid.c, k, source)), mid, world)
      ensures quiet ==> err == None
    {
      err, mid := Write(Applying(k, source));
    }

    method Update(r: Resource) returns (err: Option<Error>, ghost mid: World)
      requires Valid() && Sound()
      modifies this`world, this`history
      ensures Called(mid) && history[|history| - 1].sent == Wrote(Updating(r), err)
      ensures Settled(err, UpdateOp(mid.c, r), mid, world)
      ensures quiet ==> err == if UpdateOp(mid.c, r).Ok? then None else Some(UpdateOp(mid.c, r).error)
    {
      err, mid := Write(Updating(r));
    }

    /** A merge patch; on success the client gets the patched object back. */
    method Patch(k: Key, p: MergePatch) returns (err: Option<Error>, answer: Option<Resource>, ghost mid: World)
      requires Valid() && Sound()
      modifies this`world, this`history
      ensures Called(mid) && history[|history| - 1].sent == Wrote(Patching(k, p), err)
      ensures Settled(err, MergePatchOp(mid.c, k, p), mid, world)
      ensures quiet ==> err == if MergePatchOp(mid.c, k, p).Ok? then None else Some(MergePatchOp(mid.c, k, p).error)
      ensures err == None ==> k in mid.c.objects && answer == Some(Answered(world.c, k, PatchObj(mid.c.objects[k], p)))
    {
      err, mid := Write(Patching(k, p));
      answer := None;
      if err == None {
        answer := Some(Answered(world.c, k, PatchObj(history[|history| - 2].world.c.objects[k], p)));
      }
    }

    /** Removes what the options select; a failed request may have removed part of it. */
    method DeleteAllOf(gvk: Gvk, options: seq<DeleteOption>)
      returns (err: Option<Error>, ghost mid: World, ghost gone: set<Key>)
      requires Valid() && Sound()
      modifies this`world, this`history
      ensures Called(mid) && history[|history| - 1].sent == Deleted(gvk, options, err)
      ensures gone <= Matching(mid.c, Selected(combining, gvk, options)) && world == mid.(c := Drop(mid.c, gone))
      ensures err == None ==> gone == Matching(mid.c, Selected(combining, gvk, options))
      ensures Calm() ==> err == None
    {
      Interfere();
      mid := world;
      var lost: bool := *;
      var some: set<Key> := *;
      var removed := Matching(world.c, Selected(combining, gvk, options));
      err := None;
      if lost && !Calm() {
        err := Some(Failure("no answer"));
        removed := removed * some;
      }
      gone := removed;
      DropIsLater(world.c, removed);
      Record(true, Deleted(gvk, options, err), world.(c := Drop(world.c, removed)));
    }

    /** Bookkeeping of a complete reconcile: what was pending outside `modes` is settled. No request is made. */
    method Acknowledge(modes: set<string>)
      requires Valid()
      modifies this`world, this`history
      ensures Valid() && world == old(world).(pending := old(world).pending * modes)
      ensures history == old(history) + [Entry(true, Nothing, world)]
    {
      Record(true, Nothing, world.(pending := world.pending * modes));
    }
  }
}
