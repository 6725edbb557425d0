/** The authorization controller: an AuthConfig and an AuthorizationPolicy for every watched resource
    (controllers/authzctrl). */
module Authz {
  import opened Text
  import opened Api
  import opened Metadata
  import opened RouteTypes
  import opened Ownership
  import opened Server
  import opened Unstruct
  import opened Hosts

  const AUTH_CONFIG := Gvk("authorino.kuadrant.io", "v1beta2", "AuthConfig")
  const AUTH_POLICY := Gvk("security.istio.io", "v1beta1", "AuthorizationPolicy")
  const NOT_PATHS := ["/healthz", "/debug/pprof/", "/metrics", "/wait-for-drain"]

  /* ---------- what is desired ---------- */

  /** A loaded AuthConfig template: its metadata, and its specification apart from the hosts. */
  datatype AuthTemplate = AuthTemplate(labels: map<string, string>, annotations: map<string, string>, settings: string)

  function ApiVersion(g: Gvk): string {
    if g.group == "" then g.version else g.group + "/" + g.version
  }

  function TargetToOwnerRef(target: Resource): OwnerRef {
    OwnerRef(ApiVersion(target.key.gvk), target.key.gvk.kind, target.key.name, target.obj.uid, true)
  }

  /** The labels of the AuthConfig: the configured one over those of the template, standard labels only where the key
      is free. */
  function AuthLabels(template: map<string, string>, key: string, value: string,
                      standard: seq<Label>): map<string, string> {
    LabelsAppended(template[key := value], standard)
  }

  function AuthConfigFor(template: AuthTemplate, hosts: seq<string>, labelKV: string, target: Resource,
                         version: string): Result<Resource> {
    var kv := Split(labelKV, "=");
    if |kv| != 2 then Err(Failure("expected authorino label to be in key=value format"))
    else Ok(Resource(Key(AUTH_CONFIG, target.key.namespace, target.key.name), 0,
      Obj("", AuthLabels(template.labels, kv[0], kv[1], StandardLabels(target.obj, version)), template.annotations,
          [], [TargetToOwnerRef(target)], false, AuthConfig(hosts, template.settings))))
  }

  method CreateAuthConfig(template: AuthTemplate, hosts: seq<string>, labelKV: string, target: Resource,
                          version: string)
    returns (r: Result<Resource>)
    ensures r == AuthConfigFor(template, hosts, labelKV, target, version)
  {
    var kv := Split(labelKV, "=");
    if |kv| != 2 {
      return Err(Failure("expected authorino label to be in key=value format"));
    }
    var o := Obj("", template.labels[kv[0] := kv[1]], template.annotations, [], [], false,
        AuthConfig([], template.settings));
    ghost var opts := [AppendLabels(StandardLabels(target.obj, version))];
    assert opts[..0] == [];
    assert OptionsApplied(o, opts[..0]) == o;
    o := ApplyMetaOptions(o, [AppendLabels(StandardLabels(target.obj, version))]);
    o := o.(payload := AuthConfig(hosts, template.settings), owners := [TargetToOwnerRef(target)]);
    return Ok(Resource(Key(AUTH_CONFIG, target.key.namespace, target.key.name), 0, o));
  }

  /** The AuthConfig: specification and annotations of the template with the hosts filled in. The configured label wins
      over the template, the template over the standard labels, and whatever the labels of the watched resource are,
      each standard key is there in the end. */
  lemma NeverOverrides(template: AuthTemplate, hosts: seq<string>, labelKV: string, target: Resource, version: string,
                       k: string)
    ensures var r := AuthConfigFor(template, hosts, labelKV, target, version);
      && (r.Ok? <==> |Split(labelKV, "=")| == 2)
      && (r.Ok? ==>
            && r.value.key == Key(Gvk("authorino.kuadrant.io", "v1beta2", "AuthConfig"), target.key.namespace,
                target.key.name)
            && r.value.obj.payload == AuthConfig(hosts, template.settings)
            && r.value.obj.annotations == template.annotations && OwnedAlone(r.value.obj, target)
            && r.value.obj.uid == "" && r.value.obj.finalizers == [] && !r.value.obj.deleting
            && Lookup(r.value.obj.labels, k) ==
                 (if k == Split(labelKV, "=")[0] then Some(Split(labelKV, "=")[1])
                  else if k in template.labels then Some(template.labels[k])
                  else Lookup(PartOfSource(target.obj, version), k))
            && (k in {APP_PART_OF, APP_COMPONENT, APP_VERSION, APP_MANAGED_BY} ==> k in r.value.obj.labels))
  {
    var kv := Split(labelKV, "=");
    if |kv| == 2 {
      var standard := StandardLabels(target.obj, version);
      AppendedLabels(template.labels[kv[0] := kv[1]], standard, k);
      StandardLabelsAre(target.obj, version, k);
      OwnerRefIs(AuthConfigFor(template, hosts, labelKV, target, version).value.obj, target);
    }
  }

  function RulesFor(ports: seq<string>): seq<PolicyRule> {
    seq(|ports|, i requires 0 <= i < |ports| => PolicyRule([ports[i]], NOT_PATHS))
  }

  function AuthPolicyFor(ports: seq<string>, selector: map<string, string>, provider: string, target: Resource,
                         version: string): Resource {
    Resource(Key(AUTH_POLICY, target.key.namespace, target.key.name), 0,
      OptionsApplied(Obj("", map[], map[], [], [TargetToOwnerRef(target)], false,
          AuthPolicy(selector, "CUSTOM", provider, RulesFor(ports))),
        AsOptions(StandardLabels(target.obj, version))))
  }

  method CreateAuthzPolicy(ports: seq<string>, selector: map<string, string>, provider: string, target: Resource,
                           version: string)
    returns (r: Resource)
    ensures r == AuthPolicyFor(ports, selector, provider, target, version)
  {
    var rules: seq<PolicyRule> := [];
    for i := 0 to |ports|
      invariant rules == RulesFor(ports)[..i]
    {
      rules := rules + [PolicyRule([ports[i]], NOT_PATHS)];
    }
    assert rules == RulesFor(ports);
    var o := Obj("", map[], map[], [], [TargetToOwnerRef(target)], false,
        AuthPolicy(selector, "CUSTOM", provider, rules));
    o := ApplyMetaOptions(o, AsOptions(StandardLabels(target.obj, version)));
    return Resource(Key(AUTH_POLICY, target.key.namespace, target.key.name), 0, o);
  }

  /** The watched resource as controlling owner. */
  ghost predicate OwnedAlone(o: Obj, target: Resource) {
    && |o.owners| == 1 && o.owners[0].isController
    && o.owners[0].kind == target.key.gvk.kind && o.owners[0].name == target.key.name
    && o.owners[0].uid == target.obj.uid
    && o.owners[0].apiVersion ==
         (if target.key.gvk.group == "" then "" else target.key.gvk.group + "/") + target.key.gvk.version
  }

  lemma OwnerRefIs(o: Obj, target: Resource)
    requires o.owners == [TargetToOwnerRef(target)]
    ensures OwnedAlone(o, target)
  {
    assert "" + target.key.gvk.version == target.key.gvk.version;
  }

  /** The policy: CUSTOM through the provider for the selected workloads, one rule per port which leaves out four paths;
      exactly the standard labels. */
  lemma PolicyShape(ports: seq<string>, selector: map<string, string>, provider: string, target: Resource,
                    version: string)
    ensures var r := AuthPolicyFor(ports, selector, provider, target, version);
      && r.key == Key(Gvk("security.istio.io", "v1beta1", "AuthorizationPolicy"), target.key.namespace,
          target.key.name)
      && r.obj.payload.AuthPolicy?
      && r.obj.payload.selector == selector && r.obj.payload.action == "CUSTOM" && r.obj.payload.provider == provider
      && |r.obj.payload.rules| == |ports|
      && (forall i :: 0 <= i < |ports| ==>
            && r.obj.payload.rules[i].ports == [ports[i]]
            && r.obj.payload.rules[i].notPaths == ["/healthz", "/debug/pprof/", "/metrics", "/wait-for-drain"])
      && OwnedAlone(r.obj, target)
      && r.obj.annotations == map[] && r.obj.finalizers == [] && r.obj.uid == "" && !r.obj.deleting
      && r.obj.labels == PartOfSource(target.obj, version)
  {
    var plain := Obj("", map[], map[], [], [TargetToOwnerRef(target)], false,
        AuthPolicy(selector, "CUSTOM", provider, RulesFor(ports)));
    var o := AuthPolicyFor(ports, selector, provider, target, version).obj;
    forall k ensures Lookup(o.labels, k) == LastValue(StandardLabels(target.obj, version), k) {
      LastWriterWins(plain, StandardLabels(target.obj, version), k);
    }
    LastWriterWins(plain, StandardLabels(target.obj, version), "");
    hide OptionsApplied, AuthPolicyFor, StandardLabels;
    OwnerRefIs(o, target);
    forall k ensures Lookup(o.labels, k) == Lookup(PartOfSource(target.obj, version), k) {
      StandardLabelsAre(target.obj, version, k);
    }
    SameLookups(o.labels, PartOfSource(target.obj, version));
  }

  lemma SameLookups(m: map<string, string>, n: map<string, string>)
    requires forall k :: Lookup(m, k) == Lookup(n, k)
    ensures m == n
  {
    forall k ensures k in m <==> k in n
             ensures k in m ==> m[k] == n[k] {
      assert Lookup(m, k) == Lookup(n, k);
    }
  }

  /* ---------- create, or compare and swap ---------- */

  predicate SameSpec(a: Obj, b: Obj) {
    a.labels == b.labels && a.payload == b.payload
  }

  /** The stored object with labels and specification of the desired one. */
  function Replaced(stored: Obj, desired: Obj): Obj {
    stored.(labels := desired.labels, payload := desired.payload)
  }

  /** The only ways the controller ever changes the stored state: the desired object appears where there was none, or
      labels and specification of what was stored immediately before are replaced. */
  ghost predicate AuthStep(desired: Resource, c: Cluster, c': Cluster) {
    || c' == c
    || (desired.key !in c.objects && c' == Put(c, desired.key, desired.obj))
    || (desired.key in c.objects && c' == Put(c, desired.key, Replaced(c.objects[desired.key], desired.obj)))
  }

  ghost predicate AuthSteps(desired: Resource, h: seq<Entry>, from: nat) {
    forall i :: from <= i < |h| && h[i].own ==>
      i > 0 && AuthStep(desired, h[i - 1].world.c, h[i].world.c) && h[i].world.pending == h[i - 1].world.pending
  }

  lemma AuthStepsTransitive(desired: Resource, h0: seq<Entry>, h1: seq<Entry>, h2: seq<Entry>)
    requires h0 <= h1 <= h2 && AuthSteps(desired, h1, |h0|) && AuthSteps(desired, h2, |h1|)
    ensures AuthSteps(desired, h2, |h0|)
  {
    hide AuthStep;
    forall i | |h0| <= i < |h2| && h2[i].own
      ensures i > 0 && AuthStep(desired, h2[i - 1].world.c, h2[i].world.c)
      ensures h2[i].world.pending == h2[i - 1].world.pending
    {
      if i < |h1| { assert h1[i] == h2[i]; assert i > 0 && h1[i - 1] == h2[i - 1]; }
    }
  }

  /** The resource is what was stored at some entry. */
  ghost predicate SeenAs(h: seq<Entry>, r: Resource) {
    exists i :: 0 <= i < |h| && r.key in h[i].world.c.objects && r.key in h[i].world.c.versions
        && r == Stored(h[i].world.c, r.key)
  }

  /** At some entry there was nothing at `k`. */
  ghost predicate MissedAt(h: seq<Entry>, k: Key) {
    exists i :: 0 <= i < |h| && k !in h[i].world.c.objects
  }

  /** The client did nothing since entry `from`, and there was nothing at `k` at some entry. */
  ghost predicate NotThere(h: seq<Entry>, from: nat, k: Key) {
    NoneOwn(h, from) && MissedAt(h, k)
  }

  lemma SeenAsLater(h1: seq<Entry>, h2: seq<Entry>, r: Resource)
    requires h1 <= h2 && SeenAs(h1, r)
    ensures SeenAs(h2, r)
  {
    var i :| 0 <= i < |h1| && r.key in h1[i].world.c.objects && r.key in h1[i].world.c.versions
        && r == Stored(h1[i].world.c, r.key);
    assert h2[i] == h1[i];
  }

  /** The request stored the desired object, or found that there was one already where it was to be created. */
  predicate Fulfils(desired: Resource, sent: Sent) {
    && sent.Wrote?
    && match sent.request
       case Creating(k, o) =>
         k == desired.key && o == desired.obj && (sent.err == None || sent.err == Some(AlreadyExists))
       case Updating(r) => r.key == desired.key && SameSpec(desired.obj, r.obj) && sent.err == None
       case _ => false
  }

  ghost predicate AsDesired(desired: Resource, c: Cluster) {
    desired.key in c.objects && SameSpec(desired.obj, c.objects[desired.key])
  }

  /** Some state had an object as desired, or a request of this client since entry `from` saw to it. */
  ghost predicate Achieved(desired: Resource, h: seq<Entry>, from: nat) {
    || (exists i :: 0 <= i < |h| && AsDesired(desired, h[i].world.c))
    || (exists i :: from <= i < |h| && h[i].own && Fulfils(desired, h[i].sent))
  }

  lemma AchievedSince(desired: Resource, h0: seq<Entry>, h1: seq<Entry>, h2: seq<Entry>, h3: seq<Entry>)
    requires h0 <= h1 <= h2 <= h3 && Achieved(desired, h2, |h1|)
    ensures Achieved(desired, h3, |h0|)
  {
    hide AsDesired, Fulfils;
    if i :| 0 <= i < |h2| && AsDesired(desired, h2[i].world.c) {
      assert h3[i] == h2[i];
    } else {
      var i :| |h1| <= i < |h2| && h2[i].own && Fulfils(desired, h2[i].sent);
      assert h3[i] == h2[i];
    }
  }

  lemma SeenIsAchieved(found: Resource, desired: Resource, h: seq<Entry>, from: nat)
    requires SeenAs(h, found) && found.key == desired.key && SameSpec(desired.obj, found.obj)
    ensures Achieved(desired, h, from)
  {
    var i :| 0 <= i < |h| && found.key in h[i].world.c.objects && found.key in h[i].world.c.versions
        && found == Stored(h[i].world.c, found.key);
    assert AsDesired(desired, h[i].world.c);
  }

  /** The server is one the controller can work with; what it watches over is not this controller's business. */
  ghost predicate Ready(s: ApiServer)
    reads s
  {
    s.Valid() && s.Sound() && s.watch.None?
  }

  method Read(server: ApiServer, k: Key, ghost desired: Resource) returns (found: Result<Resource>)
    requires Ready(server)
    modifies server
    ensures Ready(server) && old(server.history) <= server.history
    ensures AuthSteps(desired, server.history, |old(server.history)|)
    ensures Writes(server.history) == Writes(old(server.history))
    ensures NoneOwn(server.history, |old(server.history)|)
    ensures server.looks == old(server.looks) + [Look(k, |old(server.history)|)]
    ensures found.Ok? ==> SeenAs(server.history, found.value)
    ensures found.Ok? ==> found.value.key == k && Observed(server.world.c, k, found.value.version, found.value.obj)
    ensures found.Err? ==> found.error == NotFound || found.error.Failure?
    ensures found == Err(NotFound) ==> MissedAt(server.history, k)
    ensures server.quiet ==> server.history == old(server.history) && server.world == old(server.world)
    ensures server.quiet ==>
      found == if k in server.world.c.objects && k in server.world.c.versions then Ok(Stored(server.world.c, k))
        else Err(NotFound)
  {
    found := server.GetCached(k);
    WritesOfOthers(old(server.history), server.history);
  }

  /** A successful update met exactly the version that was read, so it carries over everything it does not replace. */
  lemma UpdateIsSwap(c: Cluster, found: Resource, desired: Resource)
    requires found.key == desired.key && Observed(c, found.key, found.version, found.obj)
    ensures var r := UpdateOp(c, found.(obj := Replaced(found.obj, desired.obj)));
      && (r.Ok? ==>
            desired.key in c.objects && r.value == Put(c, desired.key, Replaced(c.objects[desired.key], desired.obj)))
      && (Current(c, found) ==> r.Ok?)
  {
  }

  lemma ReplacedIsSame(stored: Obj, desired: Obj)
    ensures SameSpec(desired, Replaced(stored, desired))
  {
  }

  method Swap(server: ApiServer, found: Resource, desired: Resource) returns (err: Option<Error>)
    requires Ready(server) && found.key == desired.key
    requires Observed(server.world.c, found.key, found.version, found.obj)
    modifies server`world, server`history
    ensures Ready(server) && old(server.history) <= server.history
    ensures AuthSteps(desired, server.history, |old(server.history)|)
    ensures SentLast(server.history, |old(server.history)|, err)
    ensures Writes(server.history) == Writes(old(server.history)) + 1
    ensures err == None ==> Achieved(desired, server.history, |old(server.history)|)
    ensures server.quiet && Current(old(server.world.c), found) ==>
      err == None && server.world.c
          == Put(old(server.world.c), desired.key, Replaced(old(server.world.c).objects[desired.key], desired.obj))
  {
    hide Put, Later, WellFormed, UpdateOp, Replaced, Observed, Writes;
    ghost var c0 := server.world.c;
    ghost var mid: World;
    err, mid := server.Update(found.(obj := Replaced(found.obj, desired.obj)));
    ObservedLasts(c0, mid.c, found.key, found.version, found.obj);
    UpdateIsSwap(mid.c, found, desired);
    ReplacedIsSame(found.obj, desired.obj);
    assert err == None ==>
      server.history[|server.history| - 1].own && Fulfils(desired, server.history[|server.history| - 1].sent);
    OneWrite(old(server.history), server.history);
  }

  method CreateDesired(server: ApiServer, desired: Resource) returns (err: Option<Error>)
    requires Ready(server)
    modifies server`world, server`history
    ensures Ready(server) && old(server.history) <= server.history
    ensures AuthSteps(desired, server.history, |old(server.history)|)
    ensures AgainAfterConflict(server.history, |old(server.history)|)
    ensures Writes(server.history) == Writes(old(server.history)) + 1
    ensures err.Some? ==> err.value.Failure?
    ensures err == None ==> Achieved(desired, server.history, |old(server.history)|)
    ensures server.quiet && desired.key !in old(server.world.c).objects ==>
      err == None && server.world.c == Put(old(server.world.c), desired.key, desired.obj)
  {
    hide Put, Later, WellFormed, Writes;
    ghost var mid: World;
    err, mid := server.Create(desired.key, desired.obj);
    if err == Some(AlreadyExists) { err := None; }
    assert err == None ==>
      server.history[|server.history| - 1].own && Fulfils(desired, server.history[|server.history| - 1].sent);
    OneWrite(old(server.history), server.history);
  }

  lemma HaveVersions(s: ApiServer)
    requires s.Valid()
    ensures s.world.c.objects.Keys == s.world.c.versions.Keys
  {
    assert WellFormed(s.history[|s.history| - 1].world.c);
  }

  /** Fetch again, replace, update: again after every conflict, a bounded number of times. */
  method RetrySwap(server: ApiServer, desired: Resource) returns (err: Option<Error>)
    requires Ready(server)
    modifies server
    ensures Ready(server) && old(server.history) <= server.history
    ensures AuthSteps(desired, server.history, |old(server.history)|)
    ensures AgainAfterConflict(server.history, |old(server.history)|)
    ensures Writes(server.history) <= Writes(old(server.history)) + 5
    ensures err == Some(Conflict) ==> Writes(server.history) == Writes(old(server.history)) + 5
    ensures err == None ==> Achieved(desired, server.history, |old(server.history)|)
    ensures old(server.looks) <= server.looks
    ensures FetchedAnew(server.history, |old(server.history)|, server.looks, |old(server.looks)|, desired.key)
    ensures server.quiet && desired.key in old(server.world.c).objects ==>
      err == None && server.world.c
          == Put(old(server.world.c), desired.key, Replaced(old(server.world.c).objects[desired.key], desired.obj))
  {
    hide Put, Later, WellFormed, Replaced, Observed, Writes, Achieved, AgainAfterConflict, Refused, SentLast,
         FetchedAnew;
    ghost var l0 := server.looks;
    FetchedNone(server.history, server.looks, desired.key);
    ghost var h0, c0 := server.history, server.world.c;
    err := Some(Conflict);
    for attempt := 0 to ATTEMPTS
      invariant Ready(server) && h0 <= server.history
      invariant AuthSteps(desired, server.history, |h0|)
      invariant Writes(server.history) == Writes(h0) + attempt
      invariant err == Some(Conflict) && l0 <= server.looks
      invariant FetchedAnew(server.history, |h0|, server.looks, |l0|, desired.key)
      invariant forall i :: |h0| <= i < |server.history| && server.history[i].own ==> Refused(server.history[i])
      invariant server.quiet && desired.key in c0.objects ==> attempt == 0 && server.world.c == c0
    {
      ghost var h1, l1 := server.history, server.looks;
      HaveVersions(server);
      var found := Read(server, desired.key, desired);
      AuthStepsTransitive(desired, h0, h1, server.history);
      FetchedOnce(h1, server.history, server.history, l1, server.looks, desired.key, None);
      FetchedMore(h0, h1, server.history, l0, l1, server.looks, desired.key);
      if found.Err? { NothingSince(h0, h1, server.history); return Some(found.error); }
      ghost var h2 := server.history;
      err := Swap(server, found.value, desired);
      OnceMore(h0, h1, h2, server.history, err);
      FetchedOnce(h1, h2, server.history, l1, server.looks, desired.key, err);
      FetchedMore(h0, h1, server.history, l0, l1, server.looks, desired.key);
      AuthStepsTransitive(desired, h0, h2, server.history);
      if err == None { AchievedSince(desired, h0, h2, server.history, server.history); }
      if err != Some(Conflict) { return; }
    }
    NothingSince(h0, server.history, server.history);
  }

  /** What a reconcile of one object makes of the stored state when nobody else is around. */
  function AuthRun(c: Cluster, desired: Resource): Cluster {
    if desired.key !in c.objects then Put(c, desired.key, desired.obj)
    else if SameSpec(desired.obj, c.objects[desired.key]) then c
    else Put(c, desired.key, Replaced(c.objects[desired.key], desired.obj))
  }

  /** Creates the object if it is not there; if it is and differs, replaces its labels and specification. */
  method CreateOrReplace(server: ApiServer, desired: Resource) returns (err: Option<Error>)
    requires Ready(server)
    modifies server
    ensures Ready(server) && old(server.history) <= server.history
    ensures AuthSteps(desired, server.history, |old(server.history)|)
    ensures AgainAfterConflict(server.history, |old(server.history)|)
    ensures Writes(server.history) <= Writes(old(server.history)) + 5
    ensures err == Some(Conflict) ==> Writes(server.history) == Writes(old(server.history)) + 5
    ensures err == None ==> Achieved(desired, server.history, |old(server.history)|)
    ensures old(server.looks) <= server.looks
    ensures LookedUp(server.looks, |old(server.looks)|, desired.key, |old(server.history)|)
    ensures server.quiet ==> err == None && server.world.c == AuthRun(old(server.world.c), desired)
    ensures server.quiet && desired.key in old(server.world.c).objects
            && desired.obj.labels == old(server.world.c).objects[desired.key].labels
            && desired.obj.payload == old(server.world.c).objects[desired.key].payload ==>
      server.history == old(server.history)
  {
    hide Put, Later, WellFormed, Replaced, Observed, Writes, Achieved, SeenAs, AgainAfterConflict;
    ghost var h0, l0 := server.history, server.looks;
    HaveVersions(server);
    var found := Read(server, desired.key, desired);
    ghost var h1 := server.history;
    assert server.looks[|l0|] == Look(desired.key, |h0|);
    NothingSince(h0, h0, h1);
    if found == Err(NotFound) {
      err := CreateDesired(server, desired);
    } else if found.Err? {
      err := Some(found.error);
    } else if SameSpec(desired.obj, found.value.obj) {
      SeenIsAchieved(found.value, desired, h1, |h0|);
      err := None;
    } else {
      err := RetrySwap(server, desired);
    }
    AuthStepsTransitive(desired, h0, h1, server.history);
    if AgainAfterConflict(server.history, |h1|) { FirstAgain(h0, h1, server.history); }
    if err == None && Achieved(desired, server.history, |h1|) {
      AchievedSince(desired, h0, h1, server.history, server.history);
    }
  }

  /* ---------- the two reconcilers ---------- */

  /** Every URL the extractors find is well formed. */
  predicate UrlsWellFormed(o: Obj, extractors: seq<Extractor>)
    requires forall e | e in extractors :: ValidExtractor(e)
  {
    forall e, h | e in extractors && h in Extracted(o, e) && IsUrl(h) :: WellFormedUrl(h)
  }

  /** `hosts` is one enumeration of the hosts of the resource. */
  ghost predicate HostsOf(o: Obj, paths: seq<string>, hosts: seq<string>) {
    NoDuplicates(hosts) && forall h :: h in hosts <==> h in Combined(o, HostExtractors(paths))
  }

  /** Hosts, template and label are all there. */
  predicate Configurable(o: Obj, paths: seq<string>, template: Result<AuthTemplate>, labelKV: string) {
    && UrlsWellFormed(o, HostExtractors(paths))
    && AllFound(ContentOf(o), paths)
    && template.Ok?
    && |Split(labelKV, "=")| == 2
  }

  ghost predicate KeyValue(text: string, key: string, value: string) {
    '=' !in key && '=' !in value && text == key + "=" + value
  }

  lemma OneEqualsSign(text: string)
    ensures |Split(text, "=")| == 2 <==> exists key, value :: KeyValue(text, key, value)
    ensures forall key, value | KeyValue(text, key, value) :: Split(text, "=") == [key, value]
  {
    hide Split, Index, Separable;
    var parts := Split(text, "=");
    JoinSplit(text, "=");
    forall key, value | KeyValue(text, key, value) ensures parts == [key, value] {
      SeparableByChar(key, '=');
      SeparableByChar(value, '=');
      SplitJoin([key, value], "=");
    }
    if |parts| == 2 {
      SplitJoin(parts, "=");
      SeparableByChar(parts[0], '=');
      SeparableByChar(parts[1], '=');
      assert KeyValue(text, parts[0], parts[1]);
    }
  }

  /** An AuthConfig can be made exactly if every path leads to texts, every URL there or in the two address annotations
      can be parsed, the template was rendered, and the label is one key and one value. */
  lemma ConfigurableExactly(o: Obj, paths: seq<string>, template: Result<AuthTemplate>, labelKV: string)
    ensures Configurable(o, paths, template, labelKV) <==>
      && (forall p | p in paths :: HostsAt(ContentOf(o), p).Some?)
      && (forall p, f | p in paths && f in HostsAt(ContentOf(o), p).value && IsUrl(f) :: WellFormedUrl(f))
      && (forall a, f | a in ["routing.opendatahub.io/external-addresses", "routing.opendatahub.io/public-addresses"]
                        && a in o.annotations && f in Split(o.annotations[a], ";") && IsUrl(f) :: WellFormedUrl(f))
      && template.Ok?
      && exists key, value :: KeyValue(labelKV, key, value)
  {
    hide Split, IsUrl, WellFormedUrl, KeyValue, HostsAt, PathHosts, AnnotationHosts;
    OneEqualsSign(labelKV);
    var j, keys := ContentOf(o), [EXTERNAL_ADDRESSES, PUBLIC_ADDRESSES];
    assert FromPaths(paths) in HostExtractors(paths) && FromAnnotations(";", keys) in HostExtractors(paths);
    forall f ensures f in AnnotationHosts(o.annotations, ";", keys)
                <==> exists k :: k in keys && k in o.annotations && f in Split(o.annotations[k], ";") {
      AnnotationMembers(o.annotations, ";", keys, f);
    }
    if AllFound(j, paths) {
      forall f ensures f in PathHosts(j, paths) <==> exists p :: p in paths && f in HostsAt(j, p).value {
        PathMembers(j, paths, f);
      }
    }
  }

  function ConfigKey(k: Key): Key {
    Key(AUTH_CONFIG, k.namespace, k.name)
  }

  function PolicyKey(k: Key): Key {
    Key(AUTH_POLICY, k.namespace, k.name)
  }

  method ReconcileAuthConfig(server: ApiServer, target: Resource, paths: seq<string>, template: Result<AuthTemplate>,
                             labelKV: string, version: string)
    returns (err: Option<Error>, ghost hosts: seq<string>, ghost desired: Resource)
    requires Ready(server)
    modifies server
    ensures Ready(server) && old(server.history) <= server.history
    ensures AuthSteps(desired, server.history, |old(server.history)|)
    ensures Writes(server.history) <= Writes(old(server.history)) + 5
    ensures old(server.looks) <= server.looks
    ensures !Configurable(target.obj, paths, template, labelKV) ==>
      && err != None && server.history == old(server.history) && server.world == old(server.world)
      && server.looks == old(server.looks)
    ensures Configurable(target.obj, paths, template, labelKV) ==>
      && LookedUp(server.looks, |old(server.looks)|, ConfigKey(target.key), |old(server.history)|)
      && HostsOf(target.obj, paths, hosts) && template.Ok?
      && AuthConfigFor(template.value, hosts, labelKV, target, version) == Ok(desired)
      && (err == None ==> Achieved(desired, server.history, |old(server.history)|))
      && (server.quiet ==> err == None && server.world.c == AuthRun(old(server.world.c), desired))
  {
    hide AuthRun, Extracted, Combined, Writes, Split, WellFormedUrl, Achieved, LookedUp;
    hosts, desired := [], target;
    var extractors := HostExtractors(paths);
    if !UrlsWellFormed(target.obj, extractors) {
      return Some(Failure("malformed URL")), hosts, desired;
    }
    var found, errs := ExtractHosts(target.obj, extractors);
    AllSucceed(target.obj, paths);
    hosts := found;
    if errs != [] { return Some(errs[0]), hosts, desired; }
    if template.Err? { return Some(template.error), hosts, desired; }
    var wanted := CreateAuthConfig(template.value, found, labelKV, target, version);
    if wanted.Err? { return Some(wanted.error), hosts, desired; }
    desired := wanted.value;
    err := CreateOrReplace(server, wanted.value);
  }

  lemma AllSucceed(o: Obj, paths: seq<string>)
    ensures (forall e | e in HostExtractors(paths) :: Succeeds(o, e)) <==> AllFound(ContentOf(o), paths)
  {
    assert FromPaths(paths) in HostExtractors(paths);
  }

  method ReconcileAuthPolicy(server: ApiServer, target: Resource, ports: seq<string>,
                             selectors: Result<map<string, string>>, provider: string, version: string)
    returns (err: Option<Error>, ghost desired: Resource)
    requires Ready(server)
    modifies server
    ensures Ready(server) && old(server.history) <= server.history
    ensures AuthSteps(desired, server.history, |old(server.history)|)
    ensures Writes(server.history) <= Writes(old(server.history)) + 5
    ensures old(server.looks) <= server.looks
    ensures selectors.Err? ==>
      && err == Some(selectors.error) && server.history == old(server.history) && server.world == old(server.world)
      && server.looks == old(server.looks)
    ensures selectors.Ok? ==>
      && LookedUp(server.looks, |old(server.looks)|, PolicyKey(target.key), |old(server.history)|)
      && desired == AuthPolicyFor(ports, selectors.value, provider, target, version)
      && (err == None ==> Achieved(desired, server.history, |old(server.history)|))
      && (server.quiet ==> err == None && server.world.c == AuthRun(old(server.world.c), desired))
  {
    hide AuthRun, Writes, Achieved, LookedUp, OptionsApplied, StandardLabels, RulesFor;
    desired := target;
    if selectors.Err? { return Some(selectors.error), desired; }
    var wanted := CreateAuthzPolicy(ports, selectors.value, provider, target, version);
    desired := wanted;
    err := CreateOrReplace(server, wanted);
  }

  /* ---------- the controller ---------- */

  datatype ProviderConfig = ProviderConfig(labelKV: string, providerName: string)

  datatype ProtectedResource = ProtectedResource(component: Gvk, hostPaths: seq<string>, ports: seq<string>)

  /** What is rendered from templates for a request: the AuthConfig template and the workload selectors. */
  datatype Rendering = Rendering(template: Result<AuthTemplate>, selectors: Result<map<string, string>>,
      version: string)

  /** What a reconcile makes of the stored state when nobody else is around: each of the two objects is taken care of
      if what it is made from is there, whatever became of the other. */
  ghost predicate Authorized(c: Cluster, c': Cluster, target: Resource, protected: ProtectedResource,
                             config: ProviderConfig, given: Rendering, errs: seq<Error>, hosts: seq<string>) {
    var configurable := Configurable(target.obj, protected.hostPaths, given.template, config.labelKV);
    && (configurable ==> HostsOf(target.obj, protected.hostPaths, hosts))
    && (errs == [] <==> configurable && given.selectors.Ok?)
    && c' == WithPolicy(WithConfig(c, target, config, given, hosts, configurable), target, protected, config, given)
  }

  function WithConfig(c: Cluster, target: Resource, config: ProviderConfig, given: Rendering, hosts: seq<string>,
                      configurable: bool): Cluster {
    if !configurable || given.template.Err? then c
    else
      var desired := AuthConfigFor(given.template.value, hosts, config.labelKV, target, given.version);
      if desired.Err? then c else AuthRun(c, desired.value)
  }

  function WithPolicy(c: Cluster, target: Resource, protected: ProtectedResource, config: ProviderConfig,
                      given: Rendering): Cluster {
    if given.selectors.Err? then c
    else AuthRun(c, AuthPolicyFor(protected.ports, given.selectors.value, config.providerName, target, given.version))
  }

  /** `desired` is the AuthConfig of `target`, for one enumeration of its hosts. */
  ghost predicate AuthConfigOf(desired: Resource, target: Resource, protected: ProtectedResource,
                               config: ProviderConfig, given: Rendering, hosts: seq<string>) {
    && given.template.Ok? && HostsOf(target.obj, protected.hostPaths, hosts)
    && AuthConfigFor(given.template.value, hosts, config.labelKV, target, given.version) == Ok(desired)
  }

  ghost predicate AuthPolicyOf(desired: Resource, target: Resource, protected: ProtectedResource,
                               config: ProviderConfig, given: Rendering) {
    given.selectors.Ok? && desired
        == AuthPolicyFor(protected.ports, given.selectors.value, config.providerName, target, given.version)
  }

  /** Since entry `from` this client took steps for the AuthConfig of `target` and, from entry `cut` on, for its policy,
      and no others. */
  ghost predicate StepsFor(h: seq<Entry>, from: nat, cut: nat, target: Resource, protected: ProtectedResource,
                           config: ProviderConfig, given: Rendering, hosts: seq<string>, authConfig: Resource,
                           policy: Resource) {
    && from <= cut <= |h|
    && AuthSteps(authConfig, h[..cut], from) && AuthSteps(policy, h, cut)
    && (NoneOwn(h[..cut], from) || AuthConfigOf(authConfig, target, protected, config, given, hosts))
    && (NoneOwn(h, cut) || AuthPolicyOf(policy, target, protected, config, given))
  }

  /** Whatever became of the other: if selectors resolve the policy is looked up after the AuthConfig is done with, and
      the AuthConfig before that if it can be made. */
  ghost predicate BothTried(looks: seq<Look>, first: nat, target: Resource, protected: ProtectedResource,
                            config: ProviderConfig, given: Rendering, from: nat, cut: nat) {
    && (Configurable(target.obj, protected.hostPaths, given.template, config.labelKV) ==>
          LookedUp(looks, first, ConfigKey(target.key), from))
    && (given.selectors.Ok? ==> LookedUp(looks, first, PolicyKey(target.key), cut))
  }

  /** The errors are those of the two objects, in this order; the one without an error was made from `target` and is or
      was as desired. */
  ghost predicate ProtectOutcome(h: seq<Entry>, from: nat, target: Resource, protected: ProtectedResource,
                                 config: ProviderConfig, given: Rendering, hosts: seq<string>, authConfig: Resource,
                                 policy: Resource, errs: seq<Error>, configErr: Option<Error>,
                                 policyErr: Option<Error>) {
    && errs == Listed(configErr) + Listed(policyErr)
    && (configErr == None ==>
          AuthConfigOf(authConfig, target, protected, config, given, hosts) && Achieved(authConfig, h, from))
    && (policyErr == None ==> AuthPolicyOf(policy, target, protected, config, given) && Achieved(policy, h, from))
    && (given.selectors.Err? ==> policyErr == Some(given.selectors.error))
  }

  lemma TriedSince(l0: seq<Look>, l1: seq<Look>, l2: seq<Look>, target: Resource, protected: ProtectedResource,
                   config: ProviderConfig, given: Rendering, from: nat, from': nat, cut: nat)
    requires l0 <= l1 <= l2 && from <= from'
    requires BothTried(l2, |l1|, target, protected, config, given, from', cut)
    ensures BothTried(l2, |l0|, target, protected, config, given, from, cut)
  {
    hide LookedUp, Configurable;
    if Configurable(target.obj, protected.hostPaths, given.template, config.labelKV) {
      LookedUpLater(l0, l1, l2, l2, ConfigKey(target.key), from', from);
    }
    if given.selectors.Ok? { LookedUpLater(l0, l1, l2, l2, PolicyKey(target.key), cut, cut); }
  }

  lemma OutcomeSince(h0: seq<Entry>, h1: seq<Entry>, h2: seq<Entry>, target: Resource, protected: ProtectedResource,
                     config: ProviderConfig, given: Rendering, hosts: seq<string>, authConfig: Resource,
                     policy: Resource, errs: seq<Error>, configErr: Option<Error>, policyErr: Option<Error>)
    requires h0 <= h1 <= h2
    requires ProtectOutcome(h2, |h1|, target, protected, config, given, hosts, authConfig, policy, errs, configErr,
      policyErr)
    ensures ProtectOutcome(h2, |h0|, target, protected, config, given, hosts, authConfig, policy, errs, configErr,
      policyErr)
  {
    hide AuthConfigOf, AuthPolicyOf, Achieved;
    if configErr == None { AchievedSince(authConfig, h0, h1, h2, h2); }
    if policyErr == None { AchievedSince(policy, h0, h1, h2, h2); }
  }

  /** Both reconcilers for one resource. */
  method Protect(server: ApiServer, target: Resource, protected: ProtectedResource, config: ProviderConfig,
                 given: Rendering)
    returns (errs: seq<Error>, ghost hosts: seq<string>, ghost authConfig: Resource, ghost policy: Resource,
        ghost cut: nat, ghost configErr: Option<Error>, ghost policyErr: Option<Error>)
    requires Ready(server)
    modifies server
    ensures Ready(server) && old(server.history) <= server.history
    ensures StepsFor(server.history, |old(server.history)|, cut, target, protected, config, given, hosts, authConfig,
        policy)
    ensures Writes(server.history) <= Writes(old(server.history)) + 10
    ensures ProtectOutcome(server.history, |old(server.history)|, target, protected, config, given, hosts, authConfig,
        policy, errs, configErr, policyErr)
    ensures old(server.looks) <= server.looks
    ensures BothTried(server.looks, |old(server.looks)|, target, protected, config, given, |old(server.history)|, cut)
    ensures server.quiet ==>
      Authorized(old(server.world.c), server.world.c, target, protected, config, given, errs, hosts)
  {
    hide AuthRun, Writes, AuthPolicyFor, AuthConfigFor, HostsOf, Configurable, AuthStep, WellFormed, Later, Achieved,
         LookedUp;
    ghost var h0, l0 := server.history, server.looks;
    var err: Option<Error>;
    err, hosts, authConfig := ReconcileAuthConfig(server, target, protected.hostPaths, given.template,
        config.labelKV, given.version);
    errs := if err.Some? then [err.value] else [];
    configErr := err;
    ghost var h1, l1 := server.history, server.looks;
    cut := |h1|;
    err, policy := ReconcileAuthPolicy(server, target, protected.ports, given.selectors, config.providerName,
        given.version);
    errs := errs + if err.Some? then [err.value] else [];
    policyErr := err;
    assert server.history[..cut] == h1;
    if configErr == None { AchievedSince(authConfig, h0, h0, h1, server.history); }
    if policyErr == None { AchievedSince(policy, h0, h1, server.history, server.history); }
    if Configurable(target.obj, protected.hostPaths, given.template, config.labelKV) {
      LookedUpLater(l0, l0, l1, server.looks, ConfigKey(target.key), |h0|, |h0|);
    }
    if given.selectors.Ok? {
      LookedUpLater(l0, l1, server.looks, server.looks, PolicyKey(target.key), cut, cut);
    }
  }

  lemma NoSteps(h0: seq<Entry>, h1: seq<Entry>, target: Resource, protected: ProtectedResource, config: ProviderConfig,
                given: Rendering)
    requires h0 <= h1 && NoneOwn(h1, |h0|)
    ensures StepsFor(h1, |h0|, |h1|, target, protected, config, given, [], target, target)
  {
    assert h1[..|h1|] == h1;
  }

  lemma StepsAfterReading(h0: seq<Entry>, h1: seq<Entry>, h2: seq<Entry>, cut: nat, target: Resource,
                          protected: ProtectedResource, config: ProviderConfig, given: Rendering, hosts: seq<string>,
                          authConfig: Resource, policy: Resource)
    requires h0 <= h1 <= h2 && NoneOwn(h1, |h0|)
    requires StepsFor(h2, |h1|, cut, target, protected, config, given, hosts, authConfig, policy)
    ensures StepsFor(h2, |h0|, cut, target, protected, config, given, hosts, authConfig, policy)
  {
    hide AuthStep, AuthConfigOf, AuthPolicyOf;
    assert h2[..cut][..|h1|] == h1;
    assert forall i :: 0 <= i < |h1| ==> h2[..cut][i] == h1[i];
  }

  class Controller {
    const protected: ProtectedResource
    var active: bool
    var config: ProviderConfig

    constructor (protected: ProtectedResource, config: ProviderConfig)
      ensures this.protected == protected && this.config == config && active
    {
      this.protected, this.config, active := protected, config, true;
    }

    method Activate(config: ProviderConfig)
      modifies this
      ensures active && this.config == config
    {
      active, this.config := true, config;
    }

    method Deactivate()
      modifies this`active
      ensures !active
    {
      active := false;
    }

    function KeyOf(namespace: string, name: string): Key {
      Key(protected.component, namespace, name)
    }

    /** One reconcile request. Every step is for the AuthConfig or the policy of the requested resource as some state
        had it, or there is none at all. */
    method Reconcile(server: ApiServer, namespace: string, name: string, given: Rendering)
      returns (errs: seq<Error>, ghost target: Resource, ghost hosts: seq<string>, ghost authConfig: Resource,
          ghost policy: Resource, ghost cut: nat, ghost configErr: Option<Error>, ghost policyErr: Option<Error>)
      requires Ready(server)
      modifies server
      ensures Ready(server) && old(server.history) <= server.history
      ensures target.key == KeyOf(namespace, name)
      ensures NoneOwn(server.history, |old(server.history)|) || SeenAs(server.history, target)
      ensures StepsFor(server.history, |old(server.history)|, cut, target, protected, config, given, hosts, authConfig,
          policy)
      ensures Writes(server.history) <= Writes(old(server.history)) + 10
      ensures !active ==> errs == [] && server.history == old(server.history)
      ensures active ==>
        || (errs == [] && NotThere(server.history, |old(server.history)|, KeyOf(namespace, name)))
        || (|errs| == 1 && errs[0].Failure? && NoneOwn(server.history, |old(server.history)|)
            && server.looks == old(server.looks) + [Look(KeyOf(namespace, name), |old(server.history)|)])
        || (SeenAs(server.history, target)
            && ProtectOutcome(server.history, |old(server.history)|, target, protected, config, given, hosts,
                              authConfig, policy, errs, configErr, policyErr)
            && BothTried(server.looks, |old(server.looks)|, target, protected, config, given, |old(server.history)|,
                         cut))
      ensures active && server.quiet && KeyOf(namespace, name) !in old(server.world.c).objects ==>
        errs == [] && server.history == old(server.history)
      ensures active && server.quiet && KeyOf(namespace, name) in old(server.world.c).objects ==>
        && KeyOf(namespace, name) in old(server.world.c).versions
        && Authorized(old(server.world.c), server.world.c, Stored(old(server.world.c), KeyOf(namespace, name)),
            protected, config, given, errs, hosts)
    {
      hide Writes, AuthStep, Observed, Authorized, WellFormed, Later, SeenAs, StepsFor,
           ProtectOutcome, BothTried;
      errs, hosts, cut, configErr, policyErr := [], [], |server.history|, None, None;
      target := Resource(KeyOf(namespace, name), 0, Obj("", map[], map[], [], [], false, Rendered("")));
      authConfig, policy := target, target;
      ghost var h0, l0 := server.history, server.looks;
      NoSteps(h0, h0, target, protected, config, given);
      if !active { return; }
      HaveVersions(server);
      var source := Read(server, KeyOf(namespace, name), authConfig);
      ghost var h1 := server.history;
      NoSteps(h0, h1, target, protected, config, given);
      cut := |h1|;
      if source == Err(NotFound) { return; }
      if source.Err? { return [source.error], target, hosts, authConfig, policy, cut, None, None; }
      target := source.value;
      ghost var l1 := server.looks;
      errs, hosts, authConfig, policy, cut, configErr, policyErr :=
        Protect(server, source.value, protected, config, given);
      StepsAfterReading(h0, h1, server.history, cut, target, protected, config, given, hosts, authConfig, policy);
      SeenAsLater(h1, server.history, target);
      OutcomeSince(h0, h1, server.history, target, protected, config, given, hosts, authConfig, policy, errs, configErr,
          policyErr);
      TriedSince(l0, l1, server.looks, target, protected, config, given, |h0|, |h1|, cut);
    }
  }
}
