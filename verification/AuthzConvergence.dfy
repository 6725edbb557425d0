/** What authorization reconciles arrive at, and what they leave to everybody else. */
module AuthzConvergence {
  import opened Text
  import opened Api
  import opened Metadata
  import opened RouteTypes
  import opened Ownership
  import opened Server
  import opened Unstruct
  import opened Hosts
  import opened Authz

  /** What an update has to leave alone. */
  ghost predicate SameRest(o: Obj, o': Obj) {
    && o'.uid == o.uid && o'.annotations == o.annotations && o'.finalizers == o.finalizers && o'.owners == o.owners
    && o'.deleting == o.deleting
  }

  /** Whatever the controller read, each of its steps either changes nothing, or creates the desired object where there
      was none, or gives the object stored immediately before the desired labels and specification and leaves its rest
      and all other objects alone. */
  lemma StepKeepsTheRest(desired: Resource, h: seq<Entry>, from: nat, i: nat)
    requires AuthSteps(desired, h, from) && from <= i < |h| && h[i].own
    requires i > 0 && WellFormed(h[i - 1].world.c) && !desired.obj.deleting
    ensures var c, c', k := h[i - 1].world.c, h[i].world.c, desired.key;
      || c' == c
      || (k !in c.objects && k in c'.objects && c'.objects[k] == desired.obj)
      || (k in c.objects && k in c'.objects && SameRest(c.objects[k], c'.objects[k])
          && c'.objects[k].labels == desired.obj.labels && c'.objects[k].payload == desired.obj.payload)
    ensures forall j | j != desired.key :: At(h[i].world.c, j) == At(h[i - 1].world.c, j)
  {
    assert AuthStep(desired, h[i - 1].world.c, h[i].world.c);
  }

  /** From any state one run leaves labels and specification as desired, every other part of a stored object and
      every other object as they were; a new object is the desired one. */
  lemma RunConverges(c: Cluster, desired: Resource)
    requires WellFormed(c) && !desired.obj.deleting
    ensures var c' := AuthRun(c, desired);
      && WellFormed(c') && Later(c, c')
      && desired.key in c'.objects
      && c'.objects[desired.key].labels == desired.obj.labels && c'.objects[desired.key].payload == desired.obj.payload
      && (desired.key in c.objects ==> SameRest(c.objects[desired.key], c'.objects[desired.key]))
      && (desired.key !in c.objects ==> c'.objects[desired.key] == desired.obj)
      && forall k | k != desired.key :: At(c', k) == At(c, k)
  {
    hide Put, Later;
    var k := desired.key;
    if k !in c.objects {
      PutIsLater(c, k, desired.obj);
      PutStores(c, k, desired.obj);
    } else {
      PutIsLater(c, k, Replaced(c.objects[k], desired.obj));
      PutStores(c, k, Replaced(c.objects[k], desired.obj));
      LaterReflexive(c);
    }
  }

  lemma LaterReflexive(c: Cluster)
    requires WellFormed(c)
    ensures Later(c, c)
  {
  }

  /** A second run for the same object writes nothing: not even its version changes. */
  lemma RunTwice(c: Cluster, desired: Resource)
    requires WellFormed(c) && !desired.obj.deleting
    ensures AuthRun(AuthRun(c, desired), desired) == AuthRun(c, desired)
  {
    RunConverges(c, desired);
  }

  /* ---------- two enumerations of one set of hosts ---------- */

  lemma {:induction false} CountedOnce(s: seq<string>, h: string)
    requires NoDuplicates(s)
    ensures multiset(s)[h] == if h in s then 1 else 0
    decreases |s|
  {
    if s != [] {
      var n := |s| - 1;
      assert s == s[..n] + [s[n]];
      CountedOnce(s[..n], h);
    }
  }

  lemma SameMembers(a: seq<string>, b: seq<string>)
    requires NoDuplicates(a) && NoDuplicates(b) && forall h :: h in a <==> h in b
    ensures multiset(a) == multiset(b)
  {
    forall h ensures multiset(a)[h] == multiset(b)[h] {
      CountedOnce(a, h);
      CountedOnce(b, h);
    }
  }

  lemma AtMostOne(a: seq<string>, b: seq<string>)
    requires multiset(a) == multiset(b) && |a| <= 1
    ensures a == b
  {
    assert |multiset(a)| == |a| && |multiset(b)| == |b|;
    if |a| == 1 {
      assert a == [a[0]] && b == [b[0]];
      assert b[0] in multiset(a);
    }
  }

  /** The order of the hosts is all two runs over the same input can differ in. */
  lemma SameConfigButOrder(template: AuthTemplate, hosts: seq<string>, hosts': seq<string>, labelKV: string,
                           target: Resource, version: string, paths: seq<string>)
    requires HostsOf(target.obj, paths, hosts) && HostsOf(target.obj, paths, hosts')
    requires AuthConfigFor(template, hosts, labelKV, target, version).Ok?
    ensures var r, r' := AuthConfigFor(template, hosts, labelKV, target, version), AuthConfigFor(template, hosts',
        labelKV, target, version);
      && r'.Ok? && r'.value == r.value.(obj := r.value.obj.(payload := AuthConfig(hosts', template.settings)))
      && r.value.obj.payload == AuthConfig(hosts, template.settings)
      && multiset(hosts) == multiset(hosts')
      && (|hosts| <= 1 ==> r' == r)
  {
    hide Combined;
    SameMembers(hosts, hosts');
    if |hosts| <= 1 { AtMostOne(hosts, hosts'); }
  }

  /** A run after another one over the same input changes at most the order of the hosts, and nothing at all when
      there is at most one. */
  lemma RunInAnotherOrder(c: Cluster, template: AuthTemplate, hosts: seq<string>, hosts': seq<string>, labelKV: string,
                          target: Resource, version: string, paths: seq<string>)
    requires WellFormed(c)
    requires HostsOf(target.obj, paths, hosts) && HostsOf(target.obj, paths, hosts')
    requires AuthConfigFor(template, hosts, labelKV, target, version).Ok?
    requires AuthConfigFor(template, hosts', labelKV, target, version).Ok?
    ensures var d, d' := AuthConfigFor(template, hosts, labelKV, target, version).value, AuthConfigFor(template,
        hosts', labelKV, target, version).value;
      var c1 := AuthRun(c, d);
      var c2 := AuthRun(c1, d');
      && d.key in c1.objects && c1.objects[d.key].payload == AuthConfig(hosts, template.settings)
      && At(c2, d.key) == Some(c1.objects[d.key].(payload := AuthConfig(hosts', template.settings)))
      && multiset(hosts') == multiset(hosts)
      && (forall k | k != d.key :: At(c2, k) == At(c1, k))
      && (|hosts| <= 1 ==> c2 == c1)
  {
    var d, d' := AuthConfigFor(template, hosts, labelKV, target, version).value, AuthConfigFor(template, hosts',
        labelKV, target, version).value;
    SameConfigButOrder(template, hosts, hosts', labelKV, target, version, paths);
    RunConverges(c, d);
    RunConverges(AuthRun(c, d), d');
    RunTwice(c, d);
    hide AuthRun, HostsOf, WellFormed, Later, AuthLabels, StandardLabels;
  }

  /** A whole reconcile, twice: the policy is written at most by the first, and of the AuthConfig the second changes at
      most the order of the hosts. */
  lemma AuthorizedTwice(c: Cluster, target: Resource, protected: ProtectedResource, config: ProviderConfig,
                        given: Rendering, hosts: seq<string>, hosts': seq<string>)
    requires WellFormed(c) && given.template.Ok? && given.selectors.Ok?
    requires HostsOf(target.obj, protected.hostPaths, hosts) && HostsOf(target.obj, protected.hostPaths, hosts')
    requires AuthConfigFor(given.template.value, hosts, config.labelKV, target, given.version).Ok?
    ensures var c1 := WithPolicy(WithConfig(c, target, config, given, hosts, true), target, protected, config, given);
      var c2 := WithPolicy(WithConfig(c1, target, config, given, hosts', true), target, protected, config, given);
      var k := Key(AUTH_CONFIG, target.key.namespace, target.key.name);
      && c2 == WithConfig(c1, target, config, given, hosts', true)
      && (forall j | j != k :: At(c2, j) == At(c1, j))
      && k in c1.objects && At(c2, k)
        == Some(c1.objects[k].(payload := AuthConfig(hosts', given.template.value.settings)))
      && (|hosts| <= 1 ==> c2 == c1)
  {
    var policy := AuthPolicyFor(protected.ports, given.selectors.value, config.providerName, target, given.version);
    PolicyIsPlain(protected.ports, given.selectors.value, config.providerName, target, given.version);
    SameConfigButOrder(given.template.value, hosts, hosts', config.labelKV, target, given.version, protected.hostPaths);
    var d := AuthConfigFor(given.template.value, hosts, config.labelKV, target, given.version).value;
    var d' := AuthConfigFor(given.template.value, hosts', config.labelKV, target, given.version).value;
    assert AUTH_CONFIG.kind[4] == 'C' && AUTH_POLICY.kind[4] == 'o';
    hide AuthPolicyFor, HostsOf, AuthLabels, StandardLabels;
    TwoObjects(c, d, d', policy);
  }

  /** Runs for two different objects do not get in each other's way. */
  lemma TwoObjects(c: Cluster, d: Resource, d': Resource, policy: Resource)
    requires WellFormed(c) && d.key == d'.key && d.key != policy.key
    requires !d.obj.deleting && !policy.obj.deleting && d'.obj == d.obj.(payload := d'.obj.payload)
    ensures var c1 := AuthRun(AuthRun(c, d), policy);
      var c2 := AuthRun(c1, d');
      && AuthRun(c2, policy) == c2
      && (forall j | j != d.key :: At(c2, j) == At(c1, j))
      && d.key in c1.objects && At(c2, d.key) == Some(c1.objects[d.key].(payload := d'.obj.payload))
      && (d' == d ==> c2 == c1)
  {
    var c0 := AuthRun(c, d);
    var c1 := AuthRun(c0, policy);
    RunConverges(c, d);
    RunConverges(c0, policy);
    RunConverges(c1, d');
    var c2 := AuthRun(c1, d');
    assert At(c1, d.key) == At(c0, d.key) && At(c2, policy.key) == At(c1, policy.key);
    SettledRun(c2, policy);
    if d' == d { SettledRun(c1, d); }
    hide AuthRun, WellFormed, Later;
  }

  lemma SettledRun(c: Cluster, desired: Resource)
    requires desired.key in c.objects && SameSpec(c.objects[desired.key], desired.obj)
    ensures AuthRun(c, desired) == c
  {
  }

  lemma PolicyIsPlain(ports: seq<string>, selector: map<string, string>, provider: string, target: Resource,
                      version: string)
    ensures var p := AuthPolicyFor(ports, selector, provider, target, version);
      p.key == Key(AUTH_POLICY, target.key.namespace, target.key.name) && !p.obj.deleting && p.obj.uid == ""
  {
    LastWriterWins(Obj("", map[], map[], [], [TargetToOwnerRef(target)], false,
        AuthPolicy(selector, "CUSTOM", provider, RulesFor(ports))),
      StandardLabels(target.obj, version), "");
  }

  /** A stale answer is harmless: whatever version was read, a successful update leaves all that others wrote to the
      other parts of the object, and a version that is not the current one is refused. */
  lemma SwapLosesNothing(c: Cluster, found: Resource, desired: Resource)
    requires WellFormed(c) && found.key == desired.key && Observed(c, found.key, found.version, found.obj)
    ensures var r := UpdateOp(c, found.(obj := Replaced(found.obj, desired.obj)));
      && (r.Ok? <==> Current(c, found))
      && (r.Ok? ==>
            && desired.key in c.objects && desired.key in r.value.objects
            && SameRest(c.objects[desired.key], r.value.objects[desired.key])
            && r.value.objects[desired.key].labels == desired.obj.labels
            && r.value.objects[desired.key].payload == desired.obj.payload
            && forall k | k != desired.key :: At(r.value, k) == At(c, k))
  {
    UpdateIsSwap(c, found, desired);
  }

  /** Neither object is labelled as routing property, unless the configured label or the template says so. */
  lemma NoOwnerLabel(desired: Resource, target: Resource, protected: ProtectedResource, config: ProviderConfig,
                     given: Rendering, hosts: seq<string>)
    requires AuthConfigOf(desired, target, protected, config, given, hosts)
    requires OWNER_UID !in given.template.value.labels && Split(config.labelKV, "=")[0] != OWNER_UID
    ensures OWNER_UID !in desired.obj.labels && desired.obj.uid == "" && !desired.obj.deleting
    ensures desired.key == Key(AUTH_CONFIG, target.key.namespace, target.key.name)
  {
    hide HostsOf, Split;
    NeverOverrides(given.template.value, hosts, config.labelKV, target, given.version, OWNER_UID);
    var standard := StandardLabels(target.obj, given.version);
    StandardIsNotOwner(standard, target.obj, given.version);
  }

  lemma StandardIsNotOwner(standard: seq<Label>, source: Obj, version: string)
    requires standard == StandardLabels(source, version)
    ensures FirstValue(standard, OWNER_UID) == None && LastValue(standard, OWNER_UID) == None
  {
    assert OWNER_UID[0] == 'p' && APP_PART_OF[0] == 'a' && APP_COMPONENT[0] == 'a' && APP_VERSION[0] == 'a'
        && APP_MANAGED_BY[0] == 'a';
    assert forall i :: 0 <= i < |standard| ==> standard[i].key != OWNER_UID;
    NotAmong(standard, OWNER_UID);
  }

  lemma {:induction false} NotAmong(labels: seq<Label>, key: string)
    requires forall i :: 0 <= i < |labels| ==> labels[i].key != key
    ensures FirstValue(labels, key) == None && LastValue(labels, key) == None
    decreases |labels|
  {
    if labels != [] {
      NotAmong(labels[1..], key);
      NotAmong(labels[..|labels| - 1], key);
    }
  }

  lemma PolicyHasNoOwnerLabel(desired: Resource, target: Resource, protected: ProtectedResource, config: ProviderConfig,
                              given: Rendering)
    requires AuthPolicyOf(desired, target, protected, config, given)
    ensures OWNER_UID !in desired.obj.labels && desired.obj.uid == "" && !desired.obj.deleting
    ensures desired.key == Key(AUTH_POLICY, target.key.namespace, target.key.name)
  {
    LastWriterWins(Obj("", map[], map[], [], [TargetToOwnerRef(target)], false,
        AuthPolicy(given.selectors.value, "CUSTOM", config.providerName, RulesFor(protected.ports))),
      StandardLabels(target.obj, given.version), OWNER_UID);
    PolicyIsPlain(protected.ports, given.selectors.value, config.providerName, target, given.version);
    StandardIsNotOwner(StandardLabels(target.obj, given.version), target.obj, given.version);
    hide AuthPolicyFor, StandardLabels;
  }

  /** Every step of every authorization reconcile, whatever it read and whoever wrote in between, is one the routing
      controller can live with, provided neither template nor configured label claims routing ownership. */
  lemma AuthorizationKeepsRules(w: Watch, h: seq<Entry>, from: nat, cut: nat, target: Resource,
                                protected: ProtectedResource, config: ProviderConfig, given: Rendering,
                                hosts: seq<string>, authConfig: Resource, policy: Resource, i: nat)
    requires StepsFor(h, from, cut, target, protected, config, given, hosts, authConfig, policy)
    requires given.template.Ok? ==> OWNER_UID !in given.template.value.labels
    requires Split(config.labelKV, "=")[0] != OWNER_UID
    requires ValidWatch(w) && w.cr.gvk != AUTH_CONFIG && w.cr.gvk != AUTH_POLICY
    requires from <= i < |h| && i > 0 && h[i].own && Safe(w, h[i - 1].world) && WellFormed(h[i - 1].world.c)
    ensures Rely(Some(w), h[i - 1].world, h[i].world)
  {
    hide AuthStep, Safe, Rely, WellFormed, HostsOf, Split;
    if i < cut {
      assert h[..cut][i] == h[i] && h[..cut][i - 1] == h[i - 1];
      NoOwnerLabel(authConfig, target, protected, config, given, hosts);
      AuthStepKeepsRules(w, h[i - 1].world, authConfig, h[i].world.c);
    } else {
      PolicyHasNoOwnerLabel(policy, target, protected, config, given);
      AuthStepKeepsRules(w, h[i - 1].world, policy, h[i].world.c);
    }
    assert h[i].world == h[i - 1].world.(c := h[i].world.c);
  }

  /** Whatever a reconcile read and whoever wrote in between, none of its steps loses anything of others: it writes one
      of the two objects, of which it keeps all but labels and specification as they were stored immediately before. */
  lemma ReconcileLosesNothing(h: seq<Entry>, from: nat, cut: nat, target: Resource, protected: ProtectedResource,
                              config: ProviderConfig, given: Rendering, hosts: seq<string>, authConfig: Resource,
                              policy: Resource, i: nat, k: Key)
    requires StepsFor(h, from, cut, target, protected, config, given, hosts, authConfig, policy)
    requires from <= i < |h| && i > 0 && h[i].own && WellFormed(h[i - 1].world.c)
    requires k in h[i - 1].world.c.objects
    ensures var c' := h[i].world.c;
      k in c'.objects && SameRest(h[i - 1].world.c.objects[k], c'.objects[k])
    ensures var kind := if i < cut then "AuthConfig" else "AuthorizationPolicy";
      !(k.gvk.kind == kind && k.namespace == target.key.namespace && k.name == target.key.name) ==>
        h[i].world.c.objects[k] == h[i - 1].world.c.objects[k]
  {
    hide AuthStep, HostsOf, WellFormed, Split, SameRest;
    if i < cut {
      assert h[..cut][i] == h[i] && h[..cut][i - 1] == h[i - 1];
      NeverOverrides(given.template.value, hosts, config.labelKV, target, given.version, "");
      StepKeeps(authConfig, h[i - 1].world.c, h[i].world.c, k);
    } else {
      PolicyShape(protected.ports, given.selectors.value, config.providerName, target, given.version);
      StepKeeps(policy, h[i - 1].world.c, h[i].world.c, k);
    }
  }

  lemma StepKeeps(desired: Resource, c: Cluster, c': Cluster, k: Key)
    requires AuthStep(desired, c, c') && WellFormed(c) && !desired.obj.deleting && k in c.objects
    ensures k in c'.objects && SameRest(c.objects[k], c'.objects[k])
    ensures k != desired.key ==> c'.objects[k] == c.objects[k]
  {
  }

  lemma SingleWriteKeepsRules(w: Watch, s: World, c': Cluster, k: Key)
    requires Safe(w, s) && WellFormed(c') && Later(s.c, c') && k != w.cr && w.uid != ""
    requires forall j | j != k :: At(c', j) == At(s.c, j)
    requires k in c'.objects ==>
      !OwnedBy(c'.objects[k], w.uid) && c'.objects[k].uid == if k in s.c.objects then s.c.objects[k].uid else ""
    ensures Rely(Some(w), s, s.(c := c'))
  {
    assert At(c', w.cr) == At(s.c, w.cr);
    forall j | j in c'.objects && OwnedBy(c'.objects[j], w.uid)
      ensures j in s.c.objects && SameTags(s.c.objects[j], c'.objects[j]) {
      assert At(c', j) == At(s.c, j);
    }
    forall j | j in c'.objects && c'.objects[j].uid == w.uid ensures j in s.c.objects && s.c.objects[j].uid == w.uid {
      assert j != k ==> At(c', j) == At(s.c, j);
    }
    hide Safe, WellFormed, Later, Enabled, OwnedBy, SameTags;
  }

  /** The routing controller can live with every step of this one, provided no AuthConfig template labels its object
      as routing property. */
  lemma AuthStepKeepsRules(w: Watch, s: World, desired: Resource, c': Cluster)
    requires ValidWatch(w) && Safe(w, s) && WellFormed(s.c) && AuthStep(desired, s.c, c')
    requires desired.key != w.cr && desired.obj.uid == "" && !desired.obj.deleting
    requires OWNER_UID !in desired.obj.labels
    ensures Rely(Some(w), s, s.(c := c'))
  {
    var k := desired.key;
    if c' == s.c {
      RelyReflexive(Some(w), s);
    } else {
      var o := if k in s.c.objects then Replaced(s.c.objects[k], desired.obj) else desired.obj;
      PutIsLater(s.c, k, o);
      assert !OwnedBy(o, w.uid);
      hide Safe, WellFormed, Later, OwnedBy, Rely;
      SingleWriteKeepsRules(w, s, c', k);
    }
  }
}
