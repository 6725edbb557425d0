/** The part of the Kubernetes API server the controllers talk to: stored objects with resource versions,
    and what each kind of request does to them. */
module Api {

  datatype Option<+T> = None | Some(value: T)

  datatype Result<+T> = Ok(value: T) | Err(error: Error)

  datatype Error = NotFound | AlreadyExists | Conflict | Failure(message: string)

  /** The error, if there is one, as a list. */
  function Listed(err: Option<Error>): seq<Error> {
    if err.Some? then [err.value] else []
  }

  datatype Gvk = Gvk(group: string, version: string, kind: string)

  datatype Key = Key(gvk: Gvk, namespace: string, name: string)

  /** Unstructured content of a custom resource, as far as nested strings and string lists are read from it. */
  datatype Json = Text(text: string) | List(items: seq<Json>) | Fields(fields: map<string, Json>) | Other

  datatype OwnerRef = OwnerRef(apiVersion: string, kind: string, name: string, uid: string, isController: bool)

  datatype PolicyRule = PolicyRule(ports: seq<string>, notPaths: seq<string>)

  /** What an object holds beside its metadata. */
  datatype Payload =
    | Component(body: Json)
    | Rendered(text: string)
    | AuthConfig(hosts: seq<string>, settings: string)
    | AuthPolicy(selector: map<string, string>, action: string, provider: string, rules: seq<PolicyRule>)

  datatype Obj = Obj(
    uid: string,
    labels: map<string, string>,
    annotations: map<string, string>,
    finalizers: seq<string>,
    owners: seq<OwnerRef>,
    deleting: bool,
    payload: Payload)

  /** An object as a client holds it: the content together with the version it was read at. */
  datatype Resource = Resource(key: Key, version: nat, obj: Obj)

  /** The stored state. `clock` is the last resource version handed out. */
  datatype Cluster = Cluster(objects: map<Key, Obj>, versions: map<Key, nat>, clock: nat)

  function At(c: Cluster, k: Key): Option<Obj> {
    if k in c.objects then Some(c.objects[k]) else None
  }

  /** Every object has a version, and none outlives its last finalizer once marked for deletion. */
  predicate WellFormed(c: Cluster) {
    && c.objects.Keys == c.versions.Keys
    && (forall k | k in c.objects :: !(c.objects[k].deleting && c.objects[k].finalizers == []))
    && (forall k | k in c.versions :: c.versions[k] <= c.clock)
  }

  /** `c'` is a later state of `c`: a version number never stands for two different contents. */
  predicate Later(c: Cluster, c': Cluster) {
    && c.clock <= c'.clock
    && (forall k | k in c'.objects && k in c'.versions && c'.versions[k] <= c.clock ::
          && k in c.objects && c.objects[k] == c'.objects[k]
          && k in c.versions && c.versions[k] == c'.versions[k])
  }

  lemma LaterTransitive(a: Cluster, b: Cluster, c: Cluster)
    requires Later(a, b) && Later(b, c)
    ensures Later(a, c)
  {
  }

  /** What a reader learnt about `k` at some earlier state: version `version` stands for content `o`. */
  ghost predicate Observed(c: Cluster, k: Key, version: nat, o: Obj) {
    && version <= c.clock
    && (k in c.objects && k in c.versions && c.versions[k] == version ==> c.objects[k] == o)
  }

  lemma ObservedLasts(c: Cluster, c': Cluster, k: Key, version: nat, o: Obj)
    requires Observed(c, k, version, o) && Later(c, c')
    ensures Observed(c', k, version, o)
  {
  }

  /* ---------- storing and removing ---------- */

  function Drop(c: Cluster, gone: set<Key>): Cluster {
    Cluster(c.objects - gone, c.versions - gone, c.clock)
  }

  /** Stores `o` at `k`. Writing what is there already is no change; an object marked for deletion goes away
      with its last finalizer. */
  function Put(c: Cluster, k: Key, o: Obj): Cluster {
    if k in c.objects && c.objects[k] == o then c
    else if o.deleting && o.finalizers == [] then Drop(c, {k})
    else Cluster(c.objects[k := o], c.versions[k := c.clock + 1], c.clock + 1)
  }

  lemma PutIsLater(c: Cluster, k: Key, o: Obj)
    requires WellFormed(c)
    ensures WellFormed(Put(c, k, o)) && Later(c, Put(c, k, o))
  {
  }

  lemma DropIsLater(c: Cluster, gone: set<Key>)
    requires WellFormed(c)
    ensures WellFormed(Drop(c, gone)) && Later(c, Drop(c, gone))
  {
  }

  /** What is stored has a version that never was, unless it was there already; other objects keep theirs. */
  lemma PutStores(c: Cluster, k: Key, o: Obj)
    requires WellFormed(c) && !(o.deleting && o.finalizers == [])
    ensures var c' := Put(c, k, o);
      && k in c'.objects && k in c'.versions && c'.objects[k] == o
      && (if At(c, k) == Some(o) then c'.versions[k] == c.versions[k] else c'.versions[k] > c.clock)
      && (forall j | j != k :: At(c', j) == At(c, j))
      && (forall j | j != k && j in c.versions :: j in c'.versions && c'.versions[j] == c.versions[j])
  {
  }

  /* ---------- create ---------- */

  function CreateOp(c: Cluster, k: Key, o: Obj): Result<Cluster> {
    if k in c.objects then Err(AlreadyExists) else Ok(Put(c, k, o))
  }

  /* ---------- server-side apply ---------- */

  /** A forced apply: labels, annotations and content of the source win, everything else is kept. */
  function Merge(stored: Obj, source: Obj): Obj {
    stored.(labels := stored.labels + source.labels,
            annotations := stored.annotations + source.annotations,
            payload := source.payload)
  }

  /** Label by label and part by part: what the source brings, and what was there. */
  lemma MergedParts(stored: Obj, source: Obj, l: string)
    ensures var o := Merge(stored, source);
      && (l in source.labels ==> l in o.labels && o.labels[l] == source.labels[l])
      && (l !in source.labels ==> (l in o.labels <==> l in stored.labels))
      && (l !in source.labels && l in stored.labels ==> o.labels[l] == stored.labels[l])
      && (l in source.annotations ==> l in o.annotations && o.annotations[l] == source.annotations[l])
      && (l !in source.annotations ==> (l in o.annotations <==> l in stored.annotations))
      && (l !in source.annotations && l in stored.annotations ==> o.annotations[l] == stored.annotations[l])
      && o.payload == source.payload
      && o.uid == stored.uid && o.finalizers == stored.finalizers && o.owners == stored.owners
      && o.deleting == stored.deleting
  {
  }

  function Applied(objects: map<Key, Obj>, k: Key, source: Obj): Obj {
    if k in objects then Merge(objects[k], source) else source
  }

  function ApplyOp(c: Cluster, k: Key, source: Obj): Cluster {
    Put(c, k, Applied(c.objects, k, source))
  }

  /* ---------- update under a version check ---------- */

  function UpdateOp(c: Cluster, r: Resource): Result<Cluster> {
    if r.key !in c.objects || r.key !in c.versions then Err(NotFound)
    else if c.versions[r.key] != r.version then Err(Conflict)
    else Ok(Put(c, r.key, r.obj.(uid := c.objects[r.key].uid, deleting := c.objects[r.key].deleting)))
  }

  /* ---------- JSON merge patch, section 2 of RFC 7396, on maps ---------- */

  /** `None` stands for the `null` that removes a member. */
  type MapPatch = map<string, Option<string>>

  function DiffMap(from: map<string, string>, to: map<string, string>): MapPatch {
    map k | k in from.Keys + to.Keys && !(k in from && k in to && from[k] == to[k]) ::
      if k in to then Some(to[k]) else None
  }

  function PatchMap(m: map<string, string>, p: MapPatch): map<string, string> {
    map k | k in m.Keys + p.Keys && (k in p ==> p[k].Some?) :: if k in p then p[k].value else m[k]
  }

  /** A patch made from `from` and `to` turns `from` into `to`. */
  lemma PatchRoundTrip(from: map<string, string>, to: map<string, string>)
    ensures PatchMap(from, DiffMap(from, to)) == to
  {
    var r := PatchMap(from, DiffMap(from, to));
    forall k ensures k in r <==> k in to {
    }
  }

  /** The same patch on any other map changes only the members on which `from` and `to` differ. */
  lemma PatchElsewhere(m: map<string, string>, from: map<string, string>, to: map<string, string>, k: string)
    requires (k in from <==> k in to) && (k in from ==> from[k] == to[k])
    ensures k in PatchMap(m, DiffMap(from, to)) <==> k in m
    ensures k in m ==> PatchMap(m, DiffMap(from, to))[k] == m[k]
  {
  }

  /** A merge patch. A list or a content is replaced as a whole. */
  datatype MergePatch = MergePatch(
    version: Option<nat>,
    labels: MapPatch,
    annotations: MapPatch,
    finalizers: Option<seq<string>>,
    payload: Option<Payload>)

  /** The patch that turns `current` into `target`, with the version of `target` when the two differ in it. */
  function MergeFrom(current: Resource, target: Resource): MergePatch {
    MergePatch(
      if current.version == target.version then None else Some(target.version),
      DiffMap(current.obj.labels, target.obj.labels),
      DiffMap(current.obj.annotations, target.obj.annotations),
      if current.obj.finalizers == target.obj.finalizers then None else Some(target.obj.finalizers),
      if current.obj.payload == target.obj.payload then None else Some(target.obj.payload))
  }

  function PatchObj(o: Obj, p: MergePatch): Obj {
    o.(labels := PatchMap(o.labels, p.labels),
       annotations := PatchMap(o.annotations, p.annotations),
       finalizers := if p.finalizers.Some? then p.finalizers.value else o.finalizers,
       payload := if p.payload.Some? then p.payload.value else o.payload)
  }

  function MergePatchOp(c: Cluster, k: Key, p: MergePatch): Result<Cluster> {
    if k !in c.objects || k !in c.versions then Err(NotFound)
    else if p.version.Some? && p.version.value != c.versions[k] then Err(Conflict)
    else Ok(Put(c, k, PatchObj(c.objects[k], p)))
  }

  /* ---------- requests that write one object ---------- */

  datatype Request =
    | Creating(key: Key, obj: Obj)
    | Applying(key: Key, obj: Obj)
    | Updating(resource: Resource)
    | Patching(key: Key, patch: MergePatch)

  function Outcome(c: Cluster, r: Request): Result<Cluster> {
    match r
    case Creating(k, o) => CreateOp(c, k, o)
    case Applying(k, o) => Ok(ApplyOp(c, k, o))
    case Updating(res) => UpdateOp(c, res)
    case Patching(k, p) => MergePatchOp(c, k, p)
  }

  lemma OutcomeIsLater(c: Cluster, r: Request)
    requires WellFormed(c)
    ensures Outcome(c, r).Ok? ==> WellFormed(Outcome(c, r).value) && Later(c, Outcome(c, r).value)
    ensures Outcome(c, r).Err? ==> !Outcome(c, r).error.Failure?
  {
    match r
    case Creating(k, o) => PutIsLater(c, k, o);
    case Applying(k, o) => PutIsLater(c, k, Applied(c.objects, k, o));
    case Updating(res) =>
      if UpdateOp(c, res).Ok? {
        PutIsLater(c, res.key, res.obj.(uid := c.objects[res.key].uid, deleting := c.objects[res.key].deleting));
      }
    case Patching(k, p) =>
      if k in c.objects { PutIsLater(c, k, PatchObj(c.objects[k], p)); }
  }

  /* ---------- delete by selector ---------- */

  /** What a client may put on a request to delete a collection. */
  datatype DeleteOption =
    | InNamespace(namespace: string)
    | MatchingLabels(labels: map<string, string>)
    | MatchingSelector(choice: Choice)

  /** At `key`, one of `values`. */
  datatype Choice = Choice(key: string, values: set<string>)

  /** How a client library puts the options of one request together: a selector option adds to what the options
      before it asked for, or takes the place of all labels asked for so far. */
  datatype Combining = Conjoined | Replacing

  /** Objects of one kind in one namespace carrying all of `labels` and meeting `choice`. */
  datatype Selector = Selector(gvk: Gvk, namespace: string, labels: map<string, string>, choice: Option<Choice>)

  function WithOption(rule: Combining, s: Selector, option: DeleteOption): Selector {
    match option
    case InNamespace(namespace) => s.(namespace := namespace)
    case MatchingLabels(labels) => s.(labels := s.labels + labels)
    case MatchingSelector(choice) => s.(choice := Some(choice), labels := if rule.Conjoined? then s.labels else map[])
  }

  /** What a request with these options selects. */
  function Selected(rule: Combining, gvk: Gvk, options: seq<DeleteOption>): Selector {
    if options == [] then Selector(gvk, "", map[], None)
    else WithOption(rule, Selected(rule, gvk, options[..|options| - 1]), options[|options| - 1])
  }

  predicate HasLabels(o: Obj, labels: map<string, string>) {
    forall l | l in labels :: l in o.labels && o.labels[l] == labels[l]
  }

  predicate Matches(s: Selector, k: Key, o: Obj) {
    && k.gvk == s.gvk
    && k.namespace == s.namespace
    && HasLabels(o, s.labels)
    && (s.choice.Some? ==> s.choice.value.key in o.labels && o.labels[s.choice.value.key] in s.choice.value.values)
  }

  function Matching(c: Cluster, s: Selector): set<Key> {
    set k | k in c.objects && Matches(s, k, c.objects[k])
  }
}
