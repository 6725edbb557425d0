/** Labels and annotations, and the options that set them on an object (pkg/metadata). */
module Metadata {
  import opened Api

  /* ---------- keys ---------- */

  const APP_PART_OF := "app.kubernetes.io/part-of"
  const APP_COMPONENT := "app.kubernetes.io/component"
  const APP_NAME := "app.kubernetes.io/name"
  const APP_VERSION := "app.kubernetes.io/version"
  const APP_MANAGED_BY := "app.kubernetes.io/managed-by"
  const OWNER_NAME := "platform.opendatahub.io/owner-name"
  const OWNER_KIND := "platform.opendatahub.io/owner-kind"
  const OWNER_UID := "platform.opendatahub.io/owner-uid"
  const EXPORT_TYPE := "routing.opendatahub.io/type"

  const EXPORT_MODE_PREFIX := "routing.opendatahub.io/export-mode-"
  const PUBLIC_ADDRESSES := "routing.opendatahub.io/public-addresses"
  const EXTERNAL_ADDRESSES := "routing.opendatahub.io/external-addresses"

  datatype Label = Label(key: string, value: string)

  /* ---------- options ---------- */

  /** `AppendLabels` adds only the labels whose key is absent; the other options overwrite. */
  datatype MetaOption =
    | SetLabel(key: string, value: string)
    | SetAnnotation(key: string, value: string)
    | RemoveAnnotation(key: string)
    | AppendLabels(labels: seq<Label>)

  function LabelsAppended(m: map<string, string>, labels: seq<Label>): map<string, string> {
    if labels == [] then m
    else
      var m' := LabelsAppended(m, labels[..|labels| - 1]);
      var l := labels[|labels| - 1];
      if l.key in m' then m' else m'[l.key := l.value]
  }

  function OptionApplied(o: Obj, opt: MetaOption): Obj {
    match opt
    case SetLabel(k, v) => o.(labels := o.labels[k := v])
    case SetAnnotation(k, v) => o.(annotations := o.annotations[k := v])
    case RemoveAnnotation(k) => o.(annotations := o.annotations - {k})
    case AppendLabels(ls) => o.(labels := LabelsAppended(o.labels, ls))
  }

  function OptionsApplied(o: Obj, opts: seq<MetaOption>): Obj {
    if opts == [] then o
    else OptionApplied(OptionsApplied(o, opts[..|opts| - 1]), opts[|opts| - 1])
  }

  method ApplyAppender(m: map<string, string>, labels: seq<Label>) returns (r: map<string, string>)
    ensures r == LabelsAppended(m, labels)
  {
    r := m;
    for i := 0 to |labels|
      invariant r == LabelsAppended(m, labels[..i])
    {
      assert labels[..i + 1][..i] == labels[..i];
      if labels[i].key !in r {
        r := r[labels[i].key := labels[i].value];
      }
    }
    assert labels[..|labels|] == labels;
  }

  method ApplyOption(o: Obj, opt: MetaOption) returns (r: Obj)
    ensures r == OptionApplied(o, opt)
  {
    match opt
    case SetLabel(k, v) => r := o.(labels := o.labels[k := v]);
    case SetAnnotation(k, v) => r := o.(annotations := o.annotations[k := v]);
    case RemoveAnnotation(k) => r := o.(annotations := o.annotations - {k});
    case AppendLabels(ls) =>
      var m := ApplyAppender(o.labels, ls);
      r := o.(labels := m);
  }

  /** Options take effect one after the other. */
  method ApplyMetaOptions(o: Obj, opts: seq<MetaOption>) returns (r: Obj)
    ensures r == OptionsApplied(o, opts)
  {
    r := o;
    for i := 0 to |opts|
      invariant r == OptionsApplied(o, opts[..i])
    {
      assert opts[..i + 1][..i] == opts[..i];
      r := ApplyOption(r, opts[i]);
    }
    assert opts[..|opts|] == opts;
  }

  /** The value the last label of `labels` with this key carries, if there is one. */
  function LastValue(labels: seq<Label>, key: string): Option<string> {
    if labels == [] then None
    else if labels[|labels| - 1].key == key then Some(labels[|labels| - 1].value)
    else LastValue(labels[..|labels| - 1], key)
  }

  /** The value the first label of `labels` with this key carries, if there is one. */
  function FirstValue(labels: seq<Label>, key: string): Option<string> {
    if labels == [] then None
    else if labels[0].key == key then Some(labels[0].value)
    else FirstValue(labels[1..], key)
  }

  function AsOptions(labels: seq<Label>): seq<MetaOption> {
    seq(|labels|, i requires 0 <= i < |labels| => SetLabel(labels[i].key, labels[i].value))
  }

  function Lookup(m: map<string, string>, k: string): Option<string> {
    if k in m then Some(m[k]) else None
  }

  /** Label options overwrite each other: the last one with a key decides, and nothing but labels changes. */
  lemma {:induction false} LastWriterWins(o: Obj, labels: seq<Label>, key: string)
    ensures var r := OptionsApplied(o, AsOptions(labels));
            && r == o.(labels := r.labels)
            && Lookup(r.labels, key) == if LastValue(labels, key).Some? then LastValue(labels, key)
              else Lookup(o.labels, key)
    decreases |labels|
  {
    if labels != [] {
      var n := |labels| - 1;
      assert AsOptions(labels)[..n] == AsOptions(labels[..n]);
      LastWriterWins(o, labels[..n], key);
    }
  }

  lemma {:induction false} FirstValueLast(labels: seq<Label>, key: string)
    requires labels != []
    ensures FirstValue(labels, key)
         == if FirstValue(labels[..|labels| - 1], key).Some? then FirstValue(labels[..|labels| - 1], key)
            else if labels[|labels| - 1].key == key then Some(labels[|labels| - 1].value) else None
    decreases |labels|
  {
    if |labels| > 1 {
      FirstValueLast(labels[1..], key);
      assert labels[1..][..|labels| - 2] == labels[..|labels| - 1][1..];
    }
  }

  /** An appender never overrides: a key already there keeps its value, any other takes its first value. */
  lemma {:induction false} AppendedLabels(m: map<string, string>, labels: seq<Label>, key: string)
    ensures Lookup(LabelsAppended(m, labels), key) == if key in m then Some(m[key]) else FirstValue(labels, key)
    decreases |labels|
  {
    if labels != [] {
      AppendedLabels(m, labels[..|labels| - 1], key);
      FirstValueLast(labels, key);
    }
  }

  /* ---------- ownership and standard labels ---------- */

  /** Owner labels taken from the resource that asked for the routing (labels.AsOwner). */
  function AsOwner(r: Resource): seq<Label> {
    [Label(OWNER_NAME, r.key.name), Label(OWNER_KIND, r.key.gvk.kind), Label(OWNER_UID, r.obj.uid)]
  }

  function LabelOr(m: map<string, string>, k: string): string {
    if k in m then m[k] else ""
  }

  function StandardLabels(source: Obj, version: string): seq<Label> {
    [ Label(APP_PART_OF, LabelOr(source.labels, APP_NAME)),
      Label(APP_COMPONENT, LabelOr(source.labels, APP_COMPONENT)),
      Label(APP_VERSION, version),
      Label(APP_MANAGED_BY, "odh-platform") ]
  }

  /** What is part of `source` is labelled with its name and component, if it is labelled with them. */
  ghost function PartOfSource(source: Obj, version: string): map<string, string> {
    var name, component := "app.kubernetes.io/name", "app.kubernetes.io/component";
    map["app.kubernetes.io/part-of" := if name in source.labels then source.labels[name] else "",
        "app.kubernetes.io/component" := if component in source.labels then source.labels[component] else "",
        "app.kubernetes.io/version" := version,
        "app.kubernetes.io/managed-by" := "odh-platform"]
  }

  /** The standard labels are these, whether the first or the last one with a key decides. */
  lemma StandardLabelsAre(source: Obj, version: string, key: string)
    ensures FirstValue(StandardLabels(source, version), key) == Lookup(PartOfSource(source, version), key)
    ensures LastValue(StandardLabels(source, version), key) == Lookup(PartOfSource(source, version), key)
  {
    var l := StandardLabels(source, version);
    assert APP_PART_OF[18] == 'p' && APP_VERSION[18] == 'v';
    assert l[1..][1..] == l[2..] && l[2..][1..] == l[3..] && l[3..][1..] == [];
    assert FirstValue(l[3..], key) == if l[3].key == key then Some(l[3].value) else None;
    assert FirstValue(l[2..], key) == if l[2].key == key then Some(l[2].value) else FirstValue(l[3..], key);
    assert FirstValue(l[1..], key) == if l[1].key == key then Some(l[1].value) else FirstValue(l[2..], key);
    assert l[..3][..2] == l[..2] && l[..2][..1] == l[..1] && l[..1][..0] == [];
    assert LastValue(l[..1], key) == if l[0].key == key then Some(l[0].value) else None;
    assert LastValue(l[..2], key) == if l[1].key == key then Some(l[1].value) else LastValue(l[..1], key);
    assert LastValue(l[..3], key) == if l[2].key == key then Some(l[2].value) else LastValue(l[..2], key);
  }

  /** A finalizer that is not there yet goes to the end of the list; nothing else changes. */
  lemma FinalizerAdded(o: Obj, name: string)
    ensures var r := WithFinalizer(o, name);
      && r.finalizers == (if name in o.finalizers then o.finalizers else o.finalizers + [name])
      && r.uid == o.uid && r.labels == o.labels && r.annotations == o.annotations && r.owners == o.owners
      && r.deleting == o.deleting && r.payload == o.payload
  {
  }

  method MatchingLabels(labels: seq<Label>) returns (m: map<string, string>)
    ensures forall k :: Lookup(m, k) == LastValue(labels, k)
  {
    m := map[];
    for i := 0 to |labels|
      invariant forall k :: Lookup(m, k) == LastValue(labels[..i], k)
    {
      assert labels[..i + 1][..i] == labels[..i];
      m := m[labels[i].key := labels[i].value];
    }
    assert labels[..|labels|] == labels;
  }

  /** An object of the API client, changed in place by the controllers. */
  class Unstructured {
    const key: Key
    var version: nat
    var obj: Obj

    constructor (r: Resource)
      ensures key == r.key && version == r.version && obj == r.obj
    {
      key, version, obj := r.key, r.version, r.obj;
    }

    function Value(): (r: Resource)
      reads this
      ensures r.key == key
    {
      Resource(key, version, obj)
    }

    /** What the server answered replaces what the client held. */
    method Refresh(version: nat, obj: Obj)
      modifies this
      ensures this.version == version && this.obj == obj
    {
      this.version, this.obj := version, obj;
    }

    method ApplyMeta(opts: seq<MetaOption>)
      modifies this`obj
      ensures obj == OptionsApplied(old(obj), opts)
    {
      obj := ApplyMetaOptions(obj, opts);
    }

    /** Appends the finalizer unless it is there; tells whether it changed anything. */
    method AddFinalizer(name: string) returns (added: bool)
      modifies this`obj
      ensures added <==> name !in old(obj).finalizers
      ensures obj == WithFinalizer(old(obj), name)
    {
      added := name !in obj.finalizers;
      if added {
        obj := obj.(finalizers := obj.finalizers + [name]);
      }
    }

    method RemoveFinalizer(name: string)
      modifies this`obj
      ensures obj == WithoutFinalizer(old(obj), name)
    {
      var kept: seq<string> := [];
      for i := 0 to |obj.finalizers|
        invariant kept == Without(obj.finalizers[..i], name)
      {
        assert obj.finalizers[..i + 1][..i] == obj.finalizers[..i];
        if obj.finalizers[i] != name {
          kept := kept + [obj.finalizers[i]];
        }
      }
      assert obj.finalizers[..|obj.finalizers|] == obj.finalizers;
      obj := obj.(finalizers := kept);
    }
  }

  function WithFinalizer(o: Obj, name: string): Obj {
    if name in o.finalizers then o else o.(finalizers := o.finalizers + [name])
  }

  function Without(names: seq<string>, name: string): seq<string> {
    if names == [] then []
    else if names[|names| - 1] == name then Without(names[..|names| - 1], name)
    else Without(names[..|names| - 1], name) + [names[|names| - 1]]
  }

  lemma {:induction false} WithoutKeepsOthers(names: seq<string>, name: string, other: string)
    ensures other in Without(names, name) <==> other in names && other != name
    decreases |names|
  {
    if names != [] {
      WithoutKeepsOthers(names[..|names| - 1], name, other);
      assert names == names[..|names| - 1] + [names[|names| - 1]];
    }
  }

  /** What is left keeps its order. */
  lemma {:induction false} WithoutKeepsOrder(a: seq<string>, b: seq<string>, name: string)
    ensures Without(a + b, name) == Without(a, name) + Without(b, name)
    decreases |b|
  {
    if b == [] {
      assert a + b == a;
    } else {
      var n, all := |b| - 1, a + b;
      WithoutKeepsOrder(a, b[..n], name);
      assert all[..|all| - 1] == a + b[..n] && all[|all| - 1] == b[n];
    }
  }

  function WithoutFinalizer(o: Obj, name: string): Obj {
    o.(finalizers := Without(o.finalizers, name))
  }
}
