// The watch on referenced objects: indexes, the listing by index, the requests
// queued for an event, and what a reconcile reads.
module Watch {
  import opened Types

  datatype Key = Key(namespace: string, name: string)

  // The parts of a cluster a reconcile reads; secrets are opaque.
  datatype Cluster = Cluster(
    distributions: map<Key, DistributionSpec>,
    secrets: map<Key, string>,
    classes: map<Key, DistributionClassSpec>,
    clusterClasses: map<string, DistributionClassSpec>)

  const SECRET := "Secret"
  const CLASS := "DistributionClass"
  const CLUSTER_CLASS := "ClusterDistributionClass"

  // ----- what a reconcile reads -----

  datatype ClassLookup = ClassSpec(spec: DistributionClassSpec) | NoSuchClass | NotAcceptable

  function LookUp<K, V>(m: map<K, V>, k: K): Option<V> {
    if k in m then Some(m[k]) else None
  }

  function GetClass(c: Cluster, namespace: string, ref: ObjectReference): ClassLookup {
    if ref.kind == CLUSTER_CLASS then
      (if ref.name in c.clusterClasses then ClassSpec(c.clusterClasses[ref.name]) else NoSuchClass)
    else if ref.kind == CLASS then
      var key := Key(namespace, ref.name);
      if key in c.classes then ClassSpec(c.classes[key]) else NoSuchClass
    else NotAcceptable
  }

  // The secret is read only with TLS; the outer option tells.
  function GetSecret(c: Cluster, namespace: string, spec: DistributionSpec): Option<Option<string>> {
    if spec.tls.None? then None else Some(LookUp(c.secrets, Key(namespace, spec.tls.value.secretRef)))
  }

  // ----- indexes -----

  function SecretRef(spec: DistributionSpec): string {
    if spec.tls.Some? then spec.tls.value.secretRef else ""
  }

  function ReferenceOf(kind: string, spec: DistributionSpec): string {
    if spec.classRef.kind == kind then spec.classRef.name else ""
  }

  // The keys under which a Distribution is indexed; no key for an empty value.
  function IndexKeys(field: string, spec: DistributionSpec): seq<string> {
    var value := if field == SECRET then SecretRef(spec) else ReferenceOf(field, spec);
    if value != "" then [value] else []
  }

  // A Distribution is indexed under the names it references and no other, and not
  // at all under an empty one.
  lemma IndexedIff(spec: DistributionSpec, key: string)
    ensures key in IndexKeys("Secret", spec) <==> key != "" && spec.tls.Some? && spec.tls.value.secretRef == key
    ensures key in IndexKeys("DistributionClass", spec) <==>
            key != "" && spec.classRef == ObjectReference("DistributionClass", key)
    ensures key in IndexKeys("ClusterDistributionClass", spec) <==>
            key != "" && spec.classRef == ObjectReference("ClusterDistributionClass", key)
  {
    assert "Secret"[0] == 'S' && "DistributionClass"[0] == 'D' && "ClusterDistributionClass"[0] == 'C';
  }

  // ----- listing and queueing -----

  datatype ListOption = MatchingField(field: string, value: string) | InNamespace(namespace: string)

  // The empty namespace stands for all of them.
  predicate Satisfies(key: Key, spec: DistributionSpec, option: ListOption) {
    match option
    case MatchingField(field, value) => value in IndexKeys(field, spec)
    case InNamespace(namespace) => namespace == "" || key.namespace == namespace
  }

  predicate Listed(c: Cluster, key: Key, options: seq<ListOption>) {
    key in c.distributions && forall o :: o in options ==> Satisfies(key, c.distributions[key], o)
  }

  // A listing, in whatever order.
  method List(c: Cluster, options: seq<ListOption>) returns (items: seq<Key>)
    ensures forall key :: key in items <==> Listed(c, key, options)
    ensures forall i, j :: 0 <= i < j < |items| ==> items[i] != items[j]
  {
    items := [];
    var todo := set key | key in c.distributions && Listed(c, key, options);
    while todo != {}
      invariant forall key :: Listed(c, key, options) <==> key in todo || key in items
      invariant forall key :: key in items ==> key !in todo
      invariant forall i, j :: 0 <= i < j < |items| ==> items[i] != items[j]
      decreases |todo|
    {
      var key :| key in todo;
      items, todo := items + [key], todo - {key};
    }
  }

  // The requests an event for the object asks for.
  function Requests(c: Cluster, kind: string, target: Key): set<Key> {
    set key | key in c.distributions
              && target.name in IndexKeys(kind, c.distributions[key])
              && (kind == CLUSTER_CLASS || target.namespace == "" || key.namespace == target.namespace)
  }

  class EnqueueRequestForIndexedReference {
    const clusterScope: bool
    const field: string

    constructor (kind: string)
      requires kind in {SECRET, CLASS, CLUSTER_CLASS}
      ensures field == kind && (clusterScope <==> kind == CLUSTER_CLASS)
    {
      field := kind;
      clusterScope := "Cluster" <= kind;
      assert CLUSTER_CLASS == "Cluster" + "DistributionClass";
      assert SECRET[0] == 'S' && CLASS[0] == 'D' && "Cluster"[0] == 'C';
    }

    // Adding to the work queue has no effect on a request that is in it.
    method Enqueue(c: Cluster, target: Key, queue: set<Key>) returns (queue': set<Key>)
      requires clusterScope <==> field == CLUSTER_CLASS
      ensures queue' == queue + Requests(c, field, target)
    {
      var predicates := [MatchingField(field, target.name)];
      if !clusterScope {
        predicates := predicates + [InNamespace(target.namespace)];
      }
      var items := List(c, predicates);
      assert forall o :: o in predicates <==>
        o == MatchingField(field, target.name) || (!clusterScope && o == InNamespace(target.namespace));
      forall key ensures Listed(c, key, predicates) <==> key in Requests(c, field, target) {
        assert MatchingField(field, target.name) in predicates;
        assert !clusterScope ==> InNamespace(target.namespace) in predicates;
      }
      queue' := queue;
      for i := 0 to |items|
        invariant queue' == queue + set k | k in items[..i]
      {
        assert items[..i + 1] == items[..i] + [items[i]];
        queue' := queue' + {items[i]};
      }
      assert items[..|items|] == items;
    }

    // An update event queues for the new object, or for the old one if that is
    // all there is.
    method Update(c: Cluster, objectOld: Option<Key>, objectNew: Option<Key>, queue: set<Key>)
      returns (queue': set<Key>)
      requires clusterScope <==> field == CLUSTER_CLASS
      ensures queue' == queue + (if objectNew.Some? then Requests(c, field, objectNew.value)
                                 else if objectOld.Some? then Requests(c, field, objectOld.value) else {})
    {
      if objectNew.Some? {
        queue' := Enqueue(c, objectNew.value, queue);
      } else if objectOld.Some? {
        queue' := Enqueue(c, objectOld.value, queue);
      } else {
        queue' := queue;
      }
    }
  }

  // ----- agreement -----

  // The creation, update or removal of one watched object.
  datatype Change =
    | SecretChange(key: Key, secret: Option<string>)
    | ClassChange(key: Key, spec: Option<DistributionClassSpec>)
    | ClusterClassChange(name: string, spec: Option<DistributionClassSpec>)

  function Put<K, V>(m: map<K, V>, k: K, v: Option<V>): map<K, V> {
    if v.Some? then m[k := v.value] else m - {k}
  }

  function Apply(c: Cluster, change: Change): Cluster {
    match change
    case SecretChange(key, s) => c.(secrets := Put(c.secrets, key, s))
    case ClassChange(key, s) => c.(classes := Put(c.classes, key, s))
    case ClusterClassChange(name, s) => c.(clusterClasses := Put(c.clusterClasses, name, s))
  }

  function KindOf(change: Change): string {
    match change
    case SecretChange(_, _) => SECRET
    case ClassChange(_, _) => CLASS
    case ClusterClassChange(_, _) => CLUSTER_CLASS
  }

  function ObjectOf(change: Change): Key {
    match change
    case SecretChange(key, _) => key
    case ClassChange(key, _) => key
    case ClusterClassChange(name, _) => Key("", name)
  }

  // Objects have names, and namespaced ones a namespace.
  predicate WellNamed(change: Change) {
    ObjectOf(change).name != "" && (!change.ClusterClassChange? ==> change.key.namespace != "")
  }

  predicate References(key: Key, spec: DistributionSpec, change: Change) {
    match change
    case SecretChange(k, _) => spec.tls.Some? && k == Key(key.namespace, spec.tls.value.secretRef)
    case ClassChange(k, _) => spec.classRef.kind == CLASS && k == Key(key.namespace, spec.classRef.name)
    case ClusterClassChange(name, _) => spec.classRef == ObjectReference(CLUSTER_CLASS, name)
  }

  lemma KindsDiffer()
    ensures SECRET != CLASS && SECRET != CLUSTER_CLASS && CLASS != CLUSTER_CLASS
  {
    assert SECRET[0] == 'S' && CLASS[0] == 'D' && CLUSTER_CLASS[0] == 'C';
  }

  // Exactly the Distributions that reference the object are queued.
  lemma QueuedIffReferencing(c: Cluster, change: Change, key: Key)
    requires WellNamed(change) && key in c.distributions
    ensures key in Requests(c, KindOf(change), ObjectOf(change)) <==> References(key, c.distributions[key], change)
  {
    KindsDiffer();
  }

  // A Distribution that is not queued reads the same before and after.
  lemma UnqueuedReadsTheSame(c: Cluster, change: Change, key: Key)
    requires WellNamed(change) && key in c.distributions
    requires key !in Requests(c, KindOf(change), ObjectOf(change))
    ensures var spec, c' := c.distributions[key], Apply(c, change);
      && GetClass(c', key.namespace, spec.classRef) == GetClass(c, key.namespace, spec.classRef)
      && GetSecret(c', key.namespace, spec) == GetSecret(c, key.namespace, spec)
  {
    QueuedIffReferencing(c, change, key);
    KindsDiffer();
  }

  function Removal(change: Change): Change {
    match change
    case SecretChange(key, _) => SecretChange(key, None)
    case ClassChange(key, _) => ClassChange(key, None)
    case ClusterClassChange(name, _) => ClusterClassChange(name, None)
  }

  // None is queued in vain: a queued Distribution sees the difference between
  // the object's presence and its removal.
  lemma QueuedReadsTheObject(c: Cluster, change: Change, key: Key)
    requires WellNamed(change) && key in c.distributions
    requires key in Requests(c, KindOf(change), ObjectOf(change))
    requires if change.SecretChange? then change.secret.Some? else change.spec.Some?
    ensures var spec, c', c'' := c.distributions[key], Apply(c, change), Apply(c, Removal(change));
      || GetClass(c', key.namespace, spec.classRef) != GetClass(c'', key.namespace, spec.classRef)
      || GetSecret(c', key.namespace, spec) != GetSecret(c'', key.namespace, spec)
  {
    QueuedIffReferencing(c, change, key);
    KindsDiffer();
  }

  // A referencing Distribution reads exactly what the change stores, or that it
  // is gone.
  lemma ReferencingReadsTheChange(c: Cluster, change: Change, key: Key)
    requires key in c.distributions && References(key, c.distributions[key], change)
    ensures var spec, c' := c.distributions[key], Apply(c, change);
      match change
      case SecretChange(_, secret) => GetSecret(c', key.namespace, spec) == Some(secret)
      case ClassChange(_, s) =>
        GetClass(c', key.namespace, spec.classRef) == if s.Some? then ClassSpec(s.value) else NoSuchClass
      case ClusterClassChange(_, s) =>
        GetClass(c', key.namespace, spec.classRef) == if s.Some? then ClassSpec(s.value) else NoSuchClass
  {
    KindsDiffer();
  }

  // What is read is what is stored under the name, in the Distribution's
  // namespace or cluster-wide; any other kind is refused.
  lemma ReadIff(c: Cluster, namespace: string, ref: ObjectReference, spec: DistributionClassSpec)
    ensures GetClass(c, namespace, ref) == ClassSpec(spec) <==>
            || (ref.kind == "ClusterDistributionClass" && (ref.name, spec) in c.clusterClasses.Items)
            || (ref.kind == "DistributionClass" && (Key(namespace, ref.name), spec) in c.classes.Items)
    ensures GetClass(c, namespace, ref) == NotAcceptable <==>
            ref.kind != "ClusterDistributionClass" && ref.kind != "DistributionClass"
  {
    KindsDiffer();
  }

  // A secret is looked for only with TLS, in the Distribution's namespace.
  lemma SecretReadIff(c: Cluster, namespace: string, spec: DistributionSpec, secret: string)
    ensures GetSecret(c, namespace, spec).None? <==> spec.tls.None?
    ensures GetSecret(c, namespace, spec) == Some(Some(secret)) <==>
            spec.tls.Some? && (Key(namespace, spec.tls.value.secretRef), secret) in c.secrets.Items
  {
  }
}
