// The Ingress controller: the Distribution it wants and how it brings the
// stored one in line.
module IngressSync {
  import opened Types
  import opened ApiServer
  import Watch

  datatype LoadBalancer = LoadBalancer(ip: string, hostname: string)

  datatype IngressTls = IngressTls(hosts: seq<string>, secretName: string)

  datatype Ingress = Ingress(
    name: string,
    namespace: string,
    uid: string,
    group: string,
    version: string,
    kind: string,
    labels: map<string, string>,
    annotations: map<string, string>,
    tls: seq<IngressTls>,
    loadBalancer: seq<LoadBalancer>)

  const CLASS_ANNOTATION := "cdn.redcoat.dev/distribution-class"
  const CLUSTER_CLASS_ANNOTATION := "cdn.redcoat.dev/cluster-distribution-class"

  function Annotation(annotations: map<string, string>, name: string): string {
    if name in annotations then annotations[name] else ""
  }

  function GetDistributionClass(annotations: map<string, string>): Option<ObjectReference> {
    var c, cc := Annotation(annotations, CLASS_ANNOTATION), Annotation(annotations, CLUSTER_CLASS_ANNOTATION);
    if c != "" then Some(ObjectReference("DistributionClass", c))
    else if cc != "" then Some(ObjectReference("ClusterDistributionClass", cc))
    else None
  }

  function GetIngressHost(lbs: seq<LoadBalancer>): string {
    if lbs == [] then "" else if lbs[0].hostname != "" then lbs[0].hostname else lbs[0].ip
  }

  function DistributionFromIngress(classRef: ObjectReference, lbs: seq<LoadBalancer>): DistributionSpec {
    DistributionSpec(classRef, Origin(GetIngressHost(lbs), 80, 443), [], None)
  }

  // The load balancers to look at: those of the configured service, or the
  // Ingress's own.
  function Balancers(ingress: Ingress, service: Option<seq<LoadBalancer>>): seq<LoadBalancer> {
    if service.Some? then service.value else ingress.loadBalancer
  }

  // What the Ingress asks for, if it asks for anything.
  function Wanted(ingress: Ingress, service: Option<seq<LoadBalancer>>): Option<DistributionSpec> {
    var classRef := GetDistributionClass(ingress.annotations);
    if classRef.None? || GetIngressHost(Balancers(ingress, service)) == "" then None
    else
      var base := DistributionFromIngress(classRef.value, Balancers(ingress, service));
      Some(if ingress.tls == [] then base
           else base.(hosts := ingress.tls[0].hosts, tls := Some(TlsSpec("redirect", ingress.tls[0].secretName))))
  }

  function MetaFrom(ingress: Ingress): Metadata {
    Metadata(ingress.name, ingress.namespace, ingress.labels,
      [OwnerReference(ingress.group + "/" + ingress.version, ingress.kind, ingress.name, ingress.uid, true)])
  }

  datatype Faults = Faults(get: bool, create: bool, update: bool)

  // The stored Distribution of the Ingress's name, with a count of the writes
  // asked for.
  class DistributionStore {
    var stored: Option<Object>
    var writes: nat
    const faults: Faults
    const newUid: string

    constructor (stored: Option<Object>, faults: Faults, newUid: string)
      ensures this.stored == stored && this.faults == faults && this.newUid == newUid && writes == 0
    {
      this.stored, this.faults, this.newUid, writes := stored, faults, newUid, 0;
    }

    method Get() returns (r: Option<Object>)
      ensures r == if faults.get then None else stored
    {
      r := if faults.get then None else stored;
    }

    method Create(meta: Metadata, spec: DistributionSpec)
      modifies this
      ensures writes == old(writes) + 1
      ensures stored == (if faults.create || old(stored).Some? then old(stored)
                         else Some(Object(newUid, 0, meta, false, false, spec, EMPTY_STATUS)))
    {
      writes := writes + 1;
      if !faults.create && stored.None? {
        stored := Some(Object(newUid, 0, meta, false, false, spec, EMPTY_STATUS));
      }
    }

    method Update(local: Object)
      modifies this
      ensures writes == old(writes) + 1
      ensures stored == ApiServer.Update(old(stored), local, faults.update)
    {
      writes := writes + 1;
      stored := ApiServer.Update(stored, local, faults.update);
    }
  }

  function Sync(stored: Option<Object>, writes: nat, ingress: Ingress, service: Option<seq<LoadBalancer>>,
                faults: Faults, newUid: string): (Option<Object>, nat) {
    var wanted := Wanted(ingress, service);
    if wanted.None? then (stored, writes)
    else if faults.get || stored.None? then
      (if faults.create || stored.Some? then stored
       else Some(Object(newUid, 0, MetaFrom(ingress), false, false, wanted.value, EMPTY_STATUS)), writes + 1)
    else if wanted.value != stored.value.spec then
      (ApiServer.Update(stored, stored.value.(spec := wanted.value), faults.update), writes + 1)
    else (stored, writes)
  }

  class IngressReconciler {
    const store: DistributionStore
    const service: Option<seq<LoadBalancer>>

    constructor (store: DistributionStore, service: Option<seq<LoadBalancer>>)
      ensures this.store == store && this.service == service
    {
      this.store, this.service := store, service;
    }

    method GetDesiredSpec(ingress: Ingress, classRef: ObjectReference) returns (desired: DistributionSpec)
      ensures GetDistributionClass(ingress.annotations) == Some(classRef) && desired.origin.host != "" ==>
                Wanted(ingress, service) == Some(desired)
      ensures desired.origin.host == GetIngressHost(Balancers(ingress, service))
    {
      var lbs;
      if service.None? {
        lbs := ingress.loadBalancer;
      } else {
        lbs := service.value;
      }
      desired := DistributionFromIngress(classRef, lbs);
      if |ingress.tls| > 0 {
        desired := desired.(hosts := ingress.tls[0].hosts);
        desired := desired.(tls := Some(TlsSpec("redirect", ingress.tls[0].secretName)));
      }
    }

    // One pass: nothing without a wish; else one write at most, and only if
    // the object is missing or its spec differs.
    method Reconcile(ingress: Ingress)
      modifies store
      ensures (store.stored, store.writes) == Sync(old(store.stored), old(store.writes), ingress, service,
                                                   store.faults, store.newUid)
    {
      var classRef := GetDistributionClass(ingress.annotations);
      if classRef.None? {
        return;
      }
      var distro := store.Get();
      var desired := GetDesiredSpec(ingress, classRef.value);
      if desired.origin.host == "" {
        return;
      }
      if distro.None? {
        store.Create(MetaFrom(ingress), desired);
      } else if desired != distro.value.spec {
        store.Update(distro.value.(spec := desired));
      }
    }
  }

  const NO_FAULTS := Faults(false, false, false)

  // With working writes one pass makes the stored spec the wanted one and
  // keeps everything else of an existing object; a second pass writes nothing.
  // An object that was asked to go and has no finalizer cannot be stored.
  lemma SyncIsFixpoint(stored: Option<Object>, ingress: Ingress,
                       service: Option<seq<LoadBalancer>>, uid: string, uid': string)
    requires Wanted(ingress, service).Some?
    requires stored.Some? ==> Settled(stored.value).Some?
    ensures var (stored', writes) := Sync(stored, 0, ingress, service, NO_FAULTS, uid);
      && stored'.Some? && stored'.value.spec == Wanted(ingress, service).value
      && (stored.Some? ==> stored'.value == stored.value.(spec := stored'.value.spec, version := stored'.value.version))
      && (stored.None? ==> stored'.value.meta == MetaFrom(ingress) && stored'.value.status == EMPTY_STATUS)
      && (writes == 0 <==> stored.Some? && stored.value.spec == Wanted(ingress, service).value)
      && Sync(stored', 0, ingress, service, NO_FAULTS, uid') == (stored', 0)
  {
  }

  // ----- what is wanted -----

  // A Distribution is wanted exactly when a class is named and the first load
  // balancer, of the configured service or else of the Ingress, has an address;
  // hostnames go before addresses and the namespaced class before the
  // cluster-wide one.
  lemma WantedIff(ingress: Ingress, service: Option<seq<LoadBalancer>>)
    ensures var a, wanted := ingress.annotations, Wanted(ingress, service);
      var lbs := if service.Some? then service.value else ingress.loadBalancer;
      var named := "cdn.redcoat.dev/distribution-class" in a && a["cdn.redcoat.dev/distribution-class"] != "";
      var namedWide := "cdn.redcoat.dev/cluster-distribution-class" in a &&
                       a["cdn.redcoat.dev/cluster-distribution-class"] != "";
      && (wanted.Some? <==> (named || namedWide) && lbs != [] && (lbs[0].hostname != "" || lbs[0].ip != ""))
      && (wanted.Some? ==>
            && wanted.value.origin ==
               Origin(if lbs[0].hostname != "" then lbs[0].hostname else lbs[0].ip, 80, 443)
            && wanted.value.classRef ==
               (if named then ObjectReference("DistributionClass", a["cdn.redcoat.dev/distribution-class"])
                else ObjectReference("ClusterDistributionClass", a["cdn.redcoat.dev/cluster-distribution-class"]))
            && wanted.value.hosts == (if ingress.tls == [] then [] else ingress.tls[0].hosts)
            && wanted.value.tls ==
               (if ingress.tls == [] then None else Some(TlsSpec("redirect", ingress.tls[0].secretName))))
  {
  }

  // The key an object is stored under.
  function KeyOf(o: Object): Watch.Key {
    Watch.Key(o.meta.namespace, o.meta.name)
  }

  // The Distribution an Ingress leads to is stored under the Ingress's own key,
  // takes over its labels, has it as its one, controlling, owner, and starts
  // without a status.
  lemma CreatedForIngress(ingress: Ingress, service: Option<seq<LoadBalancer>>, faults: Faults, uid: string)
    ensures var stored := Sync(None, 0, ingress, service, faults, uid).0;
      && (stored.Some? <==> Wanted(ingress, service).Some? && !faults.create)
      && (stored.Some? ==>
            var o := stored.value;
            && KeyOf(o) == Watch.Key(ingress.namespace, ingress.name) && o.meta.labels == ingress.labels
            && o.meta.owners == [OwnerReference(ingress.group + "/" + ingress.version, ingress.kind,
                                                ingress.name, ingress.uid, true)]
            && o.uid == uid && o.spec == Wanted(ingress, service).value
            && o.status == DistributionStatus(false, None, "", "", "")
            && !o.finalizer && !o.deleting)
  {
  }

  // The class a created Distribution names is one the class reader accepts, and
  // a change of that class queues the Distribution under its own key.
  lemma WantedClassIsWatched(ingress: Ingress, service: Option<seq<LoadBalancer>>, uid: string,
                             c: Watch.Cluster, change: Watch.Change)
    requires Wanted(ingress, service).Some? && Watch.WellNamed(change) && ingress.namespace != ""
    requires !change.SecretChange?
    requires var spec := Wanted(ingress, service).value;
      && Watch.KindOf(change) == spec.classRef.kind && Watch.ObjectOf(change).name == spec.classRef.name
      && (change.ClassChange? ==> change.key.namespace == ingress.namespace)
    ensures var stored := Sync(None, 0, ingress, service, NO_FAULTS, uid).0;
      && stored.Some?
      && var o := stored.value;
         var c' := c.(distributions := c.distributions[KeyOf(o) := o.spec]);
         && !Watch.GetClass(c', o.meta.namespace, o.spec.classRef).NotAcceptable?
         && KeyOf(o) in Watch.Requests(c', Watch.KindOf(change), Watch.ObjectOf(change))
  {
    CreatedForIngress(ingress, service, NO_FAULTS, uid);
    var o := Sync(None, 0, ingress, service, NO_FAULTS, uid).0.value;
    Watch.KindsDiffer();
    Watch.QueuedIffReferencing(c.(distributions := c.distributions[KeyOf(o) := o.spec]), change, KeyOf(o));
  }
}
