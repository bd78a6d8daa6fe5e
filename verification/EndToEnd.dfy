// From an annotated Ingress to a Distribution that is ready.
module EndToEnd {
  import opened Types
  import opened Aws
  import opened Controller
  import opened Runs
  import opened SteadyState
  import opened Reports
  import opened Convergence
  import opened IngressSync

  // The Ingress controller has just created the Distribution.
  function Created(ingress: Ingress, service: Option<seq<LoadBalancer>>, uid: string, acc: Account): World {
    World(uid, Sync(None, 0, ingress, service, NO_FAULTS, uid).0, acc)
  }

  lemma CreatedObject(ingress: Ingress, service: Option<seq<LoadBalancer>>, uid: string, acc: Account)
    requires Wanted(ingress, service).Some?
    ensures var obj := Created(ingress, service, uid, acc).obj;
      && obj.Some? && !obj.value.deleting && obj.value.status == EMPTY_STATUS
      && (obj.value.spec.tls.Some? <==> ingress.tls != [])
      && (ingress.tls != [] ==> obj.value.spec.hosts == ingress.tls[0].hosts)
  {
    WantedIff(ingress, service);
  }

  // Without a TLS entry the Distribution has no TLS block, and the first pass
  // over it crashes, whatever the services answer.
  lemma IngressWithoutTlsCrashes(ingress: Ingress, service: Option<seq<LoadBalancer>>, uid: string, acc: Account,
                                 i: Inputs)
    requires Wanted(ingress, service).Some? && ingress.tls == []
    requires i.lookup.ClassFound? && i.lookup.classSpec.cloudFront.Some?
    ensures Pass(PROVIDERS, Created(ingress, service, uid, acc), i).result == Crashed
  {
    CreatedObject(ingress, service, uid, acc);
    CrashIff(Created(ingress, service, uid, acc), i);
  }

  // A Distribution no healthy pass survives.
  predicate Crashing(w: World) {
    w.obj.Some? && !w.obj.value.deleting && w.obj.value.spec.tls.None? && !w.obj.value.status.ready
  }

  lemma RoundCrashes(w: World, i: Inputs, w': World, c: CloudFrontSpec, serial: nat)
    requires HealthyRound(w, i, w', c, serial) && Crashing(w)
    ensures Crashing(w') && Pass(PROVIDERS, DeployAll(w), i).result == Crashed
  {
    var d := DeployAll(w);
    CrashIff(d, i);
    ReconcilePassShape(d.(account := d.account.(calls := [])), i.lookup.classSpec, i);
  }

  lemma {:induction false} NeverReadyWithoutTls(ws: seq<World>, inputs: seq<Inputs>,
                                                c: CloudFrontSpec, serial: nat, k: nat)
    requires HealthyRun(ws, inputs, c, serial) && k <= |inputs| && Crashing(ws[0])
    ensures Crashing(ws[k])
    decreases k
  {
    hide *;
    if k == 0 {
    } else {
      NeverReadyWithoutTls(ws, inputs, c, serial, k - 1);
      RoundOf(ws, inputs, c, serial, k - 1);
      RoundCrashes(ws[k - 1], inputs[k - 1], ws[k], c, serial);
    }
  }

  // Three or more healthy passes over the Distribution of an Ingress end with
  // Ready exactly when the first TLS entry of the Ingress names a host.
  lemma IngressReadyIff(ingress: Ingress, service: Option<seq<LoadBalancer>>, uid: string, acc: Account,
                        ws: seq<World>, inputs: seq<Inputs>, c: CloudFrontSpec, serial: nat)
    requires Wanted(ingress, service).Some? && "" !in acc.cf && "" !in acc.acm
    requires HealthyRun(ws, inputs, c, serial) && |inputs| >= 3 && ws[0] == Created(ingress, service, uid, acc)
    ensures var end := ws[|inputs|];
      && end.obj.Some?
      && (end.obj.value.status.ready <==> ingress.tls != [] && ingress.tls[0].hosts != [])
      && (end.obj.value.status.ready ==> Steady(end, c, serial))
  {
    CreatedObject(ingress, service, uid, acc);
    if ingress.tls == [] {
      NeverReadyWithoutTls(ws, inputs, c, serial, |inputs|);
    } else {
      ReadyWithinThreeRoundsIff(ws, inputs, c, serial);
    }
  }
}
