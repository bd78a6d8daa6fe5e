// The Distribution controller's own loops and writes, proved to perform
// Controller.Pass on the stored object and the account.
module Reconciler {
  import opened Types
  import opened Aws
  import opened CloudFront
  import opened Controller
  import opened Clients
  import Providers
  import ProviderLoops

  class DistributionReconciler {
    const api: ApiClient
    const session: AwsSession
    const providers: seq<CDNProvider>

    constructor (api: ApiClient, session: AwsSession, providers: seq<CDNProvider>)
      ensures this.api == api && this.session == session && this.providers == providers
    {
      this.api, this.session, this.providers := api, session, providers;
    }

    ghost function TheWorld(uid: string): World
      reads api, session
    {
      World(uid, api.stored, session.account)
    }

    // One call of a provider through the interface.
    method RunReconcile(p: CDNProvider, req: Request, distro: DistroCopy, status: StatusObject)
      returns (outcome: Outcome)
      requires p.Wants(req.classSpec)
      requires req == Request(req.classSpec, distro.uid, distro.Spec(), distro.status.externalId, req.cert)
      modifies session, status, distro.hosts
      ensures Out(session.account, status.Value(), outcome) ==
              p.RunReconcile(old(session.account), session.answers, req, old(status.Value()))
    {
      if p.CloudFrontProvider? {
        outcome := Providers.ReconcileCloudFront(session, req.classSpec.cloudFront.value, distro, req.cert, status);
      } else {
        var out := p.reconcile(session.account, session.answers, req, status.Value());
        session.account := out.account;
        status.Assign(out.status);
        outcome := out.outcome;
      }
    }

    method RunDelete(p: CDNProvider, req: Request, distro: DistroCopy, status: StatusObject) returns (outcome: Outcome)
      requires p.Wants(req.classSpec)
      requires req == Request(req.classSpec, distro.uid, distro.Spec(), distro.status.externalId, None)
      modifies session, status
      ensures Out(session.account, status.Value(), outcome) ==
              p.RunDelete(old(session.account), session.answers, req, old(status.Value()))
    {
      if p.CloudFrontProvider? {
        outcome := Providers.DeleteCloudFront(session, req.classSpec.cloudFront.value, distro, status);
      } else {
        var out := p.delete(session.account, session.answers, req, status.Value());
        session.account := out.account;
        status.Assign(out.status);
        outcome := out.outcome;
      }
    }

    // The copy written carries the new status; the caller's copy, and so its
    // version, does not change.
    method UpdateStatus(newStatus: DistributionStatus, distro: DistroCopy)
      requires api.failing == session.answers.failing
      modifies api
      ensures api.stored == StoreStatus(old(api.stored), distro.Value(), newStatus, session.answers)
    {
      if newStatus != distro.status {
        api.UpdateStatus(distro.(status := newStatus), OpWriteStatus);
      }
    }

    method RequeueIfNotReady(result: Result, condition: bool) returns (result': Result)
      requires result.Returned? && result.after == 0
      ensures result' == result.(after := if !result.requeue && !condition then 1 else 0)
    {
      result' := result;
      if !result.requeue && !condition {
        result' := result'.(after := 1);
      }
    }

    method ReconcileProviders(classSpec: DistributionClassSpec, distro: DistroCopy, resolved: Option<nat>)
      returns (result: Result)
      requires api.failing == session.answers.failing
      modifies api, session, distro.hosts
      ensures var req := Request(classSpec, distro.uid, old(distro.Spec()), distro.status.externalId,
                                 if distro.tls.Some? then resolved else None);
        var out := FirstWanting(providers, old(session.account), session.answers, req, distro.status.(ready := true));
        var st := if out.outcome.Failed? then out.status.(ready := false) else out.status;
        if distro.tls.Some? && resolved.None? then
          && session.account == old(session.account) && result == Returned(false, 0, false)
          && api.stored == StoreStatus(old(api.stored), old(distro.Value()), EMPTY_STATUS, session.answers)
        else
          && session.account == out.account
          && if out.outcome.Panicked? then result == Crashed && api.stored == old(api.stored)
             else
               && result == RequeueIfNot(out.outcome.Failed?, st.ready)
               && api.stored == StoreStatus(old(api.stored), old(distro.Value()), st, session.answers)
    {
      var cert := None;
      if distro.tls.Some? {
        if resolved.None? {
          UpdateStatus(EMPTY_STATUS, distro);
          return Returned(false, 0, false);
        }
        cert := resolved;
      }
      var newStatus := new StatusObject(distro.status);
      newStatus.ready := true;
      result := Returned(false, 0, false);
      var req := Request(classSpec, distro.uid, distro.Spec(), distro.status.externalId, cert);
      ghost var acc, a, st0 := session.account, session.answers, newStatus.Value();
      ghost var out := FirstWanting(providers, acc, a, req, st0);
      var k := 0;
      var outcome := Done;
      while k < |providers|
        invariant 0 <= k <= |providers|
        invariant session.account == acc && newStatus.Value() == st0 && distro.Spec() == old(distro.Spec())
        invariant api.stored == old(api.stored)
        invariant FirstWanting(providers[k..], acc, a, req, st0) == out
        invariant outcome == Done
      {
        if providers[k].Wants(classSpec) {
          outcome := RunReconcile(providers[k], req, distro, newStatus);
          break;
        }
        assert providers[k..][1..] == providers[k + 1..];
        k := k + 1;
      }
      assert out == Out(session.account, newStatus.Value(), outcome);
      if outcome.Panicked? {
        return Crashed;
      }
      if outcome.Failed? {
        result := result.(requeue := true);
        newStatus.ready := false;
      }
      result := RequeueIfNotReady(result, newStatus.ready);
      // By now the shared hosts may have been sorted; a status write does not
      // carry them.
      UpdateStatus(newStatus.Value(), distro);
      ProviderLoops.StatusWriteIgnoresSpec(old(api.stored), distro.Value(), old(distro.Spec()), newStatus.Value(), a);
    }

    method DeleteProviders(classSpec: DistributionClassSpec, distro: DistroCopy)
      returns (allDeleted: bool, result: Result)
      requires api.failing == session.answers.failing
      modifies api, session
      ensures var req := Request(classSpec, distro.uid, distro.Spec(), distro.status.externalId, None);
        var d := AllWanting(providers, session.answers, req,
                            Deletion(old(session.account), distro.status.(ready := false), false, false));
        && session.account == d.account
        && if d.panicked then result == Crashed && !allDeleted && api.stored == old(api.stored)
           else
             && allDeleted == (AnyWants(providers, classSpec) ==> IdsEmpty(d.status))
             && result == RequeueIfNot(d.failed, allDeleted)
             && api.stored == StoreStatus(old(api.stored), distro.Value(), d.status, session.answers)
    {
      result := Returned(false, 0, false);
      var newStatus := new StatusObject(distro.status);
      newStatus.ready := false;
      allDeleted := true;
      var req := Request(classSpec, distro.uid, distro.Spec(), distro.status.externalId, None);
      ghost var a := session.answers;
      ghost var d := AllWanting(providers, a, req, Deletion(session.account, newStatus.Value(), false, false));
      for k := 0 to |providers|
        invariant api.stored == old(api.stored)
        invariant result.Returned? && result.after == 0 && !result.error
        invariant
          AllWanting(providers[k..], a, req, Deletion(session.account, newStatus.Value(), result.requeue, false)) == d
        invariant allDeleted == (AnyWants(providers[..k], classSpec) ==> IdsEmpty(newStatus.Value()))
      {
        assert providers[k..][1..] == providers[k + 1..];
        ProviderLoops.WantsSplit(providers, classSpec, k);
        if !providers[k].Wants(classSpec) {
          continue;
        }
        var outcome := RunDelete(providers[k], req, distro, newStatus);
        if outcome.Panicked? {
          return false, Crashed;
        }
        if outcome.Failed? {
          result := result.(requeue := true);
        }
        allDeleted := newStatus.externalId == "" && newStatus.externalCertificateId == "";
      }
      assert providers[..|providers|] == providers;
      result := RequeueIfNotReady(result, allDeleted);
      UpdateStatus(newStatus.Value(), distro);
    }

    // One pass. `lookup` and `resolved` are what the class reader and the
    // certificate resolver answer.
    method Reconcile(lookup: Lookup, resolved: Option<nat>, ghost uid: string) returns (result: Result)
      requires api.failing == session.answers.failing
      modifies api, session
      ensures PassOut(TheWorld(uid), result) ==
              Pass(providers, old(TheWorld(uid)), Inputs(lookup, resolved, session.answers))
    {
      session.Renew();
      var found, distro := api.Get();
      if !found || lookup.ClassMissing? {
        return Returned(false, 0, false);
      }
      if lookup.LookupFailed? {
        return Returned(false, 0, true);
      }
      if !distro.deleting {
        if !distro.finalizer {
          distro := distro.(finalizer := true);
          distro := api.Update(distro, OpAddFinalizer);
        }
        result := ReconcileProviders(lookup.classSpec, distro, resolved);
      } else if distro.finalizer {
        var allDeleted;
        allDeleted, result := DeleteProviders(lookup.classSpec, distro);
        if allDeleted {
          distro := distro.(finalizer := false);
          distro := api.Update(distro, OpRemoveFinalizer);
        }
      } else {
        return Returned(false, 0, false);
      }
    }
  }
}
