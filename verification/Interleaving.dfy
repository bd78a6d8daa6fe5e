// The Distribution controller, the Ingress controller and users on one stored
// object, interleaved between any two API calls.
module Interleaving {
  import opened Types
  import opened ApiServer
  import opened StringSort
  import Aws
  import C = Controller
  import CloudFront
  import IngressSync

  // Where a Distribution pass is, with its local copy of the object.
  datatype DistributionPhase =
    | DIdle
    | Fetched(local: Object)
    | Worked(local: Object, status: DistributionStatus, release: bool)
    | Releasing(local: Object)

  datatype IngressPhase =
    | IIdle
    | Compared(seen: Option<Object>, wanted: DistributionSpec)

  // `intent` is the last spec a user or the Ingress controller wrote; `used`
  // the uids given out so far.
  datatype State = State(
    stored: Option<Object>,
    intent: DistributionSpec,
    used: set<string>,
    d: DistributionPhase,
    i: IngressPhase)

  datatype Step =
    // Distribution controller
    | DFetch
    | DAddFinalizer(fails: bool)
    | DReconcileProviders(status: DistributionStatus, sorts: bool)
    | DDeleteProviders(status: DistributionStatus, allDeleted: bool)
    | DWriteStatus(fails: bool)
    | DRemoveFinalizer(fails: bool)
    | DStop
    // Ingress controller
    | IFetch(wanted: DistributionSpec)
    | IWrite(fails: bool, uid: string, meta: Metadata)
    // users
    | UEdit(spec: DistributionSpec)
    | UAnnotate(meta: Metadata)
    | UDelete

  function Bump(o: Object): Object {
    o.(version := o.version + 1)
  }

  function Next(s: State, step: Step): State {
    match step
    case DFetch => if s.d.DIdle? && s.stored.Some? then s.(d := Fetched(s.stored.value)) else s
    case DAddFinalizer(fails) =>
      if s.d.Fetched? && !s.d.local.deleting && !s.d.local.finalizer then
        var local := s.d.local.(finalizer := true);
        var stored := Update(s.stored, local, fails);
        var fetched := if Accepted(s.stored, local, fails) && stored.Some? then stored.value else local;
        s.(stored := stored, d := Fetched(fetched))
      else s
    case DReconcileProviders(status, sorts) =>
      // Computing the desired aliases sorts the hosts of the local copy.
      if s.d.Fetched? && !s.d.local.deleting && s.d.local.finalizer then
        var spec := s.d.local.spec;
        var hosts := if sorts then Sorted(spec.hosts) else spec.hosts;
        s.(d := Worked(s.d.local.(spec := spec.(hosts := hosts)), status, false))
      else s
    case DDeleteProviders(status, allDeleted) =>
      if s.d.Fetched? && s.d.local.deleting && s.d.local.finalizer then s.(d := Worked(s.d.local, status, allDeleted))
      else s
    case DWriteStatus(fails) =>
      if s.d.Worked? then
        var stored := if s.d.status != s.d.local.status
                      then UpdateStatus(s.stored, s.d.local.(status := s.d.status), fails) else s.stored;
        s.(stored := stored, d := if s.d.release then Releasing(s.d.local) else DIdle)
      else s
    case DRemoveFinalizer(fails) =>
      if s.d.Releasing? then s.(stored := Update(s.stored, s.d.local.(finalizer := false), fails), d := DIdle) else s
    case DStop => s.(d := DIdle)
    case IFetch(wanted) => if s.i.IIdle? then s.(i := Compared(s.stored, wanted)) else s
    case IWrite(fails, uid, meta) =>
      if s.i.IIdle? then s
      else if s.i.seen.None? then
        if fails || s.stored.Some? || uid in s.used then s.(i := IIdle)
        else s.(stored := Some(Object(uid, 0, meta, false, false, s.i.wanted, EMPTY_STATUS)),
                intent := s.i.wanted, used := s.used + {uid}, i := IIdle)
      else if s.i.wanted == s.i.seen.value.spec then s.(i := IIdle)
      else
        var local := s.i.seen.value.(spec := s.i.wanted);
        s.(stored := Update(s.stored, local, fails), i := IIdle,
           intent := if Accepted(s.stored, local, fails) then s.i.wanted else s.intent)
    case UEdit(spec) =>
      if s.stored.Some? then s.(stored := Some(Bump(s.stored.value.(spec := spec))), intent := spec) else s
    case UAnnotate(meta) =>
      if s.stored.Some? then s.(stored := Some(Bump(s.stored.value.(meta := meta)))) else s
    case UDelete => s.(stored := RequestDeletion(s.stored))
  }

  function Run(s: State, steps: seq<Step>): State
    decreases steps
  {
    if steps == [] then s else Run(Next(s, steps[0]), steps[1..])
  }

  predicate IsDistributionStep(step: Step) {
    step.DFetch? || step.DAddFinalizer? || step.DReconcileProviders? || step.DDeleteProviders? ||
    step.DWriteStatus? || step.DRemoveFinalizer? || step.DStop?
  }

  predicate IsIngressStep(step: Step) {
    step.IFetch? || step.IWrite?
  }

  // ----- the invariant -----

  // A copy that is still current agrees with what is stored in the parts a
  // plain update would write back unchanged.
  predicate Current(s: State, local: Object) {
    && local.uid in s.used
    && (s.stored.Some? && s.stored.value.uid == local.uid ==>
          && local.version <= s.stored.value.version
          && (local.version == s.stored.value.version ==>
                local.meta == s.stored.value.meta && local.deleting == s.stored.value.deleting))
  }

  predicate Matching(s: State, local: Object) {
    s.stored.Some? && s.stored.value.uid == local.uid && s.stored.value.version == local.version
  }

  predicate Inv(s: State) {
    && (s.stored.Some? ==>
          s.stored.value.spec == s.intent && s.stored.value.uid in s.used && Settled(s.stored.value).Some?)
    && (s.d.Fetched? ==> Current(s, s.d.local) && (Matching(s, s.d.local) ==> s.d.local.spec == s.stored.value.spec))
    && (s.d.Worked? ==>
          && Current(s, s.d.local)
          && (s.d.release ==> s.d.local.deleting && (Matching(s, s.d.local) ==> s.d.local.spec == s.stored.value.spec)))
    && (s.d.Releasing? ==>
          && Current(s, s.d.local) && s.d.local.deleting
          && (Matching(s, s.d.local) ==> s.d.local.spec == s.stored.value.spec))
    && (s.i.Compared? && s.i.seen.Some? ==>
          && Current(s, s.i.seen.value)
          && (Matching(s, s.i.seen.value) ==> s.i.seen.value == s.stored.value))
  }

  lemma DistributionStepKeepsInv(s: State, step: Step)
    requires Inv(s) && IsDistributionStep(step)
    ensures Inv(Next(s, step))
  {
  }

  lemma OtherStepKeepsInv(s: State, step: Step)
    requires Inv(s) && !IsDistributionStep(step)
    ensures Inv(Next(s, step))
  {
  }

  lemma StepKeepsInv(s: State, step: Step)
    requires Inv(s)
    ensures Inv(Next(s, step))
  {
    if IsDistributionStep(step) { DistributionStepKeepsInv(s, step); } else { OtherStepKeepsInv(s, step); }
  }

  // A reconcile may sort the hosts of its own copy; the status write that follows
  // does not carry that order into the stored object.
  lemma SortedCopyIsNotStored(s: State, status: DistributionStatus, fails: bool)
    requires s.d.Fetched? && !s.d.local.deleting && s.d.local.finalizer && s.stored.Some?
    ensures var worked := Next(s, DReconcileProviders(status, true));
      var written := Next(worked, DWriteStatus(fails));
      && worked.d.Worked? && worked.d.local.spec == s.d.local.spec.(hosts := Sorted(s.d.local.spec.hosts))
      && written.stored.Some? && written.stored.value.spec == s.stored.value.spec
  {
  }

  // ----- no lost update, no fight -----

  // In every interleaving the stored spec is the last one a user or the Ingress
  // controller wrote.
  lemma {:induction false} SpecIsLastWritten(s: State, steps: seq<Step>)
    requires Inv(s)
    ensures Inv(Run(s, steps))
    ensures var end := Run(s, steps); end.stored.Some? ==> end.stored.value.spec == end.intent
    decreases steps
  {
    if steps == [] {
    } else {
      StepKeepsInv(s, steps[0]);
      SpecIsLastWritten(Next(s, steps[0]), steps[1..]);
    }
  }

  // Each writer leaves the others' part alone: the Distribution controller
  // never changes spec, metadata or the intent; neither the Ingress controller
  // nor a user changes status or finalizer of an object that stays.
  lemma WritersKeepApart(s: State, step: Step)
    requires Inv(s) && s.stored.Some? && Next(s, step).stored.Some?
    ensures var o, o' := s.stored.value, Next(s, step).stored.value;
      && o'.uid == o.uid
      && (IsDistributionStep(step) ==> o'.spec == o.spec && o'.meta == o.meta && o'.deleting == o.deleting)
      && (!IsDistributionStep(step) ==> o'.status == o.status && o'.finalizer == o.finalizer)
      && (IsIngressStep(step) ==> o'.meta == o.meta && o'.deleting == o.deleting)
    ensures IsDistributionStep(step) ==> Next(s, step).intent == s.intent
  {
  }

  // The Distribution controller alone lets an object go that has the
  // finalizer.
  lemma OnlyReleaseRemoves(s: State, step: Step)
    requires Inv(s) && s.stored.Some? && s.stored.value.finalizer && Next(s, step).stored.None?
    ensures step.DRemoveFinalizer? && s.stored.value.deleting
    ensures s.d.Releasing? && Matching(s, s.d.local)
  {
  }

  // While users do not edit the spec and the Ingress asks for the same, there
  // is nothing to fight over: the Ingress controller changes nothing, whatever
  // the Distribution controller does in between.
  predicate Agreed(s: State, wanted: DistributionSpec) {
    && Inv(s) && s.stored.Some? && s.intent == wanted
    && (s.i.Compared? ==> s.i.wanted == wanted)
  }

  lemma IngressIsQuiet(s: State, step: Step, wanted: DistributionSpec)
    requires Agreed(s, wanted) && IsIngressStep(step) && (step.IFetch? ==> step.wanted == wanted)
    ensures Next(s, step).stored == s.stored && Agreed(Next(s, step), wanted)
  {
  }

  // A uid is not given out twice.
  lemma {:induction false} GoneUidStaysGone(s: State, steps: seq<Step>, uid: string)
    requires Inv(s) && uid in s.used && (s.stored.Some? ==> s.stored.value.uid != uid)
    ensures var end := Run(s, steps); end.stored.Some? ==> end.stored.value.uid != uid
    decreases steps
  {
    if steps == [] {
    } else {
      StepKeepsInv(s, steps[0]);
      GoneUidStaysGone(Next(s, steps[0]), steps[1..], uid);
    }
  }

  lemma {:induction false} NoFight(s: State, steps: seq<Step>, wanted: DistributionSpec)
    requires Agreed(s, wanted)
    requires forall k :: 0 <= k < |steps| ==> !steps[k].UEdit? && (steps[k].IFetch? ==> steps[k].wanted == wanted)
    ensures var end := Run(s, steps); end.stored.Some? && end.stored.value.uid == s.stored.value.uid ==>
              end.stored.value.spec == wanted && end.intent == wanted
    decreases steps
  {
    if steps == [] {
    } else {
      var s', rest := Next(s, steps[0]), steps[1..];
      assert forall k :: 0 <= k < |rest| ==> rest[k] == steps[k + 1];
      StepKeepsInv(s, steps[0]);
      if s'.stored.Some? {
        if IsIngressStep(steps[0]) { IngressIsQuiet(s, steps[0], wanted); }
        WritersKeepApart(s, steps[0]);
        NoFight(s', rest, wanted);
      } else {
        GoneUidStaysGone(s', rest, s.stored.value.uid);
      }
    }
  }

  // ----- an undisturbed pass is one of these runs -----

  lemma RunCons(s: State, step: Step, rest: seq<Step>)
    ensures Run(s, [step] + rest) == Run(Next(s, step), rest)
  {
    assert ([step] + rest)[1..] == rest;
  }

  lemma RunTwo(s: State, a: Step, b: Step)
    ensures Run(s, [a, b]) == Next(Next(s, a), b)
  {
    assert [a, b] == [a] + [b] && [b] == [b] + [];
    RunCons(s, a, [b]);
    RunCons(Next(s, a), b, []);
  }

  lemma RunThree(s: State, a: Step, b: Step, c: Step)
    ensures Run(s, [a, b, c]) == Next(Next(Next(s, a), b), c)
  {
    assert [a, b, c] == [a] + [b, c];
    RunCons(s, a, [b, c]);
    RunTwo(Next(s, a), b, c);
  }

  lemma RunFour(s: State, a: Step, b: Step, c: Step, d: Step)
    ensures Run(s, [a, b, c, d]) == Next(Next(Next(Next(s, a), b), c), d)
  {
    assert [a, b, c, d] == [a] + [b, c, d];
    RunCons(s, a, [b, c, d]);
    RunThree(Next(s, a), b, c, d);
  }

  lemma ReconcileIsASchedule(s: State, ps: seq<C.CDNProvider>, w: C.World,
                             classSpec: DistributionClassSpec, i: C.Inputs)
    returns (steps: seq<Step>)
    requires s.d.DIdle? && s.stored == w.obj && w.obj.Some? && !w.obj.value.deleting
    ensures Run(s, steps) == s.(stored := C.ReconcilePass(ps, w, classSpec, i).world.obj)
    ensures forall k :: 0 <= k < |steps| ==> IsDistributionStep(steps[k])
  {
    var failing := i.answers.failing;
    var add := DAddFinalizer(Aws.OpAddFinalizer in failing);
    var write := DWriteStatus(Aws.OpWriteStatus in failing);
    var (stored, local) := C.EnsureFinalizer(w.obj, w.obj.value, i.answers);
    var fetched := Next(s, DFetch);
    var ready := if w.obj.value.finalizer then fetched else Next(fetched, add);
    assert ready == s.(stored := stored, d := Fetched(local));
    var cert := C.CertificateOf(local, i);
    var req := CloudFront.Request(classSpec, local.uid, local.spec, local.status.externalId, cert);
    var out := C.FirstWanting(ps, w.account, i.answers, req, local.status.(ready := true));
    var reset := local.spec.tls.Some? && i.cert.None?;
    if !reset && out.outcome.Panicked? {
      if w.obj.value.finalizer {
        steps := [DFetch, DStop];
        RunTwo(s, DFetch, DStop);
      } else {
        steps := [DFetch, add, DStop];
        RunThree(s, DFetch, add, DStop);
      }
    } else {
      var st := if reset then EMPTY_STATUS else if out.outcome.Failed? then out.status.(ready := false) else out.status;
      var work := DReconcileProviders(st, false);
      assert Next(Next(ready, work), write) == s.(stored := C.StoreStatus(stored, local, st, i.answers));
      if w.obj.value.finalizer {
        steps := [DFetch, work, write];
        RunThree(s, DFetch, work, write);
      } else {
        steps := [DFetch, add, work, write];
        RunFour(s, DFetch, add, work, write);
      }
    }
  }

  lemma DeleteIsASchedule(s: State, ps: seq<C.CDNProvider>, w: C.World, classSpec: DistributionClassSpec, i: C.Inputs)
    returns (steps: seq<Step>)
    requires s.d.DIdle? && s.stored == w.obj && w.obj.Some? && w.obj.value.deleting && w.obj.value.finalizer
    ensures Run(s, steps) == s.(stored := C.DeletePass(ps, w, classSpec, i).world.obj)
    ensures forall k :: 0 <= k < |steps| ==> IsDistributionStep(steps[k])
  {
    var failing, local := i.answers.failing, w.obj.value;
    var write := DWriteStatus(Aws.OpWriteStatus in failing);
    var remove := DRemoveFinalizer(Aws.OpRemoveFinalizer in failing);
    var req := CloudFront.Request(classSpec, local.uid, local.spec, local.status.externalId, None);
    var d := C.AllWanting(ps, i.answers, req, C.Deletion(w.account, local.status.(ready := false), false, false));
    if d.panicked {
      steps := [DFetch, DStop];
      RunTwo(s, DFetch, DStop);
    } else {
      var allDeleted := C.AnyWants(ps, classSpec) ==> IdsEmpty(d.status);
      var work := DDeleteProviders(d.status, allDeleted);
      if allDeleted {
        steps := [DFetch, work, write, remove];
        RunFour(s, DFetch, work, write, remove);
      } else {
        steps := [DFetch, work, write];
        RunThree(s, DFetch, work, write);
      }
    }
  }

  // What Controller.Pass does to the stored object, with any providers, is what
  // some schedule of the Distribution controller's steps does.
  lemma PassIsASchedule(s: State, ps: seq<C.CDNProvider>, w: C.World, i: C.Inputs) returns (steps: seq<Step>)
    requires s.d.DIdle? && s.stored == w.obj
    requires w.obj.Some? ==> Settled(w.obj.value).Some?
    ensures Run(s, steps) == s.(stored := C.Pass(ps, w, i).world.obj)
    ensures forall k :: 0 <= k < |steps| ==> IsDistributionStep(steps[k])
  {
    var w0 := w.(account := w.account.(calls := []));
    if w.obj.None? || !i.lookup.ClassFound? {
      steps := [];
    } else if !w.obj.value.deleting {
      steps := ReconcileIsASchedule(s, ps, w0, i.lookup.classSpec, i);
    } else {
      steps := DeleteIsASchedule(s, ps, w0, i.lookup.classSpec, i);
    }
  }

  // What the Ingress controller's pass does to the stored object, whatever read
  // or write of it fails, is what some schedule of its steps does.
  lemma SyncIsASchedule(s: State, ingress: IngressSync.Ingress, service: Option<seq<IngressSync.LoadBalancer>>,
                        faults: IngressSync.Faults, uid: string)
    returns (steps: seq<Step>)
    requires s.i.IIdle? && uid !in s.used
    ensures var end := Run(s, steps);
      && end.stored == IngressSync.Sync(s.stored, 0, ingress, service, faults, uid).0
      && end.d == s.d && end.i.IIdle?
    ensures forall k :: 0 <= k < |steps| ==> IsIngressStep(steps[k])
  {
    var wanted := IngressSync.Wanted(ingress, service);
    if wanted.None? || (faults.get && s.stored.Some?) {
      steps := [];
    } else {
      var fetch := IFetch(wanted.value);
      var write := IWrite(if s.stored.None? then faults.create else faults.update, uid, IngressSync.MetaFrom(ingress));
      steps := [fetch, write];
      RunTwo(s, fetch, write);
    }
  }

  // Runs start without an object and with both controllers idle.
  lemma LastWrittenFromStart(s: State, steps: seq<Step>)
    requires s.stored.None? && s.d.DIdle? && s.i.IIdle?
    ensures var end := Run(s, steps); Inv(end) && (end.stored.Some? ==> end.stored.value.spec == end.intent)
  {
    SpecIsLastWritten(s, steps);
  }
}
