/** The cluster with one reconcile at a time, each of which may be cut short after any of its calls. */
module AtomicRuns {
  import opened Common
  import opened Protocol
  import opened Interference
  import opened Calls
  import opened Guarantees
  import VolumeController
  import CloudInitController
  import ResourceController
  import DomainController

  /** Something a user, a guest or a host does, or one reconcile. */
  datatype Job = Outside(event: Event) | Reconcile(key: Key)

  /** Nobody is in the middle of anything, and no deletion has coincided with a reference being made. */
  predicate Quiet(w: World) {
    w.attaching == {} && w.windows == {} && w.overlapped == {}
  }

  /** One job. What an earlier reconcile of the same object has left open is over by then. */
  method Do(c: Cluster, job: Job)
    requires c.Valid() && c.alone && Quiet(c.w)
    modifies c
    ensures c.Valid() && Quiet(c.w)
    ensures job.Outside? && Actor(job.event) == None ==>
              c.log == if Enabled(old(c.w), job.event) then old(c.log) + [job.event] else old(c.log)
  {
    match job
    case Outside(e) =>
      if Actor(e) == None && Enabled(c.w, e) {
        Frame(c.w, e);
        c.Perform(e);
      }
    case Reconcile(k) =>
      c.Close(k);
      var _ := ReconcileOne(c, k);
  }

  /** One reconcile of whatever kind; success means what its own reconciler promises, and that no call has failed. */
  method ReconcileOne(c: Cluster, k: Key) returns (result: Outcome)
    requires c.Valid() && c.alone && Quiet(c.w) && Rested(c.w, k)
    modifies c
    ensures c.Valid() && Quiet(c.w)
    ensures k.Vol? && result == Done ==> VolumeController.Fulfilled(old(c.w), c.w, k)
    ensures k.Ci? && result == Done ==> CloudInitController.Fulfilled(old(c.w), c.w, k)
    ensures k.Dom? && result == Done ==> DomainController.Fulfilled(old(c.w), c.w, k)
    ensures !k.Host? && result == Done && old(Leaving(c.w, k)) ==> k !in c.w.objs
    ensures result == Done ==> c.missed == old(c.missed)
  {
    match k
    case Vol(name) =>
      var r := new VolumeController.VolumeReconciler(c);
      result := r.Reconcile(name);
    case Ci(name) =>
      var r := new CloudInitController.CloudInitReconciler(c);
      var image: nat := *;
      result := r.Reconcile(name, image);
    case Dom(name) =>
      var r := new DomainController.DomainReconciler(c);
      result := r.Reconcile(name);
    case Host(_) =>
      result := Done;
    case _ =>
      var r := new ResourceController.ResourceReconciler(c);
      var due: bool := *;
      result := r.Reconcile(k, due);
  }

  /** Any jobs in any order, from the empty cluster: after every single call, those inside reconciles included, nothing
   *  dangles, backing descends, and pools are kept; and a volume is frozen while another one lies on it. */
  method Drive(jobs: seq<Job>) returns (c: Cluster)
    ensures fresh(c) && c.Valid() && Quiet(c.w)
    ensures forall i: nat :: i <= |c.log| ==> SafeAfter(c.log, i)
    ensures forall i: nat, q, p :: i <= |c.log| && StackedFrom(c.log, i, q, p) ==> FrozenFrom(c.log, i, p)
  {
    var sure: bool := *;
    c := new Cluster(true, sure);
    for i := 0 to |jobs|
      invariant fresh(c) && c.Valid() && c.alone && Quiet(c.w)
    {
      Do(c, jobs[i]);
    }
    forall i: nat | i <= |c.log|
      ensures SafeAfter(c.log, i)
    {
      SafeThroughout(c.log, i);
    }
    forall i: nat, q, p | i <= |c.log| && StackedFrom(c.log, i, q, p)
      ensures FrozenFrom(c.log, i, p)
    {
      FrozenThroughout(c.log, i, q, p);
    }
  }

  ghost predicate SafeAfter(log: seq<Event>, i: nat)
    requires i <= |log|
  {
    Run(INITIAL, log[..i]) && var w := After(INITIAL, log[..i]); NoDangling(w) && Descends(w) && PoolsKept(w)
  }
}
