/** PoolReconciler, NetworkReconciler and PCIDeviceReconciler of internal/controller/pool.go, network.go and
 *  pcidevice.go as part of the protocol: the finalizer, the guarded deletion and the readiness others rely on. The
 *  three take the same steps and differ in whom they list. When a pool is probed, and what a probe leaves behind, is
 *  the subject of PoolProbe. */
module ResourceController {
  import opened Common
  import opened Protocol
  import opened Preservation
  import opened Interference
  import opened Calls
  import opened Storage

  class ResourceReconciler {
    const c: Cluster

    constructor (c: Cluster)
      ensures this.c == c
    {
      this.c := c;
    }

    /** Lists the volumes and then the cloud-inits labelled with the pool; both answers belong to one window. */
    method ListCopies(me: Key, o: Object) returns (ok: bool, free: bool)
      requires c.Valid() && me.Pool? && Snapshot(c.w, me, o) && o.finalizer
      modifies c
      ensures c.Valid() && Snapshot(c.w, me, o)
      ensures ok ==> Deleting(me) in c.w.windows
      ensures ok && free && Deleting(me) !in c.w.overlapped ==> Referrers(c.w, me) == {}
      ensures c.sure ==> ok
      ensures c.alone ==> Undisturbed(me, old(c.w), c.w) && c.w.objs == old(c.w.objs) && c.hostCalls == old(c.hostCalls)
      ensures c.alone && ok ==> (free <==> Referrers(old(c.w), me) == {})
      ensures ok ==> c.missed == old(c.missed)
    {
      ghost var w0 := c.w;
      var reached;
      reached, ok := c.Attempt(me);
      SnapshotKept(me, w0, c.w, o);
      if !ok { return false, false; }
      c.Open(me, Deleting(me));
      var volumes := Overlays(c.w, me);
      ghost var w1 := c.w;
      reached, ok := c.Attempt(me);
      SnapshotKept(me, w1, c.w, o);
      if !ok { return false, false; }
      var inits := set o | o in Referrers(c.w, me) && o.Ci?;
      free := |volumes| + |inits| == 0;
      assert forall k :: k in Referrers(c.w, me) ==> k.Vol? || k.Ci? by {
        c.Sane();
        forall k | k in Referrers(c.w, me) ensures k.Vol? || k.Ci? { PoolReferrer(c.w, me, k); }
      }
      assert free && Deleting(me) !in c.w.overlapped ==>
          forall k :: k in Referrers(c.w, me) ==> k in volumes || k in inits;
      assert c.alone ==> Referrers(c.w, me) == Referrers(old(c.w), me);
      assert volumes == {} || (exists k :: k in volumes);
    }

    lemma PoolReferrer(w: World, me: Key, k: Key)
      requires Sound(w.objs, w.bound, w.clock) && me.Pool? && k in Referrers(w, me)
      ensures k.Vol? || k.Ci?
    {
      assert me in Mentions(w.objs[k].spec);
    }

    /** Lists the domains labelled with the network or PCI device. */
    method ListDomains(me: Key, o: Object) returns (ok: bool, free: bool)
      requires c.Valid() && IsDevice(me) && Snapshot(c.w, me, o) && o.finalizer
      modifies c
      ensures c.Valid() && Snapshot(c.w, me, o)
      ensures ok ==> Deleting(me) in c.w.windows
      ensures ok && free && Deleting(me) !in c.w.overlapped ==> Referrers(c.w, me) == {}
      ensures c.sure ==> ok
      ensures c.alone ==> Undisturbed(me, old(c.w), c.w) && c.w.objs == old(c.w.objs) && c.hostCalls == old(c.hostCalls)
      ensures c.alone && ok ==> (free <==> Referrers(old(c.w), me) == {})
      ensures ok ==> c.missed == old(c.missed)
    {
      ghost var w0 := c.w;
      var reached;
      reached, ok := c.Attempt(me);
      SnapshotKept(me, w0, c.w, o);
      if !ok { return false, false; }
      c.Open(me, Deleting(me));
      var domains := Domains(c.w, me);
      free := |domains| == 0;
      assert Referrers(c.w, me) == domains by {
        c.Sane();
        forall k | k in Referrers(c.w, me) ensures k.Dom? { DeviceReferrer(c.w, me, k); }
      }
      assert c.alone ==> Referrers(c.w, me) == Referrers(old(c.w), me);
    }

    lemma DeviceReferrer(w: World, me: Key, k: Key)
      requires Sound(w.objs, w.bound, w.clock) && IsDevice(me) && k in Referrers(w, me)
      ensures k.Dom?
    {
      assert me in Mentions(w.objs[k].spec);
    }

    /** Whether nobody is labelled with it; the answer belongs to the window this opens. */
    method ListReferrers(me: Key, o: Object) returns (ok: bool, free: bool)
      requires c.Valid() && IsProbed(me) && Snapshot(c.w, me, o) && o.finalizer
      modifies c
      ensures c.Valid() && Snapshot(c.w, me, o)
      ensures ok ==> Deleting(me) in c.w.windows
      ensures ok && free && Deleting(me) !in c.w.overlapped ==> Referrers(c.w, me) == {}
      ensures c.sure ==> ok
      ensures c.alone ==> Undisturbed(me, old(c.w), c.w) && c.w.objs == old(c.w.objs) && c.hostCalls == old(c.hostCalls)
      ensures c.alone && ok ==> (free <==> Referrers(old(c.w), me) == {})
      ensures ok ==> c.missed == old(c.missed)
    {
      if me.Pool? {
        ok, free := ListCopies(me, o);
      } else {
        ok, free := ListDomains(me, o);
      }
    }

    /** Lets the object go once nothing is labelled with it. */
    method Leave(me: Key, o: Object) returns (result: Outcome)
      requires c.Valid() && IsProbed(me) && Snapshot(c.w, me, o) && o.finalizer && o.deleting
      modifies c
      ensures c.Valid()
      ensures c.alone ==> Undisturbed(me, old(c.w), c.w) && c.hostCalls == old(c.hostCalls)
      ensures c.alone && result == Done ==> me !in c.w.objs && Referrers(old(c.w), me) == {}
      ensures c.alone && Referrers(old(c.w), me) != {} ==> result != Done && c.w.objs.Keys == old(c.w.objs.Keys)
      ensures c.sure && Current(old(c.w), me, o.version) ==>
                result == if Referrers(old(c.w), me) == {} then Done else Requeue
      ensures result == Done ==> c.missed == old(c.missed)
    {
      var ok, free := ListReferrers(me, o);
      if !ok { return Failed(CallFailed); }
      if !free {
        var noted, _ := c.Note(me, o);
        return if noted then Requeue else Failed(CallFailed);
      }
      ghost var w1 := c.w;
      var reached;
      reached, ok := c.Attempt(me);
      SnapshotKept(me, w1, c.w, o);
      if !reached { return Failed(CallFailed); }
      result := c.Remove(me, o, ok);
    }

    /** The probe: whether it exists on its host, and whether it is active there. */
    method Examine(me: Key, o: Object) returns (ready: bool)
      requires c.Valid() && Held(c.w, me, o)
      ensures ready <==> IsOffered(c.w, me, o)
    {
      match me
      case Pool(_) =>
        var at := PoolAt(o.spec.place);
        ready := at in c.w.offers && c.w.offers[at];
      case Net(_) =>
        var at := NetAt(o.spec.host, o.spec.name);
        ready := at in c.w.offers && c.w.offers[at];
      case Pci(_) =>
        var at := PciAt(o.spec.host, o.spec.name);
        ready := at in c.w.offers && c.w.offers[at];
    }

    /** What is known of an object that is not being deleted. */
    ghost static predicate Held(w: World, me: Key, o: Object) {
      && Snapshot(w, me, o) && o.finalizer && IsProbed(me)
      && Deleting(me) !in w.windows && Resizing(me) !in w.windows
    }

    /** One call on the way to the probe. */
    method Reach(me: Key, o: Object) returns (ok: bool)
      requires c.Valid() && IsProbed(me) && Held(c.w, me, o)
      modifies c
      ensures c.Valid() && Held(c.w, me, o)
      ensures c.alone ==> c.w == old(c.w) && c.hostCalls == old(c.hostCalls)
      ensures c.sure ==> ok
      ensures ok ==> c.missed == old(c.missed)
    {
      ghost var w0 := c.w;
      var reached;
      reached, ok := c.Attempt(me);
      SnapshotKept(me, w0, c.w, o);
    }

    /** Leaves the object unprobed and stops. */
    method GiveUp(me: Key, o: Object, result: Outcome) returns (stop: Outcome)
      requires c.Valid() && IsProbed(me) && Held(c.w, me, o) && result != Done
      modifies c
      ensures c.Valid() && stop != Done
      ensures c.alone ==> Undisturbed(me, old(c.w), c.w) && c.hostCalls == old(c.hostCalls)
      ensures c.alone ==> c.w.objs.Keys == old(c.w.objs.Keys)
    {
      var ok, _ := c.Note(me, o);
      stop := if ok then result else Failed(CallFailed);
    }

    /** The host object, a session, and the probe's calls; gives up at the first that fails. */
    method Contact(me: Key, o: Object) returns (stop: Option<Outcome>)
      requires c.Valid() && IsProbed(me) && Held(c.w, me, o)
      modifies c
      ensures c.Valid() && stop != Some(Done) && (stop.None? ==> Held(c.w, me, o))
      ensures c.alone ==> Undisturbed(me, old(c.w), c.w) && c.hostCalls == old(c.hostCalls)
      ensures c.alone ==> c.w.objs.Keys == old(c.w.objs.Keys) && (stop.None? ==> c.w == old(c.w))
      ensures c.sure ==> stop.None?
      ensures stop.None? || stop == Some(Done) ==> c.missed == old(c.missed)
    {
      var host := Reach(me, o);
      if !host {
        var result := GiveUp(me, o, Failed(CallFailed));
        return Some(result);
      }
      var session := Reach(me, o);
      if !session {
        var result := GiveUp(me, o, Requeue);
        return Some(result);
      }
      var answered := Reach(me, o);
      if !answered {
        var result := GiveUp(me, o, Failed(CallFailed));
        return Some(result);
      }
      stop := None;
    }

    /** The question whether what the object stands for is there and active. */
    method Probe(me: Key, resource: Object) returns (result: Outcome)
      requires c.Valid() && IsProbed(me) && Held(c.w, me, resource)
      modifies c
      ensures c.Valid()
      ensures c.alone ==> Undisturbed(me, old(c.w), c.w) && c.hostCalls == old(c.hostCalls)
      ensures c.alone ==> c.w.objs.Keys == old(c.w.objs.Keys)
      ensures c.alone && result == Done ==> me in c.w.objs && (c.w.objs[me].ready <==> IsOffered(c.w, me, c.w.objs[me]))
      ensures c.sure && old(Current(c.w, me, resource.version)) ==> result == Done
      ensures result == Done ==> c.missed == old(c.missed)
    {
      var ok, o := c.Note(me, resource);
      if !ok { return Failed(CallFailed); }
      var stop := Contact(me, o);
      if stop.Some? { return stop.value; }
      var ready := Examine(me, o);
      result := Publish(me, o, ready);
    }

    /** Ready is whether it exists and is active; what else the probe found and its end are a second update. */
    method Publish(me: Key, resource: Object, active: bool) returns (result: Outcome)
      requires c.Valid() && IsProbed(me) && Held(c.w, me, resource) && (active <==> IsOffered(c.w, me, resource))
      modifies c
      ensures c.Valid()
      ensures c.alone ==> Undisturbed(me, old(c.w), c.w) && c.hostCalls == old(c.hostCalls)
      ensures c.alone ==> c.w.objs.Keys == old(c.w.objs.Keys)
      ensures result == Done ==> me in c.w.objs && (c.w.objs[me].ready <==> old(IsOffered(c.w, me, resource)))
      ensures c.alone && result == Done ==> (c.w.objs[me].ready <==> IsOffered(c.w, me, c.w.objs[me]))
      ensures c.sure && old(Current(c.w, me, resource.version)) ==> result == Done
      ensures result == Done ==> c.missed == old(c.missed)
    {
      var ok, o := c.Report(me, resource, active, resource.place);
      if !ok { return Failed(CallFailed); }
      ok, o := c.Note(me, o);
      if c.alone && ok { OfferedStored(old(c.w), c.w, me, resource, o); }
      result := if ok then Done else Failed(CallFailed);
    }

    /** One reconcile; `due` tells whether the last probe is old enough for another. What something is labelled with
     *  stays; if the calls succeed, a deleted object goes exactly when nothing is, and one that is due is probed. */
    method Reconcile(me: Key, due: bool) returns (result: Outcome)
      requires c.Valid() && IsProbed(me) && Rested(c.w, me)
      modifies c
      ensures c.Valid() && Rested(c.w, me)
      ensures c.alone ==> SameWishes(old(c.w), c.w)
      ensures c.alone && old(Solo(c.w, me)) ==>
                c.w.overlapped == old(c.w.overlapped) && c.w.attaching == {} && c.w.windows == {}
      ensures c.alone ==> c.hostCalls == old(c.hostCalls)
      ensures c.alone && old(Referrers(c.w, me) != {}) && old(me in c.w.objs && c.w.objs[me].finalizer) ==>
                me in c.w.objs
      ensures c.alone && result == Done && old(me in c.w.objs && !c.w.objs[me].deleting) ==>
                me in c.w.objs && (c.w.objs[me].ready <==> IsOffered(c.w, me, c.w.objs[me]))
      ensures c.sure && old(me in c.w.objs && !c.w.objs[me].deleting) ==> result == if due then Done else Requeue
      ensures c.alone && result == Done && old(Leaving(c.w, me)) ==> me !in c.w.objs
      ensures c.sure && old(Leaving(c.w, me)) ==>
                && result == (if Referrers(old(c.w), me) == {} then Done else Requeue)
                && (result == Done ==> me !in c.w.objs)
      ensures result == Done ==> c.missed == old(c.missed)
    {
      result := Work(me, due);
      c.Close(me);
    }

    method Work(me: Key, due: bool) returns (result: Outcome)
      requires c.Valid() && IsProbed(me) && Rested(c.w, me)
      modifies c
      ensures c.Valid()
      ensures c.alone ==> Undisturbed(me, old(c.w), c.w) && c.hostCalls == old(c.hostCalls)
      ensures c.alone && old(Referrers(c.w, me) != {} && me in c.w.objs && c.w.objs[me].finalizer) ==> me in c.w.objs
      ensures c.alone && result == Done && old(me in c.w.objs && !c.w.objs[me].deleting) ==>
                me in c.w.objs && (c.w.objs[me].ready <==> IsOffered(c.w, me, c.w.objs[me]))
      ensures c.sure && old(me in c.w.objs && !c.w.objs[me].deleting) ==> result == if due then Done else Requeue
      ensures c.alone && result == Done && old(Leaving(c.w, me)) ==> me !in c.w.objs
      ensures c.sure && old(Leaving(c.w, me)) ==>
                && result == (if Referrers(old(c.w), me) == {} then Done else Requeue)
                && (result == Done ==> me !in c.w.objs)
      ensures result == Done ==> c.missed == old(c.missed)
    {
      var ok, found := c.Get(me);
      if !ok { return Failed(CallFailed); }
      if found.None? { return Done; }
      var resource := found.value;
      if resource.deleting {
        if !resource.finalizer { return Done; }
        result := Leave(me, resource);
        return;
      }
      result := Stay(me, resource, due);
    }

    /** The part of it for an object that is not being deleted. */
    method Stay(me: Key, resource: Object, due: bool) returns (result: Outcome)
      requires c.Valid() && IsProbed(me) && Snapshot(c.w, me, resource) && !resource.deleting
      requires Deleting(me) !in c.w.windows && Resizing(me) !in c.w.windows
      modifies c
      ensures c.Valid()
      ensures c.alone ==> Undisturbed(me, old(c.w), c.w) && c.hostCalls == old(c.hostCalls)
      ensures c.alone ==> c.w.objs.Keys == old(c.w.objs.Keys)
      ensures c.alone && result == Done ==>
                me in c.w.objs && (c.w.objs[me].ready <==> IsOffered(c.w, me, c.w.objs[me]))
      ensures c.sure && old(Current(c.w, me, resource.version)) ==> result == if due then Done else Requeue
      ensures result == Done ==> c.missed == old(c.missed)
    {
      var ok, o := Finalize(c, me, resource);
      if !ok { return Failed(CallFailed); }
      if !due { return Requeue; }
      result := Probe(me, o);
    }
  }

  /** The host has what the object stands for, and it is active. */
  predicate IsOffered(w: World, me: Key, o: Object) {
    && (me.Pool? ==> o.spec.PoolSpec? && PoolAt(o.spec.place) in w.offers && w.offers[PoolAt(o.spec.place)])
    && (me.Net? ==> o.spec.DeviceSpec? && var at := NetAt(o.spec.host, o.spec.name); at in w.offers && w.offers[at])
    && (me.Pci? ==> o.spec.DeviceSpec? && var at := PciAt(o.spec.host, o.spec.name); at in w.offers && w.offers[at])
  }

  lemma OfferedStored(w: World, n: World, me: Key, o: Object, stored: Object)
    requires n.offers == w.offers && IsProbed(me)
    requires Snapshot(n, me, stored) && stored.finalizer && stored.spec == o.spec
    ensures me in n.objs && (IsOffered(n, me, n.objs[me]) <==> IsOffered(w, me, o))
  {
    assert Core(n.objs[me].spec) == Core(o.spec);
  }
}
