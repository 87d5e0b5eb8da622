/** CloudInitReconciler of internal/controller/cloudinit.go. */
module CloudInitController {
  import opened Common
  import opened Protocol
  import opened Preservation
  import opened Interference
  import opened Calls
  import opened Storage

  class CloudInitReconciler {
    const c: Cluster

    constructor (c: Cluster)
      ensures this.c == c
    {
      this.c := c;
    }

    /** One reconcile; `image` is the size of what is to be put into the copy. */
    method Reconcile(name: string, image: nat) returns (result: Outcome)
      requires c.Valid() && Rested(c.w, Ci(name))
      modifies c
      ensures c.Valid() && Rested(c.w, Ci(name))
      ensures c.alone ==> SameWishes(old(c.w), c.w)
      ensures c.alone && old(Solo(c.w, Ci(name))) ==>
                c.w.overlapped == old(c.w.overlapped) && c.w.attaching == {} && c.w.windows == {}
      ensures c.alone && result == Done ==> Fulfilled(old(c.w), c.w, Ci(name))
      ensures c.alone && result == Done && old(Asked(c.w, Ci(name)) && !Present(c.w, Ci(name))) ==>
                var p := PathOf(old(c.w), Ci(name));
                p.Some? && p.value in c.w.volumes
                && MadeFrom(c.w.volumes[p.value], Ci(name), image, old(c.hostCalls), c.hostCalls)
      ensures c.alone && old(Reported(c.w, Ci(name))) ==> c.w.objs == old(c.w.objs)
      ensures c.alone && old(Asked(c.w, Ci(name)) && Present(c.w, Ci(name))) ==> c.hostCalls == old(c.hostCalls)
      ensures c.alone && old(IsReady(c.w, Ci(name)) && !PoolReady(c.w, Ci(name))) ==>
                c.w.objs == old(c.w.objs) && c.hostCalls == old(c.hostCalls)
      ensures c.sure && old(Ci(name) in c.w.objs && !PoolReady(c.w, Ci(name))) ==>
                result == old(PoolFault(c.w, Ci(name)))
      ensures c.alone && old(Leaving(c.w, Ci(name)) && PathOf(c.w, Ci(name)).Some?)
              && (result == Done || (c.sure && old(PoolReady(c.w, Ci(name))))) ==>
                Departed(old(c.w), c.w, Ci(name), old(c.hostCalls), c.hostCalls, result)
      ensures c.sure && old(PoolReady(c.w, Ci(name)) && Free(c.w, Ci(name))) ==> result == Done
      ensures c.alone && result == Done && old(Leaving(c.w, Ci(name))) ==> Ci(name) !in c.w.objs
      ensures result == Done ==> c.missed == old(c.missed)
    {
      result := Work(Ci(name), image);
      c.Close(Ci(name));
    }

    method Work(me: Key, image: nat) returns (result: Outcome)
      requires c.Valid() && me.Ci? && Rested(c.w, me)
      modifies c
      ensures c.Valid()
      ensures c.alone ==> Tidy(me, old(c.w), c.w)
      ensures c.alone && result == Done ==> Fulfilled(old(c.w), c.w, me)
      ensures c.alone && result == Done && old(Asked(c.w, me) && !Present(c.w, me)) ==>
                var p := PathOf(old(c.w), me);
                p.Some? && p.value in c.w.volumes
                && MadeFrom(c.w.volumes[p.value], me, image, old(c.hostCalls), c.hostCalls)
      ensures c.alone && old(Reported(c.w, me)) ==> c.w.objs == old(c.w.objs)
      ensures c.alone && old(Asked(c.w, me) && Present(c.w, me)) ==> c.hostCalls == old(c.hostCalls)
      ensures c.alone && old(IsReady(c.w, me) && !PoolReady(c.w, me)) ==>
                c.w.objs == old(c.w.objs) && c.hostCalls == old(c.hostCalls)
      ensures c.sure && old(me in c.w.objs && !PoolReady(c.w, me)) ==> result == old(PoolFault(c.w, me))
      ensures c.alone && old(Leaving(c.w, me) && PathOf(c.w, me).Some?)
              && (result == Done || (c.sure && old(PoolReady(c.w, me)))) ==>
                Departed(old(c.w), c.w, me, old(c.hostCalls), c.hostCalls, result)
      ensures c.sure && old(PoolReady(c.w, me) && Free(c.w, me)) ==> result == Done
      ensures c.alone && result == Done && old(Leaving(c.w, me)) ==> me !in c.w.objs
      ensures result == Done ==> c.missed == old(c.missed)
    {
      var stop, o, path, copy := Enter(c, me);
      if stop.Some? { return stop.value; }
      if c.alone { EnteredExactly(c, me, o, path, copy); }
      result := Act(me, o, path, copy, image);
    }

    method Act(me: Key, ci: Object, path: Path, copy: Option<Volume>, image: nat) returns (result: Outcome)
      requires c.Valid() && me.Ci? && Entered(c.w, me, ci, path, copy)
      modifies c
      ensures c.Valid()
      ensures c.alone ==> Tidy(me, old(c.w), c.w)
      ensures result == Done && !ci.deleting ==> path in c.w.volumes && IsReady(c.w, me)
      ensures result == Done && !ci.deleting ==>
                && c.w.volumes[path].owner == me
                && (c.w.volumes[path].filled <==> (copy.None? || copy.value.filled))
      ensures result == Done && !ci.deleting && copy.None? ==> Pool(ci.spec.pool) in c.w.objs[me].labels
      ensures c.alone && result == Done && !ci.deleting && copy.None? ==>
                MadeFrom(c.w.volumes[path], me, image, old(c.hostCalls), c.hostCalls)
      ensures c.alone && copy.Some? && !ci.deleting && ci.ready && ci.finalizer ==> c.w.objs == old(c.w.objs)
      ensures c.alone && copy.Some? && !ci.deleting ==> c.hostCalls == old(c.hostCalls)
      ensures c.alone && ci.deleting && ci.finalizer
              && (result == Done || (c.sure && old(Current(c.w, me, ci.version)))) ==>
                Departs(old(c.w), c.w, me, path, copy.Some?, old(c.hostCalls), c.hostCalls, result)
      ensures c.sure && old(Current(c.w, me, ci.version)) && (ci.deleting ==> Referrers(old(c.w), me) == {}) ==>
                result == Done
      ensures c.alone && result == Done && ci.deleting && ci.finalizer ==> me !in c.w.objs
      ensures result == Done ==> c.missed == old(c.missed)
    {
      if ci.deleting {
        if !ci.finalizer { return Done; }
        result := Dismiss(c, me, ci, path, copy);
        return;
      }
      result := Stay(me, ci, path, copy, image);
    }

    /** The part of it for a cloud-init that is not being deleted. */
    method Stay(me: Key, ci: Object, path: Path, copy: Option<Volume>, image: nat) returns (result: Outcome)
      requires c.Valid() && me.Ci? && Entered(c.w, me, ci, path, copy) && !ci.deleting
      modifies c
      ensures c.Valid()
      ensures c.alone ==> Tidy(me, old(c.w), c.w)
      ensures result == Done ==> path in c.w.volumes && IsReady(c.w, me)
      ensures result == Done ==>
                && c.w.volumes[path].owner == me
                && (c.w.volumes[path].filled <==> (copy.None? || copy.value.filled))
      ensures result == Done && copy.None? ==> Pool(ci.spec.pool) in c.w.objs[me].labels
      ensures c.alone && result == Done && copy.None? ==>
                MadeFrom(c.w.volumes[path], me, image, old(c.hostCalls), c.hostCalls)
      ensures c.alone && copy.Some? ==> c.hostCalls == old(c.hostCalls)
      ensures c.alone && copy.Some? && ci.ready && ci.finalizer ==> c.w.objs == old(c.w.objs)
      ensures c.sure && old(Current(c.w, me, ci.version)) ==> result == Done
      ensures result == Done ==> c.missed == old(c.missed)
    {
      var ok, o := Finalize(c, me, ci);
      if !ok { return Failed(CallFailed); }
      assert Placed(c.w, o, path) && CopyIs(c.w, me, path, copy);
      if copy.Some? {
        if !o.ready { ok, o := c.Report(me, o, true, Some(path.place)); }
        return if ok then Done else Failed(CallFailed);
      }
      ghost var w1 := c.w;
      result := Create(me, o, path, image);
      if c.alone { TidyAfter(me, old(c.w), w1, c.w); }
    }

    /** Builds the image, creates and fills the copy, and only then labels the pool. */
    method Create(me: Key, ci: Object, path: Path, image: nat) returns (result: Outcome)
      requires c.Valid() && me.Ci? && Making(c.w, me, ci, path)
      modifies c
      ensures c.Valid()
      ensures c.alone ==> Tidy(me, old(c.w), c.w)
      ensures c.sure && old(Current(c.w, me, ci.version)) ==> result == Done
      ensures result == Done ==> path in c.w.volumes && c.w.volumes[path].owner == me && c.w.volumes[path].filled
      ensures c.alone && result == Done ==> MadeFrom(c.w.volumes[path], me, image, old(c.hostCalls), c.hostCalls)
      ensures result == Done ==> path in c.w.volumes && IsReady(c.w, me) && Pool(ci.spec.pool) in c.w.objs[me].labels
      ensures result == Done ==> c.missed == old(c.missed)
    {
      var size := image;
      if size < 2048 { size := 2048; }
      var ok, o := true, ci;
      result := Make(me, o, path, size);
      if result != Done {
        ok, o := c.Report(me, o, false, o.place);
        return;
      }
      result := Publish(me, o, path);
    }

    /** The pool's label and the condition, once the copy is filled. */
    method Publish(me: Key, ci: Object, path: Path) returns (result: Outcome)
      requires c.Valid() && me.Ci? && Snapshot(c.w, me, ci) && ci.finalizer && Placed(c.w, ci, path)
      requires path in c.w.volumes && c.w.volumes[path].owner == me && Touches(c.w, me, Pool(ci.spec.pool))
      requires Deleting(me) !in c.w.windows && Resizing(me) !in c.w.windows
      modifies c
      ensures c.Valid()
      ensures c.alone ==> Tidy(me, old(c.w), c.w)
      ensures c.sure && old(Current(c.w, me, ci.version)) ==> result == Done
      ensures path in c.w.volumes && c.w.volumes[path].owner == me
      ensures c.w.volumes[path] == old(c.w.volumes[path])
      ensures c.alone ==> c.hostCalls == old(c.hostCalls)
      ensures result == Done ==> path in c.w.volumes && IsReady(c.w, me) && Pool(ci.spec.pool) in c.w.objs[me].labels
      ensures result == Done ==> c.missed == old(c.missed)
    {
      var ok, o := LabelPool(me, ci, path);
      if !ok { return Failed(CallFailed); }
      ok, o := c.Report(me, o, true, Some(path.place));
      result := if ok then Done else Failed(CallFailed);
    }

    method LabelPool(me: Key, o: Object, path: Path) returns (ok: bool, stored: Object)
      requires c.Valid() && me.Ci? && Snapshot(c.w, me, o) && o.finalizer && Placed(c.w, o, path)
      requires path in c.w.volumes && c.w.volumes[path].owner == me && Touches(c.w, me, Pool(o.spec.pool))
      requires Deleting(me) !in c.w.windows && Resizing(me) !in c.w.windows
      modifies c
      ensures c.Valid() && path in c.w.volumes && c.w.volumes[path].owner == me
      ensures c.w.volumes[path] == old(c.w.volumes[path])
      ensures Pool(o.spec.pool) in o.labels ==> ok && stored == o && c.w == old(c.w)
      ensures c.alone ==> c.hostCalls == old(c.hostCalls)
      ensures ok ==> Snapshot(c.w, me, stored) && stored.finalizer && Placed(c.w, stored, path)
                     && stored.spec == o.spec && Pool(o.spec.pool) in stored.labels
      ensures c.sure && old(Current(c.w, me, o.version)) ==> ok && Current(c.w, me, stored.version)
      ensures c.alone ==> Tidy(me, old(c.w), c.w)
      ensures ok ==> c.missed == old(c.missed)
    {
      if Pool(o.spec.pool) in o.labels { return true, o; }
      ok, stored := c.Update(me, o, AddLabel(me, o.version, Pool(o.spec.pool)));
    }

    /** One call while a copy is being prepared. */
    method Prepare(me: Key, o: Object, path: Path) returns (reached: bool, ok: bool)
      requires c.Valid() && me.Ci? && Making(c.w, me, o, path)
      modifies c
      ensures c.Valid() && Making(c.w, me, o, path)
      ensures ok ==> reached
      ensures c.sure ==> ok
      ensures c.alone ==> c.w == old(c.w) && c.hostCalls == old(c.hostCalls)
      ensures ok ==> c.missed == old(c.missed)
    {
      ghost var w0 := c.w;
      reached, ok := c.Attempt(me);
      SnapshotKept(me, w0, c.w, o);
      MakingKept(me, w0, c.w, o, o, path);
    }

    /** The image file, the copy and the upload. */
    method Make(me: Key, o: Object, path: Path, size: nat) returns (result: Outcome)
      requires c.Valid() && me.Ci? && Making(c.w, me, o, path)
      modifies c
      ensures c.Valid() && Snapshot(c.w, me, o)
      ensures result == Done ==> path in c.w.volumes && Standing(c.w, me, o, path, c.w.volumes[path])
                                 && c.w.volumes[path].filled && c.w.volumes[path].bytes == size
                                 && Touches(c.w, me, Pool(o.spec.pool))
                                 && Deleting(me) !in c.w.windows && Resizing(me) !in c.w.windows
      ensures c.alone && result == Done ==>
                c.hostCalls ==
                  old(c.hostCalls) + [CreateVolume(me, c.w.volumes[path].kind, size, None), Upload(me, size)]
      ensures result == Done ==> c.w.volumes[path].backing == None
      ensures c.sure ==> result == Done
      ensures c.alone ==> Tidy(me, old(c.w), c.w) && c.w.objs == old(c.w.objs)
      ensures result == Done ==> c.missed == old(c.missed)
    {
      var kind: Kind := *;
      var image := c.Try();
      if !image { return Failed(CallFailed); }
      var reached, ok := Prepare(me, o, path);
      if reached { Spawn(c, me, o, path, kind, size, None); }
      if !ok { return Failed(CallFailed); }
      result := Send(c, me, o, path, c.w.volumes[path], size);
    }
  }

  /** The object is stored and not being deleted. */
  predicate Asked(w: World, me: Key) {
    me in w.objs && w.objs[me].spec.CloudInitSpec? && !w.objs[me].deleting
  }

  /** There is a copy, and it is reported. */
  predicate Reported(w: World, me: Key) {
    Asked(w, me) && Present(w, me) && w.objs[me].ready && w.objs[me].finalizer
  }

  /** A copy made from an image of that size: at least 2048 bytes, created on nothing and then uploaded. */
  predicate MadeFrom(v: Volume, me: Key, image: nat, before: seq<Event>, after: seq<Event>) {
    && v.bytes == (if image < 2048 then 2048 else image) && v.filled && v.backing.None?
    && after == before + [CreateVolume(me, v.kind, v.bytes, None), Upload(me, v.bytes)]
  }

  /** The object stored in `w` has a copy of its own in `n` and is ready; the reconcile has filled the copy, and
   *  labelled the pool, if there was none before, and has left a copy it found as filled, or not, as it was. */
  ghost predicate Fulfilled(w: World, n: World, me: Key) {
    Asked(w, me) ==>
      && IsReady(n, me) && PathOf(w, me).Some?
      && var p := PathOf(w, me).value;
      && p in n.volumes && n.volumes[p].owner == me
      && (n.volumes[p].filled <==> (!Present(w, me) || w.volumes[p].filled))
      && (!Present(w, me) ==> Pool(w.objs[me].spec.pool) in n.objs[me].labels)
  }
}
