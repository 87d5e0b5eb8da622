/** The calls the volume and cloud-init reconcilers share: resolving the pool, looking the host copy up, taking the
 *  finalizer, deleting the copy and letting the object go. */
module Storage {
  import opened Common
  import opened Protocol
  import opened Preservation
  import opened Interference
  import opened Calls

  /** The copy's path follows from the reconcile's own object. */
  ghost predicate Placed(w: World, o: Object, path: Path) {
    && (o.spec.VolumeSpec? || o.spec.CloudInitSpec?)
    && o.spec.pool in w.bound && path == Path(w.bound[o.spec.pool], o.spec.name)
  }

  /** `copy` is what the host holds for `me`, up to nothing. */
  ghost predicate CopyIs(w: World, me: Key, path: Path, copy: Option<Volume>) {
    match copy
    case Some(v) => path in w.volumes && w.volumes[path] == v && v.owner == me
    case None => forall p :: p in w.volumes ==> w.volumes[p].owner != me
  }

  /** The reconcile's copy of its object still stands for the stored one. */
  ghost predicate Alive(w: World, me: Key, o: Object) {
    me in w.objs && (w.objs[me].version == o.version || o.finalizer)
  }

  lemma PathKnown(w: World, me: Key, o: Object, path: Path)
    requires IsStorage(me) && Snapshot(w, me, o) && Alive(w, me, o) && Placed(w, o, path)
    ensures PathOf(w, me) == Some(path)
  {
    assert Core(w.objs[me].spec) == Core(o.spec);
  }

  /** Whoever looks up its path finds its own copy or none. */
  lemma FoundCopy(w: World, me: Key, o: Object, path: Path)
    requires Inv(w) && IsStorage(me) && Snapshot(w, me, o) && Placed(w, o, path) && Alive(w, me, o)
    ensures CopyIs(w, me, path, if path in w.volumes then Some(w.volumes[path]) else None)
  {
    PathKnown(w, me, o, path);
    if path in w.volumes { OwnerAt(w, me); }
  }

  /** Without a copy of its own, the path is free: nobody else may claim it. */
  lemma FreePath(w: World, me: Key, o: Object, path: Path)
    requires Inv(w) && IsStorage(me) && Snapshot(w, me, o) && o.finalizer && Placed(w, o, path)
    requires CopyIs(w, me, path, None)
    ensures PathOf(w, me) == Some(path) && path !in w.volumes
  {
    PathKnown(w, me, o, path);
    if path in w.volumes { OwnerAt(w, me); }
  }

  /** The object is stored, and its pool is ready. */
  predicate PoolReady(w: World, me: Key) {
    && me in w.objs && (w.objs[me].spec.VolumeSpec? || w.objs[me].spec.CloudInitSpec?)
    && Pool(w.objs[me].spec.pool) in w.objs && w.objs[Pool(w.objs[me].spec.pool)].ready
  }

  /** What a reconcile says about a pool that is missing or not ready. */
  function PoolFault(w: World, me: Key): Outcome
    requires me in w.objs
  {
    if (w.objs[me].spec.VolumeSpec? || w.objs[me].spec.CloudInitSpec?) && Pool(w.objs[me].spec.pool) in w.objs
    then Requeue else Failed(NotFound)
  }

  datatype PoolRead = Unknown | NotReady | Ready(place: Place)

  /** resolveRefs: the pool's object. A ready pool is about to be referred to. */
  method ReadPool(c: Cluster, me: Key, o: Object) returns (found: Option<Object>)
    requires c.Valid() && IsStorage(me) && Snapshot(c.w, me, o)
    modifies c
    ensures c.Valid() && Onward(me, old(c.w), c.w) && Snapshot(c.w, me, o)
    ensures found.Some? ==> found.value.spec.PoolSpec? && Placed(c.w, o, Path(found.value.spec.place, o.spec.name))
    ensures found.Some? && found.value.ready ==> Edge(me, Pool(o.spec.pool)) in c.w.attaching
    ensures c.alone && found.Some? ==>
              Pool(o.spec.pool) in old(c.w.objs) && found.value == old(c.w.objs)[Pool(o.spec.pool)]
    ensures c.sure ==> (found.Some? <==> Pool(o.spec.pool) in old(c.w.objs))
    ensures c.sure && Pool(o.spec.pool) in old(c.w.objs) ==> found == Some(old(c.w.objs)[Pool(o.spec.pool)])
    ensures c.alone ==> Undisturbed(me, old(c.w), c.w) && c.w.objs == old(c.w.objs) && c.hostCalls == old(c.hostCalls)
    ensures found.Some? ==> c.missed == old(c.missed)
  {
    ghost var w0 := c.w;
    var reached, ok := c.Attempt(me);
    SnapshotKept(me, w0, c.w, o);
    var key := Pool(o.spec.pool);
    if !ok || key !in c.w.objs { return None; }
    var pool := c.w.objs[key];
    assert pool.spec.PoolSpec? && o.spec.pool in c.w.bound && pool.spec.place == c.w.bound[o.spec.pool]
           && (pool.ready ==> pool.finalizer) by {
      c.Sane();
      assert c.w.objs[key].ready ==> StatusOk(key, c.w.objs[key], c.w.bound);
    }
    if pool.ready {
      ghost var w1 := c.w;
      c.Refer(me, key);
      Chain(me, w0, w1, c.w);
    }
    found := Some(pool);
  }

  /** resolveRefs and the pool's condition. */
  method ResolvePool(c: Cluster, me: Key, o: Object) returns (r: PoolRead)
    requires c.Valid() && IsStorage(me) && Snapshot(c.w, me, o)
    modifies c
    ensures c.Valid() && Onward(me, old(c.w), c.w) && Snapshot(c.w, me, o)
    ensures r.Ready? ==> Placed(c.w, o, Path(r.place, o.spec.name)) && Edge(me, Pool(o.spec.pool)) in c.w.attaching
    ensures c.alone && r.Ready? ==> Pool(o.spec.pool) in old(c.w.objs) && old(c.w.objs)[Pool(o.spec.pool)].ready
    ensures c.sure ==> (r.Unknown? <==> Pool(o.spec.pool) !in old(c.w.objs))
    ensures c.sure && Pool(o.spec.pool) in old(c.w.objs) && old(c.w.objs)[Pool(o.spec.pool)].ready ==> r.Ready?
    ensures c.alone ==> Undisturbed(me, old(c.w), c.w) && c.w.objs == old(c.w.objs) && c.hostCalls == old(c.hostCalls)
    ensures !r.Unknown? ==> c.missed == old(c.missed)
  {
    ghost var w0 := c.w;
    var pool := ReadPool(c, me, o);
    if pool.None? { return Unknown; }
    ghost var w1 := c.w;
    var reached, ok := c.Attempt(me);
    SnapshotKept(me, w1, c.w, o);
    Chain(me, w0, w1, c.w);
    if !ok { return Unknown; }
    if !pool.value.ready { return NotReady; }
    r := Ready(pool.value.spec.place);
  }

  /** One call about the copy: what is there if it goes through. */
  method Glance(c: Cluster, me: Key, o: Object, path: Path) returns (ok: bool, copy: Option<Volume>)
    requires c.Valid() && IsStorage(me) && Snapshot(c.w, me, o) && Placed(c.w, o, path)
    modifies c
    ensures c.Valid() && Onward(me, old(c.w), c.w) && Snapshot(c.w, me, o) && Placed(c.w, o, path)
    ensures Alive(c.w, me, o) ==> CopyIs(c.w, me, path, copy)
    ensures c.sure ==> ok
    ensures c.alone ==> c.w == old(c.w) && c.hostCalls == old(c.hostCalls)
    ensures copy == if path in c.w.volumes then Some(c.w.volumes[path]) else None
    ensures ok ==> c.missed == old(c.missed)
  {
    ghost var w0 := c.w;
    var reached;
    reached, ok := c.Attempt(me);
    SnapshotKept(me, w0, c.w, o);
    copy := if path in c.w.volumes then Some(c.w.volumes[path]) else None;
    assert Alive(c.w, me, o) ==> CopyIs(c.w, me, path, copy) by {
      c.Sane();
      if Alive(c.w, me, o) { FoundCopy(c.w, me, o, path); }
    }
  }

  /** NewVolumeAction: looks up pool, volume and its description. */
  method Locate(c: Cluster, me: Key, o: Object, path: Path) returns (ok: bool, copy: Option<Volume>)
    requires c.Valid() && IsStorage(me) && Snapshot(c.w, me, o) && Placed(c.w, o, path)
    modifies c
    ensures c.Valid() && Onward(me, old(c.w), c.w) && Snapshot(c.w, me, o)
    ensures ok && Alive(c.w, me, o) ==> CopyIs(c.w, me, path, copy)
    ensures c.sure ==> ok
    ensures c.alone ==> c.w == old(c.w) && c.hostCalls == old(c.hostCalls)
    ensures ok ==> c.missed == old(c.missed)
  {
    ghost var w0 := c.w;
    var pool, listed := Glance(c, me, o, path);
    if !pool { return false, None; }
    ghost var w1 := c.w;
    ok, copy := Glance(c, me, o, path);
    Chain(me, w0, w1, c.w);
    if !ok || copy.None? { return; }
    ghost var w2 := c.w;
    ok, copy := Glance(c, me, o, path);
    Chain(me, w0, w2, c.w);
    if copy.None? { ok := false; }
  }

  /** Takes the finalizer unless it is already on. */
  method Finalize(c: Cluster, me: Key, o: Object) returns (ok: bool, stored: Object)
    requires c.Valid() && IsReconciler(me) && Snapshot(c.w, me, o) && !o.deleting
    modifies c
    ensures c.Valid() && Onward(me, old(c.w), c.w)
    ensures ok ==> old(Alive(c.w, me, o)) && Snapshot(c.w, me, stored) && stored.finalizer
    ensures ok ==> stored == o.(version := stored.version, finalizer := true)
    ensures o.finalizer ==> ok && stored == o && c.w == old(c.w)
    ensures c.sure && old(Current(c.w, me, o.version)) ==> ok && Current(c.w, me, stored.version)
    ensures c.alone ==> Undisturbed(me, old(c.w), c.w) && c.w.objs.Keys == old(c.w.objs.Keys)
    ensures c.alone ==> c.hostCalls == old(c.hostCalls) && c.looks == old(c.looks)
    ensures ok ==> c.missed == old(c.missed)
  {
    if o.finalizer {
      Staying(me, c.w);
      return true, o;
    }
    ok, stored := c.Update(me, o, AddFinalizer(me, o.version));
  }

  /** Lists who refers to `me`: for a volume other volumes, then for both kinds domains. The answer is only good inside
   *  the deletion window. */
  method ListReferrers(c: Cluster, me: Key, o: Object) returns (ok: bool, free: bool)
    requires c.Valid() && IsStorage(me) && Snapshot(c.w, me, o) && o.finalizer
    modifies c
    ensures c.Valid() && HostKept(me, old(c.w), c.w) && Snapshot(c.w, me, o)
    ensures forall p :: p in old(c.w.bound) ==> p in c.w.bound && c.w.bound[p] == old(c.w.bound)[p]
    ensures ok ==> Deleting(me) in c.w.windows
    ensures ok && free && Deleting(me) !in c.w.overlapped ==> Referrers(c.w, me) == {}
    ensures c.sure ==> ok
    ensures c.alone && ok ==> (free <==> Referrers(old(c.w), me) == {})
    ensures c.alone ==> Undisturbed(me, old(c.w), c.w) && c.w.objs == old(c.w.objs) && c.hostCalls == old(c.hostCalls)
    ensures ok ==> c.missed == old(c.missed)
  {
    ghost var w0 := c.w;
    var reached;
    var volumes := {};
    if me.Vol? {
      reached, ok := c.Attempt(me);
      SnapshotKept(me, w0, c.w, o);
      if !ok { return false, false; }
      c.Open(me, Deleting(me));
      volumes := Overlays(c.w, me);
    }
    ghost var w1 := c.w;
    reached, ok := c.Attempt(me);
    SnapshotKept(me, w1, c.w, o);
    if !ok { return false, false; }
    if me.Ci? { c.Open(me, Deleting(me)); }
    var domains := Domains(c.w, me);
    free := |volumes| + |domains| == 0;
    Kinds(c, me);
    NobodyListed(c.w, me, volumes);
    assert c.alone ==> Referrers(c.w, me) == Referrers(old(c.w), me);
  }

  lemma NobodyListed(w: World, me: Key, volumes: set<Key>)
    requires forall k :: k in Referrers(w, me) ==> k.Dom? || (me.Vol? && k.Vol?)
    ensures |volumes| + |Domains(w, me)| == 0 && (Overlays(w, me) <= volumes || !me.Vol?) ==> Referrers(w, me) == {}
    ensures Referrers(w, me) == {} && volumes <= Overlays(w, me) ==> |volumes| + |Domains(w, me)| == 0
    ensures volumes == {} || (exists k :: k in volumes)
  {
  }

  lemma Kinds(c: Cluster, me: Key)
    requires c.Valid() && IsStorage(me)
    ensures forall k :: k in Referrers(c.w, me) ==> k.Dom? || (me.Vol? && k.Vol?)
  {
    c.Sane();
    forall k | k in Referrers(c.w, me)
      ensures k.Dom? || (me.Vol? && k.Vol?)
    {
      ReferrerKinds(c.w, me, k);
    }
  }

  lemma ReferrerKinds(w: World, me: Key, k: Key)
    requires Sound(w.objs, w.bound, w.clock) && IsStorage(me) && k in Referrers(w, me)
    ensures k.Dom? || (me.Vol? && k.Vol?)
  {
    assert me in Mentions(w.objs[k].spec);
  }

  /** The protected deletion of an existing copy; leaves the deletion window open. */
  method DeleteCopy(c: Cluster, me: Key, o: Object, path: Path, copy: Volume) returns (error: Option<Error>)
    requires c.Valid() && IsStorage(me) && Snapshot(c.w, me, o) && o.finalizer && o.deleting
    requires Placed(c.w, o, path) && CopyIs(c.w, me, path, Some(copy))
    modifies c
    ensures c.Valid()
    ensures error.None? ==> Snapshot(c.w, me, o) && Placed(c.w, o, path)
    ensures error.None? ==> Deleting(me) in c.w.windows && CopyIs(c.w, me, path, None)
    ensures c.alone ==> Tidy(me, old(c.w), c.w) && c.w.domains == old(c.w.domains)
    ensures c.alone ==> c.w.volumes == old(c.w.volumes) || c.w.volumes == old(c.w.volumes) - {path}
    ensures c.alone && error.None? ==> c.w.objs == old(c.w.objs)
    ensures c.sure && (old(Current(c.w, me, o.version)) || Referrers(old(c.w), me) == {}) ==>
              error == if Referrers(old(c.w), me) == {} then None else Some(VolumeInUse)
    ensures c.alone && error.None? ==>
              Referrers(old(c.w), me) == {} && c.hostCalls == old(c.hostCalls) + [DeleteVolume(me)]
              && c.w.volumes == old(c.w.volumes) - {path}
    ensures c.alone && error == Some(VolumeInUse) ==>
              Referrers(old(c.w), me) != {} && c.hostCalls == old(c.hostCalls)
              && c.w.volumes == old(c.w.volumes) && c.w.objs.Keys == old(c.w.objs.Keys)
    ensures error.None? ==> c.missed == old(c.missed)
  {
    var ok, free := ListReferrers(c, me, o);
    if !ok { return Some(CallFailed); }
    if !free {
      var noted, _ := c.Note(me, o);
      return Some(if noted then VolumeInUse else CallFailed);
    }
    error := Erase(c, me, o, path, copy);
  }

  /** StorageVolDelete, once nobody has been found to refer to the copy. */
  method Erase(c: Cluster, me: Key, o: Object, path: Path, copy: Volume) returns (error: Option<Error>)
    requires c.Valid() && IsStorage(me) && Snapshot(c.w, me, o) && o.finalizer && o.deleting
    requires Placed(c.w, o, path) && CopyIs(c.w, me, path, Some(copy)) && Deleting(me) in c.w.windows
    requires Deleting(me) !in c.w.overlapped ==> Referrers(c.w, me) == {}
    modifies c
    ensures c.Valid()
    ensures error.None? ==> Snapshot(c.w, me, o) && Placed(c.w, o, path)
    ensures error.None? ==> Deleting(me) in c.w.windows && CopyIs(c.w, me, path, None)
    ensures c.alone ==> c.w == old(c.w).(volumes := c.w.volumes)
    ensures c.alone ==> c.w.volumes == old(c.w.volumes) || c.w.volumes == old(c.w.volumes) - {path}
    ensures c.alone && error.None? ==>
              c.hostCalls == old(c.hostCalls) + [DeleteVolume(me)] && c.w.volumes == old(c.w.volumes) - {path}
    ensures error.None? || error == Some(CallFailed)
    ensures c.sure ==> error.None?
    ensures error.None? ==> c.missed == old(c.missed)
  {
    ghost var w1 := c.w;
    var reached, ok := c.Attempt(me);
    SnapshotKept(me, w1, c.w, o);
    PathKnown(c.w, me, o, path);
    if reached {
      c.Perform(DeleteVolume(me));
      assert CopyIs(c.w, me, path, None) by { c.Sane(); OnlyCopy(c.w, me, o, path); }
    }
    error := if ok then None else Some(CallFailed);
  }

  lemma OnlyCopy(w: World, me: Key, o: Object, path: Path)
    requires Inv(w) && IsStorage(me) && PathOf(w, me) == Some(path) && path !in w.volumes
    ensures CopyIs(w, me, path, None)
  {
  }

  /** Removes the finalizer, and with it the object. */
  method LetGo(c: Cluster, me: Key, o: Object) returns (result: Outcome)
    requires c.Valid() && IsStorage(me) && Snapshot(c.w, me, o) && o.finalizer && o.deleting
    requires exists path :: Placed(c.w, o, path) && CopyIs(c.w, me, path, None)
    requires Deleting(me) in c.w.windows
    modifies c
    ensures c.Valid()
    ensures c.alone ==> Undisturbed(me, old(c.w), c.w) && c.hostCalls == old(c.hostCalls)
    ensures result == Done || result == Failed(CallFailed)
    ensures c.sure && old(Current(c.w, me, o.version)) ==> result == Done
    ensures result == Done && c.alone ==> me !in c.w.objs
    ensures result == Done ==> c.missed == old(c.missed)
  {
    ghost var path :| Placed(c.w, o, path) && CopyIs(c.w, me, path, None);
    ghost var w0 := c.w;
    var reached, ok := c.Attempt(me);
    SnapshotKept(me, w0, c.w, o);
    assert PathOf(c.w, me) == Some(path) && path !in c.w.volumes by { c.Sane(); FreePath(c.w, me, o, path); }
    if !reached { return Failed(CallFailed); }
    result := c.Remove(me, o, ok);
  }

  /** Deletes the copy if there is one and nobody refers to it, then lets the object go. */
  method Release(c: Cluster, me: Key, o: Object, path: Path, copy: Option<Volume>) returns (result: Outcome)
    requires c.Valid() && IsStorage(me) && Snapshot(c.w, me, o) && o.finalizer && o.deleting
    requires Placed(c.w, o, path) && CopyIs(c.w, me, path, copy)
    modifies c
    ensures c.Valid()
    ensures c.alone ==> Tidy(me, old(c.w), c.w) && c.w.domains == old(c.w.domains)
    ensures c.alone ==> c.w.volumes == old(c.w.volumes) || c.w.volumes == old(c.w.volumes) - {path}
    ensures c.alone && result == Done ==> me !in c.w.objs
    ensures c.sure && old(Current(c.w, me, o.version)) ==>
              result == if copy.Some? && Referrers(old(c.w), me) != {} then Failed(VolumeInUse) else Done
    ensures c.alone && result == Done ==>
              && (copy.Some? ==> Referrers(old(c.w), me) == {} && c.w.volumes == old(c.w.volumes) - {path})
              && c.hostCalls == old(c.hostCalls) + (if copy.Some? then [DeleteVolume(me)] else [])
    ensures c.alone && result == Failed(VolumeInUse) ==>
              copy.Some? && Referrers(old(c.w), me) != {} && me in c.w.objs && c.w.volumes == old(c.w.volumes)
              && c.hostCalls == old(c.hostCalls)
    ensures result == Done ==> c.missed == old(c.missed)
  {
    if copy.Some? {
      var error := DeleteCopy(c, me, o, path, copy.value);
      if error.Some? { return Failed(error.value); }
    } else {
      c.Open(me, Deleting(me));
    }
    assert Placed(c.w, o, path) && CopyIs(c.w, me, path, None);
    result := LetGo(c, me, o);
  }

  /** How a deletion ends: a copy that is referred to stays, and so does its object; else they go. */
  ghost predicate Departs(w: World, n: World, me: Key, path: Path, copied: bool, before: seq<Event>, after: seq<Event>,
                          result: Outcome)
  {
    if copied && Referrers(w, me) != {} then
      result == Requeue && me in n.objs && n.volumes.Keys == w.volumes.Keys && after == before
    else
      && result == Done && me !in n.objs
      && (copied ==> n.volumes.Keys == w.volumes.Keys - {path})
      && after == before + (if copied then [DeleteVolume(me)] else [])
  }

  ghost predicate Departed(w: World, n: World, me: Key, before: seq<Event>, after: seq<Event>, result: Outcome)
    requires PathOf(w, me).Some?
  {
    Departs(w, n, me, PathOf(w, me).value, Present(w, me), before, after, result)
  }

  lemma DepartedFrom(w: World, m: World, n: World, me: Key, path: Path, copied: bool, before: seq<Event>,
                     after: seq<Event>, result: Outcome)
    requires m.objs == w.objs && m.volumes == w.volumes && Departs(m, n, me, path, copied, before, after, result)
    ensures Departs(w, n, me, path, copied, before, after, result)
  {
  }

  /** The deletion as a whole; a copy in use is looked at again later. */
  method Dismiss(c: Cluster, me: Key, o: Object, path: Path, copy: Option<Volume>) returns (result: Outcome)
    requires c.Valid() && IsStorage(me) && Snapshot(c.w, me, o) && o.finalizer && o.deleting
    requires Placed(c.w, o, path) && CopyIs(c.w, me, path, copy)
    modifies c
    ensures c.Valid()
    ensures c.alone ==> Tidy(me, old(c.w), c.w) && c.w.domains == old(c.w.domains)
    ensures c.alone ==> c.w.volumes == old(c.w.volumes) || c.w.volumes == old(c.w.volumes) - {path}
    ensures c.alone && (result == Done || (c.sure && old(Current(c.w, me, o.version)))) ==>
              Departs(old(c.w), c.w, me, path, copy.Some?, old(c.hostCalls), c.hostCalls, result)
    ensures result == Done ==> c.missed == old(c.missed)
  {
    result := Release(c, me, o, path, copy);
    if result == Failed(VolumeInUse) { result := Requeue; }
  }

  // ---------- the common beginning ----------

  /** Everything read before the reconciler decides what to do. */
  ghost predicate Entered(w: World, me: Key, o: Object, path: Path, copy: Option<Volume>) {
    && Snapshot(w, me, o) && Placed(w, o, path)
    && (Alive(w, me, o) ==> CopyIs(w, me, path, copy))
    && Touches(w, me, Pool(o.spec.pool))
    && Deleting(me) !in w.windows && Resizing(me) !in w.windows
  }

  /** Everything read so far, before the copy is looked up. */
  ghost predicate Entering(w: World, me: Key, o: Object, path: Path) {
    && Snapshot(w, me, o) && Placed(w, o, path) && Touches(w, me, Pool(o.spec.pool))
    && Deleting(me) !in w.windows && Resizing(me) !in w.windows
  }

  lemma EnteringKept(me: Key, w: World, n: World, o: Object, path: Path)
    requires Entering(w, me, o, path) && Onward(me, w, n) && Snapshot(n, me, o)
    ensures Entering(n, me, o, path)
  {
  }

  /** The pool and a session with the host. */
  method Approach(c: Cluster, me: Key, o: Object) returns (pool: PoolRead, session: bool)
    requires c.Valid() && IsStorage(me) && Snapshot(c.w, me, o)
    requires Deleting(me) !in c.w.windows && Resizing(me) !in c.w.windows
    modifies c
    ensures c.Valid() && Snapshot(c.w, me, o) && (session ==> pool.Ready?)
    ensures session ==> Entering(c.w, me, o, Path(pool.place, o.spec.name))
    ensures c.alone ==> Undisturbed(me, old(c.w), c.w) && c.w.objs == old(c.w.objs) && c.hostCalls == old(c.hostCalls)
    ensures c.alone && session ==> Pool(o.spec.pool) in old(c.w.objs) && old(c.w.objs)[Pool(o.spec.pool)].ready
    ensures c.sure ==> (pool.Unknown? <==> Pool(o.spec.pool) !in old(c.w.objs))
    ensures c.sure && Pool(o.spec.pool) in old(c.w.objs) && old(c.w.objs)[Pool(o.spec.pool)].ready ==> session
    ensures session ==> c.missed == old(c.missed)
  {
    session := false;
    pool := ResolvePool(c, me, o);
    if pool.Ready? {
      var path := Path(pool.place, o.spec.name);
      assert Entering(c.w, me, o, path);
      ghost var w1 := c.w;
      var reached;
      reached, session := c.Attempt(me);
      SnapshotKept(me, w1, c.w, o);
      EnteringKept(me, w1, c.w, o, path);
    }
  }

  /** The object, its pool and a session with the host. */
  method Resolve(c: Cluster, me: Key) returns (stop: Option<Outcome>, o: Object, path: Path)
    requires c.Valid() && IsStorage(me) && Rested(c.w, me)
    modifies c
    ensures c.Valid()
    ensures stop.None? ==> Entering(c.w, me, o, path)
    ensures c.alone ==> Undisturbed(me, old(c.w), c.w) && c.hostCalls == old(c.hostCalls)
    ensures c.alone && stop.None? ==> me in c.w.objs && o == c.w.objs[me] && c.w.objs == old(c.w.objs)
    ensures c.alone && !old(PoolReady(c.w, me)) ==> stop.Some?
    ensures c.alone && stop.Some? && old(IsReady(c.w, me)) ==> c.w.objs == old(c.w.objs)
    ensures c.sure && old(me in c.w.objs && !PoolReady(c.w, me)) ==> stop == Some(old(PoolFault(c.w, me)))
    ensures c.sure && old(PoolReady(c.w, me)) ==> stop.None?
    ensures c.alone && stop == Some(Done) ==> me !in old(c.w.objs)
    ensures stop.None? || stop == Some(Done) ==> c.missed == old(c.missed)
  {
    o, path := Object(0, false, false, {}, DeviceSpec("", ""), false, None), Path(Place("", ""), "");
    var ok, found := c.Get(me);
    if !ok { return Some(Failed(CallFailed)), o, path; }
    if found.None? { return Some(Done), o, path; }
    o := found.value;
    var pool, session := Approach(c, me, o);
    if session { return None, o, Path(pool.place, o.spec.name); }
    if !o.ready {
      ok, o := c.Report(me, o, false, o.place);
      if !ok { return Some(Failed(CallFailed)), o, path; }
    }
    stop := Some(if pool.Unknown? then Failed(NotFound) else Requeue);
  }

  /** From reading the object to NewVolumeAction; `stop` is the early return, if there is one. */
  method Enter(c: Cluster, me: Key) returns (stop: Option<Outcome>, o: Object, path: Path, copy: Option<Volume>)
    requires c.Valid() && IsStorage(me) && Rested(c.w, me)
    modifies c
    ensures c.Valid()
    ensures stop.None? ==> Entered(c.w, me, o, path, copy)
    ensures c.alone ==> Undisturbed(me, old(c.w), c.w) && c.hostCalls == old(c.hostCalls)
    ensures c.alone && stop.None? ==> me in c.w.objs && o == c.w.objs[me] && c.w.objs == old(c.w.objs)
    ensures c.alone && !old(PoolReady(c.w, me)) ==> stop.Some?
    ensures c.alone && stop.Some? && old(IsReady(c.w, me)) ==> c.w.objs == old(c.w.objs)
    ensures c.sure && old(me in c.w.objs && !PoolReady(c.w, me)) ==> stop == Some(old(PoolFault(c.w, me)))
    ensures c.sure && old(PoolReady(c.w, me)) ==> stop.None?
    ensures c.alone && stop == Some(Done) ==> me !in old(c.w.objs)
    ensures stop.None? || stop == Some(Done) ==> c.missed == old(c.missed)
  {
    copy := None;
    stop, o, path := Resolve(c, me);
    if stop.Some? { return; }
    ghost var w1 := c.w;
    var ok;
    ok, copy := Locate(c, me, o, path);
    EnteringKept(me, w1, c.w, o, path);
    stop := if ok then None else Some(Failed(CallFailed));
  }

  /** What a lone reconcile has found is all there is. */
  lemma EnteredExactly(c: Cluster, me: Key, o: Object, path: Path, copy: Option<Volume>)
    requires c.Valid() && IsStorage(me) && Entered(c.w, me, o, path, copy) && me in c.w.objs && o == c.w.objs[me]
    ensures PathOf(c.w, me) == Some(path)
    ensures copy == if path in c.w.volumes then Some(c.w.volumes[path]) else None
  {
    PathKnown(c.w, me, o, path);
    if path in c.w.volumes {
      c.Sane();
      OwnerAt(c.w, me);
      if copy.Some? { assert PathOf(c.w, me) == Some(path); }
    }
  }

  // ---------- making a reference ----------

  /** Nothing keeps `me` from referring to the volume or cloud-init `key` on a host. */
  predicate ReadyOn(w: World, me: Key, key: Key, host: string) {
    && key != me && key in w.objs && w.objs[key].ready && Present(w, key)
    && w.objs[key].place.Some? && w.objs[key].place.value.host == host
    && Path(w.objs[key].place.value, w.objs[key].spec.name) in w.volumes
  }

  /** The object `key` has been read with a ready copy at `target`; unless its deletion window has overlapped it is
   *  still stored and still claims that path. */
  ghost predicate Reading(w: World, me: Key, key: Key, target: Path) {
    && IsStorage(key) && Touches(w, me, key)
    && (Deleting(key) !in w.overlapped ==> key in w.objs && w.objs[key].finalizer && PathOf(w, key) == Some(target))
  }

  lemma ReadingKept(me: Key, w: World, n: World, key: Key, target: Path)
    requires Sound(w.objs, w.bound, w.clock) && Sound(n.objs, n.bound, n.clock)
    requires Reading(w, me, key, target) && Onward(me, w, n)
    ensures Reading(n, me, key, target)
  {
    if Deleting(key) !in n.overlapped {
      assert Core(n.objs[key].spec) == Core(w.objs[key].spec);
    }
  }

  /** The looked-up copy stays where it is until the label is stored, and then because of the label. */
  ghost predicate Secured(w: World, me: Key, l: Link) {
    && Touches(w, me, l.ref) && (Deleting(l.ref) !in w.overlapped ==> Holds(w, me, l.ref))
    && Resolves(w.volumes, w.overlapped, l)
  }

  lemma SecuredKept(me: Key, w: World, n: World, l: Link)
    requires Secured(w, me, l) && Onward(me, w, n)
    ensures Secured(n, me, l)
  {
  }

  lemma ReadyOnKept(me: Key, w: World, n: World, key: Key, host: string)
    requires SameOthers(me, w, n) && n.volumes == w.volumes && n.bound == w.bound && ReadyOn(w, me, key, host)
    ensures ReadyOn(n, me, key, host)
  {
    OtherSame(me, w, n, key);
  }

  /** Reads the object of a volume or cloud-init that is to be referred to; from here the reference is being made. */
  method ReadReferent(c: Cluster, me: Key, mine: Object, key: Key) returns (error: Option<Error>, found: Option<Object>)
    requires c.Valid() && IsReconciler(me) && Snapshot(c.w, me, mine) && IsStorage(key) && key != me
    modifies c
    ensures c.Valid() && Onward(me, old(c.w), c.w) && Snapshot(c.w, me, mine)
    ensures c.alone ==> Undisturbed(me, old(c.w), c.w) && c.hostCalls == old(c.hostCalls) && c.w.objs == old(c.w.objs)
    ensures c.sure ==> error == if key in old(c.w.objs) then None else Some(NotFound)
    ensures c.alone && found.Some? ==> key in c.w.objs && found.value == c.w.objs[key]
    ensures error.None? <==> found.Some?
    ensures found.Some? ==> KindOk(key, found.value.spec) && (found.value.ready ==>
              found.value.place.Some? && Reading(c.w, me, key, Path(found.value.place.value, found.value.spec.name))
              && (c.alone ==> PathOf(c.w, key) == Some(Path(found.value.place.value, found.value.spec.name))))
    ensures error.None? ==> c.missed == old(c.missed)
  {
    ghost var w0 := c.w;
    var reached, ok := c.Attempt(me);
    SnapshotKept(me, w0, c.w, mine);
    if !ok { return Some(CallFailed), None; }
    if key !in c.w.objs { return Some(NotFound), None; }
    var o := c.w.objs[key];
    assert KindOk(key, o.spec) && (o.ready ==> StatusOk(key, o, c.w.bound)) by { c.Sane(); }
    if o.ready {
      ghost var w1 := c.w;
      c.Refer(me, key);
      Chain(me, w0, w1, c.w);
    }
    return None, Some(o);
  }

  /** StorageVolLookupByName for a referent. */
  method LookUp(c: Cluster, me: Key, mine: Object, key: Key, target: Path)
    returns (error: Option<Error>, volume: Option<Volume>)
    requires c.Valid() && IsReconciler(me) && Snapshot(c.w, me, mine) && Reading(c.w, me, key, target)
    modifies c
    ensures c.Valid() && Onward(me, old(c.w), c.w) && Snapshot(c.w, me, mine)
    ensures volume.Some? ==> Reading(c.w, me, key, target)
    ensures c.alone ==> Undisturbed(me, old(c.w), c.w) && c.hostCalls == old(c.hostCalls) && c.w.objs == old(c.w.objs)
    ensures error.None? <==> volume.Some?
    ensures volume.Some? ==>
              Secured(c.w, me, Link(key, target)) && target in c.w.volumes && c.w.volumes[target] == volume.value
    ensures c.alone && volume.Some? && old(PathOf(c.w, key)) == Some(target) ==> volume.value.owner == key
    ensures c.sure ==> error == if target in old(c.w.volumes) then None else Some(NotFound)
    ensures error.None? ==> c.missed == old(c.missed)
  {
    ghost var w0 := c.w;
    var reached, ok := c.Attempt(me);
    SnapshotKept(me, w0, c.w, mine);
    assert Reading(c.w, me, key, target) by {
      c.Sane();
      RunKeeps(INITIAL, old(c.log));
      ReadingKept(me, w0, c.w, key, target);
    }
    if !ok { return Some(CallFailed), None; }
    if target !in c.w.volumes { return Some(NotFound), None; }
    ghost var w1 := c.w;
    Meet(c, me, key, target);
    Chain(me, w0, w1, c.w);
    return None, Some(c.w.volumes[target]);
  }

  lemma Met(w: World, me: Key, key: Key, target: Path)
    requires Reading(w, me, key, target) && target in w.volumes
    requires PathOf(w, key) == Some(target) ==>
               w.volumes[target].owner == key && (Edge(me, key) in w.attaching ==> Edge(me, key) in w.found)
    ensures Secured(w, me, Link(key, target))
  {
  }

  /** The copy found is what the reference is about, if the object still claims its path. */
  method Meet(c: Cluster, me: Key, key: Key, target: Path)
    requires c.Valid() && IsReconciler(me) && Reading(c.w, me, key, target) && target in c.w.volumes
    modifies c
    ensures c.Valid() && Onward(me, old(c.w), c.w) && Undisturbed(me, old(c.w), c.w) && c.hostCalls == old(c.hostCalls)
    ensures c.missed == old(c.missed)
    ensures c.w == old(c.w).(found := c.w.found) && Secured(c.w, me, Link(key, target))
    ensures PathOf(c.w, key) == Some(target) ==> c.w.volumes[target].owner == key
  {
    assert PathOf(c.w, key) == Some(target) ==> c.w.volumes[target].owner == key by {
      c.Sane();
      if PathOf(c.w, key) == Some(target) { OwnerAt(c.w, key); }
    }
    if PathOf(c.w, key) == Some(target) && Edge(me, key) in c.w.attaching {
      c.Find(me, key);
    } else {
      Staying(me, c.w);
    }
    assert Secured(c.w, me, Link(key, target)) by { Met(c.w, me, key, target); }
  }

  // ---------- copies that exist and copies being made ----------

  /** What a reconcile knows about a copy that exists. */
  ghost predicate Standing(w: World, me: Key, o: Object, path: Path, copy: Volume) {
    Snapshot(w, me, o) && o.finalizer && Placed(w, o, path) && CopyIs(w, me, path, Some(copy))
  }

  lemma StandingKept(me: Key, w: World, n: World, o: Object, path: Path, copy: Volume)
    requires Standing(w, me, o, path, copy) && Unmoved(me, w, n)
    ensures Standing(n, me, o, path, copy)
  {
  }

  /** What the reconcile knows while it prepares a copy that does not exist yet. */
  ghost predicate Making(w: World, me: Key, o: Object, path: Path) {
    && Snapshot(w, me, o) && o.finalizer && Placed(w, o, path) && CopyIs(w, me, path, None)
    && Touches(w, me, Pool(o.spec.pool))
    && Deleting(me) !in w.windows && Resizing(me) !in w.windows
  }

  lemma MakingKept(me: Key, w: World, n: World, o: Object, stored: Object, path: Path)
    requires Making(w, me, o, path) && Onward(me, w, n)
    requires Snapshot(n, me, stored) && stored.finalizer && stored.spec == o.spec
    ensures Making(n, me, stored, path)
  {
  }

  /** Whatever the copy is to lie on is labelled and there. */
  ghost predicate Founded(w: World, me: Key, o: Object, path: Path, link: Option<Link>) {
    && (me.Vol? ==> o.spec.VolumeSpec? && Pool(o.spec.pool) in o.labels)
    && (link.Some? ==>
          && me.Vol? && o.spec.VolumeSpec? && link.value.ref.Vol? && o.spec.backing == Some(link.value.ref.name)
          && link.value.ref in o.labels && Resolves(w.volumes, w.overlapped, link.value)
          && path.place.host == link.value.path.place.host)
  }

  /** StorageVolCreateXML. */
  method Spawn(c: Cluster, me: Key, o: Object, path: Path, kind: Kind, bytes: nat, link: Option<Link>)
    requires c.Valid() && IsStorage(me) && Making(c.w, me, o, path) && Founded(c.w, me, o, path, link)
    modifies c
    ensures c.Valid() && path in c.w.volumes && Standing(c.w, me, o, path, c.w.volumes[path])
    ensures c.w.volumes[path].recent && !c.w.volumes[path].filled && c.w.volumes[path].bytes == bytes
    ensures c.w.volumes[path].backing == link
    ensures c.hostCalls == old(c.hostCalls) + [CreateVolume(me, kind, bytes, link)] && c.w.volumes[path].kind == kind
    ensures c.w == old(c.w).(volumes := c.w.volumes, clock := c.w.clock)
    ensures c.missed == old(c.missed)
  {
    assert PathOf(c.w, me) == Some(path) && path !in c.w.volumes by { c.Sane(); FreePath(c.w, me, o, path); }
    c.Perform(CreateVolume(me, kind, bytes, link));
  }

  lemma OnlyVolumes(me: Key, w: World, n: World)
    requires n == w.(volumes := n.volumes)
    ensures Tidy(me, w, n)
  {
  }

  /** StorageVolUpload: the host sets the capacity to what it receives. */
  method Send(c: Cluster, me: Key, o: Object, path: Path, copy: Volume, bytes: nat) returns (result: Outcome)
    requires c.Valid() && IsStorage(me) && Standing(c.w, me, o, path, copy) && copy.recent
    modifies c
    ensures c.Valid() && path in c.w.volumes && Standing(c.w, me, o, path, c.w.volumes[path])
    ensures forall r :: old(Touches(c.w, me, r)) ==> Touches(c.w, me, r)
    ensures old(Deleting(me) !in c.w.windows && Resizing(me) !in c.w.windows) ==>
              Deleting(me) !in c.w.windows && Resizing(me) !in c.w.windows
    ensures c.w.volumes[path].backing == copy.backing
    ensures result == Done ==> c.w.volumes[path].bytes == bytes && c.w.volumes[path].filled
    ensures c.alone ==> c.w == old(c.w).(volumes := old(c.w.volumes)[path := c.w.volumes[path]])
    ensures c.alone ==> Tidy(me, old(c.w), c.w) && c.w.domains == old(c.w.domains) && c.w.objs == old(c.w.objs)
    ensures c.w.volumes[path].kind == copy.kind
    ensures c.alone && result == Done ==> c.hostCalls == old(c.hostCalls) + [Upload(me, bytes)]
    ensures c.sure ==> result == Done
    ensures result == Done ==> c.missed == old(c.missed)
  {
    ghost var w0 := c.w;
    var reached, ok := c.Attempt(me);
    StandingKept(me, w0, c.w, o, path, copy);
    PathKnown(c.w, me, o, path);
    assert Enabled(c.w, Upload(me, bytes));
    if reached { c.Perform(Upload(me, bytes)); }
    if c.alone { OnlyVolumes(me, w0, c.w); }
    result := if ok then Done else Failed(CallFailed);
  }
}
