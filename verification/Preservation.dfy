/** Every enabled event keeps the protocol's invariant. The lemmas follow the shape of the change, one part of the
 *  invariant at a time; `Step` dispatches over the events. */
module Preservation {
  import opened Common
  import opened Protocol

  // ---------- an object is stored under a new version ----------

  /** The new value keeps everything a host copy or a referrer rests on. */
  ghost predicate Refines(k: Key, o: Object, n: Object) {
    && Core(n.spec) == Core(o.spec) && KindOk(k, n.spec)
    && (o.finalizer ==> n.finalizer) && o.labels <= n.labels
  }

  lemma StoredPath(objs: Objects, bound: Bindings, k: Key, n: Object, l: Key)
    requires k in objs && KindOk(k, objs[k].spec) && Refines(k, objs[k], n)
    ensures PathIn(objs[k := n], bound, l) == PathIn(objs, bound, l)
    ensures SeatIn(objs[k := n], l) == SeatIn(objs, l)
  {
  }

  lemma StoredUnique(objs: Objects, bound: Bindings, k: Key, n: Object)
    requires k in objs && KindOk(k, objs[k].spec) && Refines(k, objs[k], n) && Unique(objs, bound)
    ensures Unique(objs[k := n], bound)
  {
    var after := objs[k := n];
    forall i, j | i in after && j in after && SameClaim(i, after[i].spec, j, after[j].spec)
      ensures i == j
    {
      assert SameClaim(i, objs[i].spec, j, objs[j].spec);
    }
  }

  lemma StoredOrphans(objs: Objects, bound: Bindings, volumes: Volumes, domains: Seats, k: Key, n: Object)
    requires k in objs && KindOk(k, objs[k].spec) && Refines(k, objs[k], n) && NoOrphans(objs, bound, volumes, domains)
    ensures NoOrphans(objs[k := n], bound, volumes, domains)
  {
    forall p | p in volumes { StoredPath(objs, bound, k, n, volumes[p].owner); }
    forall s | s in domains { StoredPath(objs, bound, k, n, domains[s].owner); }
  }

  lemma StoredWriteAhead(objs: Objects, volumes: Volumes, domains: Seats, k: Key, n: Object)
    requires k in objs && KindOk(k, objs[k].spec) && Refines(k, objs[k], n) && WriteAhead(objs, volumes, domains)
    ensures WriteAhead(objs[k := n], volumes, domains)
  {
    var after := objs[k := n];
    forall p | p in volumes && volumes[p].owner in after
      ensures VolumeLabelled(after[volumes[p].owner], volumes[p], p)
    {
      assert VolumeLabelled(objs[volumes[p].owner], volumes[p], p);
    }
    forall s | s in domains && domains[s].owner in after
      ensures DomainLabelled(after[domains[s].owner], domains[s], s)
    {
      assert DomainLabelled(objs[domains[s].owner], domains[s], s);
    }
  }

  lemma StoredTargets(objs: Objects, bound: Bindings, volumes: Volumes, attaching: set<Edge>, found: set<Edge>,
                      overlapped: set<Window>,
                      k: Key, n: Object)
    requires k in objs && KindOk(k, objs[k].spec) && Refines(k, objs[k], n)
    requires Targets(objs, bound, volumes, attaching, found, overlapped)
    requires forall r :: r in n.labels - objs[k].labels && Deleting(r) !in overlapped ==> Live(objs, bound, volumes, r)
    ensures Targets(objs[k := n], bound, volumes, attaching, found, overlapped)
  {
    var after := objs[k := n];
    forall l, r | l in after && r in after[l].labels && Deleting(r) !in overlapped
      ensures Live(after, bound, volumes, r)
    {
      assert Live(objs, bound, volumes, r);
      StoredPath(objs, bound, k, n, r);
    }
    forall a | a in found && Deleting(a.to) !in overlapped
      ensures Live(after, bound, volumes, a.to)
    {
      StoredPath(objs, bound, k, n, a.to);
    }
  }

  lemma StoredSound(objs: Objects, bound: Bindings, clock: nat, k: Key, n: Object)
    requires Sound(objs, bound, clock) && k in objs && Refines(k, objs[k], n) && n.version == clock
    requires (n.labels != {} ==> n.finalizer) && n.labels <= Mentions(n.spec) && (n.ready ==> StatusOk(k, n, bound))
    ensures Sound(objs[k := n], bound, clock + 1)
  {
  }

  lemma Stored(w: World, k: Key, n: Object)
    requires Inv(w) && k in w.objs && Refines(k, w.objs[k], n)
    requires (n.labels != {} ==> n.finalizer) && n.labels <= Mentions(n.spec)
    requires n.ready ==> StatusOk(k, n, w.bound)
    requires forall r :: r in n.labels - w.objs[k].labels && Deleting(r) !in w.overlapped ==>
               Live(w.objs, w.bound, w.volumes, r)
    ensures Inv(Put(w, k, n))
  {
    var v := n.(version := w.clock);
    StoredUnique(w.objs, w.bound, k, v);
    StoredOrphans(w.objs, w.bound, w.volumes, w.domains, k, v);
    StoredWriteAhead(w.objs, w.volumes, w.domains, k, v);
    StoredTargets(w.objs, w.bound, w.volumes, w.attaching, w.found, w.overlapped, k, v);
    StoredSound(w.objs, w.bound, w.clock, k, v);
  }

  // ---------- an object is created ----------

  lemma CreatedPath(objs: Objects, bound: Bindings, wider: Bindings, k: Key, n: Object, l: Key)
    requires k !in objs
    requires forall p :: p in bound ==> p in wider && wider[p] == bound[p]
    ensures PathIn(objs, bound, l).Some? ==> PathIn(objs[k := n], wider, l) == PathIn(objs, bound, l)
    ensures SeatIn(objs, l).Some? ==> SeatIn(objs[k := n], l) == SeatIn(objs, l)
  {
  }

  lemma CreatedUnique(objs: Objects, bound: Bindings, wider: Bindings, k: Key, n: Object)
    requires k !in objs && Unique(objs, bound)
    requires forall o :: o in objs ==> !SameClaim(k, n.spec, o, objs[o].spec)
    requires forall p, q :: p in wider && q in wider && wider[p] == wider[q] ==> p == q
    ensures Unique(objs[k := n], wider)
  {
    forall o | o in objs
      ensures !SameClaim(o, objs[o].spec, k, n.spec)
    {
      assert !SameClaim(k, n.spec, o, objs[o].spec);
    }
  }

  lemma CreatedWriteAhead(objs: Objects, volumes: Volumes, domains: Seats, bound: Bindings, k: Key, n: Object)
    requires k !in objs && NoOrphans(objs, bound, volumes, domains) && WriteAhead(objs, volumes, domains)
    ensures WriteAhead(objs[k := n], volumes, domains)
  {
    forall p | p in volumes
      ensures VolumeLabelled(objs[k := n][volumes[p].owner], volumes[p], p)
    {
      assert VolumeLabelled(objs[volumes[p].owner], volumes[p], p);
    }
    forall s | s in domains
      ensures DomainLabelled(objs[k := n][domains[s].owner], domains[s], s)
    {
      assert DomainLabelled(objs[domains[s].owner], domains[s], s);
    }
  }

  lemma CreatedTargets(objs: Objects, bound: Bindings, wider: Bindings, volumes: Volumes, attaching: set<Edge>,
                       found: set<Edge>,
                       overlapped: set<Window>, k: Key, n: Object)
    requires k !in objs && n.labels == {}
    requires forall p :: p in bound ==> p in wider && wider[p] == bound[p]
    requires Targets(objs, bound, volumes, attaching, found, overlapped)
    ensures Targets(objs[k := n], wider, volumes, attaching, found, overlapped)
  {
    forall r | Live(objs, bound, volumes, r)
      ensures Live(objs[k := n], wider, volumes, r)
    {
      CreatedPath(objs, bound, wider, k, n, r);
    }
  }

  lemma CreatedOrphans(objs: Objects, bound: Bindings, wider: Bindings, volumes: Volumes, domains: Seats, k: Key,
                       n: Object)
    requires k !in objs && NoOrphans(objs, bound, volumes, domains)
    requires forall p :: p in bound ==> p in wider && wider[p] == bound[p]
    ensures NoOrphans(objs[k := n], wider, volumes, domains)
  {
    forall l { CreatedPath(objs, bound, wider, k, n, l); }
  }

  lemma CreatedSound(objs: Objects, bound: Bindings, clock: nat, k: Key, n: Object)
    requires k !in objs && Sound(objs, bound, clock) && Unique(objs, bound)
    requires n == Object(clock, false, false, {}, n.spec, false, None) && KindOk(k, n.spec)
    requires k.Pool? ==> forall p :: p in bound ==> (p == k.name <==> bound[p] == n.spec.place)
    ensures var wider := if n.spec.PoolSpec? then bound[k.name := n.spec.place] else bound;
            && Sound(objs[k := n], wider, clock + 1)
            && (forall p :: p in bound ==> p in wider && wider[p] == bound[p])
            && (forall p, q :: p in wider && q in wider && wider[p] == wider[q] ==> p == q)
  {
  }

  lemma Created(w: World, k: Key, spec: Spec, n: Object, bound: Bindings)
    requires Inv(w) && Feasible(w, Create(k, spec))
    requires n == Object(w.clock, false, false, {}, spec, false, None)
    requires bound == if spec.PoolSpec? then w.bound[k.name := spec.place] else w.bound
    ensures Inv(w.(objs := w.objs[k := n], bound := bound, clock := w.clock + 1))
  {
    CreatedSound(w.objs, w.bound, w.clock, k, n);
    CreatedUnique(w.objs, w.bound, bound, k, n);
    CreatedWriteAhead(w.objs, w.volumes, w.domains, w.bound, k, n);
    CreatedTargets(w.objs, w.bound, bound, w.volumes, w.attaching, w.found, w.overlapped, k, n);
    CreatedOrphans(w.objs, w.bound, bound, w.volumes, w.domains, k, n);
  }

  // ---------- an object leaves the store ----------

  /** Nothing on a host rests on the object, and no trusted reference needs it. */
  ghost predicate Removable(w: World, k: Key) {
    && k in w.objs
    && (forall p :: p in w.volumes ==> w.volumes[p].owner != k)
    && (forall s :: s in w.domains ==> w.domains[s].owner != k)
    && (Deleting(k) !in w.overlapped && IsGuarded(k) ==>
          && (forall l :: l in w.objs ==> k !in w.objs[l].labels)
          && (forall a :: a in w.attaching ==> a.to != k))
  }

  lemma RemovedPath(objs: Objects, bound: Bindings, k: Key, l: Key)
    requires l != k
    ensures PathIn(objs - {k}, bound, l) == PathIn(objs, bound, l) && SeatIn(objs - {k}, l) == SeatIn(objs, l)
  {
  }

  lemma RemovedTargets(objs: Objects, bound: Bindings, volumes: Volumes,
                       attaching: set<Edge>, found: set<Edge>, overlapped: set<Window>, k: Key)
    requires Targets(objs, bound, volumes, attaching, found, overlapped)
    requires Deleting(k) !in overlapped && IsGuarded(k) ==>
               && (forall l :: l in objs ==> k !in objs[l].labels)
               && (forall a :: a in attaching ==> a.to != k)
    ensures Targets(objs - {k}, bound, volumes, attaching, found, overlapped)
  {
    forall r | Anchored(objs, r) && (r != k || !IsGuarded(k))
      ensures Anchored(objs - {k}, r)
    {
    }
    forall r | Live(objs, bound, volumes, r) && (r != k || !IsGuarded(k))
      ensures Live(objs - {k}, bound, volumes, r)
    {
      if r != k { RemovedPath(objs, bound, k, r); }
    }
  }

  lemma RemovedOrphans(objs: Objects, bound: Bindings, volumes: Volumes, domains: Seats, k: Key)
    requires NoOrphans(objs, bound, volumes, domains)
    requires forall p :: p in volumes ==> volumes[p].owner != k
    requires forall s :: s in domains ==> domains[s].owner != k
    ensures NoOrphans(objs - {k}, bound, volumes, domains)
  {
    forall p | p in volumes { RemovedPath(objs, bound, k, volumes[p].owner); }
    forall s | s in domains { RemovedPath(objs, bound, k, domains[s].owner); }
  }

  lemma Removed(w: World, k: Key)
    requires Inv(w) && Removable(w, k)
    ensures Inv(w.(objs := w.objs - {k}))
  {
    RemovedTargets(w.objs, w.bound, w.volumes, w.attaching, w.found, w.overlapped, k);
    RemovedOrphans(w.objs, w.bound, w.volumes, w.domains, k);
    var after := w.(objs := w.objs - {k});
    assert Sound(after.objs, w.bound, w.clock);
    assert Unique(after.objs, w.bound);
    assert WriteAhead(after.objs, w.volumes, w.domains);
  }

  /** Whoever owns the volume at an object's path is that object. */
  lemma OwnerAt(w: World, k: Key)
    requires Inv(w) && Present(w, k)
    ensures w.volumes[PathOf(w, k).value].owner == k
  {
    var o := w.volumes[PathOf(w, k).value].owner;
    assert PathIn(w.objs, w.bound, o) == PathOf(w, k);
    assert SameClaim(o, w.objs[o].spec, k, w.objs[k].spec);
  }

  lemma SeatedAt(w: World, k: Key)
    requires Inv(w) && SeatOf(w, k).Some? && SeatOf(w, k).value in w.domains
    ensures w.domains[SeatOf(w, k).value].owner == k
  {
    var o := w.domains[SeatOf(w, k).value].owner;
    assert SeatIn(w.objs, o) == SeatOf(w, k);
    assert SameClaim(o, w.objs[o].spec, k, w.objs[k].spec);
  }

  /** An exclusive deletion window that saw no referrers: nobody refers to the object or is about to. */
  lemma Unreferenced(w: World, k: Key)
    requires Exclusive(w.windows, w.overlapped, w.attaching) && Deleting(k) in w.windows
    requires Deleting(k) !in w.overlapped ==> Referrers(w, k) == {}
    ensures Deleting(k) !in w.overlapped ==>
              && (forall l :: l in w.objs ==> k !in w.objs[l].labels)
              && (forall a :: a in w.attaching ==> a.to != k)
  {
    if Deleting(k) !in w.overlapped {
      forall l | l in w.objs
        ensures k !in w.objs[l].labels
      {
        assert l !in Referrers(w, k);
      }
    }
  }

  lemma Released(w: World, k: Key, version: nat)
    requires Inv(w) && Enabled(w, RemoveFinalizer(k, version))
    ensures Removable(w, k)
  {
    assert forall p :: p in w.volumes && w.volumes[p].owner == k ==> Present(w, k);
    if IsStorage(k) && Deleting(k) !in w.overlapped {
      assert !Live(w.objs, w.bound, w.volumes, k);
      assert Referrers(w, k) == {};
    }
    if IsGuarded(k) { Unreferenced(w, k); }
  }

  lemma Dropped(w: World, k: Key)
    requires Inv(w) && k in w.objs && !w.objs[k].finalizer
    ensures Removable(w, k)
  {
    if IsStorage(k) && Present(w, k) {
      OwnerAt(w, k);
    }
    assert IsGuarded(k) ==> !Live(w.objs, w.bound, w.volumes, k) && !Anchored(w.objs, k);
  }

  // ---------- host volumes ----------

  /** Capacities may move, links and owners may not. */
  ghost predicate SameLinks(before: Volumes, after: Volumes) {
    && before.Keys == after.Keys
    && (forall p :: p in before ==>
          && after[p].owner == before[p].owner && after[p].backing == before[p].backing
          && after[p].born == before[p].born)
  }

  lemma Relabelled(objs: Objects, before: Volumes, after: Volumes, domains: Seats)
    requires SameLinks(before, after) && WriteAhead(objs, before, domains)
    ensures WriteAhead(objs, after, domains)
  {
    forall p | p in after && after[p].owner in objs
      ensures VolumeLabelled(objs[after[p].owner], after[p], p)
    {
      assert VolumeLabelled(objs[before[p].owner], before[p], p);
    }
  }

  lemma Relinked(before: Volumes, after: Volumes, domains: Seats, overlapped: set<Window>, clock: nat)
    requires SameLinks(before, after) && Linked(before, domains, overlapped, clock)
    ensures Linked(after, domains, overlapped, clock)
  {
    forall p | p in after && after[p].backing.Some?
      ensures Supported(after, overlapped, after[p])
    {
      assert Supported(before, overlapped, before[p]);
    }
    forall s, l | s in domains && l in domains[s].disks
      ensures Resolves(after, overlapped, l)
    {
      assert Resolves(before, overlapped, l);
    }
  }

  lemma Retargeted(objs: Objects, bound: Bindings, before: Volumes, after: Volumes,
                   attaching: set<Edge>, found: set<Edge>, overlapped: set<Window>)
    requires before.Keys <= after.Keys && Targets(objs, bound, before, attaching, found, overlapped)
    ensures Targets(objs, bound, after, attaching, found, overlapped)
  {
    forall r | Live(objs, bound, before, r)
      ensures Live(objs, bound, after, r)
    {
    }
  }

  lemma VolumesTouched(w: World, volumes: Volumes)
    requires Inv(w) && SameLinks(w.volumes, volumes)
    ensures Inv(w.(volumes := volumes))
  {
    Relabelled(w.objs, w.volumes, volumes, w.domains);
    Relinked(w.volumes, volumes, w.domains, w.overlapped, w.clock);
    Retargeted(w.objs, w.bound, w.volumes, volumes, w.attaching, w.found, w.overlapped);
    assert NoOrphans(w.objs, w.bound, volumes, w.domains);
  }

  lemma AddedLinks(volumes: Volumes, domains: Seats, overlapped: set<Window>, clock: nat, p: Path, v: Volume)
    requires p !in volumes && v.born == clock && Linked(volumes, domains, overlapped, clock)
    requires v.backing.Some? ==> Resolves(volumes, overlapped, v.backing.value)
    ensures Linked(volumes[p := v], domains, overlapped, clock + 1)
  {
    var after := volumes[p := v];
    forall q | q in after && after[q].backing.Some?
      ensures Supported(after, overlapped, after[q])
    {
      if q != p { assert Supported(volumes, overlapped, volumes[q]); }
    }
    forall s, l | s in domains && l in domains[s].disks
      ensures Resolves(after, overlapped, l)
    {
      assert Resolves(volumes, overlapped, l);
    }
  }

  lemma AddedLabelled(objs: Objects, volumes: Volumes, domains: Seats, p: Path, v: Volume)
    requires p !in volumes && WriteAhead(objs, volumes, domains)
    requires v.owner in objs ==> VolumeLabelled(objs[v.owner], v, p)
    ensures WriteAhead(objs, volumes[p := v], domains)
  {
    var after := volumes[p := v];
    forall q | q in after && after[q].owner in objs
      ensures VolumeLabelled(objs[after[q].owner], after[q], q)
    {
      if q != p { assert VolumeLabelled(objs[volumes[q].owner], volumes[q], q); }
    }
  }

  lemma VolumeAdded(w: World, p: Path, v: Volume)
    requires Inv(w) && p !in w.volumes && v.born == w.clock
    requires v.owner in w.objs && w.objs[v.owner].finalizer && PathOf(w, v.owner) == Some(p)
    requires VolumeLabelled(w.objs[v.owner], v, p)
    requires v.backing.Some? ==> Resolves(w.volumes, w.overlapped, v.backing.value)
    ensures Inv(w.(volumes := w.volumes[p := v], clock := w.clock + 1))
  {
    var volumes := w.volumes[p := v];
    AddedLinks(w.volumes, w.domains, w.overlapped, w.clock, p, v);
    AddedLabelled(w.objs, w.volumes, w.domains, p, v);
    Retargeted(w.objs, w.bound, w.volumes, volumes, w.attaching, w.found, w.overlapped);
    assert NoOrphans(w.objs, w.bound, volumes, w.domains);
    assert Sound(w.objs, w.bound, w.clock + 1);
  }

  /** Whoever has a link to `k` is a referrer of it. */
  lemma LinkRefers(w: World, k: Key)
    requires NoOrphans(w.objs, w.bound, w.volumes, w.domains) && WriteAhead(w.objs, w.volumes, w.domains)
    ensures forall q :: q in w.volumes && w.volumes[q].backing.Some? && w.volumes[q].backing.value.ref == k ==>
              w.volumes[q].owner in Referrers(w, k)
    ensures forall s, l :: s in w.domains && l in w.domains[s].disks && l.ref == k ==>
              w.domains[s].owner in Referrers(w, k)
  {
    forall q | q in w.volumes && w.volumes[q].backing.Some? && w.volumes[q].backing.value.ref == k
      ensures w.volumes[q].owner in Referrers(w, k)
    {
      assert VolumeLabelled(w.objs[w.volumes[q].owner], w.volumes[q], q);
    }
    forall s, l | s in w.domains && l in w.domains[s].disks && l.ref == k
      ensures w.domains[s].owner in Referrers(w, k)
    {
      assert DomainLabelled(w.objs[w.domains[s].owner], w.domains[s], s);
    }
  }

  lemma ShrunkLinks(volumes: Volumes, domains: Seats, overlapped: set<Window>, clock: nat, p: Path)
    requires Linked(volumes, domains, overlapped, clock) && p in volumes
    requires Deleting(volumes[p].owner) !in overlapped ==>
               && (forall q :: q in volumes && volumes[q].backing.Some? ==>
                     volumes[q].backing.value.ref != volumes[p].owner)
               && (forall s, l :: s in domains && l in domains[s].disks ==> l.ref != volumes[p].owner)
    ensures Linked(volumes - {p}, domains, overlapped, clock)
  {
    var after := volumes - {p};
    forall q | q in after && after[q].backing.Some?
      ensures Supported(after, overlapped, after[q])
    {
      assert Supported(volumes, overlapped, volumes[q]);
    }
    forall s, l | s in domains && l in domains[s].disks
      ensures Resolves(after, overlapped, l)
    {
      assert Resolves(volumes, overlapped, l);
    }
  }

  lemma RemovedLinks(w: World, k: Key, p: Path)
    requires Inv(w) && p in w.volumes && w.volumes[p].owner == k
    requires Deleting(k) !in w.overlapped ==> Referrers(w, k) == {}
    ensures Linked(w.volumes - {p}, w.domains, w.overlapped, w.clock)
  {
    LinkRefers(w, k);
    ShrunkLinks(w.volumes, w.domains, w.overlapped, w.clock, p);
  }

  lemma RemovedLive(w: World, k: Key, p: Path, r: Key)
    requires Inv(w) && PathOf(w, k) == Some(p) && Live(w.objs, w.bound, w.volumes, r) && r != k
    ensures Live(w.objs, w.bound, w.volumes - {p}, r)
  {
    if PathOf(w, r).Some? {
      assert SameClaim(r, w.objs[r].spec, k, w.objs[k].spec) ==> r == k;
    }
  }

  lemma ShrunkTargets(objs: Objects, bound: Bindings, before: Volumes, after: Volumes, attaching: set<Edge>,
                      found: set<Edge>, overlapped: set<Window>, k: Key)
    requires Targets(objs, bound, before, attaching, found, overlapped)
    requires forall r :: r != k && Live(objs, bound, before, r) ==> Live(objs, bound, after, r)
    requires Deleting(k) !in overlapped ==>
               && (forall l :: l in objs ==> k !in objs[l].labels)
               && (forall a :: a in attaching ==> a.to != k)
    ensures Targets(objs, bound, after, attaching, found, overlapped)
  {
  }

  lemma RemovedTarget(w: World, k: Key, p: Path)
    requires Inv(w) && Enabled(w, DeleteVolume(k)) && PathOf(w, k) == Some(p)
    ensures Targets(w.objs, w.bound, w.volumes - {p}, w.attaching, w.found, w.overlapped)
  {
    forall r | r != k && Live(w.objs, w.bound, w.volumes, r)
      ensures Live(w.objs, w.bound, w.volumes - {p}, r)
    {
      RemovedLive(w, k, p, r);
    }
    Unreferenced(w, k);
    ShrunkTargets(w.objs, w.bound, w.volumes, w.volumes - {p}, w.attaching, w.found, w.overlapped, k);
  }

  lemma VolumeRemoved(w: World, k: Key)
    requires Inv(w) && Enabled(w, DeleteVolume(k))
    ensures Inv(w.(volumes := w.volumes - {PathOf(w, k).value}))
  {
    var p := PathOf(w, k).value;
    OwnerAt(w, k);
    RemovedLinks(w, k, p);
    RemovedTarget(w, k, p);
    assert NoOrphans(w.objs, w.bound, w.volumes - {p}, w.domains);
    assert WriteAhead(w.objs, w.volumes - {p}, w.domains);
  }

  // ---------- host domains ----------

  lemma RepoweredLabels(objs: Objects, volumes: Volumes, domains: Seats, s: Seat, d: Domain)
    requires s in domains && d.owner == domains[s].owner && d.disks == domains[s].disks
    requires WriteAhead(objs, volumes, domains)
    ensures WriteAhead(objs, volumes, domains[s := d])
  {
    forall t | t in domains && domains[t].owner in objs
      ensures DomainLabelled(objs[domains[t].owner], domains[s := d][t], t)
    {
      assert DomainLabelled(objs[domains[t].owner], domains[t], t);
    }
  }

  lemma RepoweredLinks(volumes: Volumes, domains: Seats, overlapped: set<Window>, clock: nat, s: Seat, d: Domain)
    requires s in domains && d.disks == domains[s].disks && Linked(volumes, domains, overlapped, clock)
    ensures Linked(volumes, domains[s := d], overlapped, clock)
  {
    assert forall t :: t in domains ==> domains[s := d][t].disks == domains[t].disks;
  }

  lemma DomainTouched(w: World, s: Seat, d: Domain)
    requires Inv(w) && s in w.domains && d.owner == w.domains[s].owner && d.disks == w.domains[s].disks
    ensures Inv(w.(domains := w.domains[s := d]))
  {
    RepoweredLabels(w.objs, w.volumes, w.domains, s, d);
    RepoweredLinks(w.volumes, w.domains, w.overlapped, w.clock, s, d);
    DefinedOrphans(w.objs, w.bound, w.volumes, w.domains, s, d);
  }

  lemma DefinedLabels(objs: Objects, volumes: Volumes, domains: Seats, s: Seat, d: Domain)
    requires s !in domains && WriteAhead(objs, volumes, domains)
    requires d.owner in objs ==> DomainLabelled(objs[d.owner], d, s)
    ensures WriteAhead(objs, volumes, domains[s := d])
  {
    forall t | t in domains && domains[t].owner in objs
      ensures DomainLabelled(objs[domains[t].owner], domains[t], t)
    {
    }
  }

  lemma DefinedLinks(volumes: Volumes, domains: Seats, overlapped: set<Window>, clock: nat, s: Seat, d: Domain)
    requires s !in domains && Linked(volumes, domains, overlapped, clock)
    requires forall l :: l in d.disks ==> Resolves(volumes, overlapped, l)
    ensures Linked(volumes, domains[s := d], overlapped, clock)
  {
  }

  lemma DefinedOrphans(objs: Objects, bound: Bindings, volumes: Volumes, domains: Seats, s: Seat, d: Domain)
    requires NoOrphans(objs, bound, volumes, domains)
    requires d.owner.Dom? && d.owner in objs && objs[d.owner].finalizer && SeatIn(objs, d.owner) == Some(s)
    ensures NoOrphans(objs, bound, volumes, domains[s := d])
  {
  }

  lemma DomainAdded(w: World, s: Seat, d: Domain)
    requires Inv(w) && s !in w.domains && d.owner.Dom? && d.owner in w.objs && w.objs[d.owner].finalizer
    requires SeatOf(w, d.owner) == Some(s) && DomainLabelled(w.objs[d.owner], d, s)
    requires forall l :: l in d.disks ==> Resolves(w.volumes, w.overlapped, l)
    ensures Inv(w.(domains := w.domains[s := d]))
  {
    DefinedLabels(w.objs, w.volumes, w.domains, s, d);
    DefinedLinks(w.volumes, w.domains, w.overlapped, w.clock, s, d);
    DefinedOrphans(w.objs, w.bound, w.volumes, w.domains, s, d);
  }

  lemma DomainRemoved(w: World, s: Seat)
    requires Inv(w)
    ensures Inv(w.(domains := w.domains - {s}))
  {
    var domains := w.domains - {s};
    assert WriteAhead(w.objs, w.volumes, domains);
    assert Linked(w.volumes, domains, w.overlapped, w.clock);
  }

  // ---------- windows ----------

  lemma Overlapped(w: World, more: set<Window>)
    requires Inv(w) && w.overlapped <= more
    ensures Inv(w.(overlapped := more))
  {
    forall p | p in w.volumes && w.volumes[p].backing.Some?
      ensures Supported(w.volumes, more, w.volumes[p])
    {
      assert Supported(w.volumes, w.overlapped, w.volumes[p]);
    }
    forall s, l | s in w.domains && l in w.domains[s].disks
      ensures Resolves(w.volumes, more, l)
    {
      assert Resolves(w.volumes, w.overlapped, l);
    }
    assert Targets(w.objs, w.bound, w.volumes, w.attaching, w.found, more);
  }

  lemma EdgeOpened(w: World, k: Key, to: Key)
    requires Inv(w) && Anchored(w.objs, to)
    ensures Inv(w.(attaching := w.attaching + {Edge(k, to)}, overlapped := w.overlapped + Touched(w, k, to)))
  {
    var mid := w.(overlapped := w.overlapped + Touched(w, k, to));
    Overlapped(w, mid.overlapped);
    var attaching := w.attaching + {Edge(k, to)};
    assert Targets(w.objs, w.bound, w.volumes, attaching, w.found, mid.overlapped);
    forall win, a | win in w.windows && win !in mid.overlapped && a in attaching && a.to == win.key
      ensures win.Resizing? && !a.from.Vol?
    {
      assert a == Edge(k, to) ==> win !in Touched(w, k, to);
    }
  }

  lemma EdgeFound(w: World, k: Key, to: Key)
    requires Inv(w) && Edge(k, to) in w.attaching && Live(w.objs, w.bound, w.volumes, to)
    ensures Inv(w.(found := w.found + {Edge(k, to)}))
  {
    assert Targets(w.objs, w.bound, w.volumes, w.attaching, w.found + {Edge(k, to)}, w.overlapped);
  }

  lemma WindowOpened(w: World, win: Window)
    requires Inv(w)
    ensures Inv(w.(windows := w.windows + {win},
                   overlapped := if Contended(w, win) then w.overlapped + {win} else w.overlapped))
  {
    var more := if Contended(w, win) then w.overlapped + {win} else w.overlapped;
    Overlapped(w, more);
    assert Exclusive(w.windows + {win}, more, w.attaching);
  }

  lemma WindowsClosed(w: World, windows: set<Window>, attaching: set<Edge>, found: set<Edge>)
    requires Inv(w) && windows <= w.windows && attaching <= w.attaching && found <= w.found && found <= attaching
    ensures Inv(w.(windows := windows, attaching := attaching, found := found))
  {
    assert Targets(w.objs, w.bound, w.volumes, attaching, found, w.overlapped);
    assert Exclusive(windows, w.overlapped, attaching);
  }

  // ---------- one step, any run ----------

  lemma CreateStep(w: World, e: Event)
    requires Inv(w) && Enabled(w, e) && e.Create?
    ensures Inv(Apply(w, e))
  {
    Created(w, e.key, e.spec, Object(w.clock, false, false, {}, e.spec, false, None),
            if e.spec.PoolSpec? then w.bound[e.key.name := e.spec.place] else w.bound);
  }

  lemma DeleteStep(w: World, e: Event)
    requires Inv(w) && Enabled(w, e) && e.Delete?
    ensures Inv(Apply(w, e))
  {
    if w.objs[e.key].finalizer {
      Stored(w, e.key, w.objs[e.key].(deleting := true));
    } else {
      Dropped(w, e.key);
      Removed(w, e.key);
    }
  }

  lemma EditStep(w: World, e: Event)
    requires Inv(w) && Enabled(w, e) && (e.EditSize? || e.EditShutoff?)
    ensures Inv(Apply(w, e))
  {
    var o := w.objs[e.key];
    match e
    case EditSize(k, size) => Stored(w, k, o.(spec := o.spec.(size := size)));
    case EditShutoff(k, off) => Stored(w, k, o.(spec := o.spec.(shutoff := off)));
  }

  lemma FinalizerStep(w: World, e: Event)
    requires Inv(w) && Enabled(w, e) && e.AddFinalizer?
    ensures Inv(Apply(w, e))
  {
    Stored(w, e.key, w.objs[e.key].(finalizer := true));
  }

  lemma StatusStep(w: World, e: Event)
    requires Inv(w) && Enabled(w, e) && e.SetStatus?
    ensures Inv(Apply(w, e))
  {
    Stored(w, e.key, w.objs[e.key].(ready := e.ready, place := e.place));
  }

  lemma ReleaseStep(w: World, e: Event)
    requires Inv(w) && Enabled(w, e) && e.RemoveFinalizer?
    ensures Inv(Apply(w, e))
  {
    Released(w, e.key, e.version);
    Removed(w, e.key);
  }

  lemma LabelStep(w: World, e: Event)
    requires Inv(w) && Enabled(w, e) && e.AddLabel?
    ensures Inv(Apply(w, e))
  {
    var k, n := e.key, w.objs[e.key].(labels := w.objs[e.key].labels + {e.to});
    Stored(w, k, n);
    var mid := Put(w, k, n);
    WindowsClosed(mid, mid.windows, mid.attaching - {Edge(k, e.to)}, mid.found - {Edge(k, e.to)});
  }

  lemma CreateVolumeStep(w: World, e: Event)
    requires Inv(w) && Enabled(w, e) && e.CreateVolume?
    ensures Inv(Apply(w, e))
  {
    VolumeAdded(w, PathOf(w, e.key).value, Volume(e.key, e.kind, e.bytes, e.backing, w.clock, true, false));
  }

  lemma CapacitySet(w: World, p: Path, bytes: nat, filled: bool)
    requires Inv(w) && p in w.volumes
    ensures Inv(Patch(w, p, w.volumes[p].(bytes := bytes, filled := filled)))
  {
    VolumesTouched(w, w.volumes[p := w.volumes[p].(bytes := bytes, filled := filled)]);
  }

  lemma CapacityStep(w: World, e: Event)
    requires Inv(w) && Enabled(w, e) && (e.Upload? || Grows(e))
    ensures Inv(Apply(w, e))
  {
    var p := PathOf(w, e.key).value;
    var filled := e.Upload? || w.volumes[p].filled;
    CapacitySet(w, p, e.bytes, filled);
    assert Apply(w, e) == Patch(w, p, w.volumes[p].(bytes := e.bytes, filled := filled));
  }

  lemma DefineStep(w: World, k: Key, disks: seq<Link>)
    requires Inv(w) && Enabled(w, Define(k, disks))
    ensures Inv(Apply(w, Define(k, disks)))
  {
    var s, d := SeatOf(w, k).value, Domain(k, disks, Shutoff);
    assert DomainLabelled(w.objs[k], d, s);
    DomainAdded(w, s, d);
    var m := w.(domains := w.domains[s := d]);
    assert Apply(w, Define(k, disks)) == m.(seen := w.seen - {k});
  }

  lemma DomainStep(w: World, e: Event)
    requires Inv(w) && Enabled(w, e) && (e.PowerChange? || e.Define? || e.Start? || e.Undefine?)
    ensures Inv(Apply(w, e))
  {
    match e
    case PowerChange(s, power) => DomainTouched(w, s, w.domains[s].(power := power));
    case Define(k, disks) => DefineStep(w, k, disks);
    case Start(k) => DomainTouched(w, SeatOf(w, k).value, w.domains[SeatOf(w, k).value].(power := Running));
    case Undefine(k) => DomainRemoved(w, SeatOf(w, k).value);
  }

  lemma OpenEdgeStep(w: World, e: Event)
    requires Inv(w) && Enabled(w, e) && e.OpenEdge?
    ensures Inv(Apply(w, e))
  {
    EdgeOpened(w, e.key, e.to);
  }

  lemma FindEdgeStep(w: World, e: Event)
    requires Inv(w) && Enabled(w, e) && e.FindEdge?
    ensures Inv(Apply(w, e))
  {
    EdgeFound(w, e.key, e.to);
  }

  lemma OpenWindowStep(w: World, e: Event)
    requires Inv(w) && Enabled(w, e) && e.OpenWindow?
    ensures Inv(Apply(w, e))
  {
    WindowOpened(w, e.window);
  }

  lemma CloseStep(w: World, e: Event)
    requires Inv(w) && Enabled(w, e) && e.CloseWindow?
    ensures Inv(Apply(w, e))
  {
    WindowsClosed(w, w.windows - {e.window}, w.attaching, w.found);
  }

  lemma ReconcileOver(w: World, volumes: Volumes, windows: set<Window>, attaching: set<Edge>, found: set<Edge>)
    requires Inv(w) && SameLinks(w.volumes, volumes)
    requires windows <= w.windows && attaching <= w.attaching && found <= w.found && found <= attaching
    ensures Inv(w.(volumes := volumes, windows := windows, attaching := attaching, found := found))
  {
    VolumesTouched(w, volumes);
    WindowsClosed(w.(volumes := volumes), windows, attaching, found);
  }

  lemma FinishStep(w: World, e: Event)
    requires Inv(w) && Enabled(w, e) && e.Finish?
    ensures Inv(Apply(w, e))
  {
    var n := Apply(w, e);
    ReconcileOver(w, n.volumes, n.windows, n.attaching, n.found);
    assert n == w.(volumes := n.volumes, windows := n.windows, attaching := n.attaching, found := n.found);
  }

  /** Whatever happens, the invariant survives it. */
  lemma Step(w: World, e: Event)
    requires Inv(w) && Enabled(w, e)
    ensures Inv(Apply(w, e))
  {
    if e.Create? { CreateStep(w, e); }
    else if e.Delete? { DeleteStep(w, e); }
    else if e.EditSize? || e.EditShutoff? { EditStep(w, e); }
    else if e.AddFinalizer? { FinalizerStep(w, e); }
    else if e.AddLabel? { LabelStep(w, e); }
    else if e.SetStatus? { StatusStep(w, e); }
    else if e.RemoveFinalizer? { ReleaseStep(w, e); }
    else if e.CreateVolume? { CreateVolumeStep(w, e); }
    else if e.Upload? || Grows(e) { CapacityStep(w, e); }
    else if e.DeleteVolume? { VolumeRemoved(w, e.key); }
    else if e.PowerChange? || e.Define? || e.Start? || e.Undefine? { DomainStep(w, e); }
    else if e.OpenEdge? { OpenEdgeStep(w, e); }
    else if e.FindEdge? { FindEdgeStep(w, e); }
    else if e.OpenWindow? { OpenWindowStep(w, e); }
    else if e.CloseWindow? { CloseStep(w, e); }
    else if e.Finish? { FinishStep(w, e); }
  }

  lemma {:induction false} RunKeeps(w: World, events: seq<Event>)
    requires Inv(w) && Run(w, events)
    ensures Inv(After(w, events))
    decreases |events|
  {
    if events != [] {
      Step(w, events[0]);
      RunKeeps(Apply(w, events[0]), events[1..]);
    }
  }
}
