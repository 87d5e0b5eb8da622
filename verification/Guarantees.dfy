/** What every run of the protocol guarantees, whatever the users do, whichever calls fail and however reconciles
 *  interleave. */
module Guarantees {
  import opened Common
  import opened Protocol
  import opened Preservation
  import opened Interference

  lemma ReachableInv(w: World)
    requires Reachable(w)
    ensures Inv(w)
  {
    var events :| Run(INITIAL, events) && After(INITIAL, events) == w;
    RunKeeps(INITIAL, events);
  }

  // ---------- no orphans, write-ahead references ----------

  /** A domain on a host has a stored object with the finalizer on, which labels everything the definition needs. */
  lemma DomainsWrittenAhead(w: World, s: Seat)
    requires Reachable(w) && s in w.domains
    ensures w.domains[s].owner in w.objs
    ensures var o := w.objs[w.domains[s].owner];
            && o.finalizer && o.spec.DomainSpec? && Seat(o.spec.host, o.spec.name) == s
            && (forall n :: n in o.spec.disks ==> Vol(n) in o.labels)
            && (forall n :: n in o.spec.nets ==> Net(n) in o.labels)
            && (forall n :: n in o.spec.pcis ==> Pci(n) in o.labels)
            && (o.spec.cloudInit.Some? ==> Ci(o.spec.cloudInit.value) in o.labels)
            && (forall l :: l in w.domains[s].disks ==> l.ref in o.labels)
  {
    ReachableInv(w);
    var o := w.objs[w.domains[s].owner];
    assert DomainLabelled(o, w.domains[s], s);
    forall n | n in o.spec.disks ensures Vol(n) in o.labels { assert Vol(n) in References(o.spec); }
    forall n | n in o.spec.nets ensures Net(n) in o.labels { assert Net(n) in References(o.spec); }
    forall n | n in o.spec.pcis ensures Pci(n) in o.labels { assert Pci(n) in References(o.spec); }
  }

  /** A volume on a host has a stored object with the finalizer on; a Volume's object labels its pool and its backing
   *  store. */
  lemma VolumesWrittenAhead(w: World, p: Path)
    requires Reachable(w) && p in w.volumes
    ensures w.volumes[p].owner in w.objs
    ensures var v, o := w.volumes[p], w.objs[w.volumes[p].owner];
            && o.finalizer && PathOf(w, v.owner) == Some(p)
            && (v.owner.Vol? ==> o.spec.VolumeSpec? && Pool(o.spec.pool) in o.labels)
            && (v.backing.Some? ==>
                  v.owner.Vol? && v.backing.value.ref in o.labels && o.spec.backing == Some(v.backing.value.ref.name))
  {
    ReachableInv(w);
    assert VolumeLabelled(w.objs[w.volumes[p].owner], w.volumes[p], p);
  }

  // ---------- nothing dangles ----------

  /** No deletion has ever coincided with a reference being made to what it deletes. */
  predicate Undisputed(w: World) {
    forall win :: win in w.overlapped ==> win.Resizing?
  }

  lemma LinksResolve(w: World)
    requires Linked(w.volumes, w.domains, w.overlapped, w.clock) && Undisputed(w)
    ensures NoDangling(w) && Descends(w)
  {
    forall p | p in w.volumes && w.volumes[p].backing.Some?
      ensures w.volumes[p].backing.value.path in w.volumes
      ensures w.volumes[w.volumes[p].backing.value.path].born < w.volumes[p].born
    {
      assert Supported(w.volumes, w.overlapped, w.volumes[p]);
    }
    assert Descends(w);
    forall s, l | s in w.domains && l in w.domains[s].disks
      ensures l.path in w.volumes
    {
      assert Resolves(w.volumes, w.overlapped, l);
    }
  }

  /** The pool of a copy whose object labels it is stored. */
  lemma PoolStored(w: World, p: Path)
    requires Targets(w.objs, w.bound, w.volumes, w.attaching, w.found, w.overlapped) && Undisputed(w)
    requires Pooled(w, p) && PoolFor(w, p) in w.objs[w.volumes[p].owner].labels
    ensures PoolFor(w, p) in w.objs
  {
    assert Live(w.objs, w.bound, w.volumes, PoolFor(w, p));
  }

  lemma PoolsStored(w: World)
    requires Inv(w) && Undisputed(w)
    ensures PoolsKept(w)
  {
    forall p | p in w.volumes
      ensures Pooled(w, p)
      ensures w.volumes[p].owner.Vol? || PoolFor(w, p) in w.objs[w.volumes[p].owner].labels ==> PoolFor(w, p) in w.objs
    {
      var k := w.volumes[p].owner;
      assert PathIn(w.objs, w.bound, k) == Some(p);
      assert VolumeLabelled(w.objs[k], w.volumes[p], p);
      if PoolFor(w, p) in w.objs[k].labels { PoolStored(w, p); }
    }
  }

  lemma SafeState(w: World)
    requires Inv(w) && Undisputed(w)
    ensures NoDangling(w) && Descends(w) && PoolsKept(w)
  {
    LinksResolve(w);
    PoolsStored(w);
  }

  lemma {:induction false} PrefixRuns(w: World, events: seq<Event>, i: nat)
    requires Run(w, events) && i <= |events|
    ensures Run(w, events[..i])
    ensures Run(After(w, events[..i]), events[i..]) && After(w, events) == After(After(w, events[..i]), events[i..])
    decreases |events|
  {
    if i > 0 {
      PrefixRuns(Apply(w, events[0]), events[1..], i - 1);
      assert events[..i][1..] == events[1..][..i - 1] && events[i..] == events[1..][i - 1..];
    } else {
      assert events[0..] == events;
    }
  }

  lemma {:induction false} OverlapsStay(w: World, events: seq<Event>)
    requires Run(w, events)
    ensures w.overlapped <= After(w, events).overlapped && w.clock <= After(w, events).clock
    decreases |events|
  {
    if events != [] {
      Frame(w, events[0]);
      OverlapsStay(Apply(w, events[0]), events[1..]);
    }
  }

  /** As long as no deletion has coincided with a reference being made, then after every single call of the run every
   *  disk path and backing path resolves, backing descends, and every volume's pool object is stored. */
  lemma SafeThroughout(events: seq<Event>, i: nat)
    requires Run(INITIAL, events) && Undisputed(After(INITIAL, events)) && i <= |events|
    ensures Run(INITIAL, events[..i])
    ensures var w := After(INITIAL, events[..i]); NoDangling(w) && Descends(w) && PoolsKept(w)
  {
    PrefixRuns(INITIAL, events, i);
    var w := After(INITIAL, events[..i]);
    OverlapsStay(w, events[i..]);
    RunKeeps(INITIAL, events[..i]);
    SafeState(w);
  }

  /** Whoever lies on the copy of `k`, or has it as a disk, refers to `k` by a label. */
  lemma UserRefers(w: World, k: Key, p: Path)
    requires Inv(w) && Undisputed(w) && p in w.volumes && w.volumes[p].owner == k
    ensures forall s, l :: s in w.domains && l in w.domains[s].disks && l.path == p ==>
              w.domains[s].owner in Referrers(w, k)
    ensures forall q :: q in w.volumes && w.volumes[q].backing.Some? && w.volumes[q].backing.value.path == p ==>
              w.volumes[q].owner in Overlays(w, k)
  {
    forall s, l | s in w.domains && l in w.domains[s].disks && l.path == p
      ensures w.domains[s].owner in Referrers(w, k)
    {
      assert DomainLabelled(w.objs[w.domains[s].owner], w.domains[s], s);
      assert Resolves(w.volumes, w.overlapped, l);
    }
    forall q | q in w.volumes && w.volumes[q].backing.Some? && w.volumes[q].backing.value.path == p
      ensures w.volumes[q].owner in Overlays(w, k)
    {
      assert VolumeLabelled(w.objs[w.volumes[q].owner], w.volumes[q], q);
      assert Supported(w.volumes, w.overlapped, w.volumes[q]);
    }
  }

  lemma ListedFree(w: World, k: Key)
    requires Enabled(w, DeleteVolume(k)) && Undisputed(w)
    ensures Referrers(w, k) == {} && Present(w, k)
  {
  }

  // ---------- when a pool is kept ----------

  /** The copy at `p` is the same one after the run. */
  ghost predicate CopyStays(w: World, events: seq<Event>, p: Path)
    requires Run(w, events)
  {
    p in w.volumes && p in After(w, events).volumes && After(w, events).volumes[p].born == w.volumes[p].born
  }

  lemma StepBound(w: World, e: Event)
    requires Enabled(w, e)
    ensures forall q :: q in w.bound ==> q in Apply(w, e).bound && Apply(w, e).bound[q] == w.bound[q]
  {
    if !OnObject(e) { Frame(w, e); }
    else if Removes(w, e) { GoneShape(w, e); }
    else if !e.Create? { StoredShape(w, e); }
  }

  /** One step in which a copy stays keeps the labels of its object, and pool names keep their places. */
  lemma StepKeepsLabels(w: World, e: Event, p: Path)
    requires Inv(w) && Enabled(w, e) && p in w.volumes && p in Apply(w, e).volumes
    requires Apply(w, e).volumes[p].born == w.volumes[p].born
    ensures var n, k := Apply(w, e), w.volumes[p].owner;
            n.volumes[p].owner == k && k in w.objs && k in n.objs && w.objs[k].labels <= n.objs[k].labels
  {
    Step(w, e);
    StepLasts(w, e);
    assert Linked(w.volumes, w.domains, w.overlapped, w.clock);
    StepLabels(w, e, w.volumes[p].owner);
  }

  /** While a copy stays, so does its object, with the labels it has. */
  lemma {:induction false} LabelsStay(w: World, events: seq<Event>, p: Path)
    requires Inv(w) && Run(w, events) && CopyStays(w, events, p)
    ensures var n, k := After(w, events), w.volumes[p].owner;
            n.volumes[p].owner == k && k in w.objs && k in n.objs && w.objs[k].labels <= n.objs[k].labels
    decreases |events|
  {
    if events != [] {
      var m, rest := Apply(w, events[0]), events[1..];
      Step(w, events[0]);
      StepLasts(w, events[0]);
      RunLasts(m, rest);
      StepKeepsLabels(w, events[0], p);
      LabelsStay(m, rest, p);
    }
  }

  lemma {:induction false} BoundStays(w: World, events: seq<Event>)
    requires Run(w, events)
    ensures forall q :: q in w.bound ==> q in After(w, events).bound && After(w, events).bound[q] == w.bound[q]
    decreases |events|
  {
    if events != [] {
      StepBound(w, events[0]);
      BoundStays(Apply(w, events[0]), events[1..]);
    }
  }

  lemma SamePool(w: World, n: World, p: Path)
    requires Inv(w) && Inv(n) && p in w.volumes && p in n.volumes && w.volumes[p].owner == n.volumes[p].owner
    requires forall q :: q in w.bound ==> q in n.bound && n.bound[q] == w.bound[q]
    ensures Pooled(w, p) && Pooled(n, p) && PoolFor(w, p) == PoolFor(n, p)
  {
    var k := w.volumes[p].owner;
    assert PathOf(w, k) == Some(p) && PathOf(n, k) == Some(p);
  }

  /** The events that take an unreferenced pool away. */
  function Dismissal(w: World, pool: Key): seq<Event>
    requires pool in w.objs
  {
    if w.objs[pool].finalizer
    then [Delete(pool), OpenWindow(pool, Deleting(pool)), RemoveFinalizer(pool, w.clock)]
    else [Delete(pool)]
  }

  lemma Marked(w: World, pool: Key)
    requires pool in w.objs && w.objs[pool].finalizer
    ensures var n := Apply(w, Delete(pool));
            && n == w.(objs := n.objs, clock := w.clock + 1) && n.objs.Keys == w.objs.Keys
            && n.objs[pool].deleting && n.objs[pool].version == w.clock
            && n.objs - {pool} == w.objs - {pool} && n.objs[pool].labels == w.objs[pool].labels
  {
  }

  lemma Dismissed(w: World, pool: Key)
    requires pool.Pool? && pool in w.objs && Referrers(w, pool) == {} && w.attaching == {}
    ensures Run(w, Dismissal(w, pool))
    ensures var n := After(w, Dismissal(w, pool));
            n.objs == w.objs - {pool} && n.volumes == w.volumes && n.overlapped == w.overlapped
  {
    var a := Apply(w, Delete(pool));
    if w.objs[pool].finalizer {
      Marked(w, pool);
      forall k | k in a.objs
        ensures pool !in a.objs[k].labels
      {
        assert k !in Referrers(w, pool);
        assert k != pool ==> a.objs[k] == (a.objs - {pool})[k] == (w.objs - {pool})[k];
      }
      DismissedMarked(a, pool, w.clock);
      assert Dismissal(w, pool)[1..] == [OpenWindow(pool, Deleting(pool)), RemoveFinalizer(pool, w.clock)];
    } else {
      assert Dismissal(w, pool)[1..] == [];
    }
  }

  lemma DismissedMarked(a: World, pool: Key, version: nat)
    requires pool.Pool? && Current(a, pool, version) && a.objs[pool].deleting
    requires (forall k :: k in a.objs ==> pool !in a.objs[k].labels) && a.attaching == {}
    ensures var events := [OpenWindow(pool, Deleting(pool)), RemoveFinalizer(pool, version)];
            && Run(a, events) && After(a, events).objs == a.objs - {pool}
            && After(a, events).volumes == a.volumes && After(a, events).overlapped == a.overlapped
  {
    var open, go := OpenWindow(pool, Deleting(pool)), RemoveFinalizer(pool, version);
    var b := Apply(a, open);
    assert Referrers(b, pool) == {};
    assert [open, go][1..] == [go] && [go][1..] == [];
    assert Run(b, [go]);
    assert After(Apply(b, go), []) == Apply(b, go);
    assert After(b, [go]) == After(Apply(b, go), [go][1..]);
    assert After(a, [open, go]) == After(b, [go]);
  }

  /** Between reconciles, for a copy whose pool nobody else refers to: every continuation without overlap in which the
   *  copy stays keeps the pool, if and only if the copy's object labels it. A Volume's always does. */
  lemma PoolStaysExactly(w: World, p: Path)
    requires Reachable(w) && Undisputed(w) && w.attaching == {} && w.windows == {}
    requires Pooled(w, p) && PoolFor(w, p) in w.objs && Referrers(w, PoolFor(w, p)) <= {w.volumes[p].owner}
    ensures PoolFor(w, p) in w.objs[w.volumes[p].owner].labels <==>
              forall events :: Run(w, events) && Undisputed(After(w, events)) && CopyStays(w, events, p) ==>
                                 PoolFor(w, p) in After(w, events).objs
    ensures w.volumes[p].owner.Vol? ==> PoolFor(w, p) in w.objs[w.volumes[p].owner].labels
  {
    ReachableInv(w);
    var pool, k := PoolFor(w, p), w.volumes[p].owner;
    assert VolumeLabelled(w.objs[k], w.volumes[p], p);
    if pool in w.objs[k].labels {
      forall events | Run(w, events) && Undisputed(After(w, events)) && CopyStays(w, events, p)
        ensures pool in After(w, events).objs
      {
        var n := After(w, events);
        RunKeeps(w, events);
        LabelsStay(w, events, p);
        BoundStays(w, events);
        SamePool(w, n, p);
        PoolStored(n, p);
      }
    } else {
      assert k !in Referrers(w, pool);
      Dismissed(w, pool);
      assert CopyStays(w, Dismissal(w, pool), p);
    }
  }

  /** The pool's name stands for another place. */
  function Rebound(w: World, pool: string, at: Place): Bindings { w.bound[pool := at] }

  lemma ReboundPath(w: World, pool: string, at: Place, p: Path)
    requires NoOrphans(w.objs, w.bound, w.volumes, w.domains) && Pooled(w, p) && pool in w.bound && w.bound[pool] != at
    ensures PathIn(w.objs, Rebound(w, pool, at), w.volumes[p].owner) == Some(p) <==> PoolFor(w, p) != Pool(pool)
  {
    assert PathOf(w, w.volumes[p].owner) == Some(p);
  }

  lemma OrphanedExactly(w: World, pool: string, at: Place)
    requires NoOrphans(w.objs, w.bound, w.volumes, w.domains) && pool in w.bound && w.bound[pool] != at
    requires forall p :: p in w.volumes ==> Pooled(w, p)
    ensures NoOrphans(w.objs, Rebound(w, pool, at), w.volumes, w.domains)
            <==> forall p :: p in w.volumes ==> PoolFor(w, p) != Pool(pool)
  {
    forall p | p in w.volumes
      ensures PathIn(w.objs, Rebound(w, pool, at), w.volumes[p].owner) == Some(p) <==> PoolFor(w, p) != Pool(pool)
    {
      ReboundPath(w, pool, at, p);
    }
  }

  /** What it would mean to use the name of a pool that is gone for another place: every copy still has its owner where
   *  it lies, if and only if none of their objects asks for that pool. Those that do are cloud-inits which have not
   *  stored its label. */
  lemma RebindingExactly(w: World, pool: string, at: Place)
    requires Reachable(w) && Undisputed(w) && Pool(pool) !in w.objs && pool in w.bound && w.bound[pool] != at
    ensures forall p :: p in w.volumes ==> Pooled(w, p)
    ensures NoOrphans(w.objs, Rebound(w, pool, at), w.volumes, w.domains)
            <==> forall p :: p in w.volumes ==> PoolFor(w, p) != Pool(pool)
    ensures forall p :: p in w.volumes && PoolFor(w, p) == Pool(pool) ==>
              w.volumes[p].owner.Ci? && Pool(pool) !in w.objs[w.volumes[p].owner].labels
  {
    ReachableInv(w);
    SafeState(w);
    OrphanedExactly(w, pool, at);
  }

  // ---------- ready means there ----------

  /** What is ready and not being deleted is on its host. */
  ghost predicate Backed(w: World) {
    forall k :: k in w.objs && w.objs[k].ready && !w.objs[k].deleting ==> There(w, k)
  }

  lemma StepOwnReady(w: World, e: Event)
    requires Enabled(w, e) && OnObject(e) && (IsStorage(e.key) || e.key.Dom?)
    requires e.key in Apply(w, e).objs && Apply(w, e).objs[e.key].ready && !Apply(w, e).objs[e.key].deleting
    ensures e.key in w.objs && !w.objs[e.key].deleting && (w.objs[e.key].ready || There(w, e.key))
  {
    if e.SetStatus? { ReportReady(w, e); }
  }

  lemma ReportReady(w: World, e: Event)
    requires Enabled(w, e) && e.SetStatus? && e.ready && !Apply(w, e).objs[e.key].deleting
    ensures e.key in w.objs && !w.objs[e.key].deleting && There(w, e.key)
  {
  }

  lemma StepReady(w: World, e: Event, k: Key)
    requires Enabled(w, e) && (IsStorage(k) || k.Dom?)
    requires k in Apply(w, e).objs && Apply(w, e).objs[k].ready && !Apply(w, e).objs[k].deleting
    ensures k in w.objs && !w.objs[k].deleting && (w.objs[k].ready || There(w, k))
  {
    if !OnObject(e) { Frame(w, e); } else if e.key == k { StepOwnReady(w, e); } else { StepOther(w, e, k); }
  }

  /** A stored object keeps its path and its seat. */
  lemma StepPath(w: World, e: Event, k: Key)
    requires Enabled(w, e) && k in w.objs && k in Apply(w, e).objs
    ensures PathOf(w, k).Some? ==> PathOf(Apply(w, e), k) == PathOf(w, k)
    ensures SeatOf(w, k).Some? ==> SeatOf(Apply(w, e), k) == SeatOf(w, k)
  {
    var n := Apply(w, e);
    StepBound(w, e);
    assert Core(n.objs[k].spec) == Core(w.objs[k].spec) by { StepCore(w, e, k); }
    SamePath(w.objs, w.bound, n.objs, n.bound, k);
  }

  lemma SamePath(before: Objects, bound: Bindings, after: Objects, wider: Bindings, k: Key)
    requires k in before && k in after && Core(after[k].spec) == Core(before[k].spec)
    requires forall q :: q in bound ==> q in wider && wider[q] == bound[q]
    ensures PathIn(before, bound, k).Some? ==> PathIn(after, wider, k) == PathIn(before, bound, k)
    ensures SeatIn(before, k).Some? ==> SeatIn(after, k) == SeatIn(before, k)
  {
  }

  lemma StepSeats(w: World, e: Event, s: Seat)
    requires Enabled(w, e) && s in w.domains && s !in Apply(w, e).domains
    ensures e.Undefine? && SeatOf(w, e.key) == Some(s) && e.key in w.objs && w.objs[e.key].deleting
  {
    if !OnDomain(e) { Frame(w, e); }
  }

  lemma StepPresent(w: World, e: Event, k: Key)
    requires Inv(w) && Enabled(w, e) && Present(w, k) && !w.objs[k].deleting && k in Apply(w, e).objs
    ensures Present(Apply(w, e), k)
  {
    StepPath(w, e, k);
    OwnerAt(w, k);
    var p := PathOf(w, k).value;
    if p !in Apply(w, e).volumes {
      StepCopies(w, e, p);
      OwnerAt(w, e.key);
    }
  }

  lemma StepSeated(w: World, e: Event, k: Key, s: Seat)
    requires Inv(w) && Enabled(w, e) && SeatOf(w, k) == Some(s) && s in w.domains && !w.objs[k].deleting
    requires k in Apply(w, e).objs
    ensures SeatOf(Apply(w, e), k) == Some(s) && s in Apply(w, e).domains
  {
    StepPath(w, e, k);
    SeatedAt(w, k);
    if s !in Apply(w, e).domains {
      StepSeats(w, e, s);
      SeatedAt(w, e.key);
    }
  }

  lemma StepThere(w: World, e: Event, k: Key)
    requires Inv(w) && Enabled(w, e) && There(w, k) && k in w.objs && !w.objs[k].deleting && k in Apply(w, e).objs
    ensures There(Apply(w, e), k)
  {
    if IsStorage(k) { StepPresent(w, e, k); }
    if k.Dom? { StepSeated(w, e, k, SeatOf(w, k).value); }
  }

  lemma ReadyThere(w: World, k: Key)
    requires Backed(w) && k in w.objs && !w.objs[k].deleting && (w.objs[k].ready || There(w, k))
    ensures There(w, k)
  {
  }

  lemma StepBacked(w: World, e: Event)
    requires Inv(w) && Backed(w) && Enabled(w, e)
    ensures Backed(Apply(w, e))
  {
    var n := Apply(w, e);
    forall k | k in n.objs && n.objs[k].ready && !n.objs[k].deleting && (IsStorage(k) || k.Dom?)
      ensures There(n, k)
    {
      StepReady(w, e, k);
      ReadyThere(w, k);
      StepThere(w, e, k);
    }
  }

  lemma {:induction false} RunBacked(w: World, events: seq<Event>)
    requires Inv(w) && Backed(w) && Run(w, events)
    ensures Backed(After(w, events))
    decreases |events|
  {
    if events != [] {
      StepBacked(w, events[0]);
      Step(w, events[0]);
      RunBacked(Apply(w, events[0]), events[1..]);
    }
  }

  /** In every reachable state, and however deletions and references interleave: a volume or cloud-init that is ready
   *  and not being deleted has its copy, and a domain its definition, and they are its own. */
  lemma ReadyIsThere(w: World, k: Key)
    requires Reachable(w) && k in w.objs && w.objs[k].ready && !w.objs[k].deleting
    ensures IsStorage(k) ==> Present(w, k) && w.volumes[PathOf(w, k).value].owner == k
    ensures k.Dom? ==> SeatOf(w, k).Some? && SeatOf(w, k).value in w.domains && w.domains[SeatOf(w, k).value].owner == k
  {
    ReachableInv(w);
    var events :| Run(INITIAL, events) && After(INITIAL, events) == w;
    RunBacked(INITIAL, events);
    if IsStorage(k) { OwnerAt(w, k); }
    if k.Dom? { SeatedAt(w, k); }
  }

  // ---------- deletions ----------

  /** What a deletion takes off the host is no domain's disk and no volume's backing store. */
  lemma DeletionSpares(w: World, k: Key)
    requires Reachable(w) && Undisputed(w) && Enabled(w, DeleteVolume(k))
    ensures forall s, l :: s in w.domains && l in w.domains[s].disks ==> l.path != PathOf(w, k).value
    ensures forall p :: p in w.volumes && w.volumes[p].backing.Some? ==>
              w.volumes[p].backing.value.path != PathOf(w, k).value
  {
    ListedFree(w, k);
    ReachableInv(w);
    OwnerAt(w, k);
    UserRefers(w, k, PathOf(w, k).value);
  }

  // ---------- chains end ----------

  /** Each path lies on the next one. */
  ghost predicate IsChain(volumes: Volumes, ps: seq<Path>) {
    && (forall i :: 0 <= i < |ps| ==> ps[i] in volumes)
    && (forall i :: 0 <= i < |ps| - 1 ==>
          volumes[ps[i]].backing.Some? && volumes[ps[i]].backing.value.path == ps[i + 1])
  }

  lemma {:induction false} ChainAges(w: World, ps: seq<Path>, i: nat, j: nat)
    requires Descends(w) && IsChain(w.volumes, ps) && i < j < |ps|
    ensures w.volumes[ps[j]].born < w.volumes[ps[i]].born
    decreases j
  {
    assert ps[j] == w.volumes[ps[j - 1]].backing.value.path;
    if i < j - 1 { ChainAges(w, ps, i, j - 1); }
  }

  lemma {:induction false} DistinctFit(ps: seq<Path>, all: set<Path>)
    requires forall i :: 0 <= i < |ps| ==> ps[i] in all
    requires forall i, j :: 0 <= i < j < |ps| ==> ps[i] != ps[j]
    ensures |ps| <= |all|
    decreases |ps|
  {
    if ps != [] { DistinctFit(ps[1..], all - {ps[0]}); }
  }

  /** No chain of backing stores meets a volume twice, so each has at most as many links as there are volumes, also when
   *  paths have been used again after deletions. */
  lemma ChainsEnd(w: World, ps: seq<Path>)
    requires Reachable(w) && Undisputed(w) && IsChain(w.volumes, ps)
    ensures forall i, j :: 0 <= i < j < |ps| ==> ps[i] != ps[j]
    ensures |ps| <= |w.volumes|
  {
    ReachableInv(w);
    SafeState(w);
    forall i, j | 0 <= i < j < |ps|
      ensures ps[i] != ps[j]
    {
      ChainAges(w, ps, i, j);
    }
    DistinctFit(ps, w.volumes.Keys);
  }

  // ---------- capacity ----------

  /** Volumes created before are what they were, and those that were finished have not shrunk. */
  ghost predicate Lasting(w: World, n: World) {
    && w.clock <= n.clock
    && (forall p :: p in n.volumes && n.volumes[p].born < w.clock ==>
          && p in w.volumes && SameVolume(w.volumes[p], n.volumes[p])
          && (!w.volumes[p].recent ==> !n.volumes[p].recent && w.volumes[p].bytes <= n.volumes[p].bytes))
  }

  lemma FinishLasts(w: World, k: Key, p: Path)
    requires p in w.volumes
    ensures p in Apply(w, Finish(k)).volumes && SameVolume(w.volumes[p], Apply(w, Finish(k)).volumes[p])
    ensures Apply(w, Finish(k)).volumes[p].bytes == w.volumes[p].bytes
    ensures !w.volumes[p].recent ==> !Apply(w, Finish(k)).volumes[p].recent
    ensures Apply(w, Finish(k)).volumes.Keys == w.volumes.Keys
  {
  }

  lemma SizeLasts(w: World, e: Event, p: Path)
    requires Enabled(w, e) && (e.Upload? || Grows(e)) && p in Apply(w, e).volumes
    ensures p in w.volumes && SameVolume(w.volumes[p], Apply(w, e).volumes[p])
    ensures !w.volumes[p].recent ==>
              !Apply(w, e).volumes[p].recent && w.volumes[p].bytes <= Apply(w, e).volumes[p].bytes
  {
  }

  lemma OthersLast(w: World, e: Event, p: Path)
    requires Enabled(w, e) && (e.CreateVolume? || e.DeleteVolume?)
    requires p in Apply(w, e).volumes && Apply(w, e).volumes[p].born < w.clock
    ensures p in w.volumes && Apply(w, e).volumes[p] == w.volumes[p]
  {
  }

  lemma StepLastsAt(w: World, e: Event, p: Path)
    requires Enabled(w, e) && p in Apply(w, e).volumes && Apply(w, e).volumes[p].born < w.clock
    ensures p in w.volumes && SameVolume(w.volumes[p], Apply(w, e).volumes[p])
    ensures !w.volumes[p].recent ==>
              !Apply(w, e).volumes[p].recent && w.volumes[p].bytes <= Apply(w, e).volumes[p].bytes
  {
    if !OnVolume(e) { Frame(w, e); }
    else if e.Finish? { FinishLasts(w, e.key, p); }
    else if e.Upload? || Grows(e) { SizeLasts(w, e, p); }
    else { OthersLast(w, e, p); }
  }

  lemma StepLasts(w: World, e: Event)
    requires Enabled(w, e)
    ensures Lasting(w, Apply(w, e))
  {
    var n := Apply(w, e);
    Frame(w, e);
    forall p | p in n.volumes && n.volumes[p].born < w.clock
      ensures p in w.volumes && SameVolume(w.volumes[p], n.volumes[p])
      ensures !w.volumes[p].recent ==> !n.volumes[p].recent && w.volumes[p].bytes <= n.volumes[p].bytes
    {
      StepLastsAt(w, e, p);
    }
  }

  lemma LastingChain(w: World, m: World, n: World)
    requires Lasting(w, m) && Lasting(m, n)
    ensures Lasting(w, n)
  {
  }

  lemma {:induction false} RunLasts(w: World, events: seq<Event>)
    requires Run(w, events)
    ensures Lasting(w, After(w, events))
    decreases |events|
  {
    if events != [] {
      StepLasts(w, events[0]);
      RunLasts(Apply(w, events[0]), events[1..]);
      LastingChain(w, Apply(w, events[0]), After(w, events));
    }
  }

  /** Once the reconcile that created it is over, a volume never shrinks: whatever sizes users ask for, and however the
   *  conversion of those sizes wraps. */
  lemma NeverShrinks(w: World, events: seq<Event>, p: Path)
    requires Reachable(w) && Run(w, events) && p in w.volumes && !w.volumes[p].recent
    requires p in After(w, events).volumes && After(w, events).volumes[p].born == w.volumes[p].born
    ensures w.volumes[p].bytes <= After(w, events).volumes[p].bytes
  {
    ReachableInv(w);
    RunLasts(w, events);
  }

  /** `q` lies on `p`. */
  predicate LiesOn(w: World, q: Path, p: Path) {
    q in w.volumes && w.volumes[q].backing.Some? && w.volumes[q].backing.value.path == p
  }

  ghost predicate LiesOnThroughout(w: World, events: seq<Event>, q: Path, p: Path)
    requires Run(w, events)
    decreases |events|
  {
    LiesOn(w, q, p) && (events != [] ==> LiesOnThroughout(Apply(w, events[0]), events[1..], q, p))
  }

  /** Only an upload or a resize changes a size. */
  lemma StepBytes(w: World, e: Event, p: Path)
    requires Enabled(w, e) && p in w.volumes && p in Apply(w, e).volumes && !w.volumes[p].recent
    ensures Apply(w, e).volumes[p] == w.volumes[p] || (Grows(e) && PathOf(w, e.key) == Some(p))
  {
    if !OnVolume(e) { Frame(w, e); }
  }

  lemma Unresized(w: World, e: Event)
    requires Enabled(w, e) && Grows(e) && Resizing(e.key) !in w.overlapped
    ensures Overlays(w, e.key) == {} && Present(w, e.key)
  {
  }

  lemma StepFreezes(w: World, e: Event, q: Path, p: Path)
    requires Inv(w) && Undisputed(w) && Enabled(w, e) && LiesOn(w, q, p) && p in w.volumes
    requires !w.volumes[p].recent && Resizing(w.volumes[p].owner) !in w.overlapped && p in Apply(w, e).volumes
    ensures Apply(w, e).volumes[p] == w.volumes[p]
  {
    StepBytes(w, e, p);
    UserRefers(w, w.volumes[p].owner, p);
    if Grows(e) && PathOf(w, e.key) == Some(p) {
      OwnerAt(w, e.key);
      assert w.volumes[q].owner in Overlays(w, e.key);
      assert Resizing(e.key) !in w.overlapped;
      Unresized(w, e);
    }
  }

  /** While another volume lies on it, the size of a volume is frozen: unless the resize that changes it has coincided
   *  with the making of such a reference. */
  lemma {:induction false} Frozen(w: World, events: seq<Event>, q: Path, p: Path)
    requires Inv(w) && Run(w, events) && Undisputed(After(w, events)) && LiesOnThroughout(w, events, q, p)
    requires p in w.volumes && !w.volumes[p].recent && Resizing(w.volumes[p].owner) !in After(w, events).overlapped
    ensures p in After(w, events).volumes && After(w, events).volumes[p] == w.volumes[p]
    decreases |events|
  {
    OverlapsStay(w, events);
    if events != [] {
      var n := Apply(w, events[0]);
      Step(w, events[0]);
      OverlapsStay(n, events[1..]);
      LinksResolve(n);
      StepFreezes(w, events[0], q, p);
      Frozen(n, events[1..], q, p);
    }
  }

  /** From step `i` on, `q` lies on `p`, and the reconcile that created `p` is over. */
  ghost predicate StackedFrom(log: seq<Event>, i: nat, q: Path, p: Path)
    requires i <= |log|
  {
    && Run(INITIAL, log[..i])
    && var w := After(INITIAL, log[..i]);
    && Run(w, log[i..]) && LiesOnThroughout(w, log[i..], q, p) && p in w.volumes && !w.volumes[p].recent
  }

  /** `p` is at the end what it was at step `i`. */
  ghost predicate FrozenFrom(log: seq<Event>, i: nat, p: Path)
    requires i <= |log|
  {
    && Run(INITIAL, log) && Run(INITIAL, log[..i])
    && var w, n := After(INITIAL, log[..i]), After(INITIAL, log);
    && p in w.volumes && p in n.volumes && n.volumes[p] == w.volumes[p]
  }

  lemma FrozenThroughout(log: seq<Event>, i: nat, q: Path, p: Path)
    requires Run(INITIAL, log) && After(INITIAL, log).overlapped == {} && i <= |log| && StackedFrom(log, i, q, p)
    ensures FrozenFrom(log, i, p)
  {
    PrefixRuns(INITIAL, log, i);
    RunKeeps(INITIAL, log[..i]);
    Frozen(After(INITIAL, log[..i]), log[i..], q, p);
  }

  // ---------- only what was seen off is undefined ----------

  /** At step `i`, the reconciler of `k` saw its domain shut off. */
  ghost predicate SawOff(events: seq<Event>, k: Key, i: nat)
    requires Run(INITIAL, events) && i < |events|
  {
    PrefixRuns(INITIAL, events, i);
    var w := After(INITIAL, events[..i]);
    events[i] == Observe(k) && SeatOf(w, k).Some? && SeatOf(w, k).value in w.domains
    && w.domains[SeatOf(w, k).value].power == Shutoff
  }

  /** It has not looked at it since, nor defined it anew. */
  predicate NotSince(events: seq<Event>, k: Key, i: int) {
    forall j :: 0 <= j < |events| && i < j ==> events[j] != Observe(k) && !(events[j].Define? && events[j].key == k)
  }

  /** Only a look changes what was seen, and a new definition forgets it. */
  lemma StepSeen(w: World, e: Event, k: Key)
    requires Enabled(w, e) && k in Apply(w, e).seen && e != Observe(k)
    ensures !(e.Define? && e.key == k) && k in w.seen && w.seen[k] == Apply(w, e).seen[k]
  {
    if !e.Observe? && !e.Define? { Frame(w, e); }
  }

  lemma Looked(w: World, k: Key)
    requires Enabled(w, Observe(k)) && Apply(w, Observe(k)).seen[k] == Shutoff
    ensures SeatOf(w, k).Some? && SeatOf(w, k).value in w.domains && w.domains[SeatOf(w, k).value].power == Shutoff
  {
  }

  lemma {:induction false} SeenLast(events: seq<Event>, k: Key)
    requires Run(INITIAL, events) && k in After(INITIAL, events).seen && After(INITIAL, events).seen[k] == Shutoff
    ensures exists i: nat :: i < |events| && SawOff(events, k, i) && NotSince(events, k, i)
    decreases |events|
  {
    var last := |events| - 1;
    if events != [] {
      PrefixRuns(INITIAL, events, last);
      var before := events[..last];
      var w := After(INITIAL, before);
      assert events[last..] == [events[last]];
      assert After(w, [events[last]]) == Apply(w, events[last]);
      if events[last] == Observe(k) {
        Looked(w, k);
        assert SawOff(events, k, last) && NotSince(events, k, last);
      } else {
        StepSeen(w, events[last], k);
        SeenLast(before, k);
        var i: nat :| i < |before| && SawOff(before, k, i) && NotSince(before, k, i);
        Longer(events, k, i);
      }
    }
  }

  lemma Longer(events: seq<Event>, k: Key, i: nat)
    requires Run(INITIAL, events) && events != [] && i < |events| - 1 && Run(INITIAL, events[..|events| - 1])
    requires SawOff(events[..|events| - 1], k, i) && NotSince(events[..|events| - 1], k, i)
    requires var e := events[|events| - 1]; e != Observe(k) && !(e.Define? && e.key == k)
    ensures SawOff(events, k, i) && NotSince(events, k, i)
  {
    var before := events[..|events| - 1];
    assert before[..i] == events[..i] && before[i] == events[i];
    StillNotSince(events, k, i);
  }

  lemma StillNotSince(events: seq<Event>, k: Key, i: nat)
    requires events != [] && NotSince(events[..|events| - 1], k, i)
    requires var e := events[|events| - 1]; e != Observe(k) && !(e.Define? && e.key == k)
    ensures NotSince(events, k, i)
  {
    var before := events[..|events| - 1];
    forall j | 0 <= j < |events| && i < j
      ensures events[j] != Observe(k) && !(events[j].Define? && events[j].key == k)
    {
      if j < |before| { assert before[j] == events[j]; }
    }
  }

  /** Whoever undefines a domain has seen it shut off the last time it looked, after the domain was last defined. */
  lemma UndefinedOnlyOff(events: seq<Event>, k: Key)
    requires Run(INITIAL, events) && Enabled(After(INITIAL, events), Undefine(k))
    ensures exists i: nat :: i < |events| && SawOff(events, k, i) && NotSince(events, k, i)
  {
    SeenLast(events, k);
  }
}
