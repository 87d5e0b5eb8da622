/** What a definition owes the volumes its object is labelled with: they are on the same host, and those that can be a
 *  disk are one. So a resize of such a volume through its running domain finds the disk. */
module Attachments {
  import opened Common
  import opened Protocol
  import opened Preservation
  import opened Interference
  import opened Guarantees

  /** Labels of domains do not leave the host. */
  ghost predicate Local(w: World) {
    forall k, r :: k in w.objs && r in w.objs[k].labels ==> Nearby(w, k, w.objs[k].spec, r)
  }

  /** Every definition has a disk for whatever its object's spec lists and can be one. */
  ghost predicate Complete(w: World) {
    forall s :: s in w.domains ==> Outfitted(w, s)
  }

  predicate Outfitted(w: World, s: Seat)
    requires s in w.domains
  {
    var k := w.domains[s].owner;
    k in w.objs && w.objs[k].spec.DomainSpec?
    && Equipped(w.volumes, w.overlapped, w.domains[s].disks, w.objs[k].spec)
  }

  lemma NearbyKept(w: World, n: World, k: Key, spec: Spec, later: Spec, r: Key)
    requires Nearby(w, k, spec, r) && Core(later) == Core(spec) && w.overlapped <= n.overlapped
    requires IsStorage(r) && Deleting(r) !in n.overlapped && PathOf(w, r).Some? ==> PathOf(n, r) == PathOf(w, r)
    requires IsDevice(r) && Deleting(r) !in n.overlapped && r in w.objs ==>
               r in n.objs && Core(n.objs[r].spec) == Core(w.objs[r].spec)
    ensures Nearby(n, k, later, r)
  {
  }

  /** The target of a label stays, and keeps its path. */
  lemma StepTarget(w: World, e: Event, k: Key, r: Key)
    requires Enabled(w, e) && k in Apply(w, e).objs && r in Apply(w, e).objs[k].labels && IsGuarded(r)
    requires var n := Apply(w, e); Targets(n.objs, n.bound, n.volumes, n.attaching, n.found, n.overlapped)
    requires Deleting(r) !in Apply(w, e).overlapped && r in w.objs
    ensures r in Apply(w, e).objs && Core(Apply(w, e).objs[r].spec) == Core(w.objs[r].spec)
    ensures PathOf(w, r).Some? ==> PathOf(Apply(w, e), r) == PathOf(w, r)
  {
    assert Live(Apply(w, e).objs, Apply(w, e).bound, Apply(w, e).volumes, r);
    StepCore(w, e, r);
    StepPath(w, e, r);
  }

  lemma StepNearby(w: World, e: Event, k: Key, r: Key)
    requires Enabled(w, e) && Inv(Apply(w, e)) && k in w.objs && k in Apply(w, e).objs
    requires r in Apply(w, e).objs[k].labels && Nearby(w, k, w.objs[k].spec, r)
    ensures Nearby(Apply(w, e), k, Apply(w, e).objs[k].spec, r)
  {
    var n := Apply(w, e);
    Frame(w, e);
    StepCore(w, e, k);
    if IsGuarded(r) && Deleting(r) !in n.overlapped && r in w.objs { StepTarget(w, e, k, r); }
    NearbyKept(w, n, k, w.objs[k].spec, n.objs[k].spec, r);
  }

  lemma NewNearby(w: World, e: Event)
    requires Enabled(w, e) && e.AddLabel?
    ensures e.key in w.objs && Nearby(w, e.key, w.objs[e.key].spec, e.to)
  {
  }

  lemma StepLocal(w: World, e: Event)
    requires Inv(w) && Local(w) && Enabled(w, e)
    ensures Local(Apply(w, e))
  {
    var n := Apply(w, e);
    Step(w, e);
    forall k, r | k in n.objs && r in n.objs[k].labels
      ensures Nearby(n, k, n.objs[k].spec, r)
    {
      StepLabels(w, e, k);
      if e.AddLabel? && k == e.key && r == e.to { NewNearby(w, e); }
      StepNearby(w, e, k, r);
    }
  }

  /** A copy that is neither a file nor a block device stays one while it is referred to. */
  lemma StepUnattachable(w: World, e: Event, key: Key)
    requires Inv(w) && Enabled(w, e) && Unattachable(w.volumes, key) && Referrers(w, key) != {}
    ensures Deleting(key) !in Apply(w, e).overlapped ==> Unattachable(Apply(w, e).volumes, key)
  {
    var n := Apply(w, e);
    var p :| p in w.volumes && w.volumes[p].owner == key && w.volumes[p].kind == OtherKind;
    Frame(w, e);
    if p in n.volumes {
      StepSame(w, e, p);
    } else {
      StepCopies(w, e, p);
      OwnerAt(w, e.key);
    }
  }

  lemma StepCarried(w: World, e: Event, disks: seq<Link>, key: Key)
    requires Inv(w) && Enabled(w, e) && Carried(w.volumes, w.overlapped, disks, key) && Referrers(w, key) != {}
    ensures Carried(Apply(w, e).volumes, Apply(w, e).overlapped, disks, key)
  {
    Frame(w, e);
    if Unattachable(w.volumes, key) { StepUnattachable(w, e, key); }
  }

  /** A definition stays what it is. */
  lemma StepDefined(w: World, e: Event, s: Seat)
    requires Enabled(w, e) && s in w.domains && s in Apply(w, e).domains
    ensures Apply(w, e).domains[s].owner == w.domains[s].owner && Apply(w, e).domains[s].disks == w.domains[s].disks
  {
    if !OnDomain(e) { Frame(w, e); }
  }

  lemma NewDefined(w: World, e: Event, s: Seat)
    requires Enabled(w, e) && s !in w.domains && s in Apply(w, e).domains
    ensures e.Define? && SeatOf(w, e.key) == Some(s) && Apply(w, e) == Defined(w, s, e.key, e.disks)
  {
    if !OnDomain(e) { Frame(w, e); }
  }

  function Defined(w: World, s: Seat, k: Key, disks: seq<Link>): World {
    w.(domains := w.domains[s := Domain(k, disks, Shutoff)], seen := w.seen - {k})
  }

  lemma NewOutfitted(w: World, e: Event, s: Seat)
    requires Enabled(w, e) && e.Define?
    ensures Outfitted(Defined(w, s, e.key, e.disks), s)
  {
  }

  lemma Referred(w: World, s: Seat, r: Key)
    requires Inv(w) && s in w.domains && Outfitted(w, s) && r in References(w.objs[w.domains[s].owner].spec)
    ensures Referrers(w, r) != {}
  {
    assert DomainLabelled(w.objs[w.domains[s].owner], w.domains[s], s);
    assert w.domains[s].owner in Referrers(w, r);
  }

  lemma StepCarries(w: World, e: Event, s: Seat, r: Key)
    requires Inv(w) && Enabled(w, e) && s in w.domains && Outfitted(w, s)
    requires IsStorage(r) && r in References(w.objs[w.domains[s].owner].spec)
    ensures Carried(Apply(w, e).volumes, Apply(w, e).overlapped, w.domains[s].disks, r)
  {
    Referred(w, s, r);
    StepCarried(w, e, w.domains[s].disks, r);
  }

  lemma Reequipped(volumes: Volumes, overlapped: set<Window>, disks: seq<Link>, spec: Spec, later: Spec)
    requires spec.DomainSpec? && Core(later) == Core(spec)
    requires forall r :: r in References(spec) && IsStorage(r) ==> Carried(volumes, overlapped, disks, r)
    ensures later.DomainSpec? && Equipped(volumes, overlapped, disks, later)
  {
    assert References(later) == References(spec);
  }

  lemma StepOutfitted(w: World, e: Event, s: Seat)
    requires Inv(w) && Enabled(w, e) && s in w.domains && s in Apply(w, e).domains && Outfitted(w, s)
    requires w.domains[s].owner in Apply(w, e).objs
    ensures Outfitted(Apply(w, e), s)
  {
    var n, k, disks := Apply(w, e), w.domains[s].owner, w.domains[s].disks;
    StepDefined(w, e, s);
    StepCore(w, e, k);
    forall r | r in References(w.objs[k].spec) && IsStorage(r)
      ensures Carried(n.volumes, n.overlapped, disks, r)
    {
      StepCarries(w, e, s, r);
    }
    Reequipped(n.volumes, n.overlapped, disks, w.objs[k].spec, n.objs[k].spec);
  }

  lemma OwnerStored(w: World, s: Seat)
    requires Inv(w) && s in w.domains
    ensures w.domains[s].owner in w.objs
  {
  }

  lemma StepComplete(w: World, e: Event)
    requires Inv(w) && Complete(w) && Enabled(w, e)
    ensures Complete(Apply(w, e))
  {
    Step(w, e);
    forall s | s in Apply(w, e).domains
      ensures Outfitted(Apply(w, e), s)
    {
      if s in w.domains {
        StepDefined(w, e, s);
        OwnerStored(Apply(w, e), s);
        StepOutfitted(w, e, s);
      } else {
        NewDefined(w, e, s);
        NewOutfitted(w, e, s);
      }
    }
  }

  lemma {:induction false} RunAttached(w: World, events: seq<Event>)
    requires Inv(w) && Local(w) && Complete(w) && Run(w, events)
    ensures Local(After(w, events)) && Complete(After(w, events))
    decreases |events|
  {
    if events != [] {
      StepLocal(w, events[0]);
      StepComplete(w, events[0]);
      Step(w, events[0]);
      RunAttached(Apply(w, events[0]), events[1..]);
    }
  }

  /** In every reachable state: a network or PCI device that a domain labels is stored, held by its finalizer, and on
   *  the domain's host, unless a deletion of it has overlapped. A defined domain labels all its spec lists. */
  lemma DevicesAreLocal(w: World, d: Key, r: Key)
    requires Reachable(w) && d.Dom? && d in w.objs && IsDevice(r) && Deleting(r) !in w.overlapped
    requires r in w.objs[d].labels
             || exists s :: s in w.domains && w.domains[s].owner == d && w.objs[d].spec.DomainSpec?
                            && r in References(w.objs[d].spec)
    ensures w.objs[d].spec.DomainSpec? && r in w.objs && w.objs[r].finalizer
    ensures w.objs[r].spec.DeviceSpec? && w.objs[r].spec.host == w.objs[d].spec.host
  {
    ReachableInv(w);
    var events :| Run(INITIAL, events) && After(INITIAL, events) == w;
    RunAttached(INITIAL, events);
    if s :| s in w.domains && w.domains[s].owner == d {
      assert DomainLabelled(w.objs[d], w.domains[s], s);
    }
    assert Live(w.objs, w.bound, w.volumes, r);
    assert Nearby(w, d, w.objs[d].spec, r);
  }

  lemma DiskAt(w: World, d: Key, s: Seat, p: Path)
    requires Inv(w) && s in w.domains && w.domains[s].owner == d && Outfitted(w, s)
    requires p in w.volumes && d in Domains(w, w.volumes[p].owner)
    requires Deleting(w.volumes[p].owner) !in w.overlapped && w.volumes[p].kind != OtherKind
    ensures exists l :: l in w.domains[s].disks && l.path == p
  {
    var k := w.volumes[p].owner;
    assert k in Mentions(w.objs[d].spec);
    assert PathOf(w, k) == Some(p);
    assert !Unattachable(w.volumes, k) by {
      assert forall q :: q in w.volumes && w.volumes[q].owner == k ==> PathOf(w, k) == Some(q);
    }
    assert Carried(w.volumes, w.overlapped, w.domains[s].disks, k);
    var l :| l in w.domains[s].disks && l.ref == k;
    assert Resolves(w.volumes, w.overlapped, l);
    assert PathOf(w, k) == Some(l.path);
  }

  /** In every reachable state: whoever labels a volume with a copy is on its host, and if it is defined there it has
   *  the copy as a disk, provided that it is a file or a block device and that no deletion of it has overlapped. */
  lemma LabelledIsDisk(w: World, d: Key, p: Path)
    requires Reachable(w) && p in w.volumes && d in Domains(w, w.volumes[p].owner)
    requires Deleting(w.volumes[p].owner) !in w.overlapped
    ensures w.objs[d].spec.DomainSpec? && w.objs[d].spec.host == p.place.host
    ensures var s := Seat(p.place.host, w.objs[d].spec.name);
            s in w.domains && w.volumes[p].kind != OtherKind ==> exists l :: l in w.domains[s].disks && l.path == p
  {
    ReachableInv(w);
    var events :| Run(INITIAL, events) && After(INITIAL, events) == w;
    RunAttached(INITIAL, events);
    var k := w.volumes[p].owner;
    assert Nearby(w, d, w.objs[d].spec, k);
    assert PathOf(w, k) == Some(p);
    var s := Seat(p.place.host, w.objs[d].spec.name);
    if s in w.domains && w.volumes[p].kind != OtherKind {
      SeatedAt(w, d);
      DiskAt(w, d, s, p);
    }
  }
}
