/** What one reconcile may rely on while users, guests and every other reconcile run between two of its calls. */
module Interference {
  import opened Common
  import opened Protocol
  import opened Preservation

  /** The kinds whose reconcilers are modelled call by call. */
  predicate IsReconciler(k: Key) { IsGuarded(k) || k.Dom? }

  /** `me` has read the object `r` and is about to label it, or has labelled it. */
  predicate Touches(w: World, me: Key, r: Key) {
    Edge(me, r) in w.attaching || (me in w.objs && r in w.objs[me].labels)
  }

  /** `me` has looked up the host copy of `r` and is about to label it, or has labelled it. */
  predicate Holds(w: World, me: Key, r: Key) {
    Edge(me, r) in w.found || (me in w.objs && r in w.objs[me].labels)
  }

  /** Others may edit or mark the object, and nothing else. */
  predicate Kept(o: Object, n: Object) {
    && n.finalizer == o.finalizer && n.labels == o.labels && Core(n.spec) == Core(o.spec)
    && n.ready == o.ready && n.place == o.place && (o.deleting ==> n.deleting)
  }

  predicate SameVolume(v: Volume, n: Volume) {
    n.owner == v.owner && n.kind == v.kind && n.backing == v.backing && n.born == v.born
  }

  ghost predicate ObjectsKept(me: Key, w: World, n: World) {
    && w.clock <= n.clock
    && (forall k :: k in n.objs && n.objs[k].version < w.clock ==> k in w.objs && w.objs[k] == n.objs[k])
    && (forall p :: p in w.bound ==> p in n.bound && n.bound[p] == w.bound[p])
    && (me in w.objs && w.objs[me].finalizer ==> me in n.objs && Kept(w.objs[me], n.objs[me]))
  }

  ghost predicate HostKept(me: Key, w: World, n: World) {
    && (forall p :: p in w.volumes && w.volumes[p].owner == me ==> p in n.volumes && n.volumes[p] == w.volumes[p])
    && (forall p :: p in n.volumes && n.volumes[p].owner == me ==> p in w.volumes && w.volumes[p].owner == me)
    && (forall s :: s in w.domains && w.domains[s].owner == me ==>
          s in n.domains && n.domains[s].owner == me && n.domains[s].disks == w.domains[s].disks)
    && (forall s :: s in n.domains && n.domains[s].owner == me ==> s in w.domains && w.domains[s].owner == me)
    && (me in w.seen ==> me in n.seen && n.seen[me] == w.seen[me])
  }

  ghost predicate EdgesKept(me: Key, w: World, n: World) {
    && (forall r :: Edge(me, r) in w.attaching <==> Edge(me, r) in n.attaching)
    && (forall r :: Edge(me, r) in w.found <==> Edge(me, r) in n.found)
  }

  ghost predicate WindowsKept(me: Key, w: World, n: World) {
    && w.overlapped <= n.overlapped
    && (Deleting(me) in w.windows <==> Deleting(me) in n.windows)
    && (Resizing(me) in w.windows <==> Resizing(me) in n.windows)
    && (Deleting(me) in w.windows && Deleting(me) !in n.overlapped ==> Referrers(n, me) <= Referrers(w, me))
    && (Resizing(me) in w.windows && Resizing(me) !in n.overlapped ==> Overlays(n, me) <= Overlays(w, me))
  }

  /** Whatever `me` holds stays in place unless its deletion window overlapped. */
  ghost predicate HeldKept(me: Key, w: World, n: World) {
    && (forall p :: p in w.volumes && Holds(w, me, w.volumes[p].owner)
                    && Deleting(w.volumes[p].owner) !in n.overlapped ==>
          p in n.volumes && SameVolume(w.volumes[p], n.volumes[p]))
    && (forall r :: IsGuarded(r) && Touches(w, me, r) && Deleting(r) !in n.overlapped
                    && r in w.objs && w.objs[r].finalizer ==>
          r in n.objs && n.objs[r].finalizer && Core(n.objs[r].spec) == Core(w.objs[r].spec))
  }

  ghost predicate Unmoved(me: Key, w: World, n: World) {
    ObjectsKept(me, w, n) && EdgesKept(me, w, n) && HostKept(me, w, n) && WindowsKept(me, w, n) && HeldKept(me, w, n)
  }

  /** The part of it that also survives `me` storing its own object: what a whole reconcile carries along. */
  ghost predicate Onward(me: Key, w: World, n: World) {
    && w.clock <= n.clock
    && (forall p :: p in w.bound ==> p in n.bound && n.bound[p] == w.bound[p])
    && HostKept(me, w, n) && WindowsKept(me, w, n) && HeldKept(me, w, n)
    && (forall r :: Touches(w, me, r) ==> Touches(n, me, r))
    && (forall r :: Holds(w, me, r) ==> Holds(n, me, r))
  }

  lemma Unmoving(me: Key, w: World)
    requires Inv(w)
    ensures Unmoved(me, w, w)
  {
  }

  // ---------- one step of another reconcile, a user or a guest ----------

  predicate OnObject(e: Event) {
    e.Create? || e.Delete? || e.EditSize? || e.EditShutoff? || e.AddFinalizer? || e.AddLabel?
    || e.SetStatus? || e.RemoveFinalizer?
  }

  predicate OnVolume(e: Event) {
    e.CreateVolume? || e.Upload? || Grows(e) || e.DeleteVolume? || e.Finish?
  }

  predicate OnDomain(e: Event) {
    e.PowerChange? || e.Define? || e.Start? || e.Undefine?
  }

  lemma ObjectFrame(w: World, e: Event)
    requires Enabled(w, e) && OnObject(e)
    ensures var n := Apply(w, e);
            n == w.(objs := n.objs, bound := n.bound, clock := n.clock, attaching := n.attaching, found := n.found)
    ensures w.clock <= Apply(w, e).clock
    ensures !e.AddLabel? ==> Apply(w, e).attaching == w.attaching && Apply(w, e).found == w.found
  {
  }

  lemma VolumeFrame(w: World, e: Event)
    requires Enabled(w, e) && OnVolume(e)
    ensures var n := Apply(w, e);
            n == w.(volumes := n.volumes, clock := n.clock, windows := n.windows, attaching := n.attaching,
                    found := n.found)
    ensures w.clock <= Apply(w, e).clock
    ensures !e.Finish? ==> var n := Apply(w, e); n == w.(volumes := n.volumes, clock := n.clock)
  {
  }

  lemma DomainFrame(w: World, e: Event)
    requires Enabled(w, e) && OnDomain(e)
    ensures Apply(w, e) == w.(domains := Apply(w, e).domains, seen := Apply(w, e).seen)
    ensures !e.Define? ==> Apply(w, e).seen == w.seen
  {
  }

  lemma RecordFrame(w: World, e: Event)
    requires Enabled(w, e) && !OnObject(e) && !OnVolume(e) && !OnDomain(e)
    ensures var n := Apply(w, e);
            n == w.(offers := n.offers, seen := n.seen, attaching := n.attaching, found := n.found,
                    windows := n.windows, overlapped := n.overlapped)
    ensures !e.Observe? ==> Apply(w, e).seen == w.seen
    ensures !e.OpenEdge? ==> Apply(w, e).attaching == w.attaching
    ensures !e.FindEdge? ==> Apply(w, e).found == w.found
    ensures !e.OpenWindow? && !e.CloseWindow? ==> Apply(w, e).windows == w.windows
    ensures !e.OpenWindow? && !e.OpenEdge? ==> Apply(w, e).overlapped == w.overlapped
    ensures w.overlapped <= Apply(w, e).overlapped
  {
  }

  lemma Frame(w: World, e: Event)
    requires Enabled(w, e)
    ensures !OnObject(e) ==> Apply(w, e).objs == w.objs && Apply(w, e).bound == w.bound
    ensures !OnVolume(e) ==> Apply(w, e).volumes == w.volumes
    ensures !OnDomain(e) ==> Apply(w, e).domains == w.domains
    ensures !e.Observe? && !e.Define? ==> Apply(w, e).seen == w.seen
    ensures !e.OpenEdge? && !e.AddLabel? && !e.Finish? ==> Apply(w, e).attaching == w.attaching
    ensures !e.FindEdge? && !e.AddLabel? && !e.Finish? ==> Apply(w, e).found == w.found
    ensures !e.OpenWindow? && !e.CloseWindow? && !e.Finish? ==> Apply(w, e).windows == w.windows
    ensures !e.OpenWindow? && !e.OpenEdge? ==> Apply(w, e).overlapped == w.overlapped
    ensures w.overlapped <= Apply(w, e).overlapped && w.clock <= Apply(w, e).clock
  {
    if OnObject(e) { ObjectFrame(w, e); }
    else if OnVolume(e) { VolumeFrame(w, e); }
    else if OnDomain(e) { DomainFrame(w, e); }
    else { RecordFrame(w, e); }
  }

  /** A call on one object leaves the others alone. */
  lemma StepOther(w: World, e: Event, k: Key)
    requires Enabled(w, e) && OnObject(e) && e.key != k
    ensures k in Apply(w, e).objs <==> k in w.objs
    ensures k in w.objs ==> Apply(w, e).objs[k] == w.objs[k]
  {
    if e.Create? { NewShape(w, e); } else if Removes(w, e) { GoneShape(w, e); } else { StoredShape(w, e); }
  }

  lemma NewShape(w: World, e: Event)
    requires Enabled(w, e) && e.Create?
    ensures e.key in Apply(w, e).objs && Apply(w, e).objs == w.objs[e.key := Apply(w, e).objs[e.key]]
  {
  }

  /** The object is taken out of the store. */
  predicate Removes(w: World, e: Event) {
    e.RemoveFinalizer? || (e.Delete? && e.key in w.objs && !w.objs[e.key].finalizer)
  }

  lemma GoneShape(w: World, e: Event)
    requires Enabled(w, e) && Removes(w, e)
    ensures Apply(w, e).objs == w.objs - {e.key} && Apply(w, e).bound == w.bound
  {
  }

  /** And keeps what names its own, with the finalizer, unless it takes it off. */
  lemma StepOwn(w: World, e: Event)
    requires Enabled(w, e) && OnObject(e) && e.key in w.objs
    ensures e.key in Apply(w, e).objs ==> Core(Apply(w, e).objs[e.key].spec) == Core(w.objs[e.key].spec)
    ensures w.objs[e.key].finalizer && !e.RemoveFinalizer? ==>
              e.key in Apply(w, e).objs && Apply(w, e).objs[e.key].finalizer
  {
    if !Removes(w, e) { StepOwnCore(w, e); } else { GoneShape(w, e); }
    if !e.RemoveFinalizer? && w.objs[e.key].finalizer { StepOwnHeld(w, e); }
  }

  lemma StepOwnCore(w: World, e: Event)
    requires Enabled(w, e) && OnObject(e) && !Removes(w, e) && e.key in w.objs
    ensures e.key in Apply(w, e).objs && Core(Apply(w, e).objs[e.key].spec) == Core(w.objs[e.key].spec)
  {
  }

  lemma StepOwnHeld(w: World, e: Event)
    requires Enabled(w, e) && OnObject(e) && !e.RemoveFinalizer? && e.key in w.objs && w.objs[e.key].finalizer
    ensures e.key in Apply(w, e).objs && Apply(w, e).objs[e.key].finalizer
  {
  }

  lemma StepCore(w: World, e: Event, k: Key)
    requires Enabled(w, e) && k in w.objs && k in Apply(w, e).objs
    ensures Core(Apply(w, e).objs[k].spec) == Core(w.objs[k].spec)
  {
    if !OnObject(e) { Frame(w, e); } else if e.key == k { StepOwn(w, e); } else { StepOther(w, e, k); }
  }

  lemma StoredShape(w: World, e: Event)
    requires Enabled(w, e) && OnObject(e) && !e.Create? && !Removes(w, e)
    ensures Apply(w, e).bound == w.bound && Apply(w, e).clock == w.clock + 1
    ensures e.key in w.objs && e.key in Apply(w, e).objs
    ensures Apply(w, e).objs == w.objs[e.key := Apply(w, e).objs[e.key]]
    ensures Apply(w, e).objs[e.key].version == w.clock
  {
  }

  lemma EditKeeps(w: World, e: Event)
    requires Enabled(w, e) && OnObject(e) && !e.Create? && !Removes(w, e) && Actor(e).None? && IsReconciler(e.key)
    requires e.key in w.objs && w.objs[e.key].finalizer && e.key in Apply(w, e).objs
    ensures Kept(w.objs[e.key], Apply(w, e).objs[e.key])
  {
  }

  /** An update of another object, or an edit of mine. */
  lemma StoredObject(me: Key, w: World, e: Event)
    requires Enabled(w, e) && Actor(e) != Some(me) && IsReconciler(me)
    requires OnObject(e) && !e.Create? && !Removes(w, e)
    ensures Apply(w, e).bound == w.bound && Apply(w, e).clock == w.clock + 1
    ensures e.key in w.objs && e.key in Apply(w, e).objs
    ensures Apply(w, e).objs == w.objs[e.key := Apply(w, e).objs[e.key]]
    ensures Apply(w, e).objs[e.key].version == w.clock
    ensures e.key == me && w.objs[me].finalizer ==> Kept(w.objs[me], Apply(w, e).objs[me])
  {
    StoredShape(w, e);
    if e.key == me && w.objs[me].finalizer { EditKeeps(w, e); }
  }

  lemma StoreKeeps(me: Key, w: World, n: World, k: Key)
    requires k in n.objs && n.objs == w.objs[k := n.objs[k]] && n.objs[k].version == w.clock && w.clock <= n.clock
    requires forall p :: p in w.bound ==> p in n.bound && n.bound[p] == w.bound[p]
    requires k == me && me in w.objs && w.objs[me].finalizer ==> Kept(w.objs[me], n.objs[me])
    ensures ObjectsKept(me, w, n)
  {
  }

  lemma RemoveKeeps(me: Key, w: World, n: World, k: Key)
    requires n == w.(objs := w.objs - {k}) && (k == me ==> me !in w.objs || !w.objs[me].finalizer)
    ensures ObjectsKept(me, w, n)
  {
  }

  lemma StepObjects(me: Key, w: World, e: Event)
    requires Sound(w.objs, w.bound, w.clock) && Enabled(w, e) && Actor(e) != Some(me) && IsReconciler(me)
    ensures ObjectsKept(me, w, Apply(w, e))
  {
    var n := Apply(w, e);
    if e.Create? {
      CreateKeeps(me, w, e);
    } else if OnObject(e) && !Removes(w, e) {
      StoredObject(me, w, e);
      StoreKeeps(me, w, n, e.key);
    } else if OnObject(e) {
      GoneShape(w, e);
      RemoveKeeps(me, w, n, e.key);
    } else {
      Frame(w, e);
      OthersKeep(me, w, n);
    }
  }

  lemma CreateKeeps(me: Key, w: World, e: Event)
    requires Sound(w.objs, w.bound, w.clock) && Enabled(w, e) && e.Create?
    ensures ObjectsKept(me, w, Apply(w, e))
  {
    StoreKeeps(me, w, Apply(w, e), e.key);
  }

  lemma OthersKeep(me: Key, w: World, n: World)
    requires n.objs == w.objs && n.bound == w.bound && w.clock <= n.clock
    ensures ObjectsKept(me, w, n)
  {
  }

  lemma NewLabel(w: World, e: Event)
    requires Enabled(w, e) && e.AddLabel?
    ensures var n := Apply(w, e);
            && e.key in w.objs && n.objs.Keys == w.objs.Keys && n.objs[e.key].labels == w.objs[e.key].labels + {e.to}
            && forall k :: k in w.objs && k != e.key ==> n.objs[k].labels == w.objs[k].labels
  {
  }

  lemma OldLabels(w: World, e: Event, k: Key)
    requires Enabled(w, e) && OnObject(e) && !e.AddLabel? && k in Apply(w, e).objs
    ensures Apply(w, e).objs[k].labels == if k in w.objs then w.objs[k].labels else {}
  {
  }

  /** Labels only come from AddLabel. */
  lemma StepLabels(w: World, e: Event, k: Key)
    requires Enabled(w, e) && k in Apply(w, e).objs
    ensures e.AddLabel? && k == e.key ==> k in w.objs && Apply(w, e).objs[k].labels == w.objs[k].labels + {e.to}
    ensures !(e.AddLabel? && k == e.key) && k in w.objs ==> Apply(w, e).objs[k].labels == w.objs[k].labels
    ensures k !in w.objs ==> Apply(w, e).objs[k].labels == {}
  {
    if e.AddLabel? { NewLabel(w, e); } else if OnObject(e) { OldLabels(w, e, k); } else { Frame(w, e); }
  }

  ghost predicate OwnersKnown(w: World, k: Key) {
    && (Present(w, k) ==> w.volumes[PathOf(w, k).value].owner == k)
    && (SeatOf(w, k).Some? && SeatOf(w, k).value in w.domains ==> w.domains[SeatOf(w, k).value].owner == k)
  }

  ghost predicate VolumesKept(me: Key, w: World, n: World) {
    && (forall p :: p in w.volumes && w.volumes[p].owner == me ==> p in n.volumes && n.volumes[p] == w.volumes[p])
    && (forall p :: p in n.volumes && n.volumes[p].owner == me ==> p in w.volumes && w.volumes[p].owner == me)
  }

  lemma StepVolumes(me: Key, w: World, e: Event)
    requires Enabled(w, e) && Actor(e) != Some(me) && OnVolume(e) && OwnersKnown(w, e.key)
    ensures VolumesKept(me, w, Apply(w, e))
  {
  }

  lemma StepDomains(me: Key, w: World, e: Event)
    requires Enabled(w, e) && Actor(e) != Some(me) && OnDomain(e) && (Actor(e).Some? ==> OwnersKnown(w, e.key))
    ensures HostKept(me, w, Apply(w, e))
  {
  }

  lemma StepHost(me: Key, w: World, e: Event)
    requires Enabled(w, e) && Actor(e) != Some(me) && (Actor(e).Some? ==> OwnersKnown(w, e.key))
    ensures HostKept(me, w, Apply(w, e))
  {
    if OnDomain(e) { StepDomains(me, w, e); } else { StepHostElse(me, w, e); }
  }

  lemma StepHostElse(me: Key, w: World, e: Event)
    requires Enabled(w, e) && !OnDomain(e) && Actor(e) != Some(me) && (Actor(e).Some? ==> OwnersKnown(w, e.key))
    ensures HostKept(me, w, Apply(w, e))
  {
    Frame(w, e);
    if OnVolume(e) { StepVolumes(me, w, e); }
  }

  /** Whoever comes to refer to `me` was about to. */
  lemma NewReferrer(me: Key, w: World, e: Event, k: Key)
    requires Enabled(w, e) && IsReconciler(me) && k in Referrers(Apply(w, e), me) && k !in Referrers(w, me)
    ensures Edge(k, me) in w.attaching
  {
    StepLabels(w, e, k);
    if e.AddLabel? && e.key == k && e.to == me { LabelDuty(w, e); }
  }

  lemma LabelDuty(w: World, e: Event)
    requires Enabled(w, e) && e.AddLabel?
    ensures !e.to.Dom? && (IsGuarded(e.to) ==> Edge(e.key, e.to) in w.attaching)
  {
  }

  lemma ReferrersWithin(me: Key, w: World, n: World)
    requires Exclusive(w.windows, w.overlapped, w.attaching) && IsReconciler(me)
    requires forall k :: k in Referrers(n, me) ==> k in Referrers(w, me) || Edge(k, me) in w.attaching
    ensures Deleting(me) in w.windows && Deleting(me) !in w.overlapped ==> Referrers(n, me) <= Referrers(w, me)
    ensures Resizing(me) in w.windows && Resizing(me) !in w.overlapped ==> Overlays(n, me) <= Overlays(w, me)
  {
  }

  lemma StepReferrers(me: Key, w: World, e: Event)
    requires Exclusive(w.windows, w.overlapped, w.attaching) && Enabled(w, e) && IsReconciler(me)
    ensures Deleting(me) in w.windows && Deleting(me) !in w.overlapped ==>
              Referrers(Apply(w, e), me) <= Referrers(w, me)
    ensures Resizing(me) in w.windows && Resizing(me) !in w.overlapped ==> Overlays(Apply(w, e), me) <= Overlays(w, me)
  {
    forall k | k in Referrers(Apply(w, e), me)
      ensures k in Referrers(w, me) || Edge(k, me) in w.attaching
    {
      if k !in Referrers(w, me) { NewReferrer(me, w, e, k); }
    }
    ReferrersWithin(me, w, Apply(w, e));
  }

  lemma StepWindows(me: Key, w: World, e: Event)
    requires Exclusive(w.windows, w.overlapped, w.attaching)
    requires Enabled(w, e) && Actor(e) != Some(me) && IsReconciler(me)
    ensures WindowsKept(me, w, Apply(w, e))
  {
    Frame(w, e);
    StepReferrers(me, w, e);
  }

  lemma FinishSame(w: World, k: Key, p: Path)
    requires p in w.volumes
    ensures p in Apply(w, Finish(k)).volumes && SameVolume(w.volumes[p], Apply(w, Finish(k)).volumes[p])
  {
  }

  /** A copy that stays is the same one. */
  lemma StepSame(w: World, e: Event, p: Path)
    requires Enabled(w, e) && p in w.volumes && p in Apply(w, e).volumes
    ensures SameVolume(w.volumes[p], Apply(w, e).volumes[p])
  {
    if !OnVolume(e) { Frame(w, e); }
    else if e.Finish? { FinishSame(w, e.key, p); }
  }

  /** Copies only go by their own reconciler, and only if it is deleting. */
  lemma StepCopies(w: World, e: Event, p: Path)
    requires Enabled(w, e) && p in w.volumes && p !in Apply(w, e).volumes
    ensures e.DeleteVolume? && PathOf(w, e.key) == Some(p) && MayDelete(w, e.key)
  {
    if !OnVolume(e) { Frame(w, e); }
  }

  lemma StepHeld(me: Key, w: World, e: Event)
    requires Exclusive(w.windows, w.overlapped, w.attaching) && Enabled(w, e)
    requires Actor(e).Some? ==> OwnersKnown(w, e.key)
    requires w.found <= w.attaching
    ensures forall p :: p in w.volumes && Holds(w, me, w.volumes[p].owner)
                        && Deleting(w.volumes[p].owner) !in Apply(w, e).overlapped ==>
              p in Apply(w, e).volumes && SameVolume(w.volumes[p], Apply(w, e).volumes[p])
  {
    Frame(w, e);
    var n := Apply(w, e);
    forall p | p in w.volumes && Holds(w, me, w.volumes[p].owner) && Deleting(w.volumes[p].owner) !in n.overlapped
      ensures p in n.volumes && SameVolume(w.volumes[p], n.volumes[p])
    {
      if p !in n.volumes {
        StepCopies(w, e, p);
        HeldFromDeletion(me, w, e.key, true);
      }
      StepSame(w, e, p);
    }
  }

  lemma StepTouched(me: Key, w: World, e: Event, r: Key)
    requires Exclusive(w.windows, w.overlapped, w.attaching) && Enabled(w, e)
    requires Targets(w.objs, w.bound, w.volumes, w.attaching, w.found, w.overlapped)
    requires IsGuarded(r) && Touches(w, me, r) && Deleting(r) !in w.overlapped && r in w.objs && w.objs[r].finalizer
    ensures r in Apply(w, e).objs && Apply(w, e).objs[r].finalizer
    ensures Core(Apply(w, e).objs[r].spec) == Core(w.objs[r].spec)
  {
    if e.RemoveFinalizer? && e.key == r {
      assert me in w.objs && r in w.objs[me].labels ==> Live(w.objs, w.bound, w.volumes, r);
      HeldFromDeletion(me, w, r, IsProbed(r));
    } else if !OnObject(e) {
      Frame(w, e);
    } else if e.key != r {
      StepOther(w, e, r);
    } else {
      StepOwn(w, e);
    }
  }

  lemma StepHeldKept(me: Key, w: World, e: Event)
    requires Exclusive(w.windows, w.overlapped, w.attaching) && Enabled(w, e) && Actor(e) != Some(me)
    requires Targets(w.objs, w.bound, w.volumes, w.attaching, w.found, w.overlapped)
    requires Actor(e).Some? ==> OwnersKnown(w, e.key)
    ensures HeldKept(me, w, Apply(w, e))
  {
    var n := Apply(w, e);
    StepHeld(me, w, e);
    assert w.overlapped <= n.overlapped by { Frame(w, e); }
    forall r | IsGuarded(r) && Touches(w, me, r) && Deleting(r) !in n.overlapped && r in w.objs && w.objs[r].finalizer
      ensures r in n.objs && n.objs[r].finalizer && Core(n.objs[r].spec) == Core(w.objs[r].spec)
    {
      StepTouched(me, w, e, r);
    }
  }

  /** Whoever listed no referrers in a window of its own deletes nothing that `me` holds. */
  lemma HeldFromDeletion(me: Key, w: World, k: Key, listed: bool)
    requires Exclusive(w.windows, w.overlapped, w.attaching)
    requires listed ==> Deleting(k) in w.windows && (Deleting(k) !in w.overlapped ==> Referrers(w, k) == {})
    ensures listed && Touches(w, me, k) ==> Deleting(k) in w.overlapped
    ensures Edge(me, k) in w.attaching && Deleting(k) in w.windows ==> Deleting(k) in w.overlapped
  {
    assert me in w.objs && k in w.objs[me].labels ==> me in Referrers(w, k);
  }

  lemma StepUnmoved(me: Key, w: World, e: Event)
    requires Inv(w) && Enabled(w, e) && Actor(e) != Some(me) && IsReconciler(me)
    ensures Unmoved(me, w, Apply(w, e))
  {
    if Actor(e).Some? {
      if Present(w, e.key) { OwnerAt(w, e.key); }
      if SeatOf(w, e.key).Some? && SeatOf(w, e.key).value in w.domains { SeatedAt(w, e.key); }
    }
    StepObjects(me, w, e);
    StepHost(me, w, e);
    StepWindows(me, w, e);
    StepHeldKept(me, w, e);
    StepEdges(me, w, e);
  }

  lemma StepEdges(me: Key, w: World, e: Event)
    requires Enabled(w, e) && Actor(e) != Some(me)
    ensures EdgesKept(me, w, Apply(w, e))
  {
    if !e.AddLabel? && !e.OpenEdge? && !e.FindEdge? && !e.Finish? { Frame(w, e); }
  }

  // ---------- any number of steps ----------

  lemma ComposeObjects(me: Key, w: World, m: World, n: World)
    requires ObjectsKept(me, w, m) && ObjectsKept(me, m, n)
    ensures ObjectsKept(me, w, n)
  {
  }

  lemma ComposeHost(me: Key, w: World, m: World, n: World)
    requires HostKept(me, w, m) && HostKept(me, m, n)
    ensures HostKept(me, w, n)
  {
  }

  lemma ComposeWindows(me: Key, w: World, m: World, n: World)
    requires WindowsKept(me, w, m) && WindowsKept(me, m, n)
    ensures WindowsKept(me, w, n)
  {
  }

  lemma ComposeHeld(me: Key, w: World, m: World, n: World)
    requires HeldKept(me, w, m) && HeldKept(me, m, n)
    requires m.overlapped <= n.overlapped
    requires forall r :: Touches(w, me, r) ==> Touches(m, me, r)
    requires forall r :: Holds(w, me, r) ==> Holds(m, me, r)
    ensures HeldKept(me, w, n)
  {
  }

  lemma Compose(me: Key, w: World, m: World, n: World)
    requires Sound(w.objs, w.bound, w.clock) && Unmoved(me, w, m) && Unmoved(me, m, n)
    ensures Unmoved(me, w, n)
  {
    ComposeObjects(me, w, m, n);
    ComposeHost(me, w, m, n);
    ComposeWindows(me, w, m, n);
    assert forall r :: Touches(w, me, r) ==> Touches(m, me, r);
    assert forall r :: Holds(w, me, r) ==> Holds(m, me, r);
    ComposeHeld(me, w, m, n);
  }

  lemma Carry(me: Key, w: World, n: World)
    requires Sound(w.objs, w.bound, w.clock) && Unmoved(me, w, n)
    ensures Onward(me, w, n)
  {
  }

  lemma Chain(me: Key, w: World, m: World, n: World)
    requires Onward(me, w, m) && Onward(me, m, n)
    ensures Onward(me, w, n)
  {
    ComposeHost(me, w, m, n);
    ComposeWindows(me, w, m, n);
    ComposeHeld(me, w, m, n);
  }
}
