/** VolumeReconciler of internal/controller/volume.go. */
module VolumeController {
  import opened Common
  import opened Units
  import opened Protocol
  import opened Preservation
  import opened Interference
  import opened Calls
  import opened Storage
  import opened Attachments

  /** No other volume lies on this one, as far as an undisturbed resize window can tell. */
  ghost predicate Cleared(w: World, me: Key) {
    Resizing(me) in w.windows && (Resizing(me) !in w.overlapped ==> Overlays(w, me) == {})
  }

  lemma ClearedKept(me: Key, w: World, n: World)
    requires Cleared(w, me) && Unmoved(me, w, n)
    ensures Cleared(n, me)
  {
  }

  /** The copy afterwards: still there, possibly grown. */
  ghost predicate Grown(w: World, path: Path, copy: Volume) {
    && path in w.volumes && SameVolume(copy, w.volumes[path]) && w.volumes[path].filled == copy.filled
    && w.volumes[path].bytes >= copy.bytes
  }

  function Asking(size: Size): nat { ConvertToBytes(size.value, size.unit) }

  /** What a new copy is to be, in a cluster that was `w`: filled from the source, or else laid on the backing volume
   *  and of the size asked for, which is that of the backing volume unless the spec says otherwise. */
  ghost predicate MadeFor(w: World, spec: Spec, v: Volume)
    requires spec.VolumeSpec?
  {
    if spec.remote then v.filled && v.backing.None?
    else
      && !v.filled && (v.backing.Some? <==> spec.backing.Some?)
      && (spec.size.Some? ==> v.bytes == Asking(spec.size.value))
      && (v.backing.Some? ==> LaidOn(w, spec, v))
  }

  ghost predicate LaidOn(w: World, spec: Spec, v: Volume)
    requires spec.VolumeSpec? && v.backing.Some? && spec.backing.Some?
  {
    var l := v.backing.value;
    && l.ref == Vol(spec.backing.value) && l.path in w.volumes && w.volumes[l.path].owner == l.ref
    && (spec.size.None? ==> v.bytes == w.volumes[l.path].bytes)
  }

  /** The backing volume that has been looked up, and is being labelled or has been. */
  ghost predicate Backing(w: World, me: Key, o: Object, path: Path, link: Option<Link>)
    requires o.spec.VolumeSpec?
  {
    link.Some? ==>
      && link.value.ref.Vol? && o.spec.backing == Some(link.value.ref.name)
      && link.value.path.place.host == path.place.host
      && Secured(w, me, link.value)
  }

  lemma BackingKept(me: Key, w: World, n: World, o: Object, stored: Object, path: Path, link: Option<Link>)
    requires o.spec.VolumeSpec? && stored.spec == o.spec && Backing(w, me, o, path, link) && Onward(me, w, n)
    ensures Backing(n, me, stored, path, link)
  {
  }

  /** The copy at `path` is the one `me` was to make. */
  predicate IsCopy(w: World, me: Key, path: Path, link: Option<Link>, bytes: nat, filled: bool) {
    && path in w.volumes && w.volumes[path].owner == me && w.volumes[path].bytes == bytes
    && w.volumes[path].backing == link && w.volumes[path].filled == filled
  }

  lemma CopyKept(me: Key, w: World, n: World, path: Path, link: Option<Link>, bytes: nat, filled: bool)
    requires IsCopy(w, me, path, link, bytes, filled) && Onward(me, w, n)
    ensures IsCopy(n, me, path, link, bytes, filled)
  {
  }

  /** The first of the disks that is the volume. */
  predicate FirstAt(disks: seq<Link>, path: Path, i: nat) {
    i < |disks| && disks[i].path == path && forall j :: 0 <= j < i ==> disks[j].path != path
  }

  /** How growing ends, given the domain that labels the volume: while it runs, its first disk at the path is resized,
   *  or there is no match; else the volume is. */
  ghost predicate GrewThrough(w: World, s: Seat, me: Key, path: Path, bytes: nat, before: seq<Event>, after: seq<Event>,
                              result: Outcome)
  {
    if s in w.domains && w.domains[s].power == Running then
      if exists l :: l in w.domains[s].disks && l.path == path then
        && result == Done
        && exists i: nat :: FirstAt(w.domains[s].disks, path, i) && after == before + [BlockResize(me, bytes, s, i)]
      else result == Failed(LiveResizeNoMatch) && after == before
    else result == Done && after == before + [Resize(me, bytes)]
  }

  /** How growing ends: not at all while another volume lies on it or two domains label it; then by one call. */
  ghost predicate Grew(w: World, me: Key, path: Path, bytes: nat, before: seq<Event>, after: seq<Event>,
                       result: Outcome)
  {
    if Overlays(w, me) != {} then result == Failed(CannotResizeBackingStore) && after == before
    else if |Domains(w, me)| > 1 then result == Failed(VolumeMultipleDomains) && after == before
    else if Domains(w, me) == {} then result == Done && after == before + [Resize(me, bytes)]
    else forall d :: d in Domains(w, me) && w.objs[d].spec.DomainSpec? ==>
           GrewThrough(w, Seat(path.place.host, w.objs[d].spec.name), me, path, bytes, before, after, result)
  }

  /** How the reconcile of a copy that exists ends. */
  ghost predicate Adjusted(w: World, me: Key, spec: Spec, path: Path, copy: Volume, before: seq<Event>,
                           after: seq<Event>, result: Outcome)
    requires spec.VolumeSpec?
  {
    if spec.size.None? || Asking(spec.size.value) == copy.bytes then result == Done && after == before
    else if Asking(spec.size.value) < copy.bytes then result == Failed(VolumeShrinking) && after == before
    else Grew(w, me, path, Asking(spec.size.value), before, after, result)
  }

  lemma GrewFrom(w: World, n: World, me: Key, path: Path, bytes: nat, before: seq<Event>, after: seq<Event>,
                 result: Outcome)
    requires SameOthers(me, w, n) && n.domains == w.domains && me.Vol? && me in w.objs && me in n.objs
    requires n.objs[me].labels == w.objs[me].labels && Grew(n, me, path, bytes, before, after, result)
    ensures Grew(w, me, path, bytes, before, after, result)
  {
    ReferrersSame(me, w, n);
    forall d | d in Domains(n, me)
      ensures n.objs[d] == w.objs[d]
    {
      OtherSame(me, w, n, d);
    }
  }

  /** What keeps a volume from being laid on its backing volume. */
  function BackingFault(w: World, me: Key, ready: bool, spec: Spec, path: Path): Option<Error>
    requires spec.VolumeSpec?
  {
    if spec.remote || spec.backing.None? then None else
    var key := Vol(spec.backing.value);
    if key == me then Some(if ready then NotFound else BackingStoreNotCreated)
    else if key !in w.objs then Some(NotFound)
    else if !w.objs[key].ready then Some(BackingStoreNotCreated)
    else if w.objs[key].place.None? || !w.objs[key].spec.VolumeSpec? || w.objs[key].place.value.host != path.place.host
    then Some(BackingStoreNotSameHost)
    else if Path(w.objs[key].place.value, w.objs[key].spec.name) !in w.volumes then Some(NotFound)
    else None
  }

  /** How the making of a copy ends: if its backing volume cannot be used, nothing is asked of the host, and one that
   *  is only not there yet is tried again; else it is created, and filled if it has a source. */
  ghost predicate Made(w: World, n: World, me: Key, ready: bool, spec: Spec, path: Path, before: seq<Event>,
                       after: seq<Event>, retry: bool, result: Outcome)
    requires spec.VolumeSpec?
  {
    match BackingFault(w, me, ready, spec, path)
    case Some(error) =>
      && result == (if retry && error == BackingStoreNotCreated then Requeue else Failed(error))
      && after == before && n.volumes.Keys == w.volumes.Keys
      && (me in n.objs ==> !n.objs[me].ready)
    case None => result == Done && path in n.volumes && MadeBy(before, after, me, spec, n.volumes[path])
  }

  /** The calls that make a copy. */
  ghost predicate MadeBy(before: seq<Event>, after: seq<Event>, me: Key, spec: Spec, v: Volume)
    requires spec.VolumeSpec?
  {
    exists bytes: nat ::
      && (spec.size.Some? ==> bytes == Asking(spec.size.value)) && (!spec.remote ==> bytes == v.bytes)
      && after == before + [CreateVolume(me, v.kind, bytes, v.backing)]
                         + (if spec.remote then [Upload(me, v.bytes)] else [])
  }

  /** How a reconcile ends whose pool is ready: a deletion lets the copy go or waits, a copy that exists is adjusted,
   *  and one that does not is made. */
  ghost predicate Concluded(w: World, n: World, me: Key, before: seq<Event>, after: seq<Event>, result: Outcome)
    requires PathOf(w, me).Some? && me.Vol?
  {
    var o, p := w.objs[me], PathOf(w, me).value;
    if o.deleting then o.finalizer ==> Departed(w, n, me, before, after, result)
    else if p in w.volumes then Adjusted(w, me, o.spec, p, w.volumes[p], before, after, result)
    else Made(w, n, me, o.ready, o.spec, p, before, after, true, result)
  }

  lemma MadeFrom(w: World, m: World, n: World, me: Key, ready: bool, spec: Spec, path: Path, before: seq<Event>,
                 after: seq<Event>, result: Outcome)
    requires spec.VolumeSpec? && me.Vol? && SameOthers(me, w, m) && m.volumes.Keys == w.volumes.Keys
    requires Made(m, n, me, ready, spec, path, before, after, false, result)
    ensures Made(w, n, me, ready, spec, path, before, after, true,
                 if result == Failed(BackingStoreNotCreated) then Requeue else result)
  {
    if spec.backing.Some? && Vol(spec.backing.value) != me { OtherSame(me, w, m, Vol(spec.backing.value)); }
  }

  lemma MadeAgain(w: World, m: World, n: World, me: Key, ready: bool, spec: Spec, path: Path, before: seq<Event>,
                  after: seq<Event>, result: Outcome)
    requires spec.VolumeSpec? && me.Vol? && SameOthers(me, w, m) && m.volumes.Keys == w.volumes.Keys
    requires Made(m, n, me, ready, spec, path, before, after, true, result)
    ensures Made(w, n, me, ready, spec, path, before, after, true, result)
  {
    if spec.backing.Some? && Vol(spec.backing.value) != me { OtherSame(me, w, m, Vol(spec.backing.value)); }
  }

  lemma AdjustedFrom(w: World, n: World, me: Key, spec: Spec, path: Path, copy: Volume, before: seq<Event>,
                     after: seq<Event>, result: Outcome)
    requires SameOthers(me, w, n) && n.domains == w.domains && me.Vol? && me in w.objs && me in n.objs
    requires n.objs[me].labels == w.objs[me].labels && spec.VolumeSpec?
    requires Adjusted(n, me, spec, path, copy, before, after, result)
    ensures Adjusted(w, me, spec, path, copy, before, after, result)
  {
    if spec.size.Some? && Asking(spec.size.value) > copy.bytes {
      GrewFrom(w, n, me, path, Asking(spec.size.value), before, after, result);
    }
  }

  lemma FulfilledFrom(w: World, m: World, n: World, me: Key, o: Object, path: Path, copy: Option<Volume>)
    requires me in w.objs && w.objs[me] == o && PathOf(w, me) == Some(path) && o.spec.VolumeSpec? && !o.deleting
    requires m.objs == w.objs && m.volumes == w.volumes && m.bound == w.bound
    requires copy == if path in w.volumes then Some(w.volumes[path]) else None
    requires IsReady(n, me) && path in n.volumes && n.volumes[path].owner == me
    requires copy.Some? ==>
               && Grown(n, path, copy.value)
               && (o.spec.size.Some? ==> n.volumes[path].bytes == Asking(o.spec.size.value))
               && (!Outgrown(o.spec, copy.value.bytes) ==> n.volumes[path] == m.volumes[path])
    requires copy.None? ==> MadeFor(m, o.spec, n.volumes[path])
    ensures Fulfilled(w, n, me)
  {
  }

  lemma ConcludedFrom(w: World, m: World, n: World, me: Key, o: Object, path: Path, copy: Option<Volume>,
                      before: seq<Event>, after: seq<Event>, result: Outcome)
    requires me.Vol? && me in w.objs && w.objs[me] == o && PathOf(w, me) == Some(path) && o.spec.VolumeSpec?
    requires m.objs == w.objs && m.volumes == w.volumes && m.domains == w.domains
    requires copy == if path in w.volumes then Some(w.volumes[path]) else None
    requires o.deleting && o.finalizer ==> Departs(m, n, me, path, copy.Some?, before, after, result)
    requires !o.deleting && copy.Some? ==> Adjusted(m, me, o.spec, path, copy.value, before, after, result)
    requires !o.deleting && copy.None? ==> Made(m, n, me, o.ready, o.spec, path, before, after, true, result)
    ensures Concluded(w, n, me, before, after, result)
  {
    if o.deleting {
      if o.finalizer { DepartedFrom(w, m, n, me, path, copy.Some?, before, after, result); }
    } else if copy.Some? {
      AdjustedFrom(w, m, me, o.spec, path, copy.value, before, after, result);
    } else {
      MadeAgain(w, m, n, me, o.ready, o.spec, path, before, after, result);
    }
  }

  class VolumeReconciler {
    const c: Cluster

    constructor (c: Cluster)
      ensures this.c == c
    {
      this.c := c;
    }

    /** One call of a resize under way. */
    method Ask(me: Key, o: Object, path: Path, copy: Volume) returns (reached: bool, ok: bool)
      requires c.Valid() && me.Vol? && Standing(c.w, me, o, path, copy) && Cleared(c.w, me)
      modifies c
      ensures c.Valid() && Standing(c.w, me, o, path, copy) && Cleared(c.w, me)
      ensures ok ==> reached
      ensures c.alone ==> c.w == old(c.w) && c.hostCalls == old(c.hostCalls)
      ensures c.sure ==> ok
      ensures ok ==> c.missed == old(c.missed)
    {
      ghost var w0 := c.w;
      reached, ok := c.Attempt(me);
      StandingKept(me, w0, c.w, o, path, copy);
      ClearedKept(me, w0, c.w);
    }

    /** Growing touches the copy's size and nothing else. */
    lemma Growing(me: Key, o: Object, path: Path, copy: Volume, bytes: nat, e: Event)
      requires c.Valid() && me.Vol? && Standing(c.w, me, o, path, copy) && copy.bytes < bytes && Cleared(c.w, me)
      requires e == Event.Resize(me, bytes)
               || (e.BlockResize? && e.key == me && e.bytes == bytes && IsDiskAt(c.w, e.seat, e.disk, path))
      ensures Enabled(c.w, e) && Apply(c.w, e) == c.w.(volumes := c.w.volumes[path := copy.(bytes := bytes)])
      ensures Tidy(me, c.w, Apply(c.w, e))
    {
      PathKnown(c.w, me, o, path);
      OnlyVolumes(me, c.w, Apply(c.w, e));
    }

    /** StorageVolResize. */
    method Resize(me: Key, o: Object, path: Path, copy: Volume, bytes: nat) returns (result: Outcome)
      requires c.Valid() && me.Vol? && Standing(c.w, me, o, path, copy) && copy.bytes < bytes
      requires Cleared(c.w, me)
      modifies c
      ensures c.Valid() && Grown(c.w, path, copy)
      ensures result == Done ==> c.w.volumes[path].bytes == bytes
      ensures c.alone ==> Tidy(me, old(c.w), c.w) && c.w.domains == old(c.w.domains) && c.w.objs == old(c.w.objs)
      ensures c.alone && result == Done ==> c.hostCalls == old(c.hostCalls) + [Event.Resize(me, bytes)]
      ensures c.sure ==> result == Done
      ensures result == Done || result == Failed(CallFailed)
      ensures result == Done ==> c.missed == old(c.missed)
    {
      var reached, ok := Ask(me, o, path, copy);
      Growing(me, o, path, copy, bytes, Event.Resize(me, bytes));
      if reached { c.Perform(Event.Resize(me, bytes)); }
      result := if ok then Done else Failed(CallFailed);
    }

    /** DomainBlockResize on the disk that carries the volume; it fails if the domain does not run any more. */
    method BlockResize(me: Key, o: Object, path: Path, copy: Volume, bytes: nat, seat: Seat, disk: nat)
      returns (result: Outcome)
      requires c.Valid() && me.Vol? && Standing(c.w, me, o, path, copy) && copy.bytes < bytes
      requires Cleared(c.w, me)
      modifies c
      ensures c.Valid() && Grown(c.w, path, copy)
      ensures result == Done ==> c.w.volumes[path].bytes == bytes
      ensures c.alone ==> Tidy(me, old(c.w), c.w) && c.w.domains == old(c.w.domains) && c.w.objs == old(c.w.objs)
      ensures c.alone && result == Done ==>
                c.hostCalls == old(c.hostCalls) + [Event.BlockResize(me, bytes, seat, disk)]
      ensures c.sure && IsDiskAt(old(c.w), seat, disk, path) ==> result == Done
      ensures result == Done || result == Failed(CallFailed)
      ensures result == Done ==> c.missed == old(c.missed)
    {
      var reached, ok := Ask(me, o, path, copy);
      if !IsDiskAt(c.w, seat, disk, path) { return Failed(CallFailed); }
      Growing(me, o, path, copy, bytes, Event.BlockResize(me, bytes, seat, disk));
      if reached { c.Perform(Event.BlockResize(me, bytes, seat, disk)); }
      result := if ok then Done else Failed(CallFailed);
    }

    /** Resizes through the domain that labels the volume, or directly unless that domain runs on the host. */
    method LiveResize(me: Key, o: Object, path: Path, copy: Volume, bytes: nat, domain: string)
      returns (result: Outcome)
      requires c.Valid() && me.Vol? && Standing(c.w, me, o, path, copy) && copy.bytes < bytes
      requires Cleared(c.w, me)
      modifies c
      ensures c.Valid() && Grown(c.w, path, copy)
      ensures result == Done ==> c.w.volumes[path].bytes == bytes
      ensures c.alone ==> Tidy(me, old(c.w), c.w) && c.w.domains == old(c.w.domains) && c.w.objs == old(c.w.objs)
      ensures c.alone && (result == Done || c.sure) ==>
                GrewThrough(old(c.w), Seat(path.place.host, domain), me, path, bytes, old(c.hostCalls), c.hostCalls,
                            result)
      ensures result == Done || result == Failed(CallFailed) || result == Failed(LiveResizeNoMatch)
      ensures result == Done ==> c.missed == old(c.missed)
    {
      var seat := Seat(path.place.host, domain);
      var reached, ok := Ask(me, o, path, copy);
      if !ok { return Failed(CallFailed); }
      if seat !in c.w.domains {
        result := Resize(me, o, path, copy, bytes);
        return;
      }
      reached, ok := Ask(me, o, path, copy);
      if !ok || seat !in c.w.domains { return Failed(CallFailed); }
      if c.w.domains[seat].power != Running {
        result := Resize(me, o, path, copy, bytes);
        return;
      }
      reached, ok := Ask(me, o, path, copy);
      if !ok || seat !in c.w.domains { return Failed(CallFailed); }
      var disks := c.w.domains[seat].disks;
      for i := 0 to |disks|
        invariant forall j :: 0 <= j < i ==> disks[j].path != path
      {
        if disks[i].path == path {
          assert FirstAt(disks, path, i);
          result := BlockResize(me, o, path, copy, bytes, seat, i);
          return;
        }
      }
      result := Failed(LiveResizeNoMatch);
    }

    /** The copy need not shrink, and may grow if it has to. */
    static predicate Unhindered(w: World, me: Key, spec: Spec, path: Path, copy: Volume) {
      spec.VolumeSpec? && spec.size.Some? ==>
        match ResizeRequired(copy.bytes, spec.size.value.value, spec.size.value.unit)
        case Shrinks => false
        case Same => true
        case Grows => Growable(w, me, path, copy.kind)
    }

    /** Reports a copy that exists as ready. */
    method Confirm(me: Key, volume: Object, path: Path, copy: Volume) returns (ok: bool, o: Object)
      requires c.Valid() && me.Vol? && Standing(c.w, me, volume, path, copy)
      modifies c
      ensures c.Valid() && Grown(c.w, path, copy)
      ensures ok ==> Standing(c.w, me, o, path, copy) && o.ready && o.spec == volume.spec && o.labels == volume.labels
      ensures c.sure && old(Current(c.w, me, volume.version)) ==> ok && Current(c.w, me, o.version)
      ensures c.alone ==> Undisturbed(me, old(c.w), c.w) && c.hostCalls == old(c.hostCalls)
      ensures volume.ready ==> ok && o == volume && c.w == old(c.w)
      ensures c.alone && ok && Unhindered(old(c.w), me, volume.spec, path, copy) ==>
                Unhindered(c.w, me, volume.spec, path, copy)
      ensures ok ==> c.missed == old(c.missed)
    {
      ghost var w0 := c.w;
      if volume.ready { return true, volume; }
      ok, o := c.Report(me, volume, true, Some(path.place));
      if ok {
        assert c.alone && Unhindered(w0, me, volume.spec, path, copy) ==>
            Unhindered(c.w, me, volume.spec, path, copy) by {
          if c.alone && Unhindered(w0, me, volume.spec, path, copy) {
            UnhinderedKept(w0, c.w, me, volume, o, path, copy);
          }
        }
      }
    }

    lemma UnhinderedKept(w: World, n: World, me: Key, volume: Object, o: Object, path: Path, copy: Volume)
      requires Standing(w, me, volume, path, copy) && Snapshot(n, me, o) && o.finalizer && o.labels == volume.labels
      requires Tidy(me, w, n) && n.domains == w.domains && Unhindered(w, me, volume.spec, path, copy)
      ensures Unhindered(n, me, volume.spec, path, copy)
    {
      ReferrersSame(me, w, n);
      forall d | d in Domains(n, me)
        ensures n.objs[d] == w.objs[d]
      {
        OtherSame(me, w, n, d);
      }
    }

    /** The part of Reconcile for a volume that exists on its host. */
    method Existing(me: Key, volume: Object, path: Path, copy: Volume) returns (result: Outcome)
      requires c.Valid() && me.Vol? && Standing(c.w, me, volume, path, copy)
      modifies c
      ensures c.Valid() && Grown(c.w, path, copy)
      ensures result == Done && volume.spec.size.Some? ==>
                c.w.volumes[path].bytes == ConvertToBytes(volume.spec.size.value.value, volume.spec.size.value.unit)
      ensures c.alone && result == Done ==> IsReady(c.w, me)
      ensures c.alone ==> Tidy(me, old(c.w), c.w) && c.w.domains == old(c.w.domains)
      ensures c.alone && !Outgrown(volume.spec, copy.bytes) ==>
                c.w.volumes == old(c.w.volumes) && c.hostCalls == old(c.hostCalls)
      ensures c.sure && old(Current(c.w, me, volume.version)) && Unhindered(old(c.w), me, volume.spec, path, copy) ==>
                result == Done
      ensures volume.spec.VolumeSpec? && c.alone
              && (result == Done || (c.sure && old(Current(c.w, me, volume.version)))) ==>
                Adjusted(old(c.w), me, volume.spec, path, copy, old(c.hostCalls), c.hostCalls, result)
      ensures c.alone && volume.ready ==> c.w.objs == old(c.w.objs)
      ensures result == Failed(VolumeShrinking) ==>
                volume.spec.size.Some? && Asking(volume.spec.size.value) < copy.bytes
      ensures result == Done ==> c.missed == old(c.missed)
    {
      var ok, o := Confirm(me, volume, path, copy);
      if !ok { return Failed(CallFailed); }
      if o.spec.size.None? { return Done; }
      var size := o.spec.size.value;
      var desired := ConvertToBytes(size.value, size.unit);
      match ResizeRequired(copy.bytes, size.value, size.unit)
      case Shrinks => return Failed(VolumeShrinking);
      case Same => return Done;
      case Grows =>
      ghost var w1 := c.w;
      result := Enlarge(me, o, path, copy, desired);
      if c.alone && (result == Done || c.sure) {
        GrewFrom(old(c.w), w1, me, path, desired, old(c.hostCalls), c.hostCalls, result);
      }
    }

    /** Whether no other volume is labelled as lying on this one; good for the resize window it opens. */
    method IsNotBackingStore(me: Key, o: Object, path: Path, copy: Volume) returns (ok: bool, free: bool)
      requires c.Valid() && me.Vol? && Standing(c.w, me, o, path, copy)
      modifies c
      ensures c.Valid() && Standing(c.w, me, o, path, copy)
      ensures ok && free ==> Cleared(c.w, me)
      ensures c.alone ==> Undisturbed(me, old(c.w), c.w) && c.w.objs == old(c.w.objs)
      ensures c.alone ==> c.hostCalls == old(c.hostCalls)
      ensures c.sure ==> ok
      ensures c.alone && ok ==> (free <==> Overlays(old(c.w), me) == {})
      ensures ok ==> c.missed == old(c.missed)
    {
      ghost var w0 := c.w;
      var reached;
      reached, ok := c.Attempt(me);
      StandingKept(me, w0, c.w, o, path, copy);
      if !ok { return false, false; }
      c.Open(me, Resizing(me));
      free := Overlays(c.w, me) == {};
    }

    /** The one domain labelled with this volume, if any. */
    method UsedByDomain(me: Key, o: Object, path: Path, copy: Volume)
      returns (error: Option<Error>, domain: Option<string>)
      requires c.Valid() && me.Vol? && Standing(c.w, me, o, path, copy) && Cleared(c.w, me)
      modifies c
      ensures c.Valid() && Standing(c.w, me, o, path, copy) && Cleared(c.w, me)
      ensures error == None ==> |Domains(c.w, me)| <= 1 && (domain.None? <==> Domains(c.w, me) == {})
      ensures error == None && domain.Some? ==>
                exists d :: Domains(c.w, me) == {d} && c.w.objs[d].spec.DomainSpec?
                            && c.w.objs[d].spec.name == domain.value
      ensures c.alone ==> c.w == old(c.w) && c.hostCalls == old(c.hostCalls)
      ensures c.sure ==> (error == Some(VolumeMultipleDomains) <==> |Domains(c.w, me)| > 1)
      ensures c.sure ==> error == None || error == Some(VolumeMultipleDomains)
      ensures error == Some(VolumeMultipleDomains) ==> |Domains(c.w, me)| > 1
      ensures error.None? || error == Some(CallFailed) || error == Some(VolumeMultipleDomains)
      ensures error.None? ==> c.missed == old(c.missed)
    {
      var reached, ok := Ask(me, o, path, copy);
      if !ok { return Some(CallFailed), None; }
      var domains := Domains(c.w, me);
      if |domains| > 1 { return Some(VolumeMultipleDomains), None; }
      if domains == {} { return None, None; }
      var d :| d in domains;
      assert c.w.objs[d].spec.DomainSpec? by { c.Sane(); }
      assert domains == {d} by { OnlyOne(domains, d); }
      return None, Some(c.w.objs[d].spec.name);
    }

    /** Nothing keeps the volume from growing: no overlay, at most one domain, and if that runs it has the volume, as it
     *  does if nobody else is at work, no deletion has overlapped and the copy can be a disk. */
    static predicate Growable(w: World, me: Key, path: Path, kind: Kind) {
      && Overlays(w, me) == {} && |Domains(w, me)| <= 1
      && (|| (kind != OtherKind && Solo(w, me) && Deleting(me) !in w.overlapped)
          || forall d :: d in Domains(w, me) && w.objs[d].spec.DomainSpec? ==> Attached(w, w.objs[d].spec.name, path))
    }

    lemma GrowableAttached(me: Key, o: Object, path: Path, copy: Volume)
      requires c.Valid() && me.Vol? && Standing(c.w, me, o, path, copy)
      ensures Growable(c.w, me, path, copy.kind) ==> AllAttached(c.w, me, path)
    {
      c.Sane();
      if copy.kind != OtherKind && Deleting(me) !in c.w.overlapped {
        forall d | d in Domains(c.w, me)
          ensures Attached(c.w, c.w.objs[d].spec.name, path)
        {
          LabelledIsDisk(c.w, d, path);
        }
      }
    }

    static predicate AllAttached(w: World, me: Key, path: Path) {
      forall d :: d in Domains(w, me) ==> w.objs[d].spec.DomainSpec? && Attached(w, w.objs[d].spec.name, path)
    }

    lemma GrewWell(w: World, me: Key, path: Path, kind: Kind, bytes: nat, before: seq<Event>, after: seq<Event>,
                   result: Outcome)
      requires Growable(w, me, path, kind) && AllAttached(w, me, path)
      requires Grew(w, me, path, bytes, before, after, result)
      ensures result == Done
    {
      if Domains(w, me) != {} {
        var d :| d in Domains(w, me);
        assert GrewThrough(w, Seat(path.place.host, w.objs[d].spec.name), me, path, bytes, before, after, result);
      }
    }

    /** If the domain runs on the volume's host, it has the volume as a disk. */
    static predicate Attached(w: World, domain: string, path: Path) {
      var s := Seat(path.place.host, domain);
      s in w.domains && w.domains[s].power == Running ==> exists l :: l in w.domains[s].disks && l.path == path
    }

    lemma DomainsSame(w: World, n: World, me: Key)
      requires n.objs == w.objs
      ensures Domains(n, me) == Domains(w, me) && Overlays(n, me) == Overlays(w, me)
    {
    }

    /** The resize itself, once ResizeRequired has asked for it. */
    method Enlarge(me: Key, o: Object, path: Path, copy: Volume, desired: nat) returns (result: Outcome)
      requires c.Valid() && me.Vol? && Standing(c.w, me, o, path, copy) && copy.bytes < desired
      modifies c
      ensures c.Valid() && Grown(c.w, path, copy)
      ensures result == Done ==> c.w.volumes[path].bytes == desired
      ensures c.alone ==> Tidy(me, old(c.w), c.w) && c.w.domains == old(c.w.domains) && c.w.objs == old(c.w.objs)
      ensures c.sure ==> result != Failed(CallFailed)
      ensures c.sure && Growable(old(c.w), me, path, copy.kind) ==> result == Done
      ensures c.alone && (result == Done || c.sure) ==>
                Grew(old(c.w), me, path, desired, old(c.hostCalls), c.hostCalls, result)
      ensures result != Failed(VolumeShrinking)
      ensures result == Done ==> c.missed == old(c.missed)
    {
      ghost var w0 := c.w;
      GrowableAttached(me, o, path, copy);
      var ok, free := IsNotBackingStore(me, o, path, copy);
      if !ok { return Failed(CallFailed); }
      if !free { return Failed(CannotResizeBackingStore); }
      ghost var w1 := c.w;
      if c.alone { DomainsSame(w0, w1, me); }
      result := EnlargeFree(me, o, path, copy, desired);
      if c.alone { TidyAfter(me, w0, w1, c.w); }
      if c.alone && (result == Done || c.sure) {
        GrewFrom(w0, w1, me, path, desired, old(c.hostCalls), c.hostCalls, result);
        if Growable(w0, me, path, copy.kind) {
          GrewWell(w0, me, path, copy.kind, desired, old(c.hostCalls), c.hostCalls, result);
        }
      }
    }

    /** The same once no volume lies on this one: through the domain, if there is one. */
    method EnlargeFree(me: Key, o: Object, path: Path, copy: Volume, desired: nat) returns (result: Outcome)
      requires c.Valid() && me.Vol? && Standing(c.w, me, o, path, copy) && copy.bytes < desired && Cleared(c.w, me)
      modifies c
      ensures c.Valid() && Grown(c.w, path, copy)
      ensures result == Done ==> c.w.volumes[path].bytes == desired
      ensures c.alone ==> Tidy(me, old(c.w), c.w) && c.w.domains == old(c.w.domains) && c.w.objs == old(c.w.objs)
      ensures c.sure ==> result != Failed(CallFailed)
      ensures c.alone && (result == Done || c.sure) && Overlays(old(c.w), me) == {} ==>
                Grew(old(c.w), me, path, desired, old(c.hostCalls), c.hostCalls, result)
      ensures result != Failed(VolumeShrinking) && result != Failed(CannotResizeBackingStore)
      ensures result == Done ==> c.missed == old(c.missed)
    {
      var error, domain := UsedByDomain(me, o, path, copy);
      if error.Some? { return Failed(error.value); }
      if domain.Some? {
        result := LiveResize(me, o, path, copy, desired, domain.value);
      } else {
        result := Resize(me, o, path, copy, desired);
      }
    }

    /** One call while a copy is being prepared. */
    method Prepare(me: Key, o: Object, path: Path, link: Option<Link>) returns (reached: bool, ok: bool)
      requires c.Valid() && me.Vol? && Making(c.w, me, o, path) && o.spec.VolumeSpec? && Backing(c.w, me, o, path, link)
      modifies c
      ensures c.Valid() && Making(c.w, me, o, path) && Backing(c.w, me, o, path, link)
      ensures ok ==> reached
      ensures c.alone ==> c.w == old(c.w) && c.hostCalls == old(c.hostCalls)
      ensures c.sure ==> ok
      ensures ok ==> c.missed == old(c.missed)
    {
      ghost var w0 := c.w;
      reached, ok := c.Attempt(me);
      SnapshotKept(me, w0, c.w, o);
      MakingKept(me, w0, c.w, o, o, path);
      BackingKept(me, w0, c.w, o, o, path, link);
    }

    /** SetLabel and the update it calls for. */
    method Label(me: Key, o: Object, path: Path, link: Option<Link>, to: Key) returns (ok: bool, stored: Object)
      requires c.Valid() && me.Vol? && Making(c.w, me, o, path) && o.spec.VolumeSpec? && Backing(c.w, me, o, path, link)
      requires to == Pool(o.spec.pool) || (link.Some? && to == link.value.ref)
      modifies c
      ensures c.Valid()
      ensures ok ==> Making(c.w, me, stored, path) && stored.spec == o.spec && stored.ready == o.ready
                     && stored.labels == o.labels + {to} && Backing(c.w, me, stored, path, link)
      ensures to in o.labels ==> ok && stored == o && c.w == old(c.w)
      ensures c.alone ==> Undisturbed(me, old(c.w), c.w) && c.hostCalls == old(c.hostCalls)
      ensures c.sure && old(Current(c.w, me, o.version)) ==> ok && Current(c.w, me, stored.version)
      ensures ok ==> c.missed == old(c.missed)
    {
      if to in o.labels { return true, o; }
      ghost var w0 := c.w;
      ok, stored := c.Update(me, o, AddLabel(me, o.version, to));
      if ok {
        MakingKept(me, w0, c.w, o, stored, path);
        BackingKept(me, w0, c.w, o, stored, path, link);
      }
    }

    /** Reads the backing volume's object, checks it and looks its copy up. */
    method BackingStore(me: Key, o: Object, path: Path, name: string)
      returns (error: Option<Error>, link: Option<Link>, bytes: nat)
      requires c.Valid() && me.Vol? && Making(c.w, me, o, path) && o.spec.VolumeSpec? && o.spec.backing == Some(name)
      modifies c
      ensures c.Valid() && Making(c.w, me, o, path)
      ensures error.None? ==> link.Some? && link.value.ref == Vol(name) && Backing(c.w, me, o, path, link)
      ensures c.alone ==> Undisturbed(me, old(c.w), c.w) && c.hostCalls == old(c.hostCalls) && c.w.objs == old(c.w.objs)
      ensures c.alone && (error.None? || c.sure) ==>
                error == BackingFault(old(c.w), me, o.ready, o.spec.(remote := false), path)
      ensures c.sure && old(ReadyOn(c.w, me, Vol(name), path.place.host)) ==> error.None?
      ensures c.alone && error.None? ==>
                && link.value.path in c.w.volumes && bytes == c.w.volumes[link.value.path].bytes
                && c.w.volumes[link.value.path].owner == Vol(name)
      ensures error.None? ==> c.missed == old(c.missed)
    {
      var key := Vol(name);
      if key == me {
        var _, ok := Prepare(me, o, path, None);
        return Some(if !ok then CallFailed else if o.ready then NotFound else BackingStoreNotCreated), None, 0;
      }
      ghost var w0 := c.w;
      var found;
      error, found := ReadReferent(c, me, o, key);
      MakingKept(me, w0, c.w, o, o, path);
      if error.Some? { return error, None, 0; }
      if !found.value.ready { return Some(BackingStoreNotCreated), None, 0; }
      var target := Path(found.value.place.value, found.value.spec.name);
      if target.place.host != path.place.host { return Some(BackingStoreNotSameHost), None, 0; }
      ghost var w1 := c.w;
      var volume;
      error, volume := LookUp(c, me, o, key, target);
      MakingKept(me, w1, c.w, o, o, path);
      if error.Some? { return error, None, 0; }
      link, bytes := Some(Link(key, target)), volume.value.bytes;
    }

    /** VolumeAction.Create: the volume itself, then the upload of its source. */
    method Make(me: Key, o: Object, path: Path, link: Option<Link>, bytes: nat, upload: Option<nat>)
      returns (result: Outcome)
      requires c.Valid() && me.Vol? && Making(c.w, me, o, path) && o.spec.VolumeSpec? && Backing(c.w, me, o, path, link)
      requires Pool(o.spec.pool) in o.labels && (link.Some? ==> link.value.ref in o.labels)
      modifies c
      ensures c.Valid() && Snapshot(c.w, me, o)
      ensures result == Done ==> path in c.w.volumes && Standing(c.w, me, o, path, c.w.volumes[path])
                                 && IsCopy(c.w, me, path, link, upload.GetOr(bytes), upload.Some?)
      ensures c.alone ==> Tidy(me, old(c.w), c.w) && c.w.domains == old(c.w.domains) && c.w.objs == old(c.w.objs)
      ensures c.alone && result == Done ==>
                c.hostCalls == old(c.hostCalls) + [CreateVolume(me, c.w.volumes[path].kind, bytes, link)]
                               + (if upload.Some? then [Upload(me, upload.value)] else [])
      ensures c.sure ==> result == Done
      ensures result == Done ==> c.missed == old(c.missed)
    {
      var kind: Kind := *;
      var reached, ok := Prepare(me, o, path, link);
      if reached { Spawn(c, me, o, path, kind, bytes, link); }
      if !ok { return Failed(CallFailed); }
      var copy := c.w.volumes[path];
      if upload.Some? {
        result := Send(c, me, o, path, copy, upload.value);
      } else {
        result := Done;
      }
    }

    /** The backing volume, if one is needed, is ready on the same host. */
    static predicate Sourced(w: World, me: Key, spec: Spec, path: Path)
      requires spec.VolumeSpec?
    {
      !spec.remote && spec.backing.Some? ==> ReadyOn(w, me, Vol(spec.backing.value), path.place.host)
    }

    /** Where the new volume's contents and size come from: a download, a backing volume, or nothing. */
    method Source(me: Key, o: Object, path: Path)
      returns (error: Option<Error>, link: Option<Link>, bytes: nat, upload: Option<nat>)
      requires c.Valid() && me.Vol? && Making(c.w, me, o, path) && o.spec.VolumeSpec?
      modifies c
      ensures c.Valid() && Making(c.w, me, o, path)
      ensures error.None? ==> Backing(c.w, me, o, path, link) && (upload.Some? <==> o.spec.remote)
      ensures error.None? && o.spec.size.Some? ==>
                bytes == ConvertToBytes(o.spec.size.value.value, o.spec.size.value.unit)
      ensures error.None? && !o.spec.remote ==> (link.Some? <==> o.spec.backing.Some?)
      ensures error.None? && o.spec.remote ==> link.None?
      ensures c.alone && error.None? && link.Some? ==>
                && link.value.path in c.w.volumes && c.w.volumes[link.value.path].owner == link.value.ref
                && (o.spec.size.None? ==> bytes == c.w.volumes[link.value.path].bytes)
      ensures c.alone && (error.None? || c.sure) ==> error == BackingFault(old(c.w), me, o.ready, o.spec, path)
      ensures c.sure && old(Sourced(c.w, me, o.spec, path)) ==> error.None?
      ensures c.alone ==> Undisturbed(me, old(c.w), c.w) && c.hostCalls == old(c.hostCalls) && c.w.objs == old(c.w.objs)
      ensures error.None? ==> c.missed == old(c.missed)
    {
      error, link, upload := None, None, None;
      var length: nat := *;
      bytes := length;
      if o.spec.remote {
        var _, ok := Prepare(me, o, path, None);
        if !ok { error := Some(CallFailed); }
        upload := Some(length);
      } else if o.spec.backing.Some? {
        error, link, bytes := BackingStore(me, o, path, o.spec.backing.value);
      }
      if o.spec.size.Some? { bytes := ConvertToBytes(o.spec.size.value.value, o.spec.size.value.unit); }
    }

    /** Both labels, each persisted if it is new. */
    method LabelAll(me: Key, volume: Object, path: Path, link: Option<Link>) returns (ok: bool, o: Object)
      requires c.Valid() && me.Vol? && Making(c.w, me, volume, path) && volume.spec.VolumeSpec?
      requires Backing(c.w, me, volume, path, link)
      modifies c
      ensures c.Valid()
      ensures ok ==> Making(c.w, me, o, path) && o.spec == volume.spec && Backing(c.w, me, o, path, link)
      ensures ok ==> Pool(o.spec.pool) in o.labels && (link.Some? ==> link.value.ref in o.labels)
      ensures ok ==> o.ready == volume.ready
      ensures c.sure && old(Current(c.w, me, volume.version)) ==> ok && Current(c.w, me, o.version)
      ensures c.alone ==> Undisturbed(me, old(c.w), c.w) && c.hostCalls == old(c.hostCalls)
      ensures ok ==> c.missed == old(c.missed)
    {
      o := volume;
      if link.Some? {
        ok, o := Label(me, o, path, link, link.value.ref);
        if !ok { return; }
      }
      ok, o := Label(me, o, path, link, Pool(o.spec.pool));
    }

    /** create: labels first, the host after. */
    method Create(me: Key, volume: Object, path: Path) returns (result: Outcome)
      requires c.Valid() && me.Vol? && Making(c.w, me, volume, path) && volume.spec.VolumeSpec?
      modifies c
      ensures c.Valid()
      ensures c.alone ==> Tidy(me, old(c.w), c.w) && c.w.domains == old(c.w.domains)
      ensures c.alone && (result == Done || (c.sure && old(Current(c.w, me, volume.version)))) ==>
                Made(old(c.w), c.w, me, volume.ready, volume.spec, path, old(c.hostCalls), c.hostCalls, false,
                     result)
      ensures c.sure && old(Current(c.w, me, volume.version) && Sourced(c.w, me, volume.spec, path)) ==> result == Done
      ensures result == Done ==> IsReady(c.w, me)
      ensures result == Done ==> path in c.w.volumes && c.w.volumes[path].owner == me
      ensures c.alone && result == Done ==> MadeFor(old(c.w), volume.spec, c.w.volumes[path])
      ensures result == Done ==> c.missed == old(c.missed)
    {
      ghost var w0 := c.w;
      var error, link, bytes, upload := Source(me, volume, path);
      ghost var w1 := c.w;
      if error.Some? {
        result := Refuse(me, volume, error.value);
      } else {
        result := Produce(me, volume, path, link, bytes, upload);
      }
      if c.alone { TidyAfter(me, w0, w1, c.w); }
    }

    /** What the copy was to lie on cannot be used. */
    method Refuse(me: Key, volume: Object, error: Error) returns (result: Outcome)
      requires c.Valid() && me.Vol? && Snapshot(c.w, me, volume) && volume.finalizer
      modifies c
      ensures c.Valid()
      ensures c.alone ==> Undisturbed(me, old(c.w), c.w) && c.hostCalls == old(c.hostCalls)
      ensures result == Failed(error) || result == Failed(CallFailed)
      ensures c.sure && old(Current(c.w, me, volume.version)) ==> result == Failed(error) && !IsReady(c.w, me)
    {
      var ok, o := c.Report(me, volume, false, volume.place);
      result := Failed(if ok then error else CallFailed);
    }

    /** The labels, and then the copy. */
    method Produce(me: Key, volume: Object, path: Path, link: Option<Link>, bytes: nat, upload: Option<nat>)
      returns (result: Outcome)
      requires c.Valid() && me.Vol? && Making(c.w, me, volume, path) && volume.spec.VolumeSpec?
      requires Backing(c.w, me, volume, path, link)
      modifies c
      ensures c.Valid()
      ensures c.alone ==> Tidy(me, old(c.w), c.w) && c.w.domains == old(c.w.domains)
      ensures c.alone && result == Done ==>
                && path in c.w.volumes
                && c.hostCalls == old(c.hostCalls) + [CreateVolume(me, c.w.volumes[path].kind, bytes, link)]
                                  + (if upload.Some? then [Upload(me, upload.value)] else [])
      ensures c.sure && old(Current(c.w, me, volume.version)) ==> result == Done
      ensures result == Done ==> IsReady(c.w, me)
      ensures result == Done ==> IsCopy(c.w, me, path, link, upload.GetOr(bytes), upload.Some?)
      ensures result == Done ==> c.missed == old(c.missed)
    {
      ghost var w0 := c.w;
      var ok, o := LabelAll(me, volume, path, link);
      if !ok { return Failed(CallFailed); }
      ghost var w1 := c.w;
      result := MakeKnown(me, o, path, link, bytes, upload);
      if c.alone { TidyAfter(me, w0, w1, c.w); }
    }

    /** The creation and the condition that tells how it went. */
    method MakeKnown(me: Key, volume: Object, path: Path, link: Option<Link>, bytes: nat, upload: Option<nat>)
      returns (result: Outcome)
      requires c.Valid() && me.Vol? && Making(c.w, me, volume, path) && volume.spec.VolumeSpec?
      requires Backing(c.w, me, volume, path, link)
      requires Pool(volume.spec.pool) in volume.labels && (link.Some? ==> link.value.ref in volume.labels)
      modifies c
      ensures c.Valid()
      ensures c.alone ==> Tidy(me, old(c.w), c.w) && c.w.domains == old(c.w.domains)
      ensures c.alone && result == Done ==>
                && path in c.w.volumes
                && c.hostCalls == old(c.hostCalls) + [CreateVolume(me, c.w.volumes[path].kind, bytes, link)]
                                  + (if upload.Some? then [Upload(me, upload.value)] else [])
      ensures c.sure && old(Current(c.w, me, volume.version)) ==> result == Done
      ensures result == Done ==> IsReady(c.w, me)
      ensures result == Done ==> IsCopy(c.w, me, path, link, upload.GetOr(bytes), upload.Some?)
      ensures result == Done ==> c.missed == old(c.missed)
    {
      result := Make(me, volume, path, link, bytes, upload);
      ghost var w1 := c.w;
      var ok, o := c.Report(me, volume, result == Done, if result == Done then Some(path.place) else volume.place);
      if result == Done { CopyKept(me, w1, c.w, path, link, upload.GetOr(bytes), upload.Some?); }
      if !ok { result := Failed(CallFailed); }
    }

    /** One reconcile. Whatever happens around it, `Valid` says that it took enabled steps only; with the cluster to
     *  itself it also brings the host to the size asked for, and asks nothing of the host if nothing is to be done. */
    method Reconcile(name: string) returns (result: Outcome)
      requires c.Valid() && Rested(c.w, Vol(name))
      modifies c
      ensures c.Valid() && Rested(c.w, Vol(name))
      ensures c.alone ==> SameWishes(old(c.w), c.w)
      ensures c.alone && old(Solo(c.w, Vol(name))) ==>
                c.w.overlapped == old(c.w.overlapped) && c.w.attaching == {} && c.w.windows == {}
      ensures c.alone && result == Done ==> Fulfilled(old(c.w), c.w, Vol(name))
      ensures c.alone && old(PathOf(c.w, Vol(name))).Some?
              && (result == Done || (c.sure && old(PoolReady(c.w, Vol(name))))) ==>
                Concluded(old(c.w), c.w, Vol(name), old(c.hostCalls), c.hostCalls, result)
      ensures c.alone && old(Reported(c.w, Vol(name))) ==> c.w.objs == old(c.w.objs)
      ensures c.alone && old(Settled(c.w, Vol(name))) ==> c.hostCalls == old(c.hostCalls)
      ensures c.alone && old(IsReady(c.w, Vol(name)) && !PoolReady(c.w, Vol(name))) ==>
                c.w.objs == old(c.w.objs) && c.hostCalls == old(c.hostCalls)
      ensures c.sure && old(Vol(name) in c.w.objs && !PoolReady(c.w, Vol(name))) ==>
                result == old(PoolFault(c.w, Vol(name)))
      ensures c.sure && old(PoolReady(c.w, Vol(name)) && Ready(c.w, Vol(name))) ==> result == Done
      ensures c.alone && result == Done && old(Leaving(c.w, Vol(name))) ==> Vol(name) !in c.w.objs
      ensures result == Done ==> c.missed == old(c.missed)
    {
      result := Work(Vol(name));
      c.Close(Vol(name));
    }

    static predicate Ready(w: World, me: Key) {
      && PathOf(w, me).Some?
      && var p := PathOf(w, me).value;
      Unblocked(w, me, w.objs[me], p, if Present(w, me) then Some(w.volumes[p]) else None)
    }

    method Work(me: Key) returns (result: Outcome)
      requires c.Valid() && me.Vol? && Rested(c.w, me)
      modifies c
      ensures c.Valid()
      ensures c.alone ==> Tidy(me, old(c.w), c.w)
      ensures c.alone && result == Done ==> Fulfilled(old(c.w), c.w, me)
      ensures c.alone && old(PathOf(c.w, me)).Some? && (result == Done || (c.sure && old(PoolReady(c.w, me)))) ==>
                Concluded(old(c.w), c.w, me, old(c.hostCalls), c.hostCalls, result)
      ensures c.alone && old(Reported(c.w, me)) ==> c.w.objs == old(c.w.objs)
      ensures c.alone && old(Settled(c.w, me)) ==> c.hostCalls == old(c.hostCalls)
      ensures c.alone && old(IsReady(c.w, me) && !PoolReady(c.w, me)) ==>
                c.w.objs == old(c.w.objs) && c.hostCalls == old(c.hostCalls)
      ensures c.sure && old(me in c.w.objs && !PoolReady(c.w, me)) ==> result == old(PoolFault(c.w, me))
      ensures c.sure && old(PoolReady(c.w, me) && Ready(c.w, me)) ==> result == Done
      ensures c.alone && result == Done && old(Leaving(c.w, me)) ==> me !in c.w.objs
      ensures result == Done ==> c.missed == old(c.missed)
    {
      var stop, o, path, copy := Enter(c, me);
      if stop.Some? { return stop.value; }
      if c.alone { EnteredExactly(c, me, o, path, copy); }
      ghost var w1 := c.w;
      if c.alone && old(Ready(c.w, me)) { ReadyFound(old(c.w), w1, me, o, path, copy); }
      result := Act(me, o, path, copy);
      if c.alone {
        TidyAfter(me, old(c.w), w1, c.w);
        if result == Done && !o.deleting { FulfilledFrom(old(c.w), w1, c.w, me, o, path, copy); }
        if result == Done || (c.sure && old(PoolReady(c.w, me))) {
          ConcludedFrom(old(c.w), w1, c.w, me, o, path, copy, old(c.hostCalls), c.hostCalls, result);
        }
      }
    }

    /** Nothing but its calls can keep the reconcile from succeeding. */
    static predicate Unblocked(w: World, me: Key, o: Object, path: Path, copy: Option<Volume>) {
      if o.deleting then Referrers(w, me) == {}
      else if copy.Some? then Unhindered(w, me, o.spec, path, copy.value)
      else o.spec.VolumeSpec? && Sourced(w, me, o.spec, path)
    }

    lemma ReadyFound(w: World, n: World, me: Key, o: Object, path: Path, copy: Option<Volume>)
      requires Ready(w, me) && w.objs[me] == o && PathOf(w, me) == Some(path) && n.objs == w.objs
      requires copy == if path in w.volumes then Some(w.volumes[path]) else None
      requires Undisturbed(me, w, n)
      ensures Unblocked(n, me, o, path, copy)
    {
    }

    lemma SourcedKept(w: World, n: World, me: Key, spec: Spec, path: Path)
      requires spec.VolumeSpec? && SameOthers(me, w, n) && n.volumes == w.volumes && n.bound == w.bound
      requires Sourced(w, me, spec, path)
      ensures Sourced(n, me, spec, path)
    {
      if !spec.remote && spec.backing.Some? {
        ReadyOnKept(me, w, n, Vol(spec.backing.value), path.place.host);
      }
    }

    lemma UnblockedKept(w: World, n: World, me: Key, volume: Object, o: Object, path: Path, copy: Option<Volume>)
      requires Unblocked(w, me, volume, path, copy) && !volume.deleting && volume.spec.VolumeSpec?
      requires o.spec == volume.spec && !o.deleting && Tidy(me, w, n)
      requires n.volumes == w.volumes && n.domains == w.domains && n.bound == w.bound
      requires me in w.objs && me in n.objs && n.objs[me].labels == w.objs[me].labels
      requires n.objs[me].spec == w.objs[me].spec
      ensures Unblocked(n, me, o, path, copy)
    {
      if copy.Some? {
        ReferrersSame(me, w, n);
        forall d | d in Domains(n, me)
          ensures n.objs[d].spec == w.objs[d].spec
        {
          if d != me { OtherSame(me, w, n, d); }
        }
      } else {
        SourcedKept(w, n, me, o.spec, path);
      }
    }

    method Act(me: Key, volume: Object, path: Path, copy: Option<Volume>) returns (result: Outcome)
      requires c.Valid() && me.Vol? && Entered(c.w, me, volume, path, copy) && volume.spec.VolumeSpec?
      modifies c
      ensures c.Valid()
      ensures c.alone ==> Tidy(me, old(c.w), c.w)
      ensures c.alone && result == Done && !volume.deleting ==> IsReady(c.w, me)
      ensures result == Done && !volume.deleting ==> path in c.w.volumes && c.w.volumes[path].owner == me
      ensures result == Done && !volume.deleting && copy.Some? ==>
                && Grown(c.w, path, copy.value)
                && (volume.spec.size.Some? ==> c.w.volumes[path].bytes == Asking(volume.spec.size.value))
      ensures c.alone && result == Done && !volume.deleting && copy.None? ==>
                MadeFor(old(c.w), volume.spec, c.w.volumes[path])
      ensures c.alone && !volume.deleting && copy.Some? && !Outgrown(volume.spec, copy.value.bytes) ==>
                && c.hostCalls == old(c.hostCalls)
                && (path in old(c.w.volumes) ==> path in c.w.volumes && c.w.volumes[path] == old(c.w.volumes)[path])
      ensures c.alone && !volume.deleting && copy.Some?
              && (result == Done || (c.sure && old(Current(c.w, me, volume.version)))) ==>
                Adjusted(old(c.w), me, volume.spec, path, copy.value, old(c.hostCalls), c.hostCalls, result)
      ensures c.alone && volume.deleting && volume.finalizer
              && (result == Done || (c.sure && old(Current(c.w, me, volume.version)))) ==>
                Departs(old(c.w), c.w, me, path, copy.Some?, old(c.hostCalls), c.hostCalls, result)
      ensures c.alone && !volume.deleting && copy.None?
              && (result == Done || (c.sure && old(Current(c.w, me, volume.version)))) ==>
                Made(old(c.w), c.w, me, volume.ready, volume.spec, path, old(c.hostCalls), c.hostCalls, true, result)
      ensures c.alone && copy.Some? && !volume.deleting && volume.ready && volume.finalizer ==>
                c.w.objs == old(c.w.objs)
      ensures c.sure && old(Current(c.w, me, volume.version)) && Unblocked(old(c.w), me, volume, path, copy) ==>
                result == Done
      ensures c.alone && result == Done && volume.deleting && volume.finalizer ==> me !in c.w.objs
      ensures result == Done ==> c.missed == old(c.missed)
    {
      if volume.deleting {
        if !volume.finalizer { return Done; }
        result := Dismiss(c, me, volume, path, copy);
        return;
      }
      if copy.Some? {
        result := Keep(me, volume, path, copy.value);
      } else {
        result := Fill(me, volume, path);
      }
    }

    /** A volume that is not being deleted and exists on its host. */
    method Keep(me: Key, volume: Object, path: Path, copy: Volume) returns (result: Outcome)
      requires c.Valid() && me.Vol? && Entered(c.w, me, volume, path, Some(copy)) && volume.spec.VolumeSpec?
      requires !volume.deleting
      modifies c
      ensures c.Valid()
      ensures c.alone ==> Tidy(me, old(c.w), c.w)
      ensures c.alone && result == Done ==> IsReady(c.w, me)
      ensures result == Done ==>
                && path in c.w.volumes && c.w.volumes[path].owner == me && Grown(c.w, path, copy)
                && (volume.spec.size.Some? ==> c.w.volumes[path].bytes == Asking(volume.spec.size.value))
      ensures c.alone && !Outgrown(volume.spec, copy.bytes) ==>
                && c.hostCalls == old(c.hostCalls)
                && (path in old(c.w.volumes) ==> path in c.w.volumes && c.w.volumes[path] == old(c.w.volumes)[path])
      ensures c.alone && (result == Done || (c.sure && old(Current(c.w, me, volume.version)))) ==>
                Adjusted(old(c.w), me, volume.spec, path, copy, old(c.hostCalls), c.hostCalls, result)
      ensures c.alone && volume.ready && volume.finalizer ==> c.w.objs == old(c.w.objs)
      ensures c.sure && old(Current(c.w, me, volume.version)) && Unblocked(old(c.w), me, volume, path, Some(copy)) ==>
                result == Done
      ensures result == Done ==> c.missed == old(c.missed)
    {
      ghost var w0 := c.w;
      var ok, o := Finalize(c, me, volume);
      if !ok { return Failed(CallFailed); }
      assert Placed(c.w, o, path) && CopyIs(c.w, me, path, Some(copy));
      if c.alone && Unblocked(w0, me, volume, path, Some(copy)) {
        UnblockedKept(w0, c.w, me, volume, o, path, Some(copy));
      }
      ghost var w1 := c.w;
      result := Existing(me, o, path, copy);
      if c.alone {
        TidyAfter(me, w0, w1, c.w);
        if result == Done || (c.sure && old(Current(c.w, me, volume.version))) {
          AdjustedFrom(w0, w1, me, volume.spec, path, copy, old(c.hostCalls), c.hostCalls, result);
        }
      }
    }

    /** A volume that is not being deleted and has no copy yet. */
    method Fill(me: Key, volume: Object, path: Path) returns (result: Outcome)
      requires c.Valid() && me.Vol? && Entered(c.w, me, volume, path, None) && volume.spec.VolumeSpec?
      requires !volume.deleting
      modifies c
      ensures c.Valid()
      ensures c.alone ==> Tidy(me, old(c.w), c.w)
      ensures result == Done ==> IsReady(c.w, me) && path in c.w.volumes && c.w.volumes[path].owner == me
      ensures c.alone && result == Done ==> MadeFor(old(c.w), volume.spec, c.w.volumes[path])
      ensures c.alone && (result == Done || (c.sure && old(Current(c.w, me, volume.version)))) ==>
                Made(old(c.w), c.w, me, volume.ready, volume.spec, path, old(c.hostCalls), c.hostCalls, true, result)
      ensures c.sure && old(Current(c.w, me, volume.version)) && Unblocked(old(c.w), me, volume, path, None) ==>
                result == Done
      ensures result == Done ==> c.missed == old(c.missed)
    {
      ghost var w0 := c.w;
      var ok, o := Finalize(c, me, volume);
      if !ok { return Failed(CallFailed); }
      assert Placed(c.w, o, path) && CopyIs(c.w, me, path, None);
      if c.alone && Unblocked(w0, me, volume, path, None) { UnblockedKept(w0, c.w, me, volume, o, path, None); }
      ghost var w1 := c.w;
      result := Create(me, o, path);
      if c.alone {
        TidyAfter(me, w0, w1, c.w);
        if result == Done || (c.sure && old(Current(c.w, me, volume.version))) {
          MadeFrom(w0, w1, c.w, me, volume.ready, volume.spec, path, old(c.hostCalls), c.hostCalls, result);
        }
      }
      if result == Failed(BackingStoreNotCreated) { result := Requeue; }
    }
  }

  lemma OnlyOne(keys: set<Key>, k: Key)
    requires |keys| <= 1 && k in keys
    ensures keys == {k}
  {
    assert |keys - {k}| == 0;
  }

  /** A larger size is asked for than `bytes`. */
  predicate Outgrown(spec: Spec, bytes: nat) {
    spec.VolumeSpec? && spec.size.Some? && ResizeRequired(bytes, spec.size.value.value, spec.size.value.unit) == Grows
  }

  /** The object is stored and not being deleted. */
  predicate Asked(w: World, me: Key) {
    me in w.objs && w.objs[me].spec.VolumeSpec? && !w.objs[me].deleting
  }

  /** There is a copy, and it is reported. */
  predicate Reported(w: World, me: Key) {
    Asked(w, me) && Present(w, me) && w.objs[me].ready && w.objs[me].finalizer
  }

  /** There is a copy, and no larger one is asked for. */
  predicate Settled(w: World, me: Key) {
    Asked(w, me) && Present(w, me) && !Outgrown(w.objs[me].spec, w.volumes[PathOf(w, me).value].bytes)
  }

  /** What the spec stored in `w` asks for is what there is in `n`: the copy that was there, grown to the size asked
   *  for, or a new one. A volume with a source is filled by the reconcile if and only if it had no copy before. */
  ghost predicate Fulfilled(w: World, n: World, me: Key) {
    Asked(w, me) ==>
      && IsReady(n, me) && PathOf(w, me).Some?
      && var spec, p := w.objs[me].spec, PathOf(w, me).value;
      && p in n.volumes && n.volumes[p].owner == me
      && (if Present(w, me) then
            && SameVolume(w.volumes[p], n.volumes[p]) && n.volumes[p].filled == w.volumes[p].filled
            && n.volumes[p].bytes == (if spec.size.Some? then Asking(spec.size.value) else w.volumes[p].bytes)
          else MadeFor(w, spec, n.volumes[p]))
  }

  /** After a successful reconcile there is nothing to be done, and the next one makes no call that changes the host;
   *  only a volume that has just been downloaded may still have to grow. */
  lemma DoneIsSettled(w: World, n: World, me: Key)
    requires SameWishes(w, n) && me.Vol? && Asked(w, me) && Fulfilled(w, n, me)
    ensures Settled(n, me) <==> (w.objs[me].spec.remote && !Present(w, me) ==>
                                   !Outgrown(w.objs[me].spec, n.volumes[PathOf(w, me).value].bytes))
  {
    assert PathOf(n, me) == PathOf(w, me);
  }

  /** A successful reconcile of a volume with a source has filled the copy itself if and only if there was none before;
   *  a copy it found is as filled, or not, as it was. */
  lemma FilledExactly(w: World, n: World, me: Key)
    requires Asked(w, me) && w.objs[me].spec.remote && Fulfilled(w, n, me)
    ensures var p := PathOf(w, me).value;
            && ((n.volumes[p].filled && !(Present(w, me) && w.volumes[p].filled)) <==> !Present(w, me))
            && (Present(w, me) ==> (n.volumes[p].filled <==> w.volumes[p].filled))
  {
  }
}
