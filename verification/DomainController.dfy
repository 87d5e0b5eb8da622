/** DomainReconciler of internal/controller/domain.go, with Shutdown of internal/action/domain.go. */
module DomainController {
  import opened Common
  import opened Protocol
  import opened Preservation
  import opened Interference
  import opened Calls
  import opened Storage

  /** What one DomainGetState reports; an error never reports a power state. */
  datatype Read = Saw(power: Power) | ReadError

  const RETRIES: nat := 30

  /** Whether the host holds a domain of `me`. */
  ghost predicate SeatIs(w: World, me: Key, seat: Seat, there: bool) {
    if there then seat in w.domains && w.domains[seat].owner == me
    else forall s :: s in w.domains ==> w.domains[s].owner != me
  }

  ghost predicate Owning(w: World, me: Key, o: Object, seat: Seat) {
    && Snapshot(w, me, o) && o.finalizer && o.spec.DomainSpec?
    && seat == Seat(o.spec.host, o.spec.name) && SeatIs(w, me, seat, true)
  }

  lemma OwningKept(me: Key, w: World, n: World, o: Object, seat: Seat)
    requires Owning(w, me, o, seat) && Unmoved(me, w, n)
    ensures Owning(n, me, o, seat)
    ensures me in w.seen ==> me in n.seen && n.seen[me] == w.seen[me]
  {
  }

  lemma SeatKnown(w: World, me: Key, o: Object)
    requires me.Dom? && Snapshot(w, me, o) && o.spec.DomainSpec? && Alive(w, me, o)
    ensures SeatOf(w, me) == Some(Seat(o.spec.host, o.spec.name))
  {
    assert Core(w.objs[me].spec) == Core(o.spec);
  }

  lemma FoundSeat(w: World, me: Key, o: Object, seat: Seat)
    requires Inv(w) && me.Dom? && Snapshot(w, me, o) && o.spec.DomainSpec? && Alive(w, me, o)
    requires seat == Seat(o.spec.host, o.spec.name)
    ensures SeatIs(w, me, seat, seat in w.domains)
  {
    SeatKnown(w, me, o);
    if seat in w.domains { SeatedAt(w, me); }
  }

  lemma FreeSeat(w: World, me: Key, o: Object, seat: Seat)
    requires Inv(w) && me.Dom? && Snapshot(w, me, o) && o.spec.DomainSpec? && o.finalizer
    requires seat == Seat(o.spec.host, o.spec.name) && SeatIs(w, me, seat, false)
    ensures SeatOf(w, me) == Some(seat) && seat !in w.domains
  {
    SeatKnown(w, me, o);
    if seat in w.domains { SeatedAt(w, me); }
  }

  /** Only the power of one domain has moved. */
  ghost predicate Powered(w: World, n: World, seat: Seat) {
    && n.volumes == w.volumes && n.bound == w.bound && n.offers == w.offers && n.objs == w.objs
    && n.attaching == w.attaching && n.windows == w.windows && n.overlapped == w.overlapped
    && n.domains.Keys == w.domains.Keys
    && (forall s :: s in w.domains ==>
          n.domains[s].owner == w.domains[s].owner && n.domains[s].disks == w.domains[s].disks)
    && (forall s :: s in w.domains && s != seat ==> n.domains[s] == w.domains[s])
  }

  lemma PowerMoves(w: World, me: Key, o: Object, seat: Seat, power: Power)
    requires Owning(w, me, o, seat)
    ensures Enabled(w, PowerChange(seat, power))
    ensures var n := Apply(w, PowerChange(seat, power)); Powered(w, n, seat) && Owning(n, me, o, seat)
  {
  }

  lemma PoweredChain(w: World, m: World, n: World, seat: Seat)
    requires Powered(w, m, seat) && Powered(m, n, seat)
    ensures Powered(w, n, seat)
  {
  }

  lemma PoweredTidy(me: Key, w: World, m: World, n: World, seat: Seat)
    requires Undisturbed(me, w, m) && Powered(m, n, seat)
    ensures Tidy(me, w, n) && n.volumes == w.volumes
  {
  }

  lemma PoweredAfter(me: Key, w: World, m: World, n: World, seat: Seat)
    requires Tidy(me, w, m) && Powered(m, n, seat)
    ensures Tidy(me, w, n) && n.volumes == m.volumes
  {
  }

  lemma Calm(me: Key, w: World)
    ensures Undisturbed(me, w, w)
  {
  }

  /** The last state the reconcile observed is Shutoff, and it still is. */
  ghost predicate Off(w: World, me: Key, seat: Seat) {
    me in w.seen && w.seen[me] == Shutoff && seat in w.domains && w.domains[seat].power == Shutoff
  }

  predicate On(r: Read) { r.Saw? && r.power != Shutoff }

  /** Only the last poll may have ended the wait. */
  predicate Waiting(polls: seq<Read>) {
    0 < |polls| && forall i :: 0 <= i < |polls| - 1 ==> On(polls[i])
  }

  /** What a sequence of polls means: it ends at the first poll that is not a guest still on, or with the last retry. */
  ghost predicate Verdict(polls: seq<Read>, error: Option<Error>) {
    && |polls| <= RETRIES + 1 && Waiting(polls)
    && match polls[|polls| - 1]
       case ReadError => error == Some(CallFailed)
       case Saw(p) => if p == Shutoff then error.None? else |polls| == RETRIES + 1 && error == Some(ShutdownTimedOut)
  }

  /** What `after` adds to `before` are the looks taken after a request to shut down: all but the last saw the guest
   *  on, and the reconcile ends well if the last one did not, else with the last retry. */
  predicate Followed(before: seq<Power>, after: seq<Power>, result: Outcome) {
    && |before| < |after| <= |before| + RETRIES + 1 && after[..|before|] == before
    && (forall i :: |before| <= i < |after| - 1 ==> after[i] != Shutoff)
    && if after[|after| - 1] == Shutoff then result == Done
       else |after| == |before| + RETRIES + 1 && result == Failed(ShutdownTimedOut)
  }

  /** What the polls have seen, in order. */
  function Powers(polls: seq<Read>): (seen: seq<Power>)
    ensures |seen| <= |polls|
    decreases |polls|
  {
    if polls == [] then [] else
    var last, rest := polls[|polls| - 1], polls[..|polls| - 1];
    Powers(rest) + (if last.Saw? then [last.power] else [])
  }

  lemma OnePoll(last: Read)
    ensures Waiting([last]) && Powers([last]) == (if last.Saw? then [last.power] else [])
  {
    assert [last][..0] == [];
  }

  lemma {:induction false} PowersAt(polls: seq<Read>, i: nat)
    requires |Powers(polls)| == |polls| && i < |polls|
    ensures polls[i] == Saw(Powers(polls)[i])
    decreases |polls|
  {
    if i < |polls| - 1 { PowersAt(polls[..|polls| - 1], i); }
  }

  lemma NextWaiting(polls: seq<Read>, last: Read)
    requires Waiting(polls) && On(polls[|polls| - 1])
    ensures Waiting(polls + [last])
  {
  }

  lemma NextPowers(polls: seq<Read>, last: Read)
    ensures Powers(polls + [last]) == Powers(polls) + (if last.Saw? then [last.power] else [])
  {
    assert (polls + [last])[..|polls|] == polls;
  }

  lemma {:induction false} AllSeen(polls: seq<Read>)
    requires Waiting(polls) && polls[|polls| - 1].Saw?
    ensures |Powers(polls)| == |polls|
    decreases |polls|
  {
    if |polls| > 1 { AllSeen(polls[..|polls| - 1]); }
  }

  lemma Decided(before: seq<Power>, polls: seq<Read>, error: Option<Error>)
    requires Verdict(polls, error) && |Powers(polls)| == |polls|
    ensures Followed(before, before + Powers(polls), Outcomes(error))
  {
    var seen := Powers(polls);
    forall i | 0 <= i < |polls|
      ensures polls[i] == Saw(seen[i])
    {
      PowersAt(polls, i);
    }
  }

  function Outcomes(error: Option<Error>): Outcome {
    match error
    case None => Done
    case Some(e) => Failed(e)
  }

  /** The domain is on and has to go off: the spec asks for it, or it is being deleted. */
  predicate MustGoOff(w: World, me: Key) {
    && SeatOf(w, me).Some? && SeatOf(w, me).value in w.domains && w.domains[SeatOf(w, me).value].power != Shutoff
    && w.objs[me].spec.DomainSpec? && (if w.objs[me].deleting then w.objs[me].finalizer else w.objs[me].spec.shutoff)
  }

  /** What the reconcile has learned about its domain holds as long as its object is the one it read. */
  ghost predicate Known(w: World, me: Key, o: Object, seat: Seat, read: Option<Power>) {
    Alive(w, me, o) ==> SeatIs(w, me, seat, read.Some?) && (read.Some? ==> me in w.seen && w.seen[me] == read.value)
  }

  lemma KnownKept(me: Key, w: World, n: World, o: Object, seat: Seat, read: Option<Power>)
    requires Known(w, me, o, seat, read) && Snapshot(w, me, o) && Unmoved(me, w, n)
    ensures Known(n, me, o, seat, read)
  {
    assert Alive(n, me, o) ==> Alive(w, me, o);
  }

  predicate Named(o: Object, seat: Seat) {
    o.spec.DomainSpec? && seat == Seat(o.spec.host, o.spec.name)
  }

  /** Everything read before the reconciler decides what to do. */
  ghost predicate Looked(w: World, me: Key, o: Object, seat: Seat, read: Option<Power>) {
    && Snapshot(w, me, o) && Named(o, seat) && Known(w, me, o, seat, read)
    && Deleting(me) !in w.windows && Resizing(me) !in w.windows
  }

  /** The part of it that is known before the host is asked. */
  ghost predicate Approached(w: World, me: Key, o: Object) {
    Snapshot(w, me, o) && o.spec.DomainSpec? && Deleting(me) !in w.windows && Resizing(me) !in w.windows
  }

  // ---------- the definition under construction ----------

  /** The definition's disks so far are secured one by one, and there is one for each of `done` that can have one. */
  ghost predicate Building(w: World, me: Key, o: Object, seat: Seat, disks: seq<Link>, done: set<Key>) {
    && Snapshot(w, me, o) && o.finalizer && Named(o, seat) && SeatIs(w, me, seat, false)
    && Deleting(me) !in w.windows && Resizing(me) !in w.windows
    && (forall l :: l in disks ==> l.ref in References(o.spec) && l.path.place.host == o.spec.host && Secured(w, me, l))
    && (forall k :: k in done ==> Served(w, me, disks, k))
  }

  /** The volume has been looked up for the definition, and has become a disk of it if it can. */
  ghost predicate Served(w: World, me: Key, disks: seq<Link>, key: Key) {
    (Deleting(key) !in w.overlapped ==> Holds(w, me, key)) && Carried(w.volumes, w.overlapped, disks, key)
  }

  lemma ServedKept(me: Key, w: World, n: World, disks: seq<Link>, key: Key)
    requires Served(w, me, disks, key) && Onward(me, w, n)
    ensures Served(n, me, disks, key)
  {
    if Unattachable(w.volumes, key) && Deleting(key) !in n.overlapped {
      var p :| p in w.volumes && w.volumes[p].owner == key && w.volumes[p].kind == OtherKind;
      assert p in n.volumes && SameVolume(w.volumes[p], n.volumes[p]);
    }
  }

  function Among(keys: seq<Key>): set<Key> { set k | k in keys }

  /** A volume, cloud-init or device on the host that may be labelled. */
  predicate Referable(w: World, me: Key, r: Key, host: string) {
    && Touches(w, me, r)
    && (Deleting(r) !in w.overlapped ==>
          && r in w.objs && w.objs[r].finalizer
          && (IsStorage(r) ==> Holds(w, me, r) && PathOf(w, r).Some? && PathOf(w, r).value.place.host == host)
          && (IsDevice(r) ==> w.objs[r].spec.DeviceSpec? && w.objs[r].spec.host == host))
  }

  /** The disks a definition gets for the volumes `keys`: one each, in order, except for what is neither a file nor a
   *  block device. */
  ghost predicate Chosen(volumes: Volumes, keys: seq<Key>, disks: seq<Link>)
    decreases |keys|
  {
    if keys == [] then disks == [] else
    var key, rest := keys[|keys| - 1], keys[..|keys| - 1];
    if disks != [] && disks[|disks| - 1].ref == key && Carries(volumes, disks[|disks| - 1])
    then Chosen(volumes, rest, disks[..|disks| - 1])
    else Chosen(volumes, rest, disks) && Unattachable(volumes, key)
  }

  predicate Carries(volumes: Volumes, l: Link) {
    l.path in volumes && volumes[l.path].owner == l.ref && volumes[l.path].kind != OtherKind
  }

  /** `more` is what the volume `key` adds to `disks`. */
  predicate Adds(volumes: Volumes, disks: seq<Link>, key: Key, more: seq<Link>) {
    if Unattachable(volumes, key) then more == disks
    else
      && |more| == |disks| + 1 && more[..|disks|] == disks
      && more[|disks|].ref == key && Carries(volumes, more[|disks|])
  }

  lemma ChosenAdds(w: World, keys: seq<Key>, disks: seq<Link>, key: Key, more: seq<Link>)
    requires NoOrphans(w.objs, w.bound, w.volumes, w.domains)
    requires Chosen(w.volumes, keys, disks) && Adds(w.volumes, disks, key, more)
    ensures Chosen(w.volumes, keys + [key], more)
  {
    assert (keys + [key])[..|keys|] == keys;
    if Unattachable(w.volumes, key) {
      var p :| p in w.volumes && w.volumes[p].owner == key && w.volumes[p].kind == OtherKind;
      assert PathIn(w.objs, w.bound, key) == Some(p);
      assert forall l: Link :: l.ref == key ==> !Carries(w.volumes, l);
    }
  }

  lemma OnlyCopyKind(w: World, key: Key, p: Path)
    requires NoOrphans(w.objs, w.bound, w.volumes, w.domains) && p in w.volumes && w.volumes[p].owner == key
    ensures Unattachable(w.volumes, key) <==> w.volumes[p].kind == OtherKind
  {
    assert forall q :: q in w.volumes && w.volumes[q].owner == key ==> PathIn(w.objs, w.bound, key) == Some(q);
  }

  /** The volumes a definition attaches: the disks of the spec and then the cloud-init. */
  function DiskKeys(spec: Spec): (keys: seq<Key>)
    requires spec.DomainSpec?
    ensures forall k :: k in keys ==> IsStorage(k)
  {
    seq(|spec.disks|, i requires 0 <= i < |spec.disks| => Vol(spec.disks[i]))
    + (if spec.cloudInit.Some? then [Ci(spec.cloudInit.value)] else [])
  }

  /** The labels of the first `n` disks are stored. */
  predicate FirstLabelled(o: Object, n: nat) {
    o.spec.DomainSpec? && n <= |o.spec.disks| && forall j :: 0 <= j < n ==> Vol(o.spec.disks[j]) in o.labels
  }

  lemma NoInit(spec: Spec)
    requires spec.DomainSpec? && spec.cloudInit.None?
    ensures DiskKeys(spec) == DiskKeys(spec.(cloudInit := None)) && InitKeys(spec) == []
  {
  }

  /** The cloud-init comes after the disks. */
  lemma InitLast(w: World, spec: Spec)
    requires spec.DomainSpec? && spec.cloudInit.Some?
    ensures var keys, key := DiskKeys(spec.(cloudInit := None)), Ci(spec.cloudInit.value);
            && DiskKeys(spec) == keys + [key] && Among(DiskKeys(spec)) == Among(keys) + {key}
            && FirstFault(w, InitKeys(spec), spec.host) == Fault(w, key, spec.host) && key in References(spec)
  {
    assert InitKeys(spec)[1..] == [];
  }

  function DeviceKey(name: string, pci: bool): Key { if pci then Pci(name) else Net(name) }

  function Devices(spec: Spec, pci: bool): seq<string>
    requires spec.DomainSpec?
  {
    if pci then spec.pcis else spec.nets
  }

  /** The labels of the first `n` devices are stored. */
  predicate DevicesLabelled(o: Object, pci: bool, n: nat) {
    && o.spec.DomainSpec? && n <= |Devices(o.spec, pci)|
    && forall j :: 0 <= j < n ==> DeviceKey(Devices(o.spec, pci)[j], pci) in o.labels
  }

  function DeviceKeys(spec: Spec, pci: bool): (keys: seq<Key>)
    requires spec.DomainSpec?
    ensures forall k :: k in keys ==> IsDevice(k)
  {
    seq(|Devices(spec, pci)|, i requires 0 <= i < |Devices(spec, pci)| => DeviceKey(Devices(spec, pci)[i], pci))
  }

  function AllDeviceKeys(spec: Spec): (keys: seq<Key>)
    requires spec.DomainSpec?
    ensures forall k :: k in keys ==> IsDevice(k)
  {
    DeviceKeys(spec, false) + DeviceKeys(spec, true)
  }

  function InitKeys(spec: Spec): (keys: seq<Key>)
    requires spec.DomainSpec?
    ensures forall k :: k in keys ==> k.Ci?
  {
    if spec.cloudInit.Some? then [Ci(spec.cloudInit.value)] else []
  }

  /** All a definition needs, in the order in which it is looked at. */
  function Needs(spec: Spec): (keys: seq<Key>)
    requires spec.DomainSpec?
    ensures forall k :: k in keys ==> !k.Dom?
  {
    DiskKeys(spec.(cloudInit := None)) + (AllDeviceKeys(spec) + InitKeys(spec))
  }

  /** What keeps a domain on `host` from referring to `key`, as the outcome of its reconcile. */
  function Fault(w: World, key: Key, host: string): Option<Outcome> {
    if key !in w.objs then Some(Failed(NotFound))
    else if IsDevice(key) then DeviceFault(w.objs[key], host)
    else CopyFault(w, w.objs[key], host)
  }

  function DeviceFault(o: Object, host: string): Option<Outcome> {
    if !o.spec.DeviceSpec? || o.spec.host != host then Some(Failed(DeviceNotSameHost))
    else if !o.ready then Some(Requeue)
    else None
  }

  function CopyFault(w: World, o: Object, host: string): Option<Outcome> {
    if !o.ready then Some(Requeue)
    else if !(o.spec.VolumeSpec? || o.spec.CloudInitSpec?) || o.place.None? || o.place.value.host != host
    then Some(Failed(VolumeNotSameHost))
    else if Path(o.place.value, o.spec.name) !in w.volumes then Some(Failed(NotFound))
    else None
  }

  /** The first of them. */
  function FirstFault(w: World, keys: seq<Key>, host: string): Option<Outcome>
    decreases |keys|
  {
    if keys == [] then None
    else if Fault(w, keys[0], host).Some? then Fault(w, keys[0], host)
    else FirstFault(w, keys[1..], host)
  }

  lemma {:induction false} FirstFaultAt(w: World, keys: seq<Key>, i: nat, host: string)
    requires i < |keys| && forall j :: 0 <= j < i ==> Fault(w, keys[j], host).None?
    ensures Fault(w, keys[i], host).Some? ==> FirstFault(w, keys, host) == Fault(w, keys[i], host)
    decreases |keys|
  {
    if i > 0 { FirstFaultAt(w, keys[1..], i - 1, host); }
  }

  lemma {:induction false} NoFault(w: World, keys: seq<Key>, host: string)
    ensures FirstFault(w, keys, host).None? <==> forall k :: k in keys ==> Fault(w, k, host).None?
    ensures FirstFault(w, keys, host) != Some(Done)
    decreases |keys|
  {
    if keys != [] { NoFault(w, keys[1..], host); }
  }

  lemma {:induction false} FaultsInTurn(w: World, keys: seq<Key>, more: seq<Key>, host: string)
    ensures FirstFault(w, keys + more, host) ==
              if FirstFault(w, keys, host).Some? then FirstFault(w, keys, host) else FirstFault(w, more, host)
    decreases |keys|
  {
    if keys == [] {
      assert keys + more == more;
    } else {
      FaultsInTurn(w, keys[1..], more, host);
      assert (keys + more)[1..] == keys[1..] + more;
    }
  }

  lemma NeedsInTurn(w: World, spec: Spec)
    requires spec.DomainSpec?
    ensures var disks := FirstFault(w, DiskKeys(spec.(cloudInit := None)), spec.host);
            var devices := FirstFault(w, AllDeviceKeys(spec), spec.host);
            var init := FirstFault(w, InitKeys(spec), spec.host);
            FirstFault(w, Needs(spec), spec.host) ==
              if disks.Some? then disks else if devices.Some? then devices else init
  {
    FaultsInTurn(w, DiskKeys(spec.(cloudInit := None)), AllDeviceKeys(spec) + InitKeys(spec), spec.host);
    FaultsInTurn(w, AllDeviceKeys(spec), InitKeys(spec), spec.host);
  }

  /** After the first `i` keys without a fault, the next one decides. */
  lemma FaultNext(w: World, keys: seq<Key>, i: nat, host: string)
    requires i < |keys| && FirstFault(w, keys[..i], host).None?
    ensures FirstFault(w, keys[..i + 1], host) == Fault(w, keys[i], host)
    ensures Fault(w, keys[i], host).Some? ==> FirstFault(w, keys, host) == Fault(w, keys[i], host)
  {
    FaultsInTurn(w, keys[..i], [keys[i]], host);
    assert keys[..i + 1] == keys[..i] + [keys[i]];
    assert [keys[i]][1..] == [];
    FaultsInTurn(w, keys[..i + 1], keys[i + 1..], host);
    assert keys == keys[..i + 1] + keys[i + 1..];
  }

  lemma {:induction false} FirstFaultKept(me: Key, w: World, n: World, keys: seq<Key>, host: string)
    requires me.Dom? && SameOthers(me, w, n) && n.volumes == w.volumes && (forall k :: k in keys ==> !k.Dom?)
    ensures FirstFault(n, keys, host) == FirstFault(w, keys, host)
    decreases |keys|
  {
    if keys != [] {
      OtherSame(me, w, n, keys[0]);
      FirstFaultKept(me, w, n, keys[1..], host);
    }
  }

  lemma FaultKept(me: Key, w: World, n: World, key: Key, host: string)
    requires me.Dom? && SameOthers(me, w, n) && n.volumes == w.volumes && !key.Dom?
    ensures Fault(n, key, host) == Fault(w, key, host)
  {
    OtherSame(me, w, n, key);
  }

  /** Everything the spec lists is stored, on the domain's host, and ready. */
  predicate AllThere(w: World, spec: Spec)
    requires spec.DomainSpec?
  {
    && (forall n :: n in spec.nets ==>
          Net(n) in w.objs && w.objs[Net(n)].spec.DeviceSpec? && w.objs[Net(n)].spec.host == spec.host
          && w.objs[Net(n)].ready)
    && (forall n :: n in spec.pcis ==>
          Pci(n) in w.objs && w.objs[Pci(n)].spec.DeviceSpec? && w.objs[Pci(n)].spec.host == spec.host
          && w.objs[Pci(n)].ready)
    && (forall n :: n in spec.disks ==>
          Vol(n) in w.objs && w.objs[Vol(n)].ready && w.objs[Vol(n)].place.Some?
          && w.objs[Vol(n)].place.value.host == spec.host)
    && (spec.cloudInit.Some? ==>
          var k := Ci(spec.cloudInit.value);
          k in w.objs && w.objs[k].ready && w.objs[k].place.Some? && w.objs[k].place.value.host == spec.host)
  }

  lemma NeedsAll(spec: Spec)
    requires spec.DomainSpec?
    ensures forall n :: n in spec.nets ==> Net(n) in Needs(spec)
    ensures forall n :: n in spec.pcis ==> Pci(n) in Needs(spec)
    ensures forall n :: n in spec.disks ==> Vol(n) in Needs(spec)
    ensures spec.cloudInit.Some? ==> Ci(spec.cloudInit.value) in Needs(spec)
  {
    forall n | n in spec.nets ensures Net(n) in Needs(spec) {
      var i :| 0 <= i < |spec.nets| && spec.nets[i] == n;
      assert DeviceKeys(spec, false)[i] == Net(n);
    }
    forall n | n in spec.pcis ensures Pci(n) in Needs(spec) {
      var i :| 0 <= i < |spec.pcis| && spec.pcis[i] == n;
      assert DeviceKeys(spec, true)[i] == Pci(n);
    }
    forall n | n in spec.disks ensures Vol(n) in Needs(spec) {
      var i :| 0 <= i < |spec.disks| && spec.disks[i] == n;
      assert DiskKeys(spec.(cloudInit := None))[i] == Vol(n);
    }
    if spec.cloudInit.Some? { assert Ci(spec.cloudInit.value) in InitKeys(spec); }
  }

  lemma FaultlessThere(w: World, spec: Spec)
    requires spec.DomainSpec? && FirstFault(w, Needs(spec), spec.host).None?
    ensures AllThere(w, spec)
  {
    NoFault(w, Needs(spec), spec.host);
    NeedsAll(spec);
  }

  lemma Thereafter(me: Key, w: World, n: World, spec: Spec)
    requires me.Dom? && spec.DomainSpec? && SameOthers(me, w, n) && FirstFault(w, Needs(spec), spec.host).None?
    ensures AllThere(n, spec)
  {
    FaultlessThere(w, spec);
    forall k: Key | k != me && k in w.objs
      ensures k in n.objs && n.objs[k] == w.objs[k]
    {
      OtherSame(me, w, n, k);
    }
  }

  lemma AllLabelled(o: Object)
    requires o.spec.DomainSpec? && forall n :: n in o.spec.disks ==> Vol(n) in o.labels
    requires DevicesLabelled(o, false, |o.spec.nets|) && DevicesLabelled(o, true, |o.spec.pcis|)
    requires o.spec.cloudInit.Some? ==> Ci(o.spec.cloudInit.value) in o.labels
    ensures References(o.spec) <= o.labels
  {
    forall r | r in References(o.spec)
      ensures r in o.labels
    {
      if r.Net? { assert DeviceKey(r.name, false) in o.labels; }
      if r.Pci? { assert DeviceKey(r.name, true) in o.labels; }
    }
  }

  /** With everything the spec lists looked up, the definition is complete. */
  lemma Provided(w: World, me: Key, o: Object, seat: Seat, disks: seq<Link>)
    requires o.spec.DomainSpec? && Building(w, me, o, seat, disks, Among(DiskKeys(o.spec)))
    ensures Equipped(w.volumes, w.overlapped, disks, o.spec)
  {
    forall r | r in References(o.spec) && IsStorage(r)
      ensures Carried(w.volumes, w.overlapped, disks, r)
    {
      if r.Vol? {
        var i :| 0 <= i < |o.spec.disks| && o.spec.disks[i] == r.name;
        assert DiskKeys(o.spec)[i] == r;
      } else {
        assert DiskKeys(o.spec)[|o.spec.disks|] == r;
      }
      assert r in Among(DiskKeys(o.spec));
      assert Served(w, me, disks, r);
    }
  }

  lemma BuildingKept(me: Key, w: World, n: World, o: Object, stored: Object, seat: Seat, disks: seq<Link>,
                     done: set<Key>)
    requires Building(w, me, o, seat, disks, done) && Onward(me, w, n)
    requires Snapshot(n, me, stored) && stored.finalizer && stored.spec == o.spec
    ensures Building(n, me, stored, seat, disks, done)
  {
    forall k | k in done
      ensures Served(n, me, disks, k)
    {
      ServedKept(me, w, n, disks, k);
    }
    forall l | l in disks
      ensures Secured(n, me, l)
    {
      SecuredKept(me, w, n, l);
    }
  }

  /** A looked-up volume becomes the next disk. */
  lemma Grow(w: World, me: Key, o: Object, seat: Seat, disks: seq<Link>, l: Link, done: set<Key>)
    requires Building(w, me, o, seat, disks, done) && Secured(w, me, l)
    requires l.ref in References(o.spec) && l.path.place.host == o.spec.host
    ensures Building(w, me, o, seat, disks + [l], done + {l.ref})
  {
    assert forall d :: d in disks ==> d in disks + [l];
    forall k | k in done + {l.ref}
      ensures Served(w, me, disks + [l], k)
    {
      if k in done { assert Served(w, me, disks, k); } else { assert l in disks + [l]; }
    }
  }

  /** How the creation of a domain ends: if something it needs is missing, elsewhere or not ready, nothing is asked of
   *  the host; if it succeeds, the domain has been defined with the disks its spec lists and then started, unless it is
   *  to stay off. */
  ghost predicate Defined(w: World, n: World, me: Key, o: Object, seat: Seat, before: seq<Event>, after: seq<Event>,
                          result: Outcome)
    requires o.spec.DomainSpec?
  {
    && (FirstFault(w, Needs(o.spec), o.spec.host).Some? ==>
          result != Done && n.domains == w.domains && after == before)
    && (result == Done ==>
          && seat in n.domains && (n.domains[seat].power == Shutoff <==> o.spec.shutoff)
          && Chosen(w.volumes, DiskKeys(o.spec), n.domains[seat].disks)
          && after == before + [Define(me, n.domains[seat].disks)] + (if o.spec.shutoff then [] else [Start(me)]))
  }

  lemma DefinedFrom(w: World, m: World, n: World, me: Key, domain: Object, o: Object, seat: Seat, before: seq<Event>,
                    after: seq<Event>, result: Outcome)
    requires o.spec.DomainSpec? && o.spec == domain.spec && m.volumes == w.volumes && m.domains == w.domains
    requires FirstFault(m, Needs(o.spec), o.spec.host) == FirstFault(w, Needs(o.spec), o.spec.host)
    requires Defined(m, n, me, o, seat, before, after, result)
    ensures Defined(w, n, me, domain, seat, before, after, result)
  {
  }

  class DomainReconciler {
    const c: Cluster

    constructor (c: Cluster)
      ensures this.c == c
    {
      this.c := c;
    }

    /** DomainGetState of a domain the reconcile owns. */
    method GetState(me: Key, o: Object, seat: Seat) returns (r: Read)
      requires c.Valid() && me.Dom? && Owning(c.w, me, o, seat)
      modifies c
      ensures c.Valid() && Owning(c.w, me, o, seat)
      ensures r.Saw? ==> me in c.w.seen && c.w.seen[me] == r.power && c.w.domains[seat].power == r.power
      ensures r == Saw(Shutoff) ==> Off(c.w, me, seat)
      ensures c.alone ==>
                Powered(old(c.w), c.w, seat) && c.w.domains == old(c.w.domains) && c.hostCalls == old(c.hostCalls)
      ensures c.alone ==> c.looks == old(c.looks) + (if r.Saw? then [r.power] else [])
      ensures c.sure ==> r.Saw?
      ensures r.Saw? ==> c.missed == old(c.missed)
    {
      ghost var w0 := c.w;
      var _, ok := c.Attempt(me);
      OwningKept(me, w0, c.w, o, seat);
      if !ok { return ReadError; }
      SeatKnown(c.w, me, o);
      c.Perform(Observe(me));
      r := Saw(c.w.domains[seat].power);
    }

    /** One second in which the guest, and everybody else, may do something. */
    method Sleep(me: Key, o: Object, seat: Seat)
      requires c.Valid() && me.Dom? && Owning(c.w, me, o, seat)
      modifies c
      ensures c.Valid() && Owning(c.w, me, o, seat)
      ensures c.alone ==> Powered(old(c.w), c.w, seat) && c.hostCalls == old(c.hostCalls) && c.looks == old(c.looks)
      ensures c.missed == old(c.missed)
    {
      ghost var w0 := c.w;
      c.Interfere(me);
      OwningKept(me, w0, c.w, o, seat);
      var reacts: bool, power: Power := *, *;
      if reacts {
        PowerMoves(c.w, me, o, seat, power);
        c.Perform(PowerChange(seat, power));
      }
    }

    /** What holds after each poll of a wait that began in `w0`. */
    ghost predicate Polled(me: Key, o: Object, seat: Seat, polls: seq<Read>, w0: World, calls: seq<Event>,
                           looks: seq<Power>, missed: nat)
      reads c
    {
      && c.Valid() && Owning(c.w, me, o, seat) && Waiting(polls)
      && (polls[|polls| - 1] == Saw(Shutoff) ==> Off(c.w, me, seat))
      && (c.alone ==> Powered(w0, c.w, seat) && c.hostCalls == calls && c.looks == looks + Powers(polls))
      && (c.sure ==> |Powers(polls)| == |polls|)
      && (|Powers(polls)| == |polls| ==> c.missed == missed)
    }

    /** The first poll. */
    method FirstPoll(me: Key, o: Object, seat: Seat) returns (last: Read)
      requires c.Valid() && me.Dom? && Owning(c.w, me, o, seat)
      modifies c
      ensures Polled(me, o, seat, [last], old(c.w), old(c.hostCalls), old(c.looks), old(c.missed))
    {
      last := GetState(me, o, seat);
      OnePoll(last);
    }

    /** A second's wait and the next poll. */
    method Poll(me: Key, o: Object, seat: Seat, polls: seq<Read>, ghost w0: World, ghost calls: seq<Event>,
                ghost looks: seq<Power>, ghost missed: nat)
      returns (last: Read)
      requires me.Dom? && Polled(me, o, seat, polls, w0, calls, looks, missed) && On(polls[|polls| - 1])
      modifies c
      ensures Polled(me, o, seat, polls + [last], w0, calls, looks, missed)
    {
      ghost var w1 := c.w;
      Sleep(me, o, seat);
      ghost var w2 := c.w;
      last := GetState(me, o, seat);
      NextWaiting(polls, last);
      NextPowers(polls, last);
      if c.alone {
        PoweredChain(w1, w2, c.w, seat);
        PoweredChain(w0, w1, c.w, seat);
      }
    }

    /** One host call for a domain the reconcile owns. */
    method Ask(me: Key, o: Object, seat: Seat) returns (reached: bool, ok: bool)
      requires c.Valid() && me.Dom? && Owning(c.w, me, o, seat)
      modifies c
      ensures c.Valid() && Owning(c.w, me, o, seat) && SeatOf(c.w, me) == Some(seat)
      ensures old(me in c.w.seen) ==> me in c.w.seen && c.w.seen[me] == old(c.w.seen)[me]
      ensures ok ==> reached
      ensures c.sure ==> ok
      ensures c.alone ==> c.w == old(c.w) && c.hostCalls == old(c.hostCalls) && c.looks == old(c.looks)
      ensures ok ==> c.missed == old(c.missed)
    {
      ghost var w0 := c.w;
      reached, ok := c.Attempt(me);
      OwningKept(me, w0, c.w, o, seat);
      SeatKnown(c.w, me, o);
    }

    /** The polling loop. `polls` is what they reported, in order. */
    method Await(me: Key, o: Object, seat: Seat) returns (error: Option<Error>, polls: seq<Read>, sleeps: nat)
      requires c.Valid() && me.Dom? && Owning(c.w, me, o, seat)
      modifies c
      ensures c.Valid() && Owning(c.w, me, o, seat)
      ensures Verdict(polls, error) && sleeps == |polls| - 1
      ensures error.None? ==> Off(c.w, me, seat)
      ensures c.sure ==> c.looks == old(c.looks) + Powers(polls) && |Powers(polls)| == |polls|
      ensures c.alone ==> Powered(old(c.w), c.w, seat) && c.hostCalls == old(c.hostCalls)
      ensures error.None? || error == Some(ShutdownTimedOut) ==> c.missed == old(c.missed)
    {
      var retry := 0;
      ghost var w0 := c.w;
      var last := FirstPoll(me, o, seat);
      polls, sleeps := [last], 0;
      while last != Saw(Shutoff)
        invariant Polled(me, o, seat, polls, w0, old(c.hostCalls), old(c.looks), old(c.missed))
        invariant retry <= RETRIES && sleeps == retry && |polls| == retry + 1 && polls[retry] == last
        decreases RETRIES - retry
      {
        if last.ReadError? { return Some(CallFailed), polls, sleeps; }
        AllSeen(polls);
        if retry == RETRIES { return Some(ShutdownTimedOut), polls, sleeps; }
        retry, sleeps := retry + 1, sleeps + 1;
        last := Poll(me, o, seat, polls, w0, old(c.hostCalls), old(c.looks), old(c.missed));
        polls := polls + [last];
      }
      AllSeen(polls);
      error := None;
    }

    /** DomainShutdown: the guest may have gone down by the time the call is answered. */
    method Request(me: Key, o: Object, seat: Seat) returns (ok: bool)
      requires c.Valid() && me.Dom? && Owning(c.w, me, o, seat)
      modifies c
      ensures c.Valid() && Owning(c.w, me, o, seat)
      ensures c.alone ==> Powered(old(c.w), c.w, seat) && c.looks == old(c.looks)
      ensures c.alone ==> c.hostCalls == old(c.hostCalls) || c.hostCalls == old(c.hostCalls) + [RequestShutdown(me)]
      ensures c.alone && ok ==> c.hostCalls == old(c.hostCalls) + [RequestShutdown(me)]
      ensures c.sure ==> ok
      ensures ok ==> c.missed == old(c.missed)
    {
      var reached;
      reached, ok := Ask(me, o, seat);
      if reached {
        c.Perform(RequestShutdown(me));
        var reacts: bool, power: Power := *, *;
        if reacts {
          PowerMoves(c.w, me, o, seat, power);
          c.Perform(PowerChange(seat, power));
        }
      }
    }

    /** Asks the guest to shut down and waits for it; a request that is refused is not followed by any poll. */
    method Shutdown(me: Key, o: Object, seat: Seat)
      returns (accepted: bool, error: Option<Error>, polls: seq<Read>, sleeps: nat)
      requires c.Valid() && me.Dom? && Owning(c.w, me, o, seat)
      modifies c
      ensures c.Valid() && Owning(c.w, me, o, seat)
      ensures accepted ==> Verdict(polls, error) && sleeps == |polls| - 1
      ensures !accepted ==> polls == [] && sleeps == 0 && error == Some(CallFailed)
      ensures error.None? ==> Off(c.w, me, seat)
      ensures c.alone ==> Powered(old(c.w), c.w, seat)
      ensures c.alone ==> c.hostCalls == old(c.hostCalls) || c.hostCalls == old(c.hostCalls) + [RequestShutdown(me)]
      ensures c.alone && accepted ==> c.hostCalls == old(c.hostCalls) + [RequestShutdown(me)]
      ensures c.sure ==> accepted && Followed(old(c.looks), c.looks, Outcomes(error))
      ensures error.None? || error == Some(ShutdownTimedOut) ==> c.missed == old(c.missed)
    {
      ghost var w0 := c.w;
      accepted := Request(me, o, seat);
      if !accepted { return false, Some(CallFailed), [], 0; }
      ghost var w1 := c.w;
      error, polls, sleeps := Await(me, o, seat);
      if c.alone { PoweredChain(w0, w1, c.w, seat); }
      if c.sure { Decided(old(c.looks), polls, error); }
    }

    // ---------- what is read first ----------

    /** DomainGetState of whatever sits there. */
    method Peek(me: Key, o: Object, seat: Seat) returns (ok: bool, power: Power)
      requires c.Valid() && me.Dom? && Approached(c.w, me, o) && Named(o, seat)
      modifies c
      ensures c.Valid()
      ensures ok ==> Looked(c.w, me, o, seat, Some(power))
      ensures c.alone ==> c.w == old(c.w).(seen := c.w.seen) && c.hostCalls == old(c.hostCalls)
      ensures c.alone && ok ==> seat in c.w.domains && power == c.w.domains[seat].power
      ensures c.alone && ok && SeatOf(c.w, me) == Some(seat) ==> c.looks == old(c.looks) + [power]
      ensures c.sure && seat in old(c.w.domains) ==> ok
      ensures ok ==> c.missed == old(c.missed)
    {
      power := Running;
      ghost var w0 := c.w;
      var reached;
      reached, ok := c.Attempt(me);
      SnapshotKept(me, w0, c.w, o);
      if !ok || seat !in c.w.domains { return false, power; }
      power := c.w.domains[seat].power;
      assert Alive(c.w, me, o) ==> SeatIs(c.w, me, seat, true) && SeatOf(c.w, me) == Some(seat) by {
        c.Sane();
        if Alive(c.w, me, o) { FoundSeat(c.w, me, o, seat); SeatKnown(c.w, me, o); }
      }
      if SeatOf(c.w, me) == Some(seat) { c.Perform(Observe(me)); }
    }

    /** DomainGetState and DomainGetXMLDesc. */
    method Inspect(me: Key, o: Object, seat: Seat) returns (ok: bool, power: Power)
      requires c.Valid() && me.Dom? && Approached(c.w, me, o) && Named(o, seat)
      modifies c
      ensures c.Valid()
      ensures ok ==> Looked(c.w, me, o, seat, Some(power))
      ensures c.alone ==> c.w == old(c.w).(seen := c.w.seen) && c.hostCalls == old(c.hostCalls)
      ensures c.alone && ok ==> seat in c.w.domains && power == c.w.domains[seat].power
      ensures c.alone && ok && SeatOf(c.w, me) == Some(seat) ==> c.looks == old(c.looks) + [power]
      ensures c.sure && seat in old(c.w.domains) ==> ok
      ensures ok ==> c.missed == old(c.missed)
    {
      ok, power := Peek(me, o, seat);
      if !ok { return; }
      ghost var w1 := c.w;
      var reached;
      reached, ok := c.Attempt(me);
      SnapshotKept(me, w1, c.w, o);
      KnownKept(me, w1, c.w, o, seat, Some(power));
    }

    /** NewDomainAction: looks the domain up, and its state and description if it is there. */
    method LookUpDomain(me: Key, o: Object, seat: Seat) returns (ok: bool, read: Option<Power>)
      requires c.Valid() && me.Dom? && Approached(c.w, me, o) && Named(o, seat)
      modifies c
      ensures c.Valid()
      ensures ok ==> Looked(c.w, me, o, seat, read)
      ensures c.alone ==> c.w == old(c.w).(seen := c.w.seen) && c.hostCalls == old(c.hostCalls)
      ensures c.alone && read.Some? && ok && SeatOf(c.w, me) == Some(seat) ==>
                c.looks == old(c.looks) + [read.value]
      ensures c.sure ==> ok
      ensures c.alone && ok ==> read == if seat in c.w.domains then Some(c.w.domains[seat].power) else None
      ensures ok ==> c.missed == old(c.missed)
    {
      ghost var w0 := c.w;
      read := None;
      var reached;
      reached, ok := c.Attempt(me);
      SnapshotKept(me, w0, c.w, o);
      if !ok { return; }
      if seat !in c.w.domains {
        assert Alive(c.w, me, o) ==> SeatIs(c.w, me, seat, false) by {
          c.Sane();
          if Alive(c.w, me, o) { FoundSeat(c.w, me, o, seat); }
        }
        return;
      }
      var power;
      ok, power := Inspect(me, o, seat);
      read := Some(power);
    }

    /** The object, its host and a session. */
    method Resolve(me: Key) returns (stop: Option<Outcome>, o: Object)
      requires c.Valid() && me.Dom? && Rested(c.w, me)
      modifies c
      ensures c.Valid()
      ensures stop.None? ==> Approached(c.w, me, o)
      ensures c.alone ==> Undisturbed(me, old(c.w), c.w) && c.hostCalls == old(c.hostCalls) && c.looks == old(c.looks)
      ensures c.alone && stop.None? ==> me in c.w.objs && o == c.w.objs[me] && c.w.objs == old(c.w.objs)
      ensures c.alone && stop.Some? && old(IsReady(c.w, me)) ==> c.w.objs == old(c.w.objs)
      ensures c.sure && me in old(c.w.objs) ==> stop.None?
      ensures c.alone && stop == Some(Done) ==> me !in old(c.w.objs)
      ensures stop.None? || stop == Some(Done) ==> c.missed == old(c.missed)
    {
      o := Object(0, false, false, {}, DeviceSpec("", ""), false, None);
      var ok, found := c.Get(me);
      if !ok { return Some(Failed(CallFailed)), o; }
      if found.None? { return Some(Done), o; }
      o := found.value;
      ghost var w1 := c.w;
      var _, host := c.Attempt(me);
      SnapshotKept(me, w1, c.w, o);
      if host {
        ghost var w2 := c.w;
        var _, session := c.Attempt(me);
        SnapshotKept(me, w2, c.w, o);
        if session { return None, o; }
      }
      if !o.ready {
        ok, o := c.Report(me, o, false, o.place);
        if !ok { return Some(Failed(CallFailed)), o; }
      }
      stop := Some(if host then Requeue else Failed(CallFailed));
    }

    // ---------- deletion ----------

    method Undefine(me: Key, o: Object, seat: Seat) returns (ok: bool)
      requires c.Valid() && me.Dom? && Owning(c.w, me, o, seat) && o.deleting
      requires me in c.w.seen && c.w.seen[me] == Shutoff
      modifies c
      ensures c.Valid()
      ensures ok ==> Snapshot(c.w, me, o) && SeatIs(c.w, me, seat, false)
      ensures c.alone ==> c.w == old(c.w).(domains := c.w.domains)
      ensures c.alone ==>
                forall s :: s != seat && s in old(c.w.domains) ==>
                              s in c.w.domains && c.w.domains[s] == old(c.w.domains)[s]
      ensures c.alone ==> c.looks == old(c.looks)
      ensures c.sure ==> ok && c.hostCalls == old(c.hostCalls) + [Event.Undefine(me)]
      ensures ok ==> c.missed == old(c.missed)
    {
      var reached;
      reached, ok := Ask(me, o, seat);
      if reached {
        Undefinable(me, o, seat);
        c.Perform(Event.Undefine(me));
      }
    }

    lemma Undefinable(me: Key, o: Object, seat: Seat)
      requires c.Valid() && me.Dom? && Owning(c.w, me, o, seat) && o.deleting
      requires me in c.w.seen && c.w.seen[me] == Shutoff
      ensures Enabled(c.w, Event.Undefine(me))
      ensures var n := Apply(c.w, Event.Undefine(me));
              && n == c.w.(domains := c.w.domains - {seat}) && Snapshot(n, me, o) && SeatIs(n, me, seat, false)
    {
      c.Sane();
      SeatKnown(c.w, me, o);
    }

    /** Shut down if it is not off, undefine, and only then let the object go. */
    method Leave(me: Key, o: Object, seat: Seat, read: Option<Power>) returns (result: Outcome)
      requires c.Valid() && me.Dom? && Looked(c.w, me, o, seat, read) && o.deleting && o.finalizer
      modifies c
      ensures c.Valid()
      ensures c.sure && old(Current(c.w, me, o.version)) && (read.Some? ==> read.value == Shutoff) ==> result == Done
      ensures c.sure && old(Current(c.w, me, o.version)) && read.Some? && read.value != Shutoff ==>
                && Followed(old(c.looks), c.looks, result)
                && c.hostCalls == old(c.hostCalls) + [RequestShutdown(me)]
                                    + (if result == Done then [Event.Undefine(me)] else [])
      ensures c.alone ==> Tidy(me, old(c.w), c.w) && c.w.volumes == old(c.w.volumes)
      ensures c.alone && result == Done ==> me !in c.w.objs && seat !in c.w.domains
      ensures c.sure && old(Current(c.w, me, o.version)) && (read.Some? ==> read.value == Shutoff) ==>
                c.hostCalls == old(c.hostCalls) + (if read.Some? then [Event.Undefine(me)] else [])
      ensures result == Done ==> c.missed == old(c.missed)
    {
      if read.Some? {
        var error := TakeDown(me, o, seat, read.value);
        if error.Some? { return Failed(error.value); }
      }
      ghost var w1 := c.w;
      result := LetGo(me, o, seat);
      if c.alone { TidyAfter(me, old(c.w), w1, c.w); }
    }

    /** Takes the finalizer off, and with it the object, once the domain is not there. */
    method LetGo(me: Key, o: Object, seat: Seat) returns (result: Outcome)
      requires c.Valid() && me.Dom? && Snapshot(c.w, me, o) && Named(o, seat) && SeatIs(c.w, me, seat, false)
      requires o.deleting && o.finalizer
      modifies c
      ensures c.Valid()
      ensures c.alone ==> Undisturbed(me, old(c.w), c.w) && c.hostCalls == old(c.hostCalls) && c.looks == old(c.looks)
      ensures c.sure && old(Current(c.w, me, o.version)) ==> result == Done
      ensures result == Done || result == Failed(CallFailed)
      ensures c.alone && result == Done ==> me !in c.w.objs && seat !in c.w.domains
      ensures result == Done ==> c.missed == old(c.missed)
    {
      ghost var w1 := c.w;
      var reached, ok := c.Attempt(me);
      SnapshotKept(me, w1, c.w, o);
      assert SeatOf(c.w, me) == Some(seat) && seat !in c.w.domains by { c.Sane(); FreeSeat(c.w, me, o, seat); }
      if !reached { return Failed(CallFailed); }
      result := c.Remove(me, o, ok);
    }

    /** Shuts the domain down unless it was seen off. */
    method TurnOff(me: Key, o: Object, seat: Seat, power: Power) returns (error: Option<Error>)
      requires c.Valid() && me.Dom? && Owning(c.w, me, o, seat) && me in c.w.seen && c.w.seen[me] == power
      modifies c
      ensures c.Valid() && Owning(c.w, me, o, seat)
      ensures error.None? ==> me in c.w.seen && c.w.seen[me] == Shutoff
      ensures power == Shutoff ==> error.None? && c.hostCalls == old(c.hostCalls)
      ensures c.sure && power != Shutoff ==>
                && Followed(old(c.looks), c.looks, Outcomes(error))
                && c.hostCalls == old(c.hostCalls) + [RequestShutdown(me)]
      ensures c.alone ==> Powered(old(c.w), c.w, seat)
      ensures error.None? ==> c.missed == old(c.missed)
    {
      error := None;
      if power != Shutoff {
        var accepted, polls, sleeps;
        accepted, error, polls, sleeps := Shutdown(me, o, seat);
      }
    }

    method TakeDown(me: Key, o: Object, seat: Seat, power: Power) returns (error: Option<Error>)
      requires c.Valid() && me.Dom? && Owning(c.w, me, o, seat) && o.deleting
      requires me in c.w.seen && c.w.seen[me] == power
      modifies c
      ensures c.Valid()
      ensures error.None? ==> Snapshot(c.w, me, o) && SeatIs(c.w, me, seat, false)
      ensures c.sure && power == Shutoff ==>
                error.None? && c.hostCalls == old(c.hostCalls) + [Event.Undefine(me)]
      ensures c.sure && power != Shutoff ==>
                && Followed(old(c.looks), c.looks, Outcomes(error))
                && c.hostCalls == old(c.hostCalls) + [RequestShutdown(me)]
                                    + (if error.None? then [Event.Undefine(me)] else [])
      ensures c.alone ==> c.w.objs == old(c.w.objs)
      ensures c.alone ==> Tidy(me, old(c.w), c.w) && c.w.volumes == old(c.w.volumes)
      ensures error.None? ==> c.missed == old(c.missed)
    {
      ghost var w0 := c.w;
      error := TurnOff(me, o, seat, power);
      if c.alone {
        Calm(me, w0);
        PoweredTidy(me, w0, w0, c.w, seat);
      }
      if error.Some? { return; }
      var ok := Undefine(me, o, seat);
      error := if ok then None else Some(CallFailed);
    }

    // ---------- a domain that exists ----------

    method Start(me: Key, o: Object, seat: Seat) returns (ok: bool)
      requires c.Valid() && me.Dom? && Owning(c.w, me, o, seat)
      modifies c
      ensures c.Valid() && Owning(c.w, me, o, seat)
      ensures ok ==> c.w.domains[seat].power == Running
      ensures c.alone ==> Powered(old(c.w), c.w, seat)
      ensures c.alone && ok ==> c.hostCalls == old(c.hostCalls) + [Event.Start(me)]
      ensures c.sure ==> ok
      ensures ok ==> c.missed == old(c.missed)
    {
      var reached;
      reached, ok := Ask(me, o, seat);
      if reached { c.Perform(Event.Start(me)); }
    }

    /** Brings the power to what the spec asks for. */
    method Existing(me: Key, domain: Object, seat: Seat, power: Power) returns (result: Outcome)
      requires c.Valid() && me.Dom? && Owning(c.w, me, domain, seat)
      requires c.alone ==> c.w.domains[seat].power == power
      modifies c
      ensures c.Valid()
      ensures result == Done ==> IsReady(c.w, me)
      ensures c.alone && domain.ready ==> c.w.objs == old(c.w.objs)
      ensures c.sure && old(Current(c.w, me, domain.version)) && (domain.spec.shutoff ==> power == Shutoff) ==>
                result == Done
      ensures c.sure && old(Current(c.w, me, domain.version)) && domain.spec.shutoff && power != Shutoff ==>
                Followed(old(c.looks), c.looks, result) && c.hostCalls == old(c.hostCalls) + [RequestShutdown(me)]
      ensures c.alone ==> Tidy(me, old(c.w), c.w) && c.w.volumes == old(c.w.volumes)
      ensures c.alone && result == Done ==>
                seat in c.w.domains && (c.w.domains[seat].power == Shutoff <==> domain.spec.shutoff)
      ensures c.alone && (power == Shutoff <==> domain.spec.shutoff) ==> c.hostCalls == old(c.hostCalls)
      ensures result == Done ==> c.missed == old(c.missed)
    {
      var o := domain;
      if !o.ready {
        var ok;
        ok, o := c.Report(me, o, true, o.place);
        if !ok { return Failed(CallFailed); }
      }
      assert Owning(c.w, me, o, seat);
      ghost var w1 := c.w;
      if c.alone && o == domain { Calm(me, w1); }
      if o.spec.shutoff {
        if power != Shutoff {
          var _, error, _, _ := Shutdown(me, o, seat);
          if c.alone { PoweredTidy(me, old(c.w), w1, c.w, seat); }
          if error.Some? { return Failed(error.value); }
        }
      } else if power == Shutoff {
        var ok := Start(me, o, seat);
        if c.alone { PoweredTidy(me, old(c.w), w1, c.w, seat); }
        if !ok { return Failed(CallFailed); }
      }
      result := Done;
    }

    // ---------- a domain that is being defined ----------

    /** SetLabel and the update it calls for. */
    method Label(me: Key, o: Object, seat: Seat, disks: seq<Link>, to: Key, ghost done: set<Key>)
      returns (ok: bool, stored: Object)
      requires c.Valid() && me.Dom? && Building(c.w, me, o, seat, disks, done) && to in References(o.spec)
      requires Referable(c.w, me, to, o.spec.host)
      modifies c
      ensures c.Valid()
      ensures ok ==> Building(c.w, me, stored, seat, disks, done)
      ensures ok ==> stored.spec == o.spec && stored.labels == o.labels + {to}
      ensures to in o.labels ==> ok && stored == o && c.w == old(c.w)
      ensures c.sure && old(Current(c.w, me, o.version)) ==> ok && Current(c.w, me, stored.version)
      ensures c.alone ==> Undisturbed(me, old(c.w), c.w) && c.hostCalls == old(c.hostCalls)
      ensures ok ==> c.missed == old(c.missed)
    {
      if to in o.labels { return true, o; }
      ghost var w0 := c.w;
      ok, stored := c.Update(me, o, AddLabel(me, o.version, to));
      if ok { BuildingKept(me, w0, c.w, o, stored, seat, disks, done); }
    }

    /** DomainAction.Disk for a looked-up volume: the walk down its chain, then the append. A volume that is neither a
     *  file nor a block device succeeds without being appended. */
    method Attach(me: Key, o: Object, seat: Seat, disks: seq<Link>, key: Key, target: Path,
                  ghost done: set<Key>)
      returns (error: Option<Error>, more: seq<Link>)
      requires c.Valid() && me.Dom? && Building(c.w, me, o, seat, disks, done) && Reading(c.w, me, key, target)
      requires key in References(o.spec) && target.place.host == o.spec.host
      modifies c
      ensures c.Valid()
      ensures error.None? ==> Building(c.w, me, o, seat, more, done + {key}) && Referable(c.w, me, key, o.spec.host)
      ensures c.alone && error.None? && old(PathOf(c.w, key)) == Some(target) ==> Adds(c.w.volumes, disks, key, more)
      ensures c.sure ==> error == if target in old(c.w.volumes) then None else Some(NotFound)
      ensures c.alone && error.None? ==> target in old(c.w.volumes)
      ensures c.alone ==> Undisturbed(me, old(c.w), c.w) && c.hostCalls == old(c.hostCalls) && c.w.objs == old(c.w.objs)
      ensures error.None? ==> c.missed == old(c.missed)
    {
      ghost var w0 := c.w;
      more := disks;
      var volume;
      error, volume := LookUp(c, me, o, key, target);
      BuildingKept(me, w0, c.w, o, o, seat, disks, done);
      if error.Some? { return; }
      assert c.alone && old(PathOf(c.w, key)) == Some(target) ==>
          (Unattachable(c.w.volumes, key) <==> volume.value.kind == OtherKind) by {
        c.Sane();
        if c.alone && old(PathOf(c.w, key)) == Some(target) { OnlyCopyKind(c.w, key, target); }
      }
      if volume.value.kind == OtherKind {
        assert Served(c.w, me, disks, key);
        return;
      }
      var ok := Describe(me, o, seat, disks, key, target, done);
      if !ok { return Some(CallFailed), disks; }
      more := disks + [Link(key, target)];
      Grow(c.w, me, o, seat, disks, Link(key, target), done);
    }

    /** The chain of a looked-up volume, read from the host. */
    method Describe(me: Key, o: Object, seat: Seat, disks: seq<Link>, key: Key, target: Path, ghost done: set<Key>)
      returns (ok: bool)
      requires c.Valid() && me.Dom? && Building(c.w, me, o, seat, disks, done)
      requires Reading(c.w, me, key, target) && Secured(c.w, me, Link(key, target))
      modifies c
      ensures c.Valid() && Building(c.w, me, o, seat, disks, done)
      ensures Reading(c.w, me, key, target) && Secured(c.w, me, Link(key, target))
      ensures c.sure ==> ok
      ensures c.alone ==> c.w == old(c.w) && c.hostCalls == old(c.hostCalls)
      ensures ok ==> c.missed == old(c.missed)
    {
      ghost var w1, log1 := c.w, c.log;
      var reached;
      reached, ok := c.Attempt(me);
      SnapshotKept(me, w1, c.w, o);
      BuildingKept(me, w1, c.w, o, o, seat, disks, done);
      SecuredKept(me, w1, c.w, Link(key, target));
      assert Reading(c.w, me, key, target) by {
        c.Sane();
        RunKeeps(INITIAL, log1);
        ReadingKept(me, w1, c.w, key, target);
      }
    }

    /** What the domain waits for is not ready, and so is the domain. */
    method Wait(me: Key, o: Object) returns (stop: Option<Outcome>)
      requires c.Valid() && me.Dom? && Snapshot(c.w, me, o) && o.finalizer
      modifies c
      ensures c.Valid()
      ensures stop == Some(Requeue) || stop == Some(Failed(CallFailed))
      ensures stop == Some(Requeue) ==> !IsReady(c.w, me)
      ensures c.sure && old(Current(c.w, me, o.version)) ==> stop == Some(Requeue)
      ensures c.alone ==> Undisturbed(me, old(c.w), c.w) && c.hostCalls == old(c.hostCalls)
    {
      var ok, _ := c.Report(me, o, false, o.place);
      stop := Some(if ok then Requeue else Failed(CallFailed));
    }

    /** Reads a volume or cloud-init that is to be a disk: it has to be ready, and on the host. */
    method Consult(me: Key, o: Object, seat: Seat, disks: seq<Link>, key: Key, ghost done: set<Key>)
      returns (stop: Option<Outcome>, target: Path)
      requires c.Valid() && me.Dom? && Building(c.w, me, o, seat, disks, done)
      requires IsStorage(key) && key in References(o.spec)
      modifies c
      ensures c.Valid()
      ensures stop.None? ==>
                && Building(c.w, me, o, seat, disks, done) && Reading(c.w, me, key, target)
                && target.place.host == o.spec.host
      ensures c.alone && stop.None? ==> PathOf(c.w, key) == Some(target) && c.w.objs == old(c.w.objs)
      ensures c.alone && stop.None? ==>
                Fault(old(c.w), key, o.spec.host) == if target in old(c.w.volumes) then None else Some(Failed(NotFound))
      ensures c.sure && old(Current(c.w, me, o.version)) && stop.Some? ==> stop == Fault(old(c.w), key, o.spec.host)
      ensures stop != Some(Done)
      ensures c.alone && stop == Some(Requeue) ==> !IsReady(c.w, me)
      ensures c.alone ==> Undisturbed(me, old(c.w), c.w) && c.hostCalls == old(c.hostCalls)
      ensures stop.None? ==> c.missed == old(c.missed)
    {
      target := Path(Place("", ""), "");
      ghost var w0 := c.w;
      var error, found := ReadReferent(c, me, o, key);
      if error.Some? { return Some(Failed(error.value)), target; }
      BuildingKept(me, w0, c.w, o, o, seat, disks, done);
      if !found.value.ready {
        ghost var w1 := c.w;
        stop := Wait(me, o);
        if c.alone { UndisturbedChain(me, w0, w1, c.w); }
        return;
      }
      target := Path(found.value.place.value, found.value.spec.name);
      stop := if target.place.host != o.spec.host then Some(Failed(VolumeNotSameHost)) else None;
    }

    /** One disk, or the cloud-init: read, check, look up, label. */
    method AddDisk(me: Key, o: Object, seat: Seat, disks: seq<Link>, key: Key, ghost done: set<Key>)
      returns (stop: Option<Outcome>, stored: Object, more: seq<Link>)
      requires c.Valid() && me.Dom? && Building(c.w, me, o, seat, disks, done)
      requires IsStorage(key) && key in References(o.spec)
      modifies c
      ensures c.Valid()
      ensures stop.None? ==> Building(c.w, me, stored, seat, more, done + {key})
      ensures stop.None? ==> stored.spec == o.spec && stored.labels == o.labels + {key}
      ensures c.alone && stop.None? ==> Adds(c.w.volumes, disks, key, more)
      ensures c.alone && (stop.None? || (c.sure && old(Current(c.w, me, o.version)))) ==>
                stop == Fault(old(c.w), key, o.spec.host)
      ensures c.sure && old(Current(c.w, me, o.version)) && stop.None? ==> Current(c.w, me, stored.version)
      ensures stop != Some(Done)
      ensures c.alone && stop == Some(Requeue) ==> !IsReady(c.w, me)
      ensures c.alone ==> Undisturbed(me, old(c.w), c.w) && c.hostCalls == old(c.hostCalls)
      ensures stop.None? || stop == Some(Done) ==> c.missed == old(c.missed)
    {
      stored, more := o, disks;
      ghost var w0 := c.w;
      var target;
      stop, target := Consult(me, o, seat, disks, key, done);
      if stop.Some? { return; }
      ghost var w1 := c.w;
      stop, stored, more := AddFound(me, o, seat, disks, key, target, done);
      if c.alone { UndisturbedChain(me, w0, w1, c.w); }
    }

    /** What has been read: look up, label. */
    method AddFound(me: Key, o: Object, seat: Seat, disks: seq<Link>, key: Key, target: Path, ghost done: set<Key>)
      returns (stop: Option<Outcome>, stored: Object, more: seq<Link>)
      requires c.Valid() && me.Dom? && Building(c.w, me, o, seat, disks, done) && Reading(c.w, me, key, target)
      requires IsStorage(key) && key in References(o.spec) && target.place.host == o.spec.host
      requires c.alone ==> PathOf(c.w, key) == Some(target)
      modifies c
      ensures c.Valid()
      ensures stop.None? ==> Building(c.w, me, stored, seat, more, done + {key})
      ensures stop.None? ==> stored.spec == o.spec && stored.labels == o.labels + {key}
      ensures c.alone && stop.None? ==> Adds(c.w.volumes, disks, key, more)
      ensures c.alone && (stop.None? || (c.sure && old(Current(c.w, me, o.version)))) ==>
                stop == if target in old(c.w.volumes) then None else Some(Failed(NotFound))
      ensures c.sure && old(Current(c.w, me, o.version)) && stop.None? ==> Current(c.w, me, stored.version)
      ensures stop != Some(Done)
      ensures c.alone && stop == Some(Requeue) ==> !IsReady(c.w, me)
      ensures c.alone ==> Undisturbed(me, old(c.w), c.w) && c.hostCalls == old(c.hostCalls)
      ensures stop.None? || stop == Some(Done) ==> c.missed == old(c.missed)
    {
      stop, stored := None, o;
      ghost var w0 := c.w;
      var error;
      error, more := Attach(me, o, seat, disks, key, target, done);
      if error.Some? { return Some(Failed(error.value)), o, disks; }
      ghost var w1 := c.w;
      var ok;
      ok, stored := Label(me, o, seat, more, key, done + {key});
      if c.alone { UndisturbedChain(me, w0, w1, c.w); }
      if !ok { stop := Some(Failed(CallFailed)); }
    }

    /** Reads a network or PCI device; if it is ready, the reference is being made from here on. */
    method ReadDevice(me: Key, o: Object, seat: Seat, disks: seq<Link>, key: Key, ghost done: set<Key>)
      returns (error: Option<Error>, device: Option<Object>)
      requires c.Valid() && me.Dom? && Building(c.w, me, o, seat, disks, done) && IsDevice(key)
      modifies c
      ensures c.Valid() && Building(c.w, me, o, seat, disks, done)
      ensures error.None? <==> device.Some?
      ensures device.Some? ==> device.value.spec.DeviceSpec?
      ensures device.Some? && device.value.ready ==> Referable(c.w, me, key, device.value.spec.host)
      ensures c.sure ==> error == if key in old(c.w.objs) then None else Some(NotFound)
      ensures c.alone && device.Some? ==> key in old(c.w.objs) && device.value == old(c.w.objs)[key]
      ensures c.alone ==> Undisturbed(me, old(c.w), c.w) && c.w.objs == old(c.w.objs) && c.hostCalls == old(c.hostCalls)
      ensures error.None? ==> c.missed == old(c.missed)
    {
      ghost var w0 := c.w;
      var _, ok := c.Attempt(me);
      SnapshotKept(me, w0, c.w, o);
      BuildingKept(me, w0, c.w, o, o, seat, disks, done);
      if !ok { return Some(CallFailed), None; }
      if key !in c.w.objs { return Some(NotFound), None; }
      device := Some(c.w.objs[key]);
      assert c.w.objs[key].spec.DeviceSpec? && (c.w.objs[key].ready ==> c.w.objs[key].finalizer) by {
        c.Sane();
        assert c.w.objs[key].ready ==> StatusOk(key, c.w.objs[key], c.w.bound);
      }
      if device.value.ready {
        ghost var w1 := c.w;
        c.Refer(me, key);
        BuildingKept(me, w1, c.w, o, o, seat, disks, done);
      }
      error := None;
    }

    /** One network or PCI device: read, check, label. */
    method AddDevice(me: Key, o: Object, seat: Seat, disks: seq<Link>, key: Key, ghost done: set<Key>)
      returns (stop: Option<Outcome>, stored: Object)
      requires c.Valid() && me.Dom? && Building(c.w, me, o, seat, disks, done) && IsDevice(key)
      requires key in References(o.spec)
      modifies c
      ensures c.Valid()
      ensures stop.None? ==> Building(c.w, me, stored, seat, disks, done)
      ensures stop.None? ==> stored.spec == o.spec && stored.labels == o.labels + {key}
      ensures c.alone && stop.None? ==>
                && key in c.w.objs && c.w.objs[key].spec.DeviceSpec? && c.w.objs[key].spec.host == o.spec.host
                && c.w.objs[key].ready
      ensures c.alone && (stop.None? || (c.sure && old(Current(c.w, me, o.version)))) ==>
                stop == Fault(old(c.w), key, o.spec.host)
      ensures c.sure && old(Current(c.w, me, o.version)) && stop.None? ==> Current(c.w, me, stored.version)
      ensures stop != Some(Done)
      ensures c.alone && stop == Some(Requeue) ==> !IsReady(c.w, me)
      ensures c.alone ==> Undisturbed(me, old(c.w), c.w) && c.hostCalls == old(c.hostCalls)
      ensures stop.None? || stop == Some(Done) ==> c.missed == old(c.missed)
    {
      stop, stored := None, o;
      ghost var w0 := c.w;
      var error, device := ReadDevice(me, o, seat, disks, key, done);
      if error.Some? { return Some(Failed(error.value)), o; }
      if device.value.spec.host != o.spec.host { return Some(Failed(DeviceNotSameHost)), o; }
      var ok;
      if !device.value.ready {
        ghost var w1 := c.w;
        stop := Wait(me, o);
        if c.alone { UndisturbedChain(me, w0, w1, c.w); }
        return;
      }
      ok, stored := Label(me, o, seat, disks, key, done);
      if c.alone { OtherSame(me, w0, c.w, key); }
      if !ok { stop := Some(Failed(CallFailed)); }
    }

    lemma AmongNext(keys: seq<Key>, i: nat)
      requires i < |keys|
      ensures Among(keys[..i + 1]) == Among(keys[..i]) + {keys[i]}
    {
      assert keys[..i + 1] == keys[..i] + [keys[i]];
    }

    lemma Extended(keys: seq<Key>, i: nat, disks: seq<Link>, more: seq<Link>)
      requires c.Valid() && i < |keys| && Chosen(c.w.volumes, keys[..i], disks)
      requires Adds(c.w.volumes, disks, keys[i], more)
      ensures Chosen(c.w.volumes, keys[..i + 1], more)
    {
      c.Sane();
      ChosenAdds(c.w, keys[..i], disks, keys[i], more);
      assert keys[..i] + [keys[i]] == keys[..i + 1];
    }

    lemma ExtendedBy(keys: seq<Key>, key: Key, disks: seq<Link>, more: seq<Link>)
      requires c.Valid() && Chosen(c.w.volumes, keys, disks) && Adds(c.w.volumes, disks, key, more)
      ensures Chosen(c.w.volumes, keys + [key], more)
    {
      c.Sane();
      ChosenAdds(c.w, keys, disks, key, more);
    }

    /** The i-th disk of the spec. */
    method AddNth(me: Key, o: Object, seat: Seat, disks: seq<Link>, i: nat)
      returns (stop: Option<Outcome>, stored: Object, more: seq<Link>)
      requires c.Valid() && me.Dom? && o.spec.DomainSpec? && i < |o.spec.disks| && FirstLabelled(o, i)
      requires Building(c.w, me, o, seat, disks, Among(DiskKeys(o.spec.(cloudInit := None))[..i]))
      requires c.alone ==> Chosen(c.w.volumes, DiskKeys(o.spec.(cloudInit := None))[..i], disks)
      modifies c
      ensures c.Valid()
      ensures stop.None? ==>
                Building(c.w, me, stored, seat, more, Among(DiskKeys(o.spec.(cloudInit := None))[..i + 1]))
      ensures stop.None? ==> stored.spec == o.spec
                             && o.labels <= stored.labels && FirstLabelled(stored, i + 1)
      ensures c.alone && stop.None? ==> Chosen(c.w.volumes, DiskKeys(o.spec.(cloudInit := None))[..i + 1], more)
      ensures c.alone && (stop.None? || (c.sure && old(Current(c.w, me, o.version)))) ==>
                stop == Fault(old(c.w), Vol(o.spec.disks[i]), o.spec.host)
      ensures c.sure && old(Current(c.w, me, o.version)) && stop.None? ==> Current(c.w, me, stored.version)
      ensures stop != Some(Done)
      ensures c.alone && stop == Some(Requeue) ==> !IsReady(c.w, me)
      ensures c.alone ==> Undisturbed(me, old(c.w), c.w) && c.hostCalls == old(c.hostCalls)
      ensures stop.None? || stop == Some(Done) ==> c.missed == old(c.missed)
    {
      ghost var keys := DiskKeys(o.spec.(cloudInit := None));
      assert DiskKeys(o.spec)[i] == Vol(o.spec.disks[i]);
      stop, stored, more := AddDisk(me, o, seat, disks, Vol(o.spec.disks[i]), Among(keys[..i]));
      AmongNext(keys, i);
      if c.alone && stop.None? { Extended(keys, i, disks, more); }
    }

    method AddDisks(me: Key, domain: Object, seat: Seat) returns (stop: Option<Outcome>, o: Object, disks: seq<Link>)
      requires c.Valid() && me.Dom? && Building(c.w, me, domain, seat, [], {})
      modifies c
      ensures c.Valid()
      ensures stop.None? ==> 
                && Building(c.w, me, o, seat, disks, Among(DiskKeys(domain.spec.(cloudInit := None))))
                && o.spec == domain.spec && domain.labels <= o.labels
      ensures stop.None? ==> forall n :: n in o.spec.disks ==> Vol(n) in o.labels
      ensures c.alone && stop.None? ==> Chosen(c.w.volumes, DiskKeys(domain.spec.(cloudInit := None)), disks)
      ensures c.alone && (stop.None? || (c.sure && old(Current(c.w, me, domain.version)))) ==>
                stop == FirstFault(old(c.w), DiskKeys(domain.spec.(cloudInit := None)), domain.spec.host)
      ensures c.sure && old(Current(c.w, me, domain.version)) && stop.None? ==> Current(c.w, me, o.version)
      ensures stop != Some(Done)
      ensures c.alone && stop == Some(Requeue) ==> !IsReady(c.w, me)
      ensures c.alone ==> Undisturbed(me, old(c.w), c.w) && c.hostCalls == old(c.hostCalls)
      ensures stop.None? || stop == Some(Done) ==> c.missed == old(c.missed)
    {
      o, disks := domain, [];
      ghost var keys := DiskKeys(domain.spec.(cloudInit := None));
      for i := 0 to |domain.spec.disks|
        invariant c.Valid() && Building(c.w, me, o, seat, disks, Among(keys[..i]))
        invariant o.spec == domain.spec && domain.labels <= o.labels
        invariant FirstLabelled(o, i) && c.missed == old(c.missed)
        invariant c.alone ==> Undisturbed(me, old(c.w), c.w) && c.hostCalls == old(c.hostCalls)
        invariant c.alone ==> Chosen(c.w.volumes, keys[..i], disks)
        invariant c.alone ==> FirstFault(old(c.w), keys[..i], domain.spec.host).None?
        invariant c.sure && old(Current(c.w, me, domain.version)) ==> Current(c.w, me, o.version)
      {
        ghost var w1 := c.w;
        stop, o, disks := AddNth(me, o, seat, disks, i);
        if c.alone {
          UndisturbedChain(me, old(c.w), w1, c.w);
          FaultKept(me, old(c.w), w1, keys[i], domain.spec.host);
          FaultNext(old(c.w), keys, i, domain.spec.host);
        }
        if stop.Some? { return; }
      }
      assert keys[..|keys|] == keys;
      stop := None;
    }

    /** The i-th network or PCI device of the spec. */
    method AddNthDevice(me: Key, o: Object, seat: Seat, disks: seq<Link>, pci: bool, i: nat, ghost done: set<Key>)
      returns (stop: Option<Outcome>, stored: Object)
      requires c.Valid() && me.Dom? && Building(c.w, me, o, seat, disks, done) && DevicesLabelled(o, pci, i)
      requires i < |Devices(o.spec, pci)|
      modifies c
      ensures c.Valid()
      ensures stop.None? ==> Building(c.w, me, stored, seat, disks, done) && stored.spec == o.spec
                             && o.labels <= stored.labels && DevicesLabelled(stored, pci, i + 1)
      ensures c.alone && (stop.None? || (c.sure && old(Current(c.w, me, o.version)))) ==>
                stop == Fault(old(c.w), DeviceKeys(o.spec, pci)[i], o.spec.host)
      ensures c.sure && old(Current(c.w, me, o.version)) && stop.None? ==> Current(c.w, me, stored.version)
      ensures stop != Some(Done)
      ensures c.alone && stop == Some(Requeue) ==> !IsReady(c.w, me)
      ensures c.alone ==> Undisturbed(me, old(c.w), c.w) && c.hostCalls == old(c.hostCalls)
      ensures stop.None? || stop == Some(Done) ==> c.missed == old(c.missed)
    {
      stop, stored := AddDevice(me, o, seat, disks, DeviceKey(Devices(o.spec, pci)[i], pci), done);
    }

    method AddDevices(me: Key, domain: Object, seat: Seat, disks: seq<Link>, pci: bool, ghost done: set<Key>)
      returns (stop: Option<Outcome>, o: Object)
      requires c.Valid() && me.Dom? && Building(c.w, me, domain, seat, disks, done)
      modifies c
      ensures c.Valid()
      ensures stop.None? ==> Building(c.w, me, o, seat, disks, done)
      ensures stop.None? ==> o.spec == domain.spec && domain.labels <= o.labels
      ensures stop.None? ==> DevicesLabelled(o, pci, |Devices(domain.spec, pci)|)
      ensures c.alone && (stop.None? || (c.sure && old(Current(c.w, me, domain.version)))) ==>
                stop == FirstFault(old(c.w), DeviceKeys(domain.spec, pci), domain.spec.host)
      ensures c.sure && old(Current(c.w, me, domain.version)) && stop.None? ==> Current(c.w, me, o.version)
      ensures stop != Some(Done)
      ensures c.alone && stop == Some(Requeue) ==> !IsReady(c.w, me)
      ensures c.alone ==> Undisturbed(me, old(c.w), c.w) && c.hostCalls == old(c.hostCalls)
      ensures stop.None? || stop == Some(Done) ==> c.missed == old(c.missed)
    {
      o := domain;
      ghost var keys := DeviceKeys(domain.spec, pci);
      for i := 0 to |Devices(domain.spec, pci)|
        invariant c.Valid() && Building(c.w, me, o, seat, disks, done) && o.spec == domain.spec
        invariant domain.labels <= o.labels && DevicesLabelled(o, pci, i) && c.missed == old(c.missed)
        invariant c.alone ==> Undisturbed(me, old(c.w), c.w) && c.hostCalls == old(c.hostCalls)
        invariant c.alone ==> FirstFault(old(c.w), keys[..i], domain.spec.host).None?
        invariant c.sure && old(Current(c.w, me, domain.version)) ==> Current(c.w, me, o.version)
      {
        ghost var w1 := c.w;
        stop, o := AddNthDevice(me, o, seat, disks, pci, i, done);
        if c.alone {
          UndisturbedChain(me, old(c.w), w1, c.w);
          FaultKept(me, old(c.w), w1, keys[i], domain.spec.host);
          FaultNext(old(c.w), keys, i, domain.spec.host);
        }
        if stop.Some? { return; }
      }
      assert keys[..|keys|] == keys;
      stop := None;
    }

    /** The networks, and then the PCI devices. */
    method AddAllDevices(me: Key, domain: Object, seat: Seat, disks: seq<Link>, ghost done: set<Key>)
      returns (stop: Option<Outcome>, o: Object)
      requires c.Valid() && me.Dom? && Building(c.w, me, domain, seat, disks, done)
      modifies c
      ensures c.Valid()
      ensures stop.None? ==> Building(c.w, me, o, seat, disks, done)
      ensures stop.None? ==> o.spec == domain.spec && domain.labels <= o.labels
      ensures stop.None? ==> DevicesLabelled(o, false, |o.spec.nets|) && DevicesLabelled(o, true, |o.spec.pcis|)
      ensures c.alone && (stop.None? || (c.sure && old(Current(c.w, me, domain.version)))) ==>
                stop == FirstFault(old(c.w), AllDeviceKeys(domain.spec), domain.spec.host)
      ensures c.sure && old(Current(c.w, me, domain.version)) && stop.None? ==> Current(c.w, me, o.version)
      ensures stop != Some(Done)
      ensures c.alone && stop == Some(Requeue) ==> !IsReady(c.w, me)
      ensures c.alone ==> Undisturbed(me, old(c.w), c.w) && c.hostCalls == old(c.hostCalls)
      ensures stop.None? || stop == Some(Done) ==> c.missed == old(c.missed)
    {
      ghost var w0 := c.w;
      ghost var nets, pcis, host := DeviceKeys(domain.spec, false), DeviceKeys(domain.spec, true), domain.spec.host;
      FaultsInTurn(w0, nets, pcis, host);
      stop, o := AddDevices(me, domain, seat, disks, false, done);
      if stop.Some? { return; }
      ghost var w1 := c.w;
      if c.alone { FirstFaultKept(me, w0, w1, pcis, host); }
      stop, o := AddDevices(me, o, seat, disks, true, done);
      if c.alone { UndisturbedChain(me, w0, w1, c.w); }
    }

    method AddCloudInit(me: Key, domain: Object, seat: Seat, disks: seq<Link>)
      returns (stop: Option<Outcome>, o: Object, more: seq<Link>)
      requires c.Valid() && me.Dom? && domain.spec.DomainSpec?
      requires Building(c.w, me, domain, seat, disks, Among(DiskKeys(domain.spec.(cloudInit := None))))
      requires c.alone ==> Chosen(c.w.volumes, DiskKeys(domain.spec.(cloudInit := None)), disks)
      modifies c
      ensures c.Valid()
      ensures stop.None? ==> Building(c.w, me, o, seat, more, Among(DiskKeys(domain.spec)))
      ensures stop.None? ==> o.spec == domain.spec && domain.labels <= o.labels
      ensures stop.None? && domain.spec.cloudInit.Some? ==> Ci(domain.spec.cloudInit.value) in o.labels
      ensures c.alone && stop.None? ==> Chosen(c.w.volumes, DiskKeys(domain.spec), more)
      ensures c.alone && (stop.None? || (c.sure && old(Current(c.w, me, domain.version)))) ==>
                stop == FirstFault(old(c.w), InitKeys(domain.spec), domain.spec.host)
      ensures c.sure && old(Current(c.w, me, domain.version)) && stop.None? ==> Current(c.w, me, o.version)
      ensures stop != Some(Done)
      ensures c.alone && stop == Some(Requeue) ==> !IsReady(c.w, me)
      ensures c.alone ==> Undisturbed(me, old(c.w), c.w) && c.hostCalls == old(c.hostCalls)
      ensures stop.None? || stop == Some(Done) ==> c.missed == old(c.missed)
    {
      if domain.spec.cloudInit.None? {
        NoInit(domain.spec);
        return None, domain, disks;
      }
      ghost var keys, key := DiskKeys(domain.spec.(cloudInit := None)), Ci(domain.spec.cloudInit.value);
      InitLast(old(c.w), domain.spec);
      stop, o, more := AddDisk(me, domain, seat, disks, Ci(domain.spec.cloudInit.value), Among(keys));
      if c.alone && stop.None? { ExtendedBy(keys, key, disks, more); }
    }

    /** The whole definition: disks, networks, PCI devices, and the cloud-init last. */
    method Assemble(me: Key, domain: Object, seat: Seat) returns (stop: Option<Outcome>, o: Object, disks: seq<Link>)
      requires c.Valid() && me.Dom? && Building(c.w, me, domain, seat, [], {})
      modifies c
      ensures c.Valid()
      ensures stop.None? ==>
                o.spec == domain.spec && Building(c.w, me, o, seat, disks, Among(DiskKeys(domain.spec)))
      ensures stop.None? ==> References(o.spec) <= o.labels
      ensures c.alone && stop.None? ==> Chosen(c.w.volumes, DiskKeys(domain.spec), disks)
      ensures c.alone && (stop.None? || (c.sure && old(Current(c.w, me, domain.version)))) ==>
                stop == FirstFault(old(c.w), Needs(domain.spec), domain.spec.host)
      ensures c.sure && old(Current(c.w, me, domain.version)) && stop.None? ==> Current(c.w, me, o.version)
      ensures stop != Some(Done)
      ensures c.alone && stop == Some(Requeue) ==> !IsReady(c.w, me)
      ensures c.alone ==> Undisturbed(me, old(c.w), c.w) && c.hostCalls == old(c.hostCalls)
      ensures stop.None? || stop == Some(Done) ==> c.missed == old(c.missed)
    {
      ghost var w0, host := c.w, domain.spec.host;
      ghost var devices, init := AllDeviceKeys(domain.spec), InitKeys(domain.spec);
      NeedsInTurn(w0, domain.spec);
      stop, o, disks := AddDisks(me, domain, seat);
      if stop.Some? { return; }
      ghost var w1 := c.w;
      if c.alone { FirstFaultKept(me, w0, w1, devices, host); }
      stop, o := AddAllDevices(me, o, seat, disks, Among(DiskKeys(domain.spec.(cloudInit := None))));
      if c.alone { UndisturbedChain(me, w0, w1, c.w); }
      if stop.Some? { return; }
      ghost var w2 := c.w;
      if c.alone { FirstFaultKept(me, w0, w2, init, host); }
      stop, o, disks := AddCloudInit(me, o, seat, disks);
      if c.alone { UndisturbedChain(me, w0, w2, c.w); }
      if stop.None? { AllLabelled(o); }
    }

    /** DomainDefineXML. */
    method Define(me: Key, o: Object, seat: Seat, disks: seq<Link>) returns (ok: bool)
      requires c.Valid() && me.Dom? && o.spec.DomainSpec? && References(o.spec) <= o.labels
      requires Building(c.w, me, o, seat, disks, Among(DiskKeys(o.spec)))
      modifies c
      ensures c.Valid() && Snapshot(c.w, me, o)
      ensures ok ==> Owning(c.w, me, o, seat) && c.w.domains[seat] == Domain(me, disks, Shutoff)
      ensures c.alone ==> c.w.volumes == old(c.w.volumes)
      ensures Deleting(me) !in c.w.windows && Resizing(me) !in c.w.windows
      ensures c.alone ==> Tidy(me, old(c.w), c.w) && c.w.objs == old(c.w.objs)
      ensures c.alone && ok ==> c.hostCalls == old(c.hostCalls) + [Event.Define(me, disks)]
      ensures c.sure ==> ok
      ensures ok ==> c.missed == old(c.missed)
    {
      ghost var w0 := c.w;
      var reached;
      reached, ok := c.Attempt(me);
      SnapshotKept(me, w0, c.w, o);
      BuildingKept(me, w0, c.w, o, o, seat, disks, Among(DiskKeys(o.spec)));
      if reached {
        Definable(me, o, seat, disks);
        c.Perform(Event.Define(me, disks));
      }
    }

    lemma Definable(me: Key, o: Object, seat: Seat, disks: seq<Link>)
      requires c.Valid() && me.Dom? && o.spec.DomainSpec? && References(o.spec) <= o.labels
      requires Building(c.w, me, o, seat, disks, Among(DiskKeys(o.spec)))
      ensures Enabled(c.w, Event.Define(me, disks))
      ensures var n := Apply(c.w, Event.Define(me, disks));
              && n == c.w.(domains := n.domains, seen := n.seen) && Owning(n, me, o, seat)
              && n.domains[seat] == Domain(me, disks, Shutoff)
    {
      c.Sane();
      FreeSeat(c.w, me, o, seat);
      assert Core(c.w.objs[me].spec) == Core(o.spec);
      Provided(c.w, me, o, seat, disks);
    }

    /** The label of the host, which only comes once the domain is defined. */
    method LabelHost(me: Key, o: Object, seat: Seat) returns (ok: bool, stored: Object)
      requires c.Valid() && me.Dom? && Owning(c.w, me, o, seat)
      requires Deleting(me) !in c.w.windows && Resizing(me) !in c.w.windows
      modifies c
      ensures c.Valid()
      ensures ok ==> Owning(c.w, me, stored, seat) && stored.spec == o.spec && Host(o.spec.host) in stored.labels
      ensures ok && c.alone ==> c.w.domains[seat] == old(c.w.domains[seat])
      ensures c.alone ==> c.w.volumes == old(c.w.volumes)
      ensures Host(o.spec.host) in o.labels ==> ok && stored == o && c.w == old(c.w)
      ensures c.sure && old(Current(c.w, me, o.version)) ==> ok && Current(c.w, me, stored.version)
      ensures c.alone ==> Tidy(me, old(c.w), c.w) && c.hostCalls == old(c.hostCalls)
      ensures ok ==> c.missed == old(c.missed)
    {
      if Host(o.spec.host) in o.labels { return true, o; }
      ok, stored := c.Update(me, o, AddLabel(me, o.version, Host(o.spec.host)));
    }

    /** Defines the domain with everything it needs, labels first, and starts it unless it is to stay off. */
    method Build(me: Key, domain: Object, seat: Seat) returns (result: Outcome)
      requires c.Valid() && me.Dom? && Building(c.w, me, domain, seat, [], {})
      modifies c
      ensures c.Valid()
      ensures result == Done ==> IsReady(c.w, me) && Host(domain.spec.host) in c.w.objs[me].labels
      ensures c.alone ==> Defined(old(c.w), c.w, me, domain, seat, old(c.hostCalls), c.hostCalls, result)
      ensures c.alone && result == Requeue ==> !IsReady(c.w, me)
      ensures c.sure && old(Current(c.w, me, domain.version)) ==>
                result == FirstFault(old(c.w), Needs(domain.spec), domain.spec.host).GetOr(Done)
      ensures c.alone ==> Tidy(me, old(c.w), c.w) && c.w.volumes == old(c.w.volumes)
      ensures result == Done ==> c.missed == old(c.missed)
    {
      NoFault(c.w, Needs(domain.spec), domain.spec.host);
      var stop, o, disks := Assemble(me, domain, seat);
      if stop.Some? { return stop.value; }
      var ok := Define(me, o, seat, disks);
      if !ok {
        var _, _ := c.Report(me, o, false, o.place);
        return Failed(CallFailed);
      }
      result := PowerOn(me, o, seat);
    }

    /** What follows the definition: the host label, the start, and the condition. */
    method PowerOn(me: Key, domain: Object, seat: Seat) returns (result: Outcome)
      requires c.Valid() && me.Dom? && Owning(c.w, me, domain, seat) && c.w.domains[seat].power == Shutoff
      requires Deleting(me) !in c.w.windows && Resizing(me) !in c.w.windows
      modifies c
      ensures c.Valid()
      ensures result == Done ==> IsReady(c.w, me) && Host(domain.spec.host) in c.w.objs[me].labels
      ensures c.alone && result == Done ==>
                c.hostCalls == old(c.hostCalls) + (if domain.spec.shutoff then [] else [Event.Start(me)])
      ensures result == Done || result == Failed(CallFailed)
      ensures c.sure && old(Current(c.w, me, domain.version)) ==> result == Done
      ensures c.alone ==> Tidy(me, old(c.w), c.w) && c.w.volumes == old(c.w.volumes)
      ensures c.alone && result == Done ==>
                && seat in c.w.domains && (c.w.domains[seat].power == Shutoff <==> domain.spec.shutoff)
                && c.w.domains[seat].disks == old(c.w.domains[seat].disks)
      ensures result == Done ==> c.missed == old(c.missed)
    {
      ghost var w0 := c.w;
      var ok, o := LabelHost(me, domain, seat);
      if !ok { return Failed(CallFailed); }
      if !o.spec.shutoff {
        ghost var w1 := c.w;
        ok := Start(me, o, seat);
        if c.alone { PoweredAfter(me, w0, w1, c.w, seat); }
        if !ok { return Failed(CallFailed); }
      }
      ghost var w2 := c.w;
      result := Conclude(me, o, seat);
      if c.alone { TidyAfter(me, w0, w2, c.w); }
    }

    /** The condition that ends a successful creation. */
    method Conclude(me: Key, domain: Object, seat: Seat) returns (result: Outcome)
      requires c.Valid() && me.Dom? && Owning(c.w, me, domain, seat)
      modifies c
      ensures c.Valid()
      ensures result == Done ==> IsReady(c.w, me) && c.w.objs[me].labels == domain.labels
      ensures result == Done || result == Failed(CallFailed)
      ensures c.sure && old(Current(c.w, me, domain.version)) ==> result == Done
      ensures c.alone ==> Undisturbed(me, old(c.w), c.w) && c.hostCalls == old(c.hostCalls)
      ensures result == Done ==> c.missed == old(c.missed)
    {
      var ok, o := c.Report(me, domain, true, domain.place);
      result := if ok then Done else Failed(CallFailed);
    }

    // ---------- the whole reconcile ----------

    /** Nothing but its calls can keep the reconcile from succeeding: no guest has to be waited for, and what a
     *  definition needs is ready. */
    static predicate Unblocked(w: World, me: Key, o: Object, read: Option<Power>) {
      if o.deleting then read.Some? ==> read.value == Shutoff
      else if read.Some? then o.spec.DomainSpec? && (o.spec.shutoff ==> read.value == Shutoff)
      else o.spec.DomainSpec? && FirstFault(w, Needs(o.spec), o.spec.host).None?
    }

    method Act(me: Key, domain: Object, seat: Seat, read: Option<Power>) returns (result: Outcome)
      requires c.Valid() && me.Dom? && Looked(c.w, me, domain, seat, read)
      requires c.alone && read.Some? ==> seat in c.w.domains && c.w.domains[seat].power == read.value
      modifies c
      ensures c.Valid()
      ensures c.alone ==> Tidy(me, old(c.w), c.w) && c.w.volumes == old(c.w.volumes)
      ensures result == Done && !domain.deleting ==>
                IsReady(c.w, me) && (read.None? ==> Host(domain.spec.host) in c.w.objs[me].labels)
      ensures c.alone && !domain.deleting && read.None? ==>
                Defined(old(c.w), c.w, me, domain, seat, old(c.hostCalls), c.hostCalls, result)
      ensures c.alone && result == Requeue && !domain.deleting && read.None? ==> !IsReady(c.w, me)
      ensures c.alone && !domain.deleting && read.Some? && domain.ready && domain.finalizer ==>
                c.w.objs == old(c.w.objs)
      ensures c.sure && old(Current(c.w, me, domain.version)) && !domain.deleting && read.None? ==>
                result == FirstFault(old(c.w), Needs(domain.spec), domain.spec.host).GetOr(Done)
      ensures c.alone && result == Done && !domain.deleting && read.Some? ==>
                seat in c.w.domains && (c.w.domains[seat].power == Shutoff <==> domain.spec.shutoff)
      ensures c.sure && old(Current(c.w, me, domain.version)) && Unblocked(old(c.w), me, domain, read) ==>
                result == Done
      ensures c.alone && !domain.deleting && read.Some? && (read.value == Shutoff <==> domain.spec.shutoff) ==>
                c.hostCalls == old(c.hostCalls)
      ensures c.sure && old(Current(c.w, me, domain.version)) && read.Some? && read.value != Shutoff
              && (if domain.deleting then domain.finalizer else domain.spec.shutoff) ==>
                && Followed(old(c.looks), c.looks, result)
                && c.hostCalls == old(c.hostCalls) + [RequestShutdown(me)]
                                    + (if domain.deleting && result == Done then [Event.Undefine(me)] else [])
      ensures c.alone && result == Done && domain.deleting && domain.finalizer ==> me !in c.w.objs
      ensures result == Done ==> c.missed == old(c.missed)
    {
      if domain.deleting {
        if !domain.finalizer { return Done; }
        result := Leave(me, domain, seat, read);
        return;
      }
      if read.Some? {
        result := Keep(me, domain, seat, read.value);
      } else {
        result := Create(me, domain, seat);
      }
    }

    /** A domain that is not being deleted and is there. */
    method Keep(me: Key, domain: Object, seat: Seat, power: Power) returns (result: Outcome)
      requires c.Valid() && me.Dom? && Looked(c.w, me, domain, seat, Some(power)) && !domain.deleting
      requires c.alone ==> seat in c.w.domains && c.w.domains[seat].power == power
      modifies c
      ensures c.Valid()
      ensures c.alone ==> Tidy(me, old(c.w), c.w) && c.w.volumes == old(c.w.volumes)
      ensures result == Done ==> IsReady(c.w, me)
      ensures c.alone && result == Done ==>
                seat in c.w.domains && (c.w.domains[seat].power == Shutoff <==> domain.spec.shutoff)
      ensures c.alone && domain.ready && domain.finalizer ==> c.w.objs == old(c.w.objs)
      ensures c.sure && old(Current(c.w, me, domain.version)) && (domain.spec.shutoff ==> power == Shutoff) ==>
                result == Done
      ensures c.alone && (power == Shutoff <==> domain.spec.shutoff) ==> c.hostCalls == old(c.hostCalls)
      ensures c.sure && old(Current(c.w, me, domain.version)) && power != Shutoff && domain.spec.shutoff ==>
                && Followed(old(c.looks), c.looks, result)
                && c.hostCalls == old(c.hostCalls) + [RequestShutdown(me)]
      ensures result == Done ==> c.missed == old(c.missed)
    {
      ghost var w0 := c.w;
      var ok, o := Finalize(c, me, domain);
      if !ok { return Failed(CallFailed); }
      assert SeatIs(c.w, me, seat, true);
      ghost var w1 := c.w;
      result := Existing(me, o, seat, power);
      if c.alone { TidyAfter(me, w0, w1, c.w); }
    }

    /** A domain that is not being deleted and is not there. */
    method Create(me: Key, domain: Object, seat: Seat) returns (result: Outcome)
      requires c.Valid() && me.Dom? && Looked(c.w, me, domain, seat, None) && !domain.deleting
      modifies c
      ensures c.Valid()
      ensures c.alone ==> Tidy(me, old(c.w), c.w) && c.w.volumes == old(c.w.volumes)
      ensures result == Done ==> IsReady(c.w, me) && Host(domain.spec.host) in c.w.objs[me].labels
      ensures c.alone ==> Defined(old(c.w), c.w, me, domain, seat, old(c.hostCalls), c.hostCalls, result)
      ensures c.alone && result == Requeue ==> !IsReady(c.w, me)
      ensures c.sure && old(Current(c.w, me, domain.version)) ==>
                result == FirstFault(old(c.w), Needs(domain.spec), domain.spec.host).GetOr(Done)
      ensures result == Done ==> c.missed == old(c.missed)
    {
      ghost var w0 := c.w;
      var ok, o := Finalize(c, me, domain);
      if !ok { return Failed(CallFailed); }
      assert SeatIs(c.w, me, seat, false);
      ghost var w1 := c.w;
      if c.alone { FirstFaultKept(me, w0, w1, Needs(domain.spec), domain.spec.host); }
      result := Build(me, o, seat);
      if c.alone {
        DefinedFrom(w0, w1, c.w, me, domain, o, seat, old(c.hostCalls), c.hostCalls, result);
        TidyAfter(me, w0, w1, c.w);
      }
    }

    static predicate Smooth(w: World, me: Key) {
      && SeatOf(w, me).Some?
      && var s := SeatOf(w, me).value;
      Unblocked(w, me, w.objs[me], if s in w.domains then Some(w.domains[s].power) else None)
    }

    method Work(me: Key) returns (result: Outcome)
      requires c.Valid() && me.Dom? && Rested(c.w, me)
      modifies c
      ensures c.Valid()
      ensures c.alone ==> Tidy(me, old(c.w), c.w)
      ensures c.alone && result == Done ==> Fulfilled(old(c.w), c.w, me)
      ensures c.sure && old(Smooth(c.w, me)) ==> result == Done
      ensures c.sure && old(MustGoOff(c.w, me)) ==>
                && Followed(old(c.looks + [c.w.domains[SeatOf(c.w, me).value].power]), c.looks, result)
                && c.hostCalls == old(c.hostCalls) + [RequestShutdown(me)]
                    + (if result == Done && old(c.w.objs[me].deleting) then [Event.Undefine(me)] else [])
      ensures c.sure && result == Requeue && old(Undefined(c.w, me)) ==> !IsReady(c.w, me)
      ensures c.alone && old(Settled(c.w, me) && c.w.objs[me].ready && c.w.objs[me].finalizer) ==>
                c.w.objs == old(c.w.objs)
      ensures c.sure && old(Undefined(c.w, me)) ==>
                result == old(CreationFault(c.w, me)).GetOr(Done)
      ensures c.alone && old(Undefined(c.w, me)) ==>
                Defined(old(c.w), c.w, me, old(c.w.objs[me]), old(SeatOf(c.w, me).value), old(c.hostCalls), c.hostCalls,
                        result)
      ensures c.alone && old(Settled(c.w, me)) ==> c.hostCalls == old(c.hostCalls)
      ensures c.alone && result == Done && old(Leaving(c.w, me)) ==> me !in c.w.objs
      ensures result == Done ==> c.missed == old(c.missed)
    {
      var stop, o := Resolve(me);
      if stop.Some? { return stop.value; }
      var seat := Seat(o.spec.host, o.spec.name);
      var ok, read := LookUpDomain(me, o, seat);
      if !ok { return Failed(CallFailed); }
      if c.alone { SeatKnown(c.w, me, o); }
      ghost var w1 := c.w;
      if c.alone { FirstFaultKept(me, old(c.w), w1, Needs(o.spec), o.spec.host); }
      result := Act(me, o, seat, read);
      if c.alone {
        if old(Undefined(c.w, me)) {
          DefinedFrom(old(c.w), w1, c.w, me, o, o, seat, old(c.hostCalls), c.hostCalls, result);
        }
        TidyAfter(me, old(c.w), w1, c.w);
        if result == Done && old(Undefined(c.w, me)) { Thereafter(me, old(c.w), c.w, o.spec); }
      }
    }

    /** One reconcile. With the cluster to itself it defines the domain with the disks its spec lists and leaves it on
     *  or off as asked, calls nothing that changes the host if that is so already, asks a guest that has to go off once
     *  and goes by what it sees, and takes a deleted domain off the host before its object goes. */
    method Reconcile(name: string) returns (result: Outcome)
      requires c.Valid() && Rested(c.w, Dom(name))
      modifies c
      ensures c.Valid() && Rested(c.w, Dom(name))
      ensures c.alone ==> SameWishes(old(c.w), c.w)
      ensures c.alone && old(Solo(c.w, Dom(name))) ==>
                c.w.overlapped == old(c.w.overlapped) && c.w.attaching == {} && c.w.windows == {}
      ensures c.alone && result == Done ==> Fulfilled(old(c.w), c.w, Dom(name))
      ensures c.sure && old(Smooth(c.w, Dom(name))) ==> result == Done
      ensures c.sure && old(MustGoOff(c.w, Dom(name))) ==>
                && Followed(old(c.looks + [c.w.domains[SeatOf(c.w, Dom(name)).value].power]), c.looks, result)
                && c.hostCalls == old(c.hostCalls) + [RequestShutdown(Dom(name))]
                    + (if result == Done && old(c.w.objs[Dom(name)].deleting) then [Event.Undefine(Dom(name))] else [])
      ensures c.sure && result == Requeue && old(Undefined(c.w, Dom(name))) ==> !IsReady(c.w, Dom(name))
      ensures c.alone && old(Settled(c.w, Dom(name)) && c.w.objs[Dom(name)].ready && c.w.objs[Dom(name)].finalizer) ==>
                c.w.objs == old(c.w.objs)
      ensures c.sure && old(Undefined(c.w, Dom(name))) ==>
                result == old(CreationFault(c.w, Dom(name))).GetOr(Done)
      ensures c.alone && old(Undefined(c.w, Dom(name))) ==>
                Defined(old(c.w), c.w, Dom(name), old(c.w.objs[Dom(name)]), old(SeatOf(c.w, Dom(name)).value),
                        old(c.hostCalls), c.hostCalls, result)
      ensures c.alone && old(Settled(c.w, Dom(name))) ==> c.hostCalls == old(c.hostCalls)
      ensures c.alone && result == Done && old(Leaving(c.w, Dom(name))) ==>
                Dom(name) !in c.w.objs
      ensures result == Done ==> c.missed == old(c.missed)
    {
      result := Work(Dom(name));
      c.Close(Dom(name));
    }
  }

  /** The object is stored and not being deleted. */
  predicate Asked(w: World, me: Key) {
    SeatOf(w, me).Some? && !w.objs[me].deleting
  }

  /** The object is stored and not being deleted, and there is no domain yet. */
  predicate Undefined(w: World, me: Key) {
    Asked(w, me) && w.objs[me].spec.DomainSpec? && SeatOf(w, me).value !in w.domains
  }

  /** What keeps the reconcile of such an object from defining the domain. */
  function CreationFault(w: World, me: Key): Option<Outcome> {
    if Undefined(w, me) then FirstFault(w, Needs(w.objs[me].spec), w.objs[me].spec.host) else None
  }

  /** If the first thing amiss with what a new domain lists is a network or PCI device, the reconcile says so: missing,
   *  on another host, or not ready. */
  lemma DeviceDecides(w: World, me: Key, i: nat)
    requires Undefined(w, me)
    requires var keys, host := Needs(w.objs[me].spec), w.objs[me].spec.host;
             i < |keys| && IsDevice(keys[i]) && forall j :: 0 <= j < i ==> Fault(w, keys[j], host).None?
    ensures var k, host := Needs(w.objs[me].spec)[i], w.objs[me].spec.host;
            && (k !in w.objs ==> CreationFault(w, me) == Some(Failed(NotFound)))
            && (k in w.objs && w.objs[k].spec.DeviceSpec? ==>
                  && (w.objs[k].spec.host != host ==> CreationFault(w, me) == Some(Failed(DeviceNotSameHost)))
                  && (w.objs[k].spec.host == host && !w.objs[k].ready ==> CreationFault(w, me) == Some(Requeue)))
  {
    FirstFaultAt(w, Needs(w.objs[me].spec), i, w.objs[me].spec.host);
  }

  /** The domain exists and is on or off as its spec asks. */
  predicate Settled(w: World, me: Key) {
    Asked(w, me) &&
    var s := SeatOf(w, me).value;
    s in w.domains && (w.domains[s].power == Shutoff <==> w.objs[me].spec.shutoff)
  }

  /** What the spec stored in `w` asks for is what there is in `n`; a new domain has the disks its spec lists, and all
   *  it lists is ready on its host. */
  ghost predicate Fulfilled(w: World, n: World, me: Key) {
    Asked(w, me) ==>
      var s := SeatOf(w, me).value;
      && s in n.domains && (n.domains[s].power == Shutoff <==> w.objs[me].spec.shutoff)
      && IsReady(n, me)
      && (s !in w.domains ==> Chosen(w.volumes, DiskKeys(w.objs[me].spec), n.domains[s].disks)
                              && Host(w.objs[me].spec.host) in n.objs[me].labels
                              && AllThere(n, w.objs[me].spec))
  }

  /** After a successful reconcile there is nothing to be done: the next one makes no call that changes the host. */
  lemma DoneIsSettled(w: World, n: World, me: Key)
    requires Inv(w) && Inv(n) && SameWishes(w, n) && Asked(w, me) && Fulfilled(w, n, me)
    ensures Settled(n, me)
  {
    var s := SeatOf(w, me).value;
    var k := n.domains[s].owner;
    assert SeatOf(n, k) == Some(s) && SeatOf(w, k) == Some(s);
    assert SameClaim(k, w.objs[k].spec, me, w.objs[me].spec);
  }
}
