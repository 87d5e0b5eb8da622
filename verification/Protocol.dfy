/** The cluster's API store and the hosts as one state, and every single API or host call as an event on it.
 *
 *  An event carries two guards. `Feasible` is what the API server or the host itself enforces; for the events of
 *  users it also holds the standing assumptions about them. `Duty` is what the controller that issues the call owes
 *  the protocol: it is never assumed, each controller method has to prove it where it makes the call.
 */
module Protocol {
  import opened Common

  // ---------- API objects ----------

  /** One name space per resource kind. */
  datatype Key =
    | Vol(name: string) | Ci(name: string) | Pool(name: string) | Dom(name: string)
    | Net(name: string) | Pci(name: string) | Host(name: string)

  /** A storage pool of a host. */
  datatype Place = Place(host: string, pool: string)

  datatype Size = Size(value: nat, unit: string)

  datatype Spec =
    | VolumeSpec(pool: string, name: string, remote: bool, backing: Option<string>, size: Option<Size>)
    | CloudInitSpec(pool: string, name: string)
    | DomainSpec(host: string, name: string, disks: seq<string>, cloudInit: Option<string>,
                 nets: seq<string>, pcis: seq<string>, shutoff: bool)
    | PoolSpec(place: Place)
    | DeviceSpec(host: string, name: string)

  /** `labels` holds the objects this one declares itself to refer to; `ready` and `place` are its status. */
  datatype Object = Object(version: nat, finalizer: bool, deleting: bool, labels: set<Key>, spec: Spec,
                           ready: bool, place: Option<Place>)

  // ---------- hosts ----------

  /** A volume's key equals its path. */
  datatype Path = Path(place: Place, name: string)
  datatype Seat = Seat(host: string, name: string)
  datatype Power = Running | Shutoff | OtherState
  datatype Kind = File | Block | OtherKind

  /** What a host offers and the operator only probes: a pool, a network or a PCI device. */
  datatype Offer = PoolAt(place: Place) | NetAt(host: string, name: string) | PciAt(host: string, name: string)

  /** A path together with the API object it was looked up for. */
  datatype Link = Link(ref: Key, path: Path)

  /** `owner` and `born` record which object created the volume and when; `recent` lasts for that reconcile, and
   *  `filled` tells whether anything has been uploaded to it. */
  datatype Volume = Volume(owner: Key, kind: Kind, bytes: nat, backing: Option<Link>, born: nat,
                           recent: bool, filled: bool)
  datatype Domain = Domain(owner: Key, disks: seq<Link>, power: Power)

  // ---------- the whole state ----------

  /** `Edge(from, to)`: a reconcile of `from` has read the object `to` and has not yet persisted a label for it. */
  datatype Edge = Edge(from: Key, to: Key)

  /** A reconcile of `key` is between listing its referrers and acting on the answer. A deletion window lasts until the
   *  finalizer is off. */
  datatype Window = Deleting(key: Key) | Resizing(key: Key)

  /** `attaching` holds the references being made now, `found` those of them whose host copy has been looked up, and
   *  `windows` the deletions and resizes under way; `overlapped` remembers every window that ever coincided with a
   *  reference being made to the same object. `bound` remembers where each pool name points; `offers` are
   *  the pools, networks and PCI devices of the hosts and whether they are active. */
  datatype World = World(
    objs: map<Key, Object>,
    bound: map<string, Place>,
    offers: map<Offer, bool>,
    volumes: map<Path, Volume>,
    domains: map<Seat, Domain>,
    clock: nat,
    attaching: set<Edge>,
    found: set<Edge>,
    windows: set<Window>,
    overlapped: set<Window>,
    seen: map<Key, Power>)

  type Objects = map<Key, Object>
  type Bindings = map<string, Place>
  type Volumes = map<Path, Volume>
  type Seats = map<Seat, Domain>

  const INITIAL: World := World(map[], map[], map[], map[], map[], 0, {}, {}, {}, {}, map[])

  predicate IsStorage(k: Key) { k.Vol? || k.Ci? }

  predicate KindOk(k: Key, spec: Spec) {
    match k
    case Vol(_) => spec.VolumeSpec?
    case Ci(_) => spec.CloudInitSpec?
    case Pool(_) => spec.PoolSpec?
    case Dom(_) => spec.DomainSpec?
    case Net(_) => spec.DeviceSpec?
    case Pci(_) => spec.DeviceSpec?
    case Host(_) => false
  }

  /** Everything of a spec that may not be edited. */
  function Core(spec: Spec): Spec {
    match spec
    case VolumeSpec(_, _, _, _, _) => spec.(size := None)
    case DomainSpec(_, _, _, _, _, _, _) => spec.(shutoff := false)
    case _ => spec
  }

  /** Where the host copy of a volume or cloud-init lives. */
  function PathIn(objs: Objects, bound: Bindings, k: Key): Option<Path> {
    if k in objs && IsStorage(k) && KindOk(k, objs[k].spec) && objs[k].spec.pool in bound
    then Some(Path(bound[objs[k].spec.pool], objs[k].spec.name))
    else None
  }

  function SeatIn(objs: Objects, k: Key): Option<Seat> {
    if k in objs && k.Dom? && KindOk(k, objs[k].spec) then Some(Seat(objs[k].spec.host, objs[k].spec.name)) else None
  }

  function PathOf(w: World, k: Key): Option<Path> { PathIn(w.objs, w.bound, k) }

  function SeatOf(w: World, k: Key): Option<Seat> { SeatIn(w.objs, k) }

  predicate Present(w: World, k: Key) {
    PathOf(w, k).Some? && PathOf(w, k).value in w.volumes
  }

  /** The host has what the object stands for. */
  predicate There(w: World, k: Key) {
    (IsStorage(k) ==> Present(w, k)) && (k.Dom? ==> SeatOf(w, k).Some? && SeatOf(w, k).value in w.domains)
  }

  /** Kinds whose deletion asks first whether they are referred to. */
  predicate IsGuarded(k: Key) { IsStorage(k) || IsProbed(k) }

  /** Kinds that stand for an offer of a host. */
  predicate IsProbed(k: Key) { k.Pool? || IsDevice(k) }

  predicate IsDevice(k: Key) { k.Net? || k.Pci? }

  /** The object is stored and cannot vanish without its own reconciler. */
  predicate Anchored(objs: Objects, k: Key) {
    IsGuarded(k) ==> k in objs && objs[k].finalizer
  }

  /** What a reference needs of its target: a host copy, or for a pool its object. */
  predicate Live(objs: Objects, bound: Bindings, volumes: Volumes, k: Key) {
    if IsStorage(k) then PathIn(objs, bound, k).Some? && PathIn(objs, bound, k).value in volumes
    else Anchored(objs, k)
  }

  function Referrers(w: World, k: Key): set<Key> {
    set o | o in w.objs && k in w.objs[o].labels
  }

  function Overlays(w: World, k: Key): set<Key> {
    set o | o in Referrers(w, k) && o.Vol?
  }

  function Domains(w: World, k: Key): set<Key> {
    set o | o in Referrers(w, k) && o.Dom?
  }

  /** Everything a domain's definition needs. */
  function References(spec: Spec): set<Key>
    requires spec.DomainSpec?
  {
    (set n | n in spec.disks :: Vol(n)) + (set n | n in spec.nets :: Net(n)) + (set n | n in spec.pcis :: Pci(n))
    + (if spec.cloudInit.Some? then {Ci(spec.cloudInit.value)} else {})
  }

  /** Everything a spec refers to; labels never say more. */
  function Mentions(spec: Spec): (refs: set<Key>)
    ensures forall r :: r in refs ==> !r.Dom?
  {
    match spec
    case VolumeSpec(pool, _, _, backing, _) => {Pool(pool)} + (if backing.Some? then {Vol(backing.value)} else {})
    case CloudInitSpec(pool, _) => {Pool(pool)}
    case DomainSpec(host, _, _, _, _, _, _) => References(spec) + {Host(host)}
    case _ => {}
  }

  /** A link is as good as its target: unless the target's deletion window has overlapped, the path is still there. */
  predicate Resolves(volumes: Volumes, overlapped: set<Window>, l: Link) {
    Deleting(l.ref) !in overlapped ==> l.path in volumes && volumes[l.path].owner == l.ref
  }

  /** What a domain refers to is on its own host. */
  predicate Nearby(w: World, k: Key, spec: Spec, to: Key) {
    k.Dom? && (IsStorage(to) || IsDevice(to)) && Deleting(to) !in w.overlapped ==>
      && spec.DomainSpec?
      && (IsStorage(to) ==> PathOf(w, to).Some? && PathOf(w, to).value.place.host == spec.host)
      && (IsDevice(to) ==> to in w.objs && w.objs[to].spec.DeviceSpec? && w.objs[to].spec.host == spec.host)
  }

  /** The copy is neither a file nor a block device, so it cannot become a disk. */
  predicate Unattachable(volumes: Volumes, key: Key) {
    exists p :: p in volumes && volumes[p].owner == key && volumes[p].kind == OtherKind
  }

  /** The definition has a disk for the volume or cloud-init, unless there cannot be one. */
  predicate Carried(volumes: Volumes, overlapped: set<Window>, disks: seq<Link>, key: Key) {
    Deleting(key) in overlapped || Unattachable(volumes, key) || exists l :: l in disks && l.ref == key
  }

  /** So it is with everything the spec lists. */
  predicate Equipped(volumes: Volumes, overlapped: set<Window>, disks: seq<Link>, spec: Spec)
    requires spec.DomainSpec?
  {
    forall r :: r in References(spec) && IsStorage(r) ==> Carried(volumes, overlapped, disks, r)
  }

  // ---------- events ----------

  datatype Event =
    // users, guests and hosts
    | Create(key: Key, spec: Spec)
    | Delete(key: Key)
    | EditSize(key: Key, size: Option<Size>)
    | EditShutoff(key: Key, off: bool)
    | PowerChange(seat: Seat, power: Power)
    | OfferChange(at: Offer, active: bool)
    // API calls of the reconciler of `key`
    | AddFinalizer(key: Key, version: nat)
    | AddLabel(key: Key, version: nat, to: Key)
    | SetStatus(key: Key, version: nat, ready: bool, place: Option<Place>)
    | RemoveFinalizer(key: Key, version: nat)
    // host calls of the reconciler of `key`
    | CreateVolume(key: Key, kind: Kind, bytes: nat, backing: Option<Link>)
    | Upload(key: Key, bytes: nat)
    | Resize(key: Key, bytes: nat)
    | BlockResize(key: Key, bytes: nat, seat: Seat, disk: nat)
    | DeleteVolume(key: Key)
    | Define(key: Key, disks: seq<Link>)
    | Start(key: Key)
    | RequestShutdown(key: Key)
    | Observe(key: Key)
    | Undefine(key: Key)
    // bookkeeping at the read calls of the reconciler of `key`
    | OpenEdge(key: Key, to: Key)
    | FindEdge(key: Key, to: Key)
    | OpenWindow(key: Key, window: Window)
    | CloseWindow(key: Key, window: Window)
    | Finish(key: Key)

  /** The reconciler that issues the event; None for users, guests and hosts. */
  function Actor(e: Event): Option<Key> {
    match e
    case Create(_, _) => None
    case Delete(_) => None
    case EditSize(_, _) => None
    case EditShutoff(_, _) => None
    case PowerChange(_, _) => None
    case OfferChange(_, _) => None
    case _ => Some(e.key)
  }

  /** The two ways to grow a copy: as a volume, or as the disk of a running domain. */
  predicate Grows(e: Event) { e.Resize? || e.BlockResize? }

  predicate IsHostCall(e: Event) {
    e.CreateVolume? || e.Upload? || Grows(e) || e.DeleteVolume?
    || e.Define? || e.Start? || e.RequestShutdown? || e.Undefine?
  }

  /** Admission: the validating webhooks refuse a name in use, distinct pools are distinct places, a pool name is
   *  never re-bound, and cloud-init and volume names of one pool do not collide. */
  predicate Admissible(w: World, k: Key, spec: Spec) {
    && KindOk(k, spec)
    && (forall o :: o in w.objs ==> !SameClaim(k, spec, o, w.objs[o].spec))
    && (k.Pool? ==> forall p :: p in w.bound ==> (p == k.name <==> w.bound[p] == spec.place))
  }

  /** The object is stored and still carries the version the caller read. */
  predicate Current(w: World, k: Key, version: nat) {
    k in w.objs && w.objs[k].version == version
  }

  /** The domain runs, and its `i`-th disk is at `p`. */
  predicate IsDiskAt(w: World, s: Seat, i: nat, p: Path) {
    s in w.domains && w.domains[s].power == Running && i < |w.domains[s].disks| && w.domains[s].disks[i].path == p
  }

  predicate Feasible(w: World, e: Event) {
    match e
    case Create(k, spec) => k !in w.objs && Admissible(w, k, spec)
    case Delete(k) => k in w.objs
    case EditSize(k, _) => k in w.objs && w.objs[k].spec.VolumeSpec?
    case EditShutoff(k, _) => k in w.objs && w.objs[k].spec.DomainSpec?
    case PowerChange(s, _) => s in w.domains
    case AddFinalizer(k, v) => Current(w, k, v) && !w.objs[k].deleting
    case AddLabel(k, v, _) => Current(w, k, v)
    case SetStatus(k, v, _, _) => Current(w, k, v)
    case RemoveFinalizer(k, v) => Current(w, k, v) && w.objs[k].deleting
    case CreateVolume(k, _, _, _) => PathOf(w, k).Some? && PathOf(w, k).value !in w.volumes
    case Upload(k, _) => Present(w, k)
    case Resize(k, _) => Present(w, k)
    case BlockResize(k, _, s, i) => Present(w, k) && IsDiskAt(w, s, i, PathOf(w, k).value)
    case DeleteVolume(k) => Present(w, k)
    case Define(k, _) => SeatOf(w, k).Some? && SeatOf(w, k).value !in w.domains
    case Start(k) => SeatOf(w, k).Some? && SeatOf(w, k).value in w.domains
    case RequestShutdown(k) => SeatOf(w, k).Some? && SeatOf(w, k).value in w.domains
    case Observe(k) => SeatOf(w, k).Some? && SeatOf(w, k).value in w.domains
    case Undefine(k) => SeatOf(w, k).Some? && SeatOf(w, k).value in w.domains
    case _ => true
  }

  predicate MayLabel(w: World, k: Key, to: Key) {
    && k in w.objs && w.objs[k].finalizer && to in Mentions(w.objs[k].spec)
    && (IsGuarded(to) ==> Edge(k, to) in w.attaching)
    && (IsStorage(to) && Deleting(to) !in w.overlapped ==> Edge(k, to) in w.found)
    && Nearby(w, k, w.objs[k].spec, to)
  }

  predicate MayReport(w: World, k: Key, ready: bool, place: Option<Place>) {
    ready && k in w.objs ==> StatusOk(k, w.objs[k].(place := place), w.bound) && (w.objs[k].deleting || There(w, k))
  }

  predicate MayRelease(w: World, k: Key) {
    && (IsStorage(k) ==> !Present(w, k))
    && (k.Dom? ==> SeatOf(w, k).Some? && SeatOf(w, k).value !in w.domains)
    && (IsGuarded(k) ==> Deleting(k) in w.windows)
    && (IsProbed(k) && Deleting(k) !in w.overlapped ==> Referrers(w, k) == {})
  }

  predicate MayCreate(w: World, k: Key, backing: Option<Link>) {
    && k in w.objs && w.objs[k].finalizer
    && (k.Vol? ==> w.objs[k].spec.VolumeSpec? && Pool(w.objs[k].spec.pool) in w.objs[k].labels)
    && (k.Ci? ==> backing.None?)
    && (backing.Some? ==>
          && k.Vol? && w.objs[k].spec.VolumeSpec?
          && backing.value.ref.Vol? && w.objs[k].spec.backing == Some(backing.value.ref.name)
          && backing.value.ref in w.objs[k].labels
          && Resolves(w.volumes, w.overlapped, backing.value)
          && w.objs[k].spec.pool in w.bound && w.bound[w.objs[k].spec.pool].host == backing.value.path.place.host)
  }

  predicate MayUpload(w: World, k: Key) {
    Present(w, k) && w.volumes[PathOf(w, k).value].recent
  }

  predicate MayResize(w: World, k: Key, bytes: nat) {
    && Present(w, k) && w.volumes[PathOf(w, k).value].bytes < bytes
    && Resizing(k) in w.windows && (Resizing(k) !in w.overlapped ==> Overlays(w, k) == {})
  }

  predicate MayDelete(w: World, k: Key) {
    && k in w.objs && w.objs[k].deleting
    && Deleting(k) in w.windows && (Deleting(k) !in w.overlapped ==> Referrers(w, k) == {})
  }

  predicate MayDefine(w: World, k: Key, disks: seq<Link>) {
    && k in w.objs && w.objs[k].finalizer && w.objs[k].spec.DomainSpec?
    && References(w.objs[k].spec) <= w.objs[k].labels
    && (forall l :: l in disks ==>
          && l.ref in References(w.objs[k].spec) && l.path.place.host == w.objs[k].spec.host
          && Resolves(w.volumes, w.overlapped, l))
    && Equipped(w.volumes, w.overlapped, disks, w.objs[k].spec)
  }

  predicate MayUndefine(w: World, k: Key) {
    k in w.objs && w.objs[k].deleting && k in w.seen && w.seen[k] == Shutoff
  }

  predicate Duty(w: World, e: Event) {
    match e
    case AddLabel(k, _, to) => MayLabel(w, k, to)
    case SetStatus(k, _, ready, place) => MayReport(w, k, ready, place)
    case RemoveFinalizer(k, _) => MayRelease(w, k)
    case CreateVolume(k, _, _, backing) => MayCreate(w, k, backing)
    case Upload(k, _) => MayUpload(w, k)
    case Resize(k, bytes) => MayResize(w, k, bytes)
    case BlockResize(k, bytes, _, _) => MayResize(w, k, bytes)
    case DeleteVolume(k) => MayDelete(w, k)
    case Define(k, disks) => MayDefine(w, k, disks)
    case Undefine(k) => MayUndefine(w, k)
    case OpenEdge(_, to) => Anchored(w.objs, to)
    case FindEdge(k, to) => Edge(k, to) in w.attaching && Live(w.objs, w.bound, w.volumes, to)
    case OpenWindow(k, win) => win.key == k
    case CloseWindow(k, win) => win.key == k
    case _ => true
  }

  predicate Enabled(w: World, e: Event) { Feasible(w, e) && Duty(w, e) }

  /** Stores an object under a new version. */
  function Put(w: World, k: Key, o: Object): World {
    w.(objs := w.objs[k := o.(version := w.clock)], clock := w.clock + 1)
  }

  function Patch(w: World, p: Path, v: Volume): World { w.(volumes := w.volumes[p := v]) }

  /** The windows on `to` that a new reference by `from` coincides with. */
  function Touched(w: World, from: Key, to: Key): set<Window> {
    (if Deleting(to) in w.windows then {Deleting(to)} else {})
    + (if Resizing(to) in w.windows && from.Vol? then {Resizing(to)} else {})
  }

  predicate Contended(w: World, win: Window) {
    exists a :: a in w.attaching && a.to == win.key && (win.Deleting? || a.from.Vol?)
  }

  function Apply(w: World, e: Event): World
    requires Enabled(w, e)
  {
    match e
    case Create(k, spec) =>
      Put(w, k, Object(0, false, false, {}, spec, false, None))
        .(bound := if spec.PoolSpec? then w.bound[k.name := spec.place] else w.bound)
    case Delete(k) =>
      if w.objs[k].finalizer then Put(w, k, w.objs[k].(deleting := true)) else w.(objs := w.objs - {k})
    case EditSize(k, size) => Put(w, k, w.objs[k].(spec := w.objs[k].spec.(size := size)))
    case EditShutoff(k, off) => Put(w, k, w.objs[k].(spec := w.objs[k].spec.(shutoff := off)))
    case PowerChange(s, power) => w.(domains := w.domains[s := w.domains[s].(power := power)])
    case OfferChange(at, active) => w.(offers := w.offers[at := active])
    case AddFinalizer(k, _) => Put(w, k, w.objs[k].(finalizer := true))
    case AddLabel(k, _, to) =>
      Put(w, k, w.objs[k].(labels := w.objs[k].labels + {to}))
        .(attaching := w.attaching - {Edge(k, to)}, found := w.found - {Edge(k, to)})
    case SetStatus(k, _, ready, place) => Put(w, k, w.objs[k].(ready := ready, place := place))
    case RemoveFinalizer(k, _) => w.(objs := w.objs - {k})
    case CreateVolume(k, kind, bytes, backing) =>
      Patch(w, PathOf(w, k).value, Volume(k, kind, bytes, backing, w.clock, true, false)).(clock := w.clock + 1)
    case Upload(k, bytes) =>
      Patch(w, PathOf(w, k).value, w.volumes[PathOf(w, k).value].(bytes := bytes, filled := true))
    case Resize(k, bytes) => Patch(w, PathOf(w, k).value, w.volumes[PathOf(w, k).value].(bytes := bytes))
    case BlockResize(k, bytes, _, _) => Patch(w, PathOf(w, k).value, w.volumes[PathOf(w, k).value].(bytes := bytes))
    case DeleteVolume(k) => w.(volumes := w.volumes - {PathOf(w, k).value})
    case Define(k, disks) =>
      w.(domains := w.domains[SeatOf(w, k).value := Domain(k, disks, Shutoff)], seen := w.seen - {k})
    case Start(k) =>
      w.(domains := w.domains[SeatOf(w, k).value := w.domains[SeatOf(w, k).value].(power := Running)])
    case RequestShutdown(_) => w
    case Observe(k) => w.(seen := w.seen[k := w.domains[SeatOf(w, k).value].power])
    case Undefine(k) => w.(domains := w.domains - {SeatOf(w, k).value})
    case OpenEdge(k, to) =>
      w.(attaching := w.attaching + {Edge(k, to)}, overlapped := w.overlapped + Touched(w, k, to))
    case FindEdge(k, to) => w.(found := w.found + {Edge(k, to)})
    case OpenWindow(k, win) =>
      w.(windows := w.windows + {win}, overlapped := if Contended(w, win) then w.overlapped + {win} else w.overlapped)
    case CloseWindow(k, win) => w.(windows := w.windows - {win})
    case Finish(k) =>
      w.(attaching := (set a | a in w.attaching && a.from != k),
         found := (set a | a in w.found && a.from != k),
         windows := w.windows - {Deleting(k), Resizing(k)},
         volumes := map p | p in w.volumes ::
                      if w.volumes[p].owner == k then w.volumes[p].(recent := false) else w.volumes[p])
  }

  // ---------- runs ----------

  /** Every event of the run is enabled where it happens. */
  ghost predicate Run(w: World, events: seq<Event>)
    decreases |events|
  {
    events == [] || (Enabled(w, events[0]) && Run(Apply(w, events[0]), events[1..]))
  }

  ghost function After(w: World, events: seq<Event>): World
    requires Run(w, events)
    decreases |events|
  {
    if events == [] then w else After(Apply(w, events[0]), events[1..])
  }

  ghost predicate Reachable(w: World) {
    exists events :: Run(INITIAL, events) && After(INITIAL, events) == w
  }

  // ---------- the inductive invariant ----------

  ghost predicate Sound(objs: Objects, bound: Bindings, clock: nat) {
    && (forall k :: k in objs ==> objs[k].version < clock && KindOk(k, objs[k].spec))
    && (forall k :: k in objs && objs[k].labels != {} ==> objs[k].finalizer)
    && (forall k :: k in objs ==> objs[k].labels <= Mentions(objs[k].spec))
    && (forall k :: k in objs && k.Pool? ==>
          KindOk(k, objs[k].spec) && k.name in bound && bound[k.name] == objs[k].spec.place)
    && (forall k :: k in objs && objs[k].ready ==> StatusOk(k, objs[k], bound))
  }

  /** What is ready carries the finalizer; a ready volume or cloud-init reports the place its pool is bound to. */
  predicate StatusOk(k: Key, o: Object, bound: Bindings) {
    && (IsGuarded(k) ==> o.finalizer)
    && (IsStorage(k) ==>
          KindOk(k, o.spec) && o.spec.pool in bound && o.place == Some(bound[o.spec.pool]))
  }

  /** Both specs claim the same name in the same pool, or on the same host. */
  predicate SameClaim(k: Key, s: Spec, l: Key, t: Spec) {
    && KindOk(k, s) && KindOk(l, t)
    && ((IsStorage(k) && IsStorage(l) && s.pool == t.pool && s.name == t.name)
        || (k.Dom? && l.Dom? && s.host == t.host && s.name == t.name))
  }

  ghost predicate Unique(objs: Objects, bound: Bindings) {
    && (forall p, q :: p in bound && q in bound && bound[p] == bound[q] ==> p == q)
    && (forall k, l :: k in objs && l in objs && SameClaim(k, objs[k].spec, l, objs[l].spec) ==> k == l)
  }

  /** No orphans: whatever the operator created on a host belongs to a stored object that carries the finalizer. */
  ghost predicate NoOrphans(objs: Objects, bound: Bindings, volumes: Volumes, domains: Seats) {
    && (forall p :: p in volumes ==>
          && IsStorage(volumes[p].owner) && volumes[p].owner in objs && objs[volumes[p].owner].finalizer
          && PathIn(objs, bound, volumes[p].owner) == Some(p))
    && (forall s :: s in domains ==>
          && domains[s].owner.Dom? && domains[s].owner in objs && objs[domains[s].owner].finalizer
          && SeatIn(objs, domains[s].owner) == Some(s))
  }

  /** Write-ahead references: a host object never refers to anything its API object has not labelled before. */
  ghost predicate WriteAhead(objs: Objects, volumes: Volumes, domains: Seats) {
    && (forall p :: p in volumes && volumes[p].owner in objs ==>
          VolumeLabelled(objs[volumes[p].owner], volumes[p], p))
    && (forall s :: s in domains && domains[s].owner in objs ==>
          DomainLabelled(objs[domains[s].owner], domains[s], s))
  }

  predicate VolumeLabelled(o: Object, v: Volume, p: Path) {
    && (v.owner.Vol? ==> o.spec.VolumeSpec? && Pool(o.spec.pool) in o.labels)
    && (v.backing.Some? ==>
          && v.owner.Vol? && o.spec.VolumeSpec?
          && v.backing.value.ref.Vol? && o.spec.backing == Some(v.backing.value.ref.name)
          && v.backing.value.ref in o.labels
          && v.backing.value.path.place.host == p.place.host)
  }

  predicate DomainLabelled(o: Object, d: Domain, s: Seat) {
    && o.spec.DomainSpec?
    && References(o.spec) <= o.labels
    && (forall l :: l in d.disks ==> l.ref in References(o.spec) && l.path.place.host == s.host)
  }

  /** Labels point at live targets, and references being made at stored ones. */
  ghost predicate Targets(objs: Objects, bound: Bindings, volumes: Volumes, attaching: set<Edge>, found: set<Edge>,
                          overlapped: set<Window>) {
    && found <= attaching
    && (forall k, r :: k in objs && r in objs[k].labels && Deleting(r) !in overlapped ==> Live(objs, bound, volumes, r))
    && (forall a :: a in attaching && Deleting(a.to) !in overlapped ==> Anchored(objs, a.to))
    && (forall a :: a in found && Deleting(a.to) !in overlapped ==> Live(objs, bound, volumes, a.to))
  }

  /** Backing paths and disk paths resolve, and a backing volume is older than what lies on it. */
  ghost predicate Linked(volumes: Volumes, domains: Seats, overlapped: set<Window>, clock: nat) {
    && (forall p :: p in volumes ==> volumes[p].born < clock)
    && (forall p :: p in volumes && volumes[p].backing.Some? ==> Supported(volumes, overlapped, volumes[p]))
    && (forall s, l :: s in domains && l in domains[s].disks ==> Resolves(volumes, overlapped, l))
  }

  predicate Supported(volumes: Volumes, overlapped: set<Window>, v: Volume)
    requires v.backing.Some?
  {
    var l := v.backing.value;
    Deleting(l.ref) !in overlapped ==>
      l.path in volumes && volumes[l.path].owner == l.ref && volumes[l.path].born < v.born
  }

  /** A window that has not overlapped sees no reference window on its object. */
  ghost predicate Exclusive(windows: set<Window>, overlapped: set<Window>, attaching: set<Edge>) {
    forall win, a :: win in windows && win !in overlapped && a in attaching && a.to == win.key ==>
      win.Resizing? && !a.from.Vol?
  }

  ghost predicate Inv(w: World) {
    && Sound(w.objs, w.bound, w.clock)
    && Unique(w.objs, w.bound)
    && NoOrphans(w.objs, w.bound, w.volumes, w.domains)
    && WriteAhead(w.objs, w.volumes, w.domains)
    && Targets(w.objs, w.bound, w.volumes, w.attaching, w.found, w.overlapped)
    && Linked(w.volumes, w.domains, w.overlapped, w.clock)
    && Exclusive(w.windows, w.overlapped, w.attaching)
  }

  // ---------- what users rely on ----------

  /** Every disk path of a defined domain and every backing path resolves on its host. */
  ghost predicate NoDangling(w: World) {
    && (forall p :: p in w.volumes && w.volumes[p].backing.Some? ==> w.volumes[p].backing.value.path in w.volumes)
    && (forall s, l :: s in w.domains && l in w.domains[s].disks ==> l.path in w.volumes)
  }

  /** Backing strictly descends in age, so no chain of backing volumes returns to where it started. */
  ghost predicate Descends(w: World) {
    forall p :: p in w.volumes && w.volumes[p].backing.Some? ==>
      var q := w.volumes[p].backing.value.path; q in w.volumes && w.volumes[q].born < w.volumes[p].born
  }

  /** The copy at `p` has a stored object, which asks for a pool. */
  predicate Pooled(w: World, p: Path) {
    && p in w.volumes && w.volumes[p].owner in w.objs
    && (w.objs[w.volumes[p].owner].spec.VolumeSpec? || w.objs[w.volumes[p].owner].spec.CloudInitSpec?)
  }

  /** The pool it asks for. */
  function PoolFor(w: World, p: Path): Key
    requires Pooled(w, p)
  {
    Pool(w.objs[w.volumes[p].owner].spec.pool)
  }

  /** Every copy has an object, and the pool object of every Volume's copy is stored, as is that of every cloud-init's
   *  copy once the pool's label is. */
  ghost predicate PoolsKept(w: World) {
    forall p :: p in w.volumes ==>
      && Pooled(w, p)
      && (w.volumes[p].owner.Vol? || PoolFor(w, p) in w.objs[w.volumes[p].owner].labels ==> PoolFor(w, p) in w.objs)
  }
}
