/** Runs that show what the guarantees cannot do without, and what the code does not promise. Each step is one call of
 *  the reconcile or the user named beside it, in the order in which the code makes them. */
module Races {
  import opened Common
  import opened Protocol
  import opened Calls
  import opened Guarantees
  import opened Preservation

  const POOL: Key := Pool("p")
  const VOLUME: Key := Vol("v")
  const INIT: Key := Ci("i")
  const DOMAIN: Key := Dom("d")
  const PLACE: Place := Place("h", "pool")
  const HOME: Path := Path(PLACE, "v")
  const INIT_HOME: Path := Path(PLACE, "i")
  const SEAT: Seat := Seat("h", "d")
  const DISK: Link := Link(VOLUME, HOME)

  /** A log that leads from the empty cluster to `w`, without any upload. */
  ghost predicate Leads(log: seq<Event>, w: World) {
    Run(INITIAL, log) && After(INITIAL, log) == w && forall e: Event :: e in log ==> !e.Upload?
  }

  /** One more call at the end of a run. */
  lemma Do(log: seq<Event>, w: World, e: Event, n: World) returns (more: seq<Event>)
    requires Leads(log, w) && Enabled(w, e) && Apply(w, e) == n && !e.Upload?
    ensures Leads(more, n)
  {
    RunExtends(INITIAL, log, e);
    more := log + [e];
  }

  /** One more label. */
  lemma DoLabel(log: seq<Event>, w: World, k: Key, to: Key, o: Object, n: World) returns (more: seq<Event>)
    requires Leads(log, w) && k in w.objs && Enabled(w, AddLabel(k, w.objs[k].version, to))
    requires o == w.objs[k].(labels := w.objs[k].labels + {to}, version := w.clock)
    requires n == w.(objs := w.objs[k := o], clock := w.clock + 1, attaching := w.attaching - {Edge(k, to)},
                     found := w.found - {Edge(k, to)})
    ensures Leads(more, n)
  {
    more := Do(log, w, AddLabel(k, w.objs[k].version, to), n);
  }

  /** One more finalizer. */
  lemma DoFinalizer(log: seq<Event>, w: World, k: Key, o: Object, n: World) returns (more: seq<Event>)
    requires Leads(log, w) && k in w.objs && Enabled(w, AddFinalizer(k, w.objs[k].version))
    requires o == w.objs[k].(finalizer := true, version := w.clock)
    requires n == w.(objs := w.objs[k := o], clock := w.clock + 1)
    ensures Leads(more, n)
  {
    more := Do(log, w, AddFinalizer(k, w.objs[k].version), n);
  }

  function Objs(w: World, objs: Objects): World {
    w.(objs := objs, clock := w.clock + 1)
  }

  // ---------- a pool that is ready ----------

  const POOL_0: Object := Object(0, false, false, {}, PoolSpec(PLACE), false, None)
  const POOL_1: Object := POOL_0.(version := 1, finalizer := true)
  const POOL_2: Object := POOL_1.(version := 2, ready := true)
  const BEGUN: World := INITIAL.(objs := map[POOL := POOL_0], bound := map["p" := PLACE], clock := 1)
  const WITH_POOL: World := BEGUN.(objs := map[POOL := POOL_2], clock := 3)

  lemma APoolObject() returns (log: seq<Event>)
    ensures Leads(log, BEGUN)
  {
    log := Do([], INITIAL, Create(POOL, PoolSpec(PLACE)), BEGUN);
  }

  lemma APool() returns (log: seq<Event>)
    ensures Leads(log, WITH_POOL)
  {
    log := APoolObject();
    var n := Objs(BEGUN, map[POOL := POOL_1]);
    log := DoFinalizer(log, BEGUN, POOL, POOL_1, n);
    log := Do(log, n, SetStatus(POOL, 1, true, None), WITH_POOL);
  }

  // ---------- a volume whose upload failed ----------

  const VOLUME_3: Object := Object(3, false, false, {}, VolumeSpec("p", "v", true, None, None), false, None)
  const VOLUME_4: Object := VOLUME_3.(version := 4, finalizer := true)
  const VOLUME_5: Object := VOLUME_4.(version := 5, labels := {POOL})
  const VOLUME_7: Object := VOLUME_5.(version := 7, ready := true, place := Some(PLACE))
  const COPY: Volume := Volume(VOLUME, File, 0, None, 6, false, false)
  const CLAIMED: World := WITH_POOL.(objs := map[POOL := POOL_2, VOLUME := VOLUME_4], clock := 5)
  const REFERRING: World := CLAIMED.(attaching := {Edge(VOLUME, POOL)})
  const LABELLED: World := CLAIMED.(objs := map[POOL := POOL_2, VOLUME := VOLUME_5], clock := 6)
  const SPAWNED: World := LABELLED.(volumes := map[HOME := COPY.(recent := true)], clock := 7)
  const ABANDONED: World := SPAWNED.(volumes := map[HOME := COPY])
  const MADE: World := ABANDONED.(objs := map[POOL := POOL_2, VOLUME := VOLUME_7], clock := 8)

  lemma AClaim() returns (log: seq<Event>)
    ensures Leads(log, CLAIMED)
  {
    log := APool();
    var w := Objs(WITH_POOL, map[POOL := POOL_2, VOLUME := VOLUME_3]);
    log := Do(log, WITH_POOL, Create(VOLUME, VOLUME_3.spec), w);
    log := DoFinalizer(log, w, VOLUME, VOLUME_4, CLAIMED);
  }

  /** The reconcile reads its pool and stores the label. */
  lemma ALabel() returns (log: seq<Event>)
    ensures Leads(log, LABELLED)
  {
    log := AClaim();
    log := Do(log, CLAIMED, OpenEdge(VOLUME, POOL), REFERRING);
    assert REFERRING.attaching - {Edge(VOLUME, POOL)} == {} && REFERRING.found - {Edge(VOLUME, POOL)} == {};
    assert {} + {POOL} == {POOL};
    log := DoLabel(log, REFERRING, VOLUME, POOL, VOLUME_5, LABELLED);
  }

  lemma ACreation() returns (log: seq<Event>)
    ensures Leads(log, SPAWNED)
  {
    log := ALabel();
    log := Do(log, LABELLED, CreateVolume(VOLUME, File, 0, None), SPAWNED);
  }

  /** It creates the copy; the upload fails, and the reconcile with it. */
  lemma AFailure() returns (log: seq<Event>)
    ensures Leads(log, ABANDONED)
  {
    log := ACreation();
    log := Do(log, SPAWNED, Finish(VOLUME), ABANDONED);
  }

  /** The next reconcile finds the copy and reports it ready. */
  lemma AVolume() returns (log: seq<Event>)
    ensures Leads(log, MADE)
  {
    log := AFailure();
    log := Do(log, ABANDONED, SetStatus(VOLUME, 5, true, Some(PLACE)), MADE);
  }

  /** A volume that is to be filled from a download can be ready although nothing was ever uploaded. When it is filled
   *  is said by FilledExactly. */
  lemma ReadyUnfilled()
    ensures exists log, k ::
              Run(INITIAL, log) && (forall e: Event :: e in log ==> !e.Upload?) && Hollow(After(INITIAL, log), k)
  {
    var log := AVolume();
    assert PathOf(MADE, VOLUME) == Some(HOME);
    assert Hollow(MADE, VOLUME);
  }

  /** Ready, to be filled, and not filled. */
  predicate Hollow(w: World, k: Key) {
    && Present(w, k) && w.objs[k].ready && !w.objs[k].deleting && w.objs[k].spec.VolumeSpec? && w.objs[k].spec.remote
    && !w.volumes[PathOf(w, k).value].filled
  }

  // ---------- a deletion that overtakes a reference ----------

  const DOMAIN_8: Object := Object(8, false, false, {}, DomainSpec("h", "d", ["v"], None, [], [], false), false, None)
  const DOMAIN_9: Object := DOMAIN_8.(version := 9, finalizer := true)
  const DOMAIN_11: Object := DOMAIN_9.(version := 11, labels := {VOLUME})
  const VOLUME_10: Object := VOLUME_7.(version := 10, deleting := true)
  const EDGES: set<Edge> := {Edge(DOMAIN, VOLUME)}
  const ASKING: World := MADE.(objs := map[POOL := POOL_2, VOLUME := VOLUME_7, DOMAIN := DOMAIN_8], clock := 9)
  const READY: World := MADE.(objs := map[POOL := POOL_2, VOLUME := VOLUME_7, DOMAIN := DOMAIN_9], clock := 10)
  const READING: World := READY.(attaching := EDGES)
  const FINDING: World := READY.(attaching := EDGES, found := EDGES)
  const LEAVING: World :=
    FINDING.(objs := map[POOL := POOL_2, VOLUME := VOLUME_10, DOMAIN := DOMAIN_9], clock := 11)
  const LISTED: World := LEAVING.(windows := {Deleting(VOLUME)}, overlapped := {Deleting(VOLUME)})
  const GONE: World := LISTED.(volumes := map[])
  const TOO_LATE: World := GONE.(objs := map[POOL := POOL_2, VOLUME := VOLUME_10, DOMAIN := DOMAIN_11], clock := 12,
                                 attaching := {}, found := {})

  lemma ADomainObject() returns (log: seq<Event>)
    ensures Leads(log, ASKING)
  {
    log := AVolume();
    log := Do(log, MADE, Create(DOMAIN, DOMAIN_8.spec), ASKING);
  }

  lemma ADomain() returns (log: seq<Event>)
    ensures Leads(log, READY)
  {
    log := ADomainObject();
    log := DoFinalizer(log, ASKING, DOMAIN, DOMAIN_9, READY);
  }

  /** The domain's reconcile has read the volume. */
  lemma AReading() returns (log: seq<Event>)
    ensures Leads(log, READING)
  {
    log := ADomain();
    log := Do(log, READY, OpenEdge(DOMAIN, VOLUME), READING);
  }

  /** It has looked the copy up. */
  lemma AFinding() returns (log: seq<Event>)
    ensures Leads(log, FINDING)
  {
    log := AReading();
    assert PathOf(READING, VOLUME) == Some(HOME) && READING.found + EDGES == EDGES;
    log := Do(log, READING, FindEdge(DOMAIN, VOLUME), FINDING);
  }

  /** A user deletes the volume. */
  lemma ADismissal() returns (log: seq<Event>)
    ensures Leads(log, LEAVING)
  {
    log := AFinding();
    log := Do(log, FINDING, Delete(VOLUME), LEAVING);
  }

  /** The volume's reconcile lists no referrers. */
  lemma AListing() returns (log: seq<Event>)
    ensures Leads(log, LISTED)
  {
    log := ADismissal();
    assert Edge(DOMAIN, VOLUME) in LEAVING.attaching;
    log := Do(log, LEAVING, OpenWindow(VOLUME, Deleting(VOLUME)), LISTED);
  }

  /** It deletes the copy. */
  lemma ADeletion() returns (log: seq<Event>)
    ensures Leads(log, GONE)
  {
    log := AListing();
    assert Referrers(LISTED, VOLUME) == {};
    assert PathOf(LISTED, VOLUME) == Some(HOME) && LISTED.volumes - {HOME} == map[];
    log := Do(log, LISTED, DeleteVolume(VOLUME), GONE);
  }

  lemma MayLabelLate()
    ensures Enabled(GONE, AddLabel(DOMAIN, 9, VOLUME))
  {
    assert References(DOMAIN_9.spec) == {VOLUME};
  }

  /** The domain's reconcile stores its label. */
  lemma ALateLabel() returns (log: seq<Event>)
    ensures Leads(log, TOO_LATE)
  {
    log := ADeletion();
    assert GONE.attaching - EDGES == {} && GONE.found - EDGES == {} && {} + {VOLUME} == {VOLUME};
    MayLabelLate();
    log := DoLabel(log, GONE, DOMAIN, VOLUME, DOMAIN_11, TOO_LATE);
  }

  const RACED: World := TOO_LATE.(domains := map[SEAT := Domain(DOMAIN, [DISK], Shutoff)])

  lemma MayDefine()
    ensures Enabled(TOO_LATE, Define(DOMAIN, [DISK]))
  {
    assert References(DOMAIN_11.spec) == {VOLUME};
  }

  /** It defines the domain. */
  lemma ADefinition() returns (log: seq<Event>)
    ensures Leads(log, RACED)
  {
    log := ALateLabel();
    MayDefine();
    log := Do(log, TOO_LATE, Define(DOMAIN, [DISK]), RACED);
  }

  /** A volume's reconcile lists no referrers and deletes the copy while a domain's reconcile is between looking that
   *  copy up and labelling it: the domain is then defined on a path that is gone. So the guarantee that nothing dangles
   *  does rest on deletions and references not coinciding. */
  lemma DeletionRace()
    ensures exists log :: Run(INITIAL, log) && Dangling(After(INITIAL, log))
  {
    var log := ADefinition();
    assert Dangles(RACED, SEAT, DISK);
    assert Deleting(VOLUME) in RACED.overlapped;
  }

  predicate Dangles(w: World, s: Seat, l: Link) {
    s in w.domains && l in w.domains[s].disks && l.path !in w.volumes
  }

  ghost predicate Dangling(w: World) {
    (exists s, l :: Dangles(w, s, l)) && !NoDangling(w) && !Undisputed(w)
  }

  // ---------- a label that comes late ----------

  const INIT_3: Object := Object(3, false, false, {}, CloudInitSpec("p", "i"), false, None)
  const INIT_4: Object := INIT_3.(version := 4, finalizer := true)
  const INIT_COPY: Volume := Volume(INIT, File, 2048, None, 5, false, false)
  const INIT_CLAIMED: World := WITH_POOL.(objs := map[POOL := POOL_2, INIT := INIT_4], clock := 5)
  const INIT_READING: World := INIT_CLAIMED.(attaching := {Edge(INIT, POOL)})
  const INIT_SPAWNED: World := INIT_READING.(volumes := map[INIT_HOME := INIT_COPY.(recent := true)], clock := 6)
  const UNLABELLED: World := INIT_CLAIMED.(volumes := map[INIT_HOME := INIT_COPY], clock := 6)

  lemma AnInit() returns (log: seq<Event>)
    ensures Leads(log, INIT_CLAIMED)
  {
    log := APool();
    var w := Objs(WITH_POOL, map[POOL := POOL_2, INIT := INIT_3]);
    log := Do(log, WITH_POOL, Create(INIT, INIT_3.spec), w);
    assert w.objs[INIT := INIT_4] == INIT_CLAIMED.objs;
    log := DoFinalizer(log, w, INIT, INIT_4, INIT_CLAIMED);
  }

  lemma AnInitReading() returns (log: seq<Event>)
    ensures Leads(log, INIT_READING)
  {
    log := AnInit();
    log := Do(log, INIT_CLAIMED, OpenEdge(INIT, POOL), INIT_READING);
  }

  lemma AnInitCreation() returns (log: seq<Event>)
    ensures Leads(log, INIT_SPAWNED)
  {
    log := AnInitReading();
    log := Do(log, INIT_READING, CreateVolume(INIT, File, 2048, None), INIT_SPAWNED);
  }

  /** The reconcile of the cloud-init fails right after it has created the copy. */
  lemma AnInitCopy() returns (log: seq<Event>)
    ensures Leads(log, UNLABELLED)
  {
    log := AnInitCreation();
    log := Do(log, INIT_SPAWNED, Finish(INIT), UNLABELLED);
  }

  /** The pool of a cloud-init can go while the host still holds the copy, with every reconcile running by itself: the
   *  label is only stored after the creation, and the reconcile may be cut short in between. That the missing label is
   *  exactly what lets the pool go is said by PoolStaysExactly. */
  lemma CloudInitLabelsLate()
    ensures exists log, p :: Run(INITIAL, log) && LeftBehind(After(INITIAL, log), p)
  {
    var log := AnInitCopy();
    var more := Dismissal(UNLABELLED, POOL);
    assert Referrers(UNLABELLED, POOL) == {};
    Dismissed(UNLABELLED, POOL);
    Appended(INITIAL, log, more);
    assert LeftBehind(After(INITIAL, log + more), INIT_HOME);
  }

  /** If that pool's name is then used for another place, the copy is orphaned: its object claims a path there. */
  lemma RebindingOrphans(at: Place)
    requires at != PLACE
    ensures exists log, p :: Run(INITIAL, log) && LeftBehind(After(INITIAL, log), p)
                             && Orphaned(After(INITIAL, log), p, at)
  {
    var log := AnInitCopy();
    var more := Dismissal(UNLABELLED, POOL);
    assert Referrers(UNLABELLED, POOL) == {};
    Dismissed(UNLABELLED, POOL);
    Appended(INITIAL, log, more);
    BoundStays(UNLABELLED, more);
    assert LeftBehind(After(INITIAL, log + more), INIT_HOME);
    assert Orphaned(After(INITIAL, log + more), INIT_HOME, at);
  }

  ghost predicate Orphaned(w: World, p: Path, at: Place) {
    && Pooled(w, p) && PathOf(w, w.volumes[p].owner) == Some(p)
    && PathIn(w.objs, Rebound(w, PoolFor(w, p).name, at), w.volumes[p].owner) != Some(p)
  }

  lemma {:induction false} Appended(w: World, events: seq<Event>, more: seq<Event>)
    requires Run(w, events) && Run(After(w, events), more)
    ensures Run(w, events + more) && After(w, events + more) == After(After(w, events), more)
    decreases |events|
  {
    if events == [] {
      assert events + more == more;
    } else {
      Appended(Apply(w, events[0]), events[1..], more);
      assert (events + more)[1..] == events[1..] + more;
    }
  }

  /** No window has overlapped, and the pool of the cloud-init whose copy is at `p` is not stored. */
  ghost predicate LeftBehind(w: World, p: Path) {
    && w.overlapped == {} && Pooled(w, p) && w.volumes[p].owner.Ci? && PoolFor(w, p) !in w.objs
  }

  // ---------- what an overlap decides ----------

  /** Some continuation in which no further window overlaps ends with a disk that dangles, and it is a disk of `k`. */
  ghost predicate MayDangle(w: World, k: Key) {
    exists events, s, l :: Reaches(w, events, k, s, l)
  }

  ghost predicate Reaches(w: World, events: seq<Event>, k: Key, s: Seat, l: Link) {
    Run(w, events) && After(w, events).overlapped == w.overlapped && l.ref == k && Dangles(After(w, events), s, l)
  }

  lemma Before(w: World, e: Event, k: Key)
    requires Enabled(w, e) && Apply(w, e).overlapped == w.overlapped && MayDangle(Apply(w, e), k)
    ensures MayDangle(w, k)
  {
    var events, s, l :| Reaches(Apply(w, e), events, k, s, l);
    assert ([e] + events)[1..] == events;
    assert Reaches(w, [e] + events, k, s, l);
  }

  /** A domain that has `k` for its only disk. */
  function Wanting(host: string, name: string, k: Key): Spec {
    DomainSpec(host, name, if k.Vol? then [k.name] else [], if k.Ci? then Some(k.name) else None, [], [], false)
  }

  lemma WantsOne(host: string, name: string, k: Key)
    requires IsStorage(k)
    ensures References(Wanting(host, name, k)) == {k}
  {
  }

  /** The domain's reconcile is under way, and the deletion window of what it wants has overlapped. */
  ghost predicate Wanted(w: World, k: Key, p: Path, d: Key) {
    && IsStorage(k) && d.Dom? && Deleting(k) in w.overlapped && Seat(p.place.host, d.name) !in w.domains
    && d in w.objs && w.objs[d].spec == Wanting(p.place.host, d.name, k) && !w.objs[d].deleting
  }

  /** The copy can be deleted, as far as the reconcile of `k` is concerned. */
  ghost predicate Doomed(w: World, k: Key, p: Path) {
    PathOf(w, k) == Some(p) && p in w.volumes && w.objs[k].deleting && w.objs[k].finalizer && Deleting(k) in w.windows
  }

  lemma DanglesDefined(w: World, k: Key, p: Path, d: Key)
    requires Wanted(w, k, p, d) && w.objs[d].finalizer && k in w.objs[d].labels && p !in w.volumes
    ensures MayDangle(w, k)
  {
    var s, l := Seat(p.place.host, d.name), Link(k, p);
    var e := Define(d, [l]);
    WantsOne(p.place.host, d.name, k);
    assert Enabled(w, e);
    var n := Apply(w, e);
    assert l in n.domains[s].disks;
    assert Reaches(n, [], k, s, l);
    Before(w, e, k);
  }

  lemma DanglesDeleted(w: World, k: Key, p: Path, d: Key)
    requires Wanted(w, k, p, d) && w.objs[d].finalizer && k in w.objs[d].labels && Doomed(w, k, p)
    ensures MayDangle(w, k)
  {
    var e := DeleteVolume(k);
    assert Enabled(w, e);
    DanglesDefined(Apply(w, e), k, p, d);
    Before(w, e, k);
  }

  lemma DanglesLabelled(w: World, k: Key, p: Path, d: Key)
    requires Wanted(w, k, p, d) && w.objs[d].finalizer && Edge(d, k) in w.attaching && Doomed(w, k, p)
    ensures MayDangle(w, k)
  {
    var e := AddLabel(d, w.objs[d].version, k);
    WantsOne(p.place.host, d.name, k);
    assert Enabled(w, e);
    DanglesDeleted(Apply(w, e), k, p, d);
    Before(w, e, k);
  }

  lemma DanglesRead(w: World, k: Key, p: Path, d: Key)
    requires Wanted(w, k, p, d) && w.objs[d].finalizer && Doomed(w, k, p)
    ensures MayDangle(w, k)
  {
    var e := OpenEdge(d, k);
    assert Touched(w, d, k) <= {Deleting(k)};
    DanglesLabelled(Apply(w, e), k, p, d);
    Before(w, e, k);
  }

  lemma DanglesHeld(w: World, k: Key, p: Path, d: Key)
    requires Wanted(w, k, p, d) && Doomed(w, k, p)
    ensures MayDangle(w, k)
  {
    var e := AddFinalizer(d, w.objs[d].version);
    DanglesRead(Apply(w, e), k, p, d);
    Before(w, e, k);
  }

  /** Nothing has the name, be it as an object or as a domain on a host. */
  predicate Unused(w: World, name: string) {
    Dom(name) !in w.objs && forall o :: o in w.objs && w.objs[o].spec.DomainSpec? ==> w.objs[o].spec.name != name
  }

  lemma UnusedSeat(w: World, host: string, name: string)
    requires NoOrphans(w.objs, w.bound, w.volumes, w.domains) && Unused(w, name)
    ensures Seat(host, name) !in w.domains
  {
  }

  lemma Creatable(w: World, name: string, spec: Spec)
    requires Unused(w, name) && spec.DomainSpec? && spec.name == name
    ensures Enabled(w, Create(Dom(name), spec))
    ensures var n := Apply(w, Create(Dom(name), spec));
            && n == w.(objs := n.objs, clock := w.clock + 1) && n.objs - {Dom(name)} == w.objs
            && Dom(name) in n.objs && n.objs[Dom(name)].spec == spec && !n.objs[Dom(name)].deleting
  {
  }

  lemma DanglesAsked(w: World, k: Key, p: Path, name: string)
    requires Inv(w) && IsStorage(k) && Deleting(k) in w.overlapped && Doomed(w, k, p) && Unused(w, name)
    ensures MayDangle(w, k)
  {
    var spec := Wanting(p.place.host, name, k);
    var e := Create(Dom(name), spec);
    UnusedSeat(w, p.place.host, name);
    Creatable(w, name, spec);
    var n := Apply(w, e);
    assert n.objs[k] == (n.objs - {Dom(name)})[k];
    DanglesHeld(n, k, p, Dom(name));
    Before(w, e, k);
  }

  lemma {:induction false} Longest(names: set<string>) returns (n: nat)
    ensures forall x :: x in names ==> |x| <= n
  {
    n := 0;
    if names != {} {
      var x :| x in names;
      n := Longest(names - {x});
      n := if |x| > n then |x| else n;
    }
  }

  lemma AnUnusedName(w: World) returns (name: string)
    ensures Unused(w, name)
  {
    var objects := set o | o in w.objs :: o.name;
    var domains := set o | o in w.objs && w.objs[o].spec.DomainSpec? :: w.objs[o].spec.name;
    var n := Longest(objects + domains);
    name := seq(n + 1, _ => 'x');
    assert Dom(name) in w.objs ==> Dom(name).name in objects + domains;
    assert forall o :: o in w.objs && w.objs[o].spec.DomainSpec? ==> w.objs[o].spec.name in objects + domains;
  }

  lemma DanglesMarked(w: World, k: Key, p: Path)
    requires Inv(w) && IsStorage(k) && Deleting(k) in w.overlapped && Deleting(k) in w.windows
    requires PathOf(w, k) == Some(p) && p in w.volumes
    ensures MayDangle(w, k)
  {
    OwnerAt(w, k);
    var e := Delete(k);
    Step(w, e);
    var n := Apply(w, e);
    var name := AnUnusedName(n);
    DanglesAsked(n, k, p, name);
    Before(w, e, k);
  }

  lemma DanglingOverlapped(w: World, events: seq<Event>, k: Key, s: Seat, l: Link)
    requires Inv(w) && Reaches(w, events, k, s, l)
    ensures Deleting(k) in w.overlapped
  {
    RunKeeps(w, events);
    assert Deleting(k) !in w.overlapped ==> Resolves(After(w, events).volumes, After(w, events).overlapped, l);
  }

  /** While the window of a deletion is open and the copy still there: it can come to a dangling disk of the volume
   *  without any further overlap if and only if this window has overlapped. */
  lemma OverlapDecides(w: World, k: Key)
    requires Reachable(w) && IsStorage(k) && Present(w, k) && Deleting(k) in w.windows
    ensures MayDangle(w, k) <==> Deleting(k) in w.overlapped
  {
    ReachableInv(w);
    if Deleting(k) in w.overlapped {
      DanglesMarked(w, k, PathOf(w, k).value);
    } else {
      forall events, s, l
        ensures !Reaches(w, events, k, s, l)
      {
        if Reaches(w, events, k, s, l) { DanglingOverlapped(w, events, k, s, l); }
      }
    }
  }
}
