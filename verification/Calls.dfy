/** The API server and the hosts as one mutable object, used by the reconcilers one call at a time. Before every call
 *  users, guests and all other reconciles may take any number of steps, and every call may fail, with or without
 *  having had its effect. */
module Calls {
  import opened Common
  import opened Protocol
  import opened Preservation
  import opened Interference

  datatype Error =
    | CallFailed | NotFound | VolumeInUse | BackingStoreNotCreated | BackingStoreNotSameHost | CannotResizeBackingStore
    | VolumeMultipleDomains | VolumeShrinking | LiveResizeNoMatch
    | VolumeNotSameHost | DeviceNotSameHost | ShutdownTimedOut

  /** What a reconcile returns: nothing more to do, try again, or an error. */
  datatype Outcome = Done | Requeue | Failed(error: Error)

  /** What a reconcile's copy of its own object is still good for: it is the stored object as long as the version has
   *  not moved, and with the finalizer on, the object is stored and differs by edits and the deletion mark only. */
  ghost predicate Snapshot(w: World, me: Key, o: Object) {
    && o.version < w.clock && KindOk(me, o.spec)
    && (me in w.objs && w.objs[me].version == o.version ==> w.objs[me] == o)
    && (o.finalizer ==> me in w.objs && Kept(o, w.objs[me]))
  }

  lemma SnapshotKept(me: Key, w: World, n: World, o: Object)
    requires Unmoved(me, w, n) && Snapshot(w, me, o)
    ensures Snapshot(n, me, o)
  {
  }

  /** Nobody but `me` is making references or deciding on a deletion or a resize. */
  predicate Solo(w: World, me: Key) {
    && (forall a :: a in w.attaching ==> a.from == me && a.to != me)
    && (forall win :: win in w.windows ==> win.key == me)
  }

  /** Nobody has asked for anything else, and the hosts offer what they did. */
  ghost predicate SameWishes(w: World, n: World) {
    n.bound == w.bound && n.offers == w.offers &&
    forall k :: k in n.objs ==>
      k in w.objs && n.objs[k].spec == w.objs[k].spec && n.objs[k].deleting == w.objs[k].deleting
  }

  /** Other objects are what they were. */
  ghost predicate SameOthers(me: Key, w: World, n: World) {
    n.objs - {me} == w.objs - {me}
  }

  /** A reconcile that has the cluster to itself lets no window overlap. */
  ghost predicate Tidy(me: Key, w: World, n: World) {
    SameWishes(w, n) && SameOthers(me, w, n) && (Solo(w, me) ==> Solo(n, me) && n.overlapped == w.overlapped)
  }

  /** Nothing on the hosts has changed, and no window has overlapped. */
  ghost predicate Undisturbed(me: Key, w: World, n: World) {
    n.volumes == w.volumes && n.domains == w.domains && n.bound == w.bound && Tidy(me, w, n)
  }

  lemma OtherSame(me: Key, w: World, n: World, k: Key)
    requires SameOthers(me, w, n) && k != me
    ensures k in w.objs <==> k in n.objs
    ensures k in w.objs ==> n.objs[k] == w.objs[k]
  {
    assert k in w.objs <==> k in w.objs - {me};
    assert k in n.objs <==> k in n.objs - {me};
    assert k in w.objs ==> (n.objs - {me})[k] == n.objs[k] && (w.objs - {me})[k] == w.objs[k];
  }

  lemma ReferrersSame(me: Key, w: World, n: World)
    requires SameOthers(me, w, n) && me in w.objs && me in n.objs && n.objs[me].labels == w.objs[me].labels
    ensures Referrers(n, me) == Referrers(w, me)
  {
    forall k | k != me
      ensures k in w.objs <==> k in n.objs
      ensures k in w.objs ==> n.objs[k] == w.objs[k]
    {
      OtherSame(me, w, n, k);
    }
  }

  lemma TidyAfter(me: Key, w: World, m: World, n: World)
    requires Tidy(me, w, m) && Tidy(me, m, n)
    ensures Tidy(me, w, n)
  {
  }

  lemma UndisturbedChain(me: Key, w: World, m: World, n: World)
    requires Undisturbed(me, w, m) && Undisturbed(me, m, n)
    ensures Undisturbed(me, w, n)
  {
  }

  /** The object is stored and reports that it is ready. */
  predicate IsReady(w: World, me: Key) {
    me in w.objs && w.objs[me].ready
  }

  /** The object is marked for deletion and held by its finalizer. */
  predicate Leaving(w: World, me: Key) {
    me in w.objs && w.objs[me].deleting && w.objs[me].finalizer
  }

  /** Nobody refers to `me`, if it is to go. */
  predicate Free(w: World, me: Key) {
    me in w.objs && w.objs[me].deleting ==> Referrers(w, me) == {}
  }

  /** `me` is between reconciles. */
  ghost predicate Rested(w: World, me: Key) {
    && (forall a :: a in w.attaching ==> a.from != me)
    && (forall win :: win in w.windows ==> win.key != me)
    && (forall p :: p in w.volumes && w.volumes[p].owner == me ==> !w.volumes[p].recent)
  }

  lemma {:induction false} RunExtends(w: World, events: seq<Event>, e: Event)
    requires Run(w, events) && Enabled(After(w, events), e)
    ensures Run(w, events + [e]) && After(w, events + [e]) == Apply(After(w, events), e)
    decreases |events|
  {
    if events == [] {
      assert [e][1..] == [];
    } else {
      RunExtends(Apply(w, events[0]), events[1..], e);
      assert (events + [e])[1..] == events[1..] + [e];
    }
  }

  /** The stored object after an accepted update. */
  function Updated(o: Object, e: Event): Object {
    match e
    case AddFinalizer(_, _) => o.(finalizer := true)
    case AddLabel(_, _, to) => o.(labels := o.labels + {to})
    case SetStatus(_, _, ready, place) => o.(ready := ready, place := place)
    case _ => o
  }

  predicate IsUpdate(e: Event, me: Key) {
    (e.AddFinalizer? || e.AddLabel? || e.SetStatus?) && e.key == me
  }

  /** The host has something created for `me`. */
  ghost predicate Owns(w: World, me: Key) {
    && (IsStorage(me) ==> exists p :: p in w.volumes && w.volumes[p].owner == me)
    && (me.Dom? ==> exists s :: s in w.domains && w.domains[s].owner == me)
  }

  lemma OwnsThere(w: World, me: Key)
    requires NoOrphans(w.objs, w.bound, w.volumes, w.domains) && Owns(w, me)
    ensures There(w, me)
  {
    if IsStorage(me) {
      var p :| p in w.volumes && w.volumes[p].owner == me;
      assert PathOf(w, me) == Some(p);
    }
    if me.Dom? {
      var s :| s in w.domains && w.domains[s].owner == me;
      assert SeatOf(w, me) == Some(s);
    }
  }

  /** Unless its deletion window has overlapped, the object is stored and held by its finalizer. */
  predicate Held(w: World, k: Key) {
    Deleting(k) !in w.overlapped ==> k in w.objs && w.objs[k].finalizer
  }

  /** What an update owes the protocol, in terms of the reconcile's own copy. */
  ghost predicate Owes(w: World, me: Key, o: Object, e: Event)
    requires IsUpdate(e, me)
  {
    && e.version == o.version
    && (e.AddFinalizer? ==> !o.deleting)
    && (e.AddLabel? ==>
          && o.finalizer && e.to in Mentions(o.spec)
          && (IsGuarded(e.to) ==> Edge(me, e.to) in w.attaching)
          && (IsStorage(e.to) && Deleting(e.to) !in w.overlapped ==> Edge(me, e.to) in w.found)
          && Nearby(w, me, o.spec, e.to) && (me.Dom? && IsGuarded(e.to) ==> Held(w, e.to))
          && Deleting(me) !in w.windows && Resizing(me) !in w.windows)
    && (e.SetStatus? && e.ready ==> StatusOk(me, o.(place := e.place), w.bound) && (o.deleting || Owns(w, me)))
  }

  lemma OwesKept(me: Key, w: World, n: World, o: Object, e: Event)
    requires IsUpdate(e, me) && Unmoved(me, w, n) && Owes(w, me, o, e)
    ensures Owes(n, me, o, e)
  {
  }

  lemma Accepted(me: Key, w: World, o: Object, e: Event)
    requires Sound(w.objs, w.bound, w.clock) && NoOrphans(w.objs, w.bound, w.volumes, w.domains)
    requires IsUpdate(e, me) && Snapshot(w, me, o) && Owes(w, me, o, e) && Current(w, me, o.version)
    ensures Enabled(w, e)
    ensures me in Apply(w, e).objs && Apply(w, e).objs[me] == Updated(o, e).(version := w.clock)
    ensures Snapshot(Apply(w, e), me, Apply(w, e).objs[me])
  {
    if Owns(w, me) { OwnsThere(w, me); }
  }

  /** Storing my own object touches nothing else. */
  lemma StoringFrame(me: Key, w: World, e: Event)
    requires Enabled(w, e) && IsUpdate(e, me)
    ensures var n := Apply(w, e);
            && me in w.objs && me in n.objs && n.objs == w.objs[me := n.objs[me]] && n.clock == w.clock + 1
            && n == w.(objs := n.objs, clock := n.clock, attaching := n.attaching, found := n.found)
            && n.attaching == (if e.AddLabel? then w.attaching - {Edge(me, e.to)} else w.attaching)
            && n.found == (if e.AddLabel? then w.found - {Edge(me, e.to)} else w.found)
            && n.objs[me].labels == (if e.AddLabel? then w.objs[me].labels + {e.to} else w.objs[me].labels)
            && (w.objs[me].finalizer ==> n.objs[me].finalizer) && n.objs[me].spec == w.objs[me].spec
            && n.objs[me].deleting == w.objs[me].deleting
  {
  }

  lemma StoringHeld(me: Key, w: World, n: World)
    requires me in w.objs && me in n.objs && n.objs == w.objs[me := n.objs[me]] && n.volumes == w.volumes
    requires (w.objs[me].finalizer ==> n.objs[me].finalizer) && n.objs[me].spec == w.objs[me].spec
    ensures HeldKept(me, w, n)
  {
  }

  lemma StoringWindows(me: Key, w: World, n: World, k: Key)
    requires me in w.objs && me in n.objs && n.objs == w.objs[me := n.objs[me]]
    requires n.windows == w.windows && n.overlapped == w.overlapped
    requires n.objs[me].labels == w.objs[me].labels || (Deleting(me) !in w.windows && Resizing(me) !in w.windows)
    ensures WindowsKept(me, w, n)
  {
  }

  lemma StoringOnward(me: Key, w: World, n: World)
    requires HeldKept(me, w, n) && WindowsKept(me, w, n) && me in w.objs && me in n.objs
    requires n == w.(objs := n.objs, clock := n.clock, attaching := n.attaching, found := n.found)
    requires w.clock <= n.clock && n.found <= w.found && w.objs[me].labels <= n.objs[me].labels
    requires forall a :: a in w.attaching && a !in n.attaching ==> a.from == me && a.to in n.objs[me].labels
    requires forall a :: a in w.found && a !in n.found ==> a.from == me && a.to in n.objs[me].labels
    ensures Onward(me, w, n)
  {
  }

  lemma StoringMine(me: Key, w: World, e: Event)
    requires Enabled(w, e) && IsUpdate(e, me)
    requires e.AddLabel? ==> Deleting(me) !in w.windows && Resizing(me) !in w.windows
    ensures Onward(me, w, Apply(w, e)) && Undisturbed(me, w, Apply(w, e))
  {
    StoringFrame(me, w, e);
    StoringHeld(me, w, Apply(w, e));
    StoringWindows(me, w, Apply(w, e), me);
    StoringOnward(me, w, Apply(w, e));
  }

  /** Opening references of my own moves nothing a reconcile has relied on. */
  lemma Marking(me: Key, w: World, n: World)
    requires n == w.(attaching := n.attaching, found := n.found, overlapped := n.overlapped)
    requires w.attaching <= n.attaching && w.found <= n.found && w.overlapped <= n.overlapped
    ensures Onward(me, w, n)
  {
  }

  lemma Staying(me: Key, w: World)
    ensures Onward(me, w, w)
  {
  }

  class Cluster {
    var w: World
    ghost var log: seq<Event>
    /** The calls that asked a host for a change, in order. */
    ghost var hostCalls: seq<Event>
    /** How many calls this reconcile has heard an error from, or nothing. */
    ghost var missed: nat
    /** The power states that looks at domains have seen, in order. */
    ghost var looks: seq<Power>
    /** Whether this reconcile has the cluster to itself, and whether its calls also succeed. */
    const alone: bool
    const sure: bool

    /** The state is the outcome of a run from the empty cluster, every event of it enabled where it happened. */
    ghost predicate Valid()
      reads this
    {
      Run(INITIAL, log) && After(INITIAL, log) == w && (sure ==> alone)
    }

    /** What holds in every reachable state holds now. */
    lemma Sane()
      requires Valid()
      ensures Inv(w)
    {
      RunKeeps(INITIAL, log);
    }

    constructor (alone: bool, sure: bool)
      requires sure ==> alone
      ensures Valid() && w == INITIAL && this.alone == alone && this.sure == sure
    {
      this.alone, this.sure := alone, sure;
      w, log, hostCalls, looks, missed := INITIAL, [], [], [], 0;
    }

    method Perform(e: Event)
      requires Valid() && Enabled(w, e)
      modifies this
      ensures Valid() && w == Apply(old(w), e) && log == old(log) + [e]
      ensures hostCalls == old(hostCalls) + (if IsHostCall(e) then [e] else [])
      ensures looks == old(looks) + (if e.Observe? then [w.seen[e.key]] else [])
      ensures missed == old(missed)
    {
      RunExtends(INITIAL, log, e);
      w := Apply(w, e);
      log := log + [e];
      hostCalls := hostCalls + (if IsHostCall(e) then [e] else []);
      looks := looks + (if e.Observe? then [w.seen[e.key]] else []);
    }

    /** Any number of steps of anybody else, chosen freely among the enabled ones. */
    method Interfere(me: Key)
      requires Valid() && IsReconciler(me)
      modifies this
      ensures Valid() && Unmoved(me, old(w), w)
      ensures alone ==> w == old(w) && hostCalls == old(hostCalls) && looks == old(looks)
      ensures missed == old(missed)
    {
      assert Unmoved(me, w, w) by { Sane(); Unmoving(me, w); }
      if alone { return; }
      var steps: nat := *;
      while steps > 0
        invariant Valid() && Unmoved(me, old(w), w) && missed == old(missed)
      {
        var e: Event := *;
        if Enabled(w, e) && Actor(e) != Some(me) {
          ghost var before := w;
          Sane();
          StepUnmoved(me, w, e);
          Perform(e);
          RunKeeps(INITIAL, old(log));
          Compose(me, old(w), before, w);
        }
        steps := steps - 1;
      }
    }

    /** One call: `reached` tells whether it gets through, `ok` whether the caller hears of it. */
    method Attempt(me: Key) returns (reached: bool, ok: bool)
      requires Valid() && IsReconciler(me)
      modifies this
      ensures Valid() && Unmoved(me, old(w), w) && Onward(me, old(w), w)
      ensures ok ==> reached
      ensures sure ==> ok
      ensures alone ==> w == old(w) && hostCalls == old(hostCalls) && looks == old(looks)
      ensures missed == old(missed) + (if ok then 0 else 1)
    {
      Interfere(me);
      assert Onward(me, old(w), w) by { RunKeeps(INITIAL, old(log)); Carry(me, old(w), w); }
      reached, ok := *, *;
      if sure { reached, ok := true, true; }
      if !reached { ok := false; }
      if !ok { missed := missed + 1; }
    }

    /** Something on the controller's own machine that may fail. */
    method Try() returns (ok: bool)
      requires Valid()
      modifies this`missed
      ensures Valid() && missed == old(missed) + (if ok then 0 else 1) && (sure ==> ok)
    {
      ok := Chance(sure);
      if !ok { missed := missed + 1; }
    }

    lemma Storing(me: Key, o: Object, e: Event)
      requires Valid() && Snapshot(w, me, o) && IsUpdate(e, me) && Owes(w, me, o, e) && Current(w, me, o.version)
      ensures Enabled(w, e) && me in Apply(w, e).objs && Apply(w, e).objs.Keys == w.objs.Keys
      ensures Onward(me, w, Apply(w, e)) && Undisturbed(me, w, Apply(w, e))
      ensures Apply(w, e).objs[me] == Updated(o, e).(version := w.clock)
      ensures Snapshot(Apply(w, e), me, Apply(w, e).objs[me])
    {
      Sane();
      Accepted(me, w, o, e);
      StoringMine(me, w, e);
      StoringFrame(me, w, e);
    }

    method Store(me: Key, o: Object, e: Event) returns (stored: Object)
      requires Valid() && Snapshot(w, me, o) && IsUpdate(e, me) && Owes(w, me, o, e) && Current(w, me, o.version)
      modifies this
      ensures Valid() && Onward(me, old(w), w) && Undisturbed(me, old(w), w)
      ensures hostCalls == old(hostCalls) && looks == old(looks)
      ensures Snapshot(w, me, stored) && stored == Updated(o, e).(version := stored.version)
      ensures Current(w, me, stored.version) && w.objs.Keys == old(w.objs.Keys)
      ensures missed == old(missed)
    {
      Storing(me, o, e);
      Perform(e);
      stored := w.objs[me];
    }

    /** Stores a changed copy of the reconcile's own object; a stale copy is refused. */
    method Update(me: Key, o: Object, e: Event) returns (ok: bool, stored: Object)
      requires Valid() && IsReconciler(me) && Snapshot(w, me, o)
      requires IsUpdate(e, me) && Owes(w, me, o, e)
      modifies this
      ensures Valid() && Onward(me, old(w), w)
      ensures ok ==> Snapshot(w, me, stored) && stored == Updated(o, e).(version := stored.version)
      ensures ok ==> old(Current(w, me, o.version))
      ensures sure && old(Current(w, me, o.version)) ==> ok && Current(w, me, stored.version)
      ensures alone ==> Undisturbed(me, old(w), w) && w.objs.Keys == old(w.objs.Keys)
      ensures alone ==> hostCalls == old(hostCalls) && looks == old(looks)
      ensures ok ==> missed == old(missed)
    {
      var reached;
      reached, ok := Attempt(me);
      stored := o;
      if !reached || !Current(w, me, o.version) { return false, o; }
      ghost var mid := w;
      SnapshotKept(me, old(w), mid, o);
      OwesKept(me, old(w), mid, o, e);
      stored := Store(me, o, e);
      Chain(me, old(w), mid, w);
    }

    /** Reads the reconcile's own object. */
    method Get(me: Key) returns (ok: bool, o: Option<Object>)
      requires Valid() && IsReconciler(me)
      modifies this
      ensures Valid() && Onward(me, old(w), w)
      ensures ok ==> (o.Some? <==> me in w.objs)
      ensures ok && o.Some? ==> o.value == w.objs[me] && Snapshot(w, me, o.value)
      ensures sure ==> ok
      ensures alone ==> w == old(w) && hostCalls == old(hostCalls) && looks == old(looks)
      ensures ok ==> missed == old(missed)
    {
      var reached;
      reached, ok := Attempt(me);
      o := if me in w.objs then Some(w.objs[me]) else None;
      assert me in w.objs ==> Snapshot(w, me, w.objs[me]) by { Sane(); }
    }

    /** meta.SetStatusCondition followed by a status update if the condition changed; `ready` is the condition. */
    method Report(me: Key, o: Object, ready: bool, place: Option<Place>) returns (ok: bool, stored: Object)
      requires Valid() && IsReconciler(me) && Snapshot(w, me, o)
      requires ready ==> StatusOk(me, o.(place := place), w.bound) && (o.deleting || Owns(w, me))
      modifies this
      ensures Valid() && Onward(me, old(w), w)
      ensures ok ==> Snapshot(w, me, stored)
      ensures ok ==> stored == o.(version := stored.version, ready := ready, place := stored.place)
      ensures ok ==> stored.place == place || (stored == o && o.ready == ready)
      ensures sure && old(Current(w, me, o.version)) ==> ok && Current(w, me, stored.version)
      ensures alone ==> Undisturbed(me, old(w), w) && w.objs.Keys == old(w.objs.Keys)
      ensures alone ==> hostCalls == old(hostCalls) && looks == old(looks)
      ensures ok ==> missed == old(missed)
    {
      var changed: bool := *;
      if o.ready == ready && !changed {
        Staying(me, w);
        return true, o;
      }
      ok, stored := Update(me, o, SetStatus(me, o.version, ready, place));
    }

    /** Takes the finalizer off, and with it the object, unless the copy is stale. */
    method Remove(me: Key, o: Object, heard: bool) returns (result: Outcome)
      requires Valid() && IsReconciler(me) && o.deleting && o.finalizer && Snapshot(w, me, o)
      requires Duty(w, RemoveFinalizer(me, o.version))
      modifies this
      ensures Valid() && hostCalls == old(hostCalls) && looks == old(looks) && Undisturbed(me, old(w), w)
      ensures w == old(w) || w == old(w).(objs := old(w).objs - {me})
      ensures result == Done ==> me !in w.objs && heard
      ensures result == Done || result == Failed(CallFailed)
      ensures Current(old(w), me, o.version) && heard ==> result == Done
      ensures missed == old(missed)
    {
      if !Current(w, me, o.version) { return Failed(CallFailed); }
      Perform(RemoveFinalizer(me, o.version));
      result := if heard then Done else Failed(CallFailed);
    }

    /** Any other condition, such as DeletionPrevented: a status update that leaves `ready` and `place` alone. */
    method Note(me: Key, o: Object) returns (ok: bool, stored: Object)
      requires Valid() && IsReconciler(me) && Snapshot(w, me, o) && o.finalizer && (o.deleting || IsProbed(me))
      modifies this
      ensures Valid() && Onward(me, old(w), w)
      ensures ok ==> Snapshot(w, me, stored) && stored == o.(version := stored.version, place := stored.place)
      ensures sure && old(Current(w, me, o.version)) ==> ok && Current(w, me, stored.version)
      ensures alone ==> Undisturbed(me, old(w), w) && w.objs.Keys == old(w.objs.Keys)
      ensures alone ==> hostCalls == old(hostCalls) && looks == old(looks)
      ensures ok ==> missed == old(missed)
    {
      assert o.ready ==> StatusOk(me, o, w.bound) by {
        Sane();
        assert o.ready ==> StatusOk(me, w.objs[me], w.bound);
      }
      ok, stored := Report(me, o, o.ready, o.place);
    }

    /** From here until the label is stored, a reference to `to` is being made. */
    method Refer(me: Key, to: Key)
      requires Valid() && to != me && Anchored(w.objs, to)
      modifies this
      ensures Valid() && Onward(me, old(w), w) && Undisturbed(me, old(w), w)
      ensures hostCalls == old(hostCalls) && looks == old(looks)
      ensures w == old(w).(attaching := w.attaching, overlapped := w.overlapped)
      ensures Edge(me, to) in w.attaching
      ensures missed == old(missed)
    {
      Perform(OpenEdge(me, to));
      Marking(me, old(w), w);
    }

    /** The host copy of `to` has been looked up. */
    method Find(me: Key, to: Key)
      requires Valid() && Edge(me, to) in w.attaching && Live(w.objs, w.bound, w.volumes, to)
      modifies this
      ensures Valid() && Onward(me, old(w), w) && Undisturbed(me, old(w), w)
      ensures hostCalls == old(hostCalls) && looks == old(looks)
      ensures w == old(w).(found := w.found)
      ensures Edge(me, to) in w.found
      ensures missed == old(missed)
    {
      Perform(FindEdge(me, to));
      Marking(me, old(w), w);
    }

    /** From here on `me` decides on its own deletion or resize. */
    method Open(me: Key, win: Window)
      requires Valid() && win.key == me
      modifies this
      ensures Valid() && Undisturbed(me, old(w), w) && hostCalls == old(hostCalls) && looks == old(looks)
      ensures w == old(w).(windows := w.windows, overlapped := w.overlapped)
      ensures win in w.windows && old(w.windows) <= w.windows <= old(w.windows) + {win}
      ensures old(w.overlapped) <= w.overlapped
      ensures missed == old(missed)
    {
      Perform(OpenWindow(me, win));
    }

    /** The reconcile is over: what it had open is closed, and its copies are finished. */
    method Close(me: Key)
      requires Valid()
      modifies this
      ensures Valid() && hostCalls == old(hostCalls) && looks == old(looks) && Rested(w, me)
      ensures w == old(w).(attaching := w.attaching, found := w.found, windows := w.windows, volumes := w.volumes)
      ensures w.volumes.Keys == old(w.volumes).Keys
      ensures forall p :: p in w.volumes ==> w.volumes[p].(recent := old(w.volumes)[p].recent) == old(w.volumes)[p]
      ensures w.attaching <= old(w.attaching) && w.windows <= old(w.windows)
      ensures old(Solo(w, me)) ==> w.attaching == {} && w.windows == {}
      ensures missed == old(missed)
    {
      Perform(Finish(me));
    }
  }
}
