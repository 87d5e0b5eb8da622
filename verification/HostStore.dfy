/** HostStore and HostEntry of internal/store/host.go: connections shared by reconcilers, each watched by a monitor that
 *  drains it when it is replaced or removed. Every point at which a goroutine can be overtaken is a step of its own;
 *  the store's lock is held from the beginning of a Register or Deregister until its send on `mon` is received. */
module HostStore {

  type Uid = string

  /** Where an entry's monitor is: in its select, reconnecting, in gracefulDisconnect, past the session check there, or
   *  gone. */
  datatype Monitor = Watching | Connecting | Draining | Closing | Exited

  /** `signals` counts what has been received on the entry's `mon` channel. */
  datatype Entry = Entry(uid: Uid, generation: int, connected: bool, sessions: set<nat>, monitor: Monitor, signals: nat)

  /** What the holder of the store's lock is at. */
  datatype Op = Idle | Dialling(uid: Uid, generation: int) | Sending(to: nat)

  /** A caller between Lookup and the end of Session; `passed` once it has found the client connected. */
  datatype Holder = Holder(entry: nat, passed: bool)

  datatype State = State(
    entries: map<Uid, nat>,
    all: map<nat, Entry>,
    next: nat,
    op: Op,
    holders: map<nat, Holder>,
    nextSession: nat,
    cancelled: bool)

  const INITIAL: State := State(map[], map[], 0, Idle, map[], 0, false)

  datatype Step =
    // callers of the store
    | BeginRegister(uid: Uid, generation: int)
    | Dialled(ok: bool)
    | BeginDeregister(uid: Uid)
    | Handoff
    | Lookup(holder: nat, uid: Uid)
    // callers of an entry
    | Check(holder: nat)
    | Open(holder: nat)
    | Drop(holder: nat)
    | End(entry: nat, session: nat)
    // the monitor of an entry
    | Notice(entry: nat)
    | Reconnected(entry: nat, ok: bool)
    | Poll(entry: nat)
    | Close(entry: nat)
    | Stop(entry: nat)
    // the world around
    | LinkLost(entry: nat)
    | Cancel

  predicate Enabled(s: State, e: Step) {
    match e
    case BeginRegister(_, _) => s.op.Idle?
    case Dialled(_) => s.op.Dialling?
    case BeginDeregister(_) => s.op.Idle?
    case Handoff => s.op.Sending? && s.op.to in s.all && s.all[s.op.to].monitor == Watching
    case Lookup(h, _) => s.op.Idle? && h !in s.holders
    case Check(h) => h in s.holders && s.holders[h].entry in s.all && !s.holders[h].passed
    case Open(h) => h in s.holders && s.holders[h].entry in s.all && s.holders[h].passed
    case Drop(h) => h in s.holders && !s.holders[h].passed
    case End(i, _) => i in s.all
    case Notice(i) => i in s.all && s.all[i].monitor == Watching && !s.all[i].connected
    case Reconnected(i, _) => i in s.all && s.all[i].monitor == Connecting
    case Poll(i) => i in s.all && s.all[i].monitor == Draining
    case Close(i) => i in s.all && s.all[i].monitor == Closing
    case Stop(i) => s.cancelled && i in s.all && s.all[i].monitor == Watching
    case LinkLost(i) => i in s.all
    case Cancel => true
  }

  function Set(s: State, i: nat, e: Entry): State { s.(all := s.all[i := e]) }

  function Next(s: State, e: Step): State
    requires Enabled(s, e)
  {
    match e
    case BeginRegister(uid, generation) => s.(op := Dialling(uid, generation))
    case Dialled(ok) =>
      var uid := s.op.uid;
      s.(all := s.all[s.next := Entry(uid, s.op.generation, ok, {}, Watching, 0)],
         entries := s.entries[uid := s.next], next := s.next + 1,
         op := if uid in s.entries then Sending(s.entries[uid]) else Idle)
    case BeginDeregister(uid) =>
      if uid in s.entries then s.(entries := s.entries - {uid}, op := Sending(s.entries[uid])) else s
    case Handoff =>
      var i := s.op.to;
      Set(s, i, s.all[i].(monitor := Draining, signals := s.all[i].signals + 1)).(op := Idle)
    case Lookup(h, uid) =>
      if uid in s.entries then s.(holders := s.holders[h := Holder(s.entries[uid], false)]) else s
    case Check(h) =>
      if s.all[s.holders[h].entry].connected then s.(holders := s.holders[h := s.holders[h].(passed := true)])
      else s.(holders := s.holders - {h})
    case Open(h) =>
      var i := s.holders[h].entry;
      Set(s, i, s.all[i].(sessions := s.all[i].sessions + {s.nextSession}))
        .(holders := s.holders - {h}, nextSession := s.nextSession + 1)
    case Drop(h) => s.(holders := s.holders - {h})
    case End(i, session) => Set(s, i, s.all[i].(sessions := s.all[i].sessions - {session}))
    case Notice(i) => Set(s, i, s.all[i].(monitor := Connecting))
    case Reconnected(i, ok) => Set(s, i, s.all[i].(monitor := Watching, connected := ok))
    case Poll(i) =>
      if !s.all[i].connected then Set(s, i, s.all[i].(monitor := Exited))
      else if s.all[i].sessions != {} then s
      else Set(s, i, s.all[i].(monitor := Closing))
    case Close(i) => Set(s, i, s.all[i].(monitor := Exited, connected := false))
    case Stop(i) => Set(s, i, s.all[i].(monitor := Draining))
    case LinkLost(i) => Set(s, i, s.all[i].(connected := false))
    case Cancel => s.(cancelled := true)
  }

  ghost predicate Run(s: State, steps: seq<Step>)
    decreases |steps|
  {
    steps == [] || (Enabled(s, steps[0]) && Run(Next(s, steps[0]), steps[1..]))
  }

  ghost function After(s: State, steps: seq<Step>): State
    requires Run(s, steps)
    decreases |steps|
  {
    if steps == [] then s else After(Next(s, steps[0]), steps[1..])
  }

  ghost predicate Reachable(s: State) {
    exists steps :: Run(INITIAL, steps) && After(INITIAL, steps) == s
  }

  // ---------- what always holds ----------

  /** The monitor still receives on its channel, now or after its Connect has returned. */
  predicate Receives(e: Entry) { e.monitor.Watching? || e.monitor.Connecting? }

  ghost predicate Shaped(s: State) {
    && (forall i :: i in s.all ==> i < s.next)
    && (forall u :: u in s.entries ==> s.entries[u] in s.all && s.all[s.entries[u]].uid == u)
    && (s.op.Sending? ==> s.op.to in s.all && (forall u :: u in s.entries ==> s.entries[u] != s.op.to))
    && (forall h :: h in s.holders ==> s.holders[h].entry in s.all)
  }

  /** Every session belongs to one entry. */
  ghost predicate Disjoint(s: State) {
    && (forall i, x :: i in s.all && x in s.all[i].sessions ==> x < s.nextSession)
    && (forall i, j, x :: i in s.all && j in s.all && x in s.all[i].sessions && x in s.all[j].sessions ==> i == j)
  }

  /** Until a context is cancelled: a mapped entry's monitor is in its loop and has not been signalled, and so is that
   *  of the entry being signalled; any other entry has been signalled exactly once and its monitor has left it. */
  ghost predicate Watched(s: State) {
    forall i :: i in s.all ==>
      if IsMapped(s, i) || s.op == Sending(i) then Receives(s.all[i]) && s.all[i].signals == 0
      else !Receives(s.all[i]) && s.all[i].signals == 1
  }

  predicate IsMapped(s: State, i: nat)
    requires i in s.all
  {
    s.all[i].uid in s.entries && s.entries[s.all[i].uid] == i
  }

  ghost predicate Inv(s: State) {
    Shaped(s) && Disjoint(s) && (!s.cancelled ==> Watched(s)) && Unsignalled(s) && SignalledOnce(s)
  }

  /** What can still be signalled has not been. */
  ghost predicate Unsignalled(s: State) {
    && (forall i :: i in s.all && IsMapped(s, i) ==> s.all[i].signals == 0)
    && (s.op.Sending? && s.op.to in s.all ==> s.all[s.op.to].signals == 0)
  }

  ghost predicate SignalledOnce(s: State) {
    forall i :: i in s.all ==> s.all[i].signals <= 1
  }

  lemma StepShaped(s: State, e: Step)
    requires Shaped(s) && Enabled(s, e)
    ensures Shaped(Next(s, e))
  {
    if e.Dialled? { DialledShaped(s, e.ok); }
  }

  lemma DialledShaped(s: State, ok: bool)
    requires Shaped(s) && Enabled(s, Dialled(ok))
    ensures Shaped(Next(s, Dialled(ok)))
  {
  }

  lemma StepDisjoint(s: State, e: Step)
    requires Shaped(s) && Disjoint(s) && Enabled(s, e)
    ensures Disjoint(Next(s, e))
  {
    if e.Open? { OpenDisjoint(s, e.holder); } else { FewerDisjoint(s, Next(s, e)); }
  }

  lemma OpenDisjoint(s: State, h: nat)
    requires Shaped(s) && Disjoint(s) && Enabled(s, Open(h))
    ensures Disjoint(Next(s, Open(h)))
  {
  }

  lemma FewerDisjoint(s: State, n: State)
    requires Disjoint(s) && n.nextSession == s.nextSession
    requires forall i :: i in n.all ==> n.all[i].sessions <= (if i in s.all then s.all[i].sessions else {})
    ensures Disjoint(n)
  {
  }

  lemma StepWatched(s: State, e: Step)
    requires Shaped(s) && Watched(s) && Enabled(s, e) && !s.cancelled && !e.Cancel?
    ensures Watched(Next(s, e))
  {
    if e.Dialled? { DialledWatched(s, e.ok); }
  }

  lemma DialledWatched(s: State, ok: bool)
    requires Shaped(s) && Watched(s) && Enabled(s, Dialled(ok))
    ensures Watched(Next(s, Dialled(ok)))
  {
  }

  lemma StepUnsignalled(s: State, e: Step)
    requires Shaped(s) && Unsignalled(s) && Enabled(s, e)
    ensures Unsignalled(Next(s, e))
  {
  }

  lemma StepSignalledOnce(s: State, e: Step)
    requires Unsignalled(s) && SignalledOnce(s) && Enabled(s, e)
    ensures SignalledOnce(Next(s, e))
  {
  }

  lemma StepKeeps(s: State, e: Step)
    requires Inv(s) && Enabled(s, e)
    ensures Inv(Next(s, e))
  {
    StepShaped(s, e);
    StepDisjoint(s, e);
    StepUnsignalled(s, e);
    StepSignalledOnce(s, e);
    if !Next(s, e).cancelled { StepWatched(s, e); }
  }

  lemma {:induction false} RunKeeps(s: State, steps: seq<Step>)
    requires Inv(s) && Run(s, steps)
    ensures Inv(After(s, steps))
    decreases |steps|
  {
    if steps != [] {
      StepKeeps(s, steps[0]);
      RunKeeps(Next(s, steps[0]), steps[1..]);
    }
  }

  lemma ReachableInv(s: State)
    requires Reachable(s)
    ensures Inv(s)
  {
    var steps :| Run(INITIAL, steps) && After(INITIAL, steps) == s;
    RunKeeps(INITIAL, steps);
  }

  /** In every reachable state in which no context has been cancelled, each mapped entry has a monitor in its loop, two
   *  names never share an entry, no channel has been signalled twice, and what is being signalled is received. */
  lemma MonitorsLive(s: State)
    requires Reachable(s) && !s.cancelled
    ensures forall u :: u in s.entries ==>
              s.entries[u] in s.all && Receives(s.all[s.entries[u]]) && s.all[s.entries[u]].signals == 0
    ensures forall u, v :: u in s.entries && v in s.entries && s.entries[u] == s.entries[v] ==> u == v
    ensures forall i :: i in s.all ==> s.all[i].signals <= 1
    ensures s.op.Sending? ==> s.op.to in s.all && Receives(s.all[s.op.to])
    ensures forall i :: i in s.all && Receives(s.all[i]) ==>
              (exists u :: u in s.entries && s.entries[u] == i) || s.op == Sending(i)
  {
    ReachableInv(s);
    forall u | u in s.entries
      ensures s.entries[u] in s.all && Receives(s.all[s.entries[u]]) && s.all[s.entries[u]].signals == 0
    {
      assert IsMapped(s, s.entries[u]);
    }
  }

  // ---------- the blocking send ----------

  /** Steps that free the store's lock: Connect returns, and the monitor receives. */
  function Freeing(s: State): seq<Step> {
    match s.op
    case Idle => []
    case Dialling(uid, _) =>
      [Dialled(false)] + (if uid in s.entries && s.entries[uid] in s.all then Receiving(s, s.entries[uid]) else [])
    case Sending(i) => if i in s.all then Receiving(s, i) else []
  }

  function Receiving(s: State, i: nat): seq<Step>
    requires i in s.all
  {
    if s.all[i].monitor.Connecting? then [Reconnected(i, false), Handoff] else [Handoff]
  }

  lemma ReceivingFrees(s: State, i: nat)
    requires s.op == Sending(i) && i in s.all && Receives(s.all[i])
    ensures Run(s, Receiving(s, i)) && After(s, Receiving(s, i)).op == Idle
  {
    if s.all[i].monitor.Connecting? {
      var m := Next(s, Reconnected(i, false));
      assert Receiving(s, i)[1..] == [Handoff];
      assert [Handoff][1..] == [];
      assert Enabled(m, Handoff);
      assert Run(m, [Handoff]);
    } else {
      assert [Handoff][1..] == [];
    }
  }

  /** A send that has begun can complete exactly as long as the monitor is in its loop; if it is not, the lock is held
   *  for good, whatever else happens. */
  lemma SendCompletes(s: State)
    requires s.op.Sending? && s.op.to in s.all
    ensures (exists steps :: Run(s, steps) && After(s, steps).op == Idle) <==> Receives(s.all[s.op.to])
  {
    var i := s.op.to;
    if Receives(s.all[i]) {
      ReceivingFrees(s, i);
    } else {
      forall steps | Run(s, steps)
        ensures After(s, steps).op != Idle
      {
        Stuck(s, steps);
      }
    }
  }

  lemma {:induction false} Stuck(s: State, steps: seq<Step>)
    requires s.op.Sending? && s.op.to in s.all && !Receives(s.all[s.op.to]) && Run(s, steps)
    ensures After(s, steps).op == s.op
    decreases |steps|
  {
    if steps != [] {
      Stuck(Next(s, steps[0]), steps[1..]);
    }
  }

  /** Until a context is cancelled the lock can always be freed, given that Connect returns: by at most three steps. */
  lemma NeverDeadlocked(s: State)
    requires Reachable(s) && !s.cancelled
    ensures |Freeing(s)| <= 3 && Run(s, Freeing(s)) && After(s, Freeing(s)).op == Idle
  {
    ReachableInv(s);
    if s.op.Sending? {
      ReceivingFrees(s, s.op.to);
    } else if s.op.Dialling? {
      var m := Next(s, Dialled(false));
      assert Freeing(s)[1..] == if s.op.uid in s.entries then Receiving(s, s.entries[s.op.uid]) else [];
      if s.op.uid in s.entries {
        var i := s.entries[s.op.uid];
        assert IsMapped(s, i) && m.op == Sending(i) && m.all[i] == s.all[i];
        ReceivingFrees(m, i);
      }
    }
  }

  /** After a cancellation a monitor may be gone while its entry is still mapped; the next Deregister then never returns
   *  and never gives the lock back. */
  lemma CancelBlocks()
    ensures exists s :: Reachable(s) && s.cancelled && s.op.Sending? && forall steps :: Run(s, steps) ==>
              After(s, steps).op == s.op
  {
    var log := AnEntry();
    var s := ONE_ENTRY.(cancelled := true);
    log := Do(log, ONE_ENTRY, Cancel, s);
    var t := s.(all := map[0 := FRESH.(monitor := Draining)]);
    log := Do(log, s, Stop(0), t);
    var u := t.(entries := map[], op := Sending(0));
    log := Do(log, t, BeginDeregister("h"), u);
    forall steps | Run(u, steps)
      ensures After(u, steps).op == u.op
    {
      Stuck(u, steps);
    }
  }

  lemma {:induction false} Longer(s: State, steps: seq<Step>, e: Step)
    requires Run(s, steps) && Enabled(After(s, steps), e)
    ensures Run(s, steps + [e]) && After(s, steps + [e]) == Next(After(s, steps), e)
    decreases |steps|
  {
    if steps == [] {
      assert [e][1..] == [];
    } else {
      Longer(Next(s, steps[0]), steps[1..], e);
      assert (steps + [e])[1..] == steps[1..] + [e];
    }
  }

  lemma Do(log: seq<Step>, s: State, e: Step, n: State) returns (more: seq<Step>)
    requires Run(INITIAL, log) && After(INITIAL, log) == s && Enabled(s, e) && Next(s, e) == n
    ensures Run(INITIAL, more) && After(INITIAL, more) == n
  {
    Longer(INITIAL, log, e);
    more := log + [e];
  }

  // ---------- draining ----------

  /** The entry is out of the map, and nobody is on the way from Lookup to a session of it. */
  ghost predicate Retired(s: State, i: nat) {
    && i in s.all && i < s.next
    && (forall u :: u in s.entries ==> s.entries[u] != i)
    && (forall h :: h in s.holders ==> s.holders[h].entry != i)
  }

  lemma StepRetired(s: State, e: Step, i: nat)
    requires Retired(s, i) && Enabled(s, e)
    ensures Retired(Next(s, e), i)
    ensures Next(s, e).all[i].sessions <= s.all[i].sessions
    ensures Next(s, e).all[i].sessions != s.all[i].sessions ==>
              e.End? && e.entry == i && Next(s, e).all[i].sessions == s.all[i].sessions - {e.session}
    ensures Next(s, e).all[i].monitor.Closing? ==> s.all[i].monitor.Closing? || s.all[i].sessions == {}
  {
  }

  /** Once an entry is retired its sessions only go, each by its own end, and it stays retired. */
  lemma {:induction false} SessionsDrain(s: State, steps: seq<Step>, i: nat)
    requires Retired(s, i) && Run(s, steps)
    ensures Retired(After(s, steps), i) && After(s, steps).all[i].sessions <= s.all[i].sessions
    ensures forall x :: x in s.all[i].sessions && End(i, x) !in steps ==> x in After(s, steps).all[i].sessions
    decreases |steps|
  {
    if steps != [] {
      StepRetired(s, steps[0], i);
      SessionsDrain(Next(s, steps[0]), steps[1..], i);
      assert forall x :: End(i, x) !in steps ==> End(i, x) !in steps[1..] && steps[0] != End(i, x);
    }
  }

  /** The monitor of an entry that was retired before it looked at the sessions disconnects only without any. */
  lemma {:induction false} ClosesEmpty(s: State, steps: seq<Step>, i: nat)
    requires Retired(s, i) && (s.all[i].monitor.Closing? ==> s.all[i].sessions == {})
    requires Run(s, steps) && Enabled(After(s, steps), Close(i))
    ensures After(s, steps).all[i].sessions == {}
    decreases |steps|
  {
    if steps != [] {
      StepRetired(s, steps[0], i);
      ClosesEmpty(Next(s, steps[0]), steps[1..], i);
    }
  }

  /** The steps by which a holder of an entry opens its session. */
  function Opening(s: State, h: nat): seq<Step>
    requires h in s.holders
  {
    if s.holders[h].passed then [Open(h)] else [Check(h), Open(h)]
  }

  lemma {:induction false} HolderOpens(s: State, h: nat)
    requires h in s.holders && s.holders[h].entry in s.all
    requires s.all[s.holders[h].entry].connected && s.all[s.holders[h].entry].monitor.Closing?
    ensures Run(s, Opening(s, h))
    ensures var n, i := After(s, Opening(s, h)), s.holders[h].entry; Enabled(n, Close(i)) && n.all[i].sessions != {}
    decreases !s.holders[h].passed
  {
    var i := s.holders[h].entry;
    if s.holders[h].passed {
      assert Opening(s, h)[1..] == [];
      assert s.nextSession in Next(s, Open(h)).all[i].sessions;
    } else {
      var m := Next(s, Check(h));
      assert Opening(s, h)[1..] == Opening(m, h);
      HolderOpens(m, h);
    }
  }

  /** A monitor that has counted no sessions is bound to disconnect without any, if and only if nobody is on the way
   *  from Lookup to a session of that entry. */
  lemma ClosesEmptyExactly(s: State, i: nat)
    requires Reachable(s) && !s.cancelled && i in s.all
    requires s.all[i].monitor.Closing? && s.all[i].connected && s.all[i].sessions == {}
    ensures (forall steps :: Run(s, steps) && Enabled(After(s, steps), Close(i)) ==>
                               After(s, steps).all[i].sessions == {})
            <==> (forall h :: h in s.holders ==> s.holders[h].entry != i)
  {
    ReachableInv(s);
    if h :| h in s.holders && s.holders[h].entry == i {
      HolderOpens(s, h);
    } else {
      assert Retired(s, i) by {
        assert forall u :: u in s.entries && s.entries[u] == i ==> IsMapped(s, i);
      }
      forall steps | Run(s, steps) && Enabled(After(s, steps), Close(i))
        ensures After(s, steps).all[i].sessions == {}
      {
        ClosesEmpty(s, steps, i);
      }
    }
  }

  /** Some run comes to a disconnect of the entry while it has a session. */
  ghost predicate MayCutOff(s: State, i: nat) {
    exists steps :: CutsOff(s, steps, i)
  }

  ghost predicate CutsOff(s: State, steps: seq<Step>, i: nat) {
    Run(s, steps) && Enabled(After(s, steps), Close(i)) && After(s, steps).all[i].sessions != {}
  }

  lemma Before(s: State, e: Step, i: nat)
    requires Enabled(s, e) && MayCutOff(Next(s, e), i)
    ensures MayCutOff(s, i)
  {
    var steps :| CutsOff(Next(s, e), steps, i);
    assert ([e] + steps)[1..] == steps;
    assert CutsOff(s, [e] + steps, i);
  }

  /** The store's lock can still come to be free: whatever is or will be sent can be received. */
  predicate Freeable(s: State) {
    match s.op
    case Idle => true
    case Dialling(uid, _) => uid in s.entries ==> s.entries[uid] in s.all && Receives(s.all[s.entries[uid]])
    case Sending(j) => j in s.all && Receives(s.all[j])
  }

  /** A mapped entry whose monitor has counted no sessions and is about to disconnect. */
  ghost predicate Exposed(s: State, i: nat) {
    Shaped(s) && i in s.all && IsMapped(s, i) && s.all[i].monitor.Closing? && s.all[i].connected
  }

  lemma {:induction false} AFreshHolder(holders: map<nat, Holder>) returns (h: nat)
    ensures forall k :: k in holders ==> k < h
    decreases |holders|
  {
    h := 0;
    if holders != map[] {
      var k :| k in holders;
      h := AFreshHolder(holders - {k});
      assert forall j :: j in holders && j != k ==> j in holders - {k};
      if h <= k { h := k + 1; }
    }
  }

  lemma CutOffIdle(s: State, i: nat)
    requires Exposed(s, i) && s.op.Idle?
    ensures MayCutOff(s, i)
  {
    var h := AFreshHolder(s.holders);
    var e := Lookup(h, s.all[i].uid);
    var n := Next(s, e);
    HolderOpens(n, h);
    assert CutsOff(n, Opening(n, h), i);
    Before(s, e, i);
  }

  lemma CutOffSending(s: State, i: nat)
    requires Exposed(s, i) && s.op.Sending? && Freeable(s)
    ensures MayCutOff(s, i)
    decreases s.all[s.op.to].monitor.Connecting?
  {
    if s.all[s.op.to].monitor.Connecting? {
      var e := Reconnected(s.op.to, false);
      CutOffSending(Next(s, e), i);
      Before(s, e, i);
    } else {
      CutOffIdle(Next(s, Handoff), i);
      Before(s, Handoff, i);
    }
  }

  lemma CutOffDialling(s: State, i: nat)
    requires Exposed(s, i) && s.op.Dialling? && Freeable(s)
    ensures MayCutOff(s, i)
  {
    var e := Dialled(false);
    var n := Next(s, e);
    StepShaped(s, e);
    if s.op.uid in s.entries { CutOffSending(n, i); } else { CutOffIdle(n, i); }
    Before(s, e, i);
  }

  /** The lock is held for good, and nobody has found the entry before. */
  ghost predicate Jammed(s: State, i: nat) {
    && Shaped(s) && !Freeable(s) && i in s.all && s.all[i].sessions == {}
    && (forall h :: h in s.holders ==> s.holders[h].entry != i)
  }

  lemma StepJammed(s: State, e: Step, i: nat)
    requires Jammed(s, i) && Enabled(s, e)
    ensures Jammed(Next(s, e), i)
  {
    StepShaped(s, e);
  }

  lemma {:induction false} RunJammed(s: State, steps: seq<Step>, i: nat)
    requires Jammed(s, i) && Run(s, steps)
    ensures Jammed(After(s, steps), i)
    decreases |steps|
  {
    if steps != [] {
      StepJammed(s, steps[0], i);
      RunJammed(Next(s, steps[0]), steps[1..], i);
    }
  }

  /** Whatever has been cancelled: a monitor that has counted no sessions is bound to disconnect without any, if and
   *  only if nobody is on the way from Lookup to a session of the entry, nor can get there, be it that the entry is no
   *  longer mapped or that the lock is held for good. */
  lemma CutOffExactly(s: State, i: nat)
    requires Reachable(s) && i in s.all
    requires s.all[i].monitor.Closing? && s.all[i].connected && s.all[i].sessions == {}
    ensures !MayCutOff(s, i) <==>
            (forall h :: h in s.holders ==> s.holders[h].entry != i) && (IsMapped(s, i) ==> !Freeable(s))
  {
    ReachableInv(s);
    if h :| h in s.holders && s.holders[h].entry == i {
      HolderOpens(s, h);
      assert CutsOff(s, Opening(s, h), i);
    } else if IsMapped(s, i) && Freeable(s) {
      match s.op
      case Idle => CutOffIdle(s, i);
      case Dialling(_, _) => CutOffDialling(s, i);
      case Sending(_) => CutOffSending(s, i);
    } else {
      forall steps
        ensures !CutsOff(s, steps, i)
      {
        if Run(s, steps) && Enabled(After(s, steps), Close(i)) { Spared(s, steps, i); }
      }
    }
  }

  lemma Spared(s: State, steps: seq<Step>, i: nat)
    requires Inv(s) && i in s.all && s.all[i].sessions == {} && Run(s, steps) && Enabled(After(s, steps), Close(i))
    requires (forall h :: h in s.holders ==> s.holders[h].entry != i) && (IsMapped(s, i) ==> !Freeable(s))
    ensures After(s, steps).all[i].sessions == {}
  {
    if IsMapped(s, i) {
      RunJammed(s, steps, i);
    } else {
      assert forall u :: u in s.entries && s.entries[u] == i ==> IsMapped(s, i);
      ClosesEmpty(s, steps, i);
    }
  }

  lemma StepClosed(s: State, e: Step, i: nat)
    requires Shaped(s) && Enabled(s, e) && i in s.all && s.all[i].monitor.Exited? && !s.all[i].connected
    ensures i in Next(s, e).all && Next(s, e).all[i].monitor.Exited? && !Next(s, e).all[i].connected
  {
  }

  lemma {:induction false} StaysClosed(s: State, steps: seq<Step>, i: nat)
    requires Shaped(s) && Run(s, steps) && i in s.all && s.all[i].monitor.Exited? && !s.all[i].connected
    ensures i in After(s, steps).all && After(s, steps).all[i].monitor.Exited? && !After(s, steps).all[i].connected
    decreases |steps|
  {
    if steps != [] {
      StepShaped(s, steps[0]);
      StepClosed(s, steps[0], i);
      StaysClosed(Next(s, steps[0]), steps[1..], i);
    }
  }

  /** What a monitor has disconnected is never connected again, and nobody opens a session of it after that. */
  lemma ClosedForGood(s: State, i: nat, steps: seq<Step>)
    requires Reachable(s) && Enabled(s, Close(i)) && Run(Next(s, Close(i)), steps)
    ensures var n := After(Next(s, Close(i)), steps); i in n.all && !n.all[i].connected && !Receives(n.all[i])
    ensures var n := After(Next(s, Close(i)), steps);
            forall h :: Enabled(n, Check(h)) && n.holders[h].entry == i ==> h !in Next(n, Check(h)).holders
  {
    ReachableInv(s);
    StepShaped(s, Close(i));
    StaysClosed(Next(s, Close(i)), steps, i);
  }

  /** `end` takes its own session and no other: sessions of different entries are different. */
  lemma EndIsOwn(s: State, i: nat, x: nat)
    requires Reachable(s) && i in s.all && x in s.all[i].sessions
    ensures Enabled(s, End(i, x)) && Next(s, End(i, x)).all.Keys == s.all.Keys
    ensures forall j :: j in s.all ==> Next(s, End(i, x)).all[j].sessions == s.all[j].sessions - {x}
  {
    ReachableInv(s);
  }

  const FRESH: Entry := Entry("h", 1, true, {}, Watching, 0)
  const ONE_ENTRY: State := INITIAL.(all := map[0 := FRESH], entries := map["h" := 0], next := 1)
  const REMOVED: State := ONE_ENTRY.(holders := map[7 := Holder(0, true)], entries := map[], op := Sending(0))

  lemma AnEntry() returns (log: seq<Step>)
    ensures Run(INITIAL, log) && After(INITIAL, log) == ONE_ENTRY
  {
    var s := INITIAL.(op := Dialling("h", 1));
    log := Do([], INITIAL, BeginRegister("h", 1), s);
    log := Do(log, s, Dialled(true), ONE_ENTRY);
  }

  lemma ARemoval() returns (log: seq<Step>)
    ensures Run(INITIAL, log) && After(INITIAL, log) == REMOVED
  {
    log := AnEntry();
    var s := ONE_ENTRY.(holders := map[7 := Holder(0, false)]);
    var t := ONE_ENTRY.(holders := map[7 := Holder(0, true)]);
    log := Do(log, ONE_ENTRY, Lookup(7, "h"), s);
    log := Do(log, s, Check(7), t);
    log := Do(log, t, BeginDeregister("h"), REMOVED);
  }

  /** A caller that looked the entry up before it was removed can still open a session after the monitor has counted
   *  none, and loses its connection. */
  lemma LateHolder()
    ensures exists s, i :: Reachable(s) && !s.cancelled && Enabled(s, Close(i)) && s.all[i].sessions != {}
  {
    var log := ARemoval();
    var e := FRESH.(monitor := Draining, signals := 1);
    var s := REMOVED.(all := map[0 := e], op := Idle);
    log := Do(log, REMOVED, Handoff, s);
    var t := s.(all := map[0 := e.(monitor := Closing)]);
    log := Do(log, s, Poll(0), t);
    assert {} + {0} == {0};
    var u := t.(all := map[0 := e.(monitor := Closing, sessions := {0})], holders := map[], nextSession := 1);
    log := Do(log, t, Open(7), u);
    assert Enabled(u, Close(0)) && 0 in u.all[0].sessions;
  }

  // ---------- the operations ----------

  /** Steps that only the holder of the store's lock takes. */
  predicate Locked(e: Step) {
    e.BeginRegister? || e.Dialled? || e.BeginDeregister? || e.Handoff? || e.Lookup?
  }

  /** While the lock is held, nobody else changes the map, and entries keep their names and generations. */
  ghost predicate Guarded(s: State, n: State) {
    && n.entries == s.entries && n.op == s.op && n.next == s.next && n.all.Keys == s.all.Keys
    && (forall i :: i in s.all ==> n.all[i].uid == s.all[i].uid && n.all[i].generation == s.all[i].generation
                                   && n.all[i].signals == s.all[i].signals)
  }

  lemma StepGuarded(s: State, e: Step)
    requires Enabled(s, e) && !Locked(e) && (forall h :: h in s.holders ==> s.holders[h].entry in s.all)
    ensures Guarded(s, Next(s, e))
  {
  }

  class Store {
    var s: State
    ghost var log: seq<Step>

    ghost predicate Valid()
      reads this
    {
      Run(INITIAL, log) && After(INITIAL, log) == s
    }

    constructor ()
      ensures Valid() && s == INITIAL
    {
      s, log := INITIAL, [];
    }

    method Perform(e: Step)
      requires Valid() && Enabled(s, e)
      modifies this
      ensures Valid() && s == Next(old(s), e)
    {
      Longer(INITIAL, log, e);
      s := Next(s, e);
      log := log + [e];
    }

    lemma Sane()
      requires Valid()
      ensures Reachable(s) && Inv(s)
    {
      RunKeeps(INITIAL, log);
    }

    /** Callers with sessions, monitors and the network go on while this goroutine holds the lock. */
    method Interfere()
      requires Valid()
      modifies this
      ensures Valid() && Guarded(old(s), s)
    {
      var steps: nat := *;
      while steps > 0
        invariant Valid() && Guarded(old(s), s)
      {
        var e: Step := *;
        if Enabled(s, e) && !Locked(e) {
          Sane();
          StepGuarded(s, e);
          Perform(e);
        }
        steps := steps - 1;
      }
    }

    /** The send on `mon`: it waits for the monitor's Connect if there is one under way, and never returns if the
     *  monitor has left its loop. */
    method Send() returns (returned: bool)
      requires Valid() && s.op.Sending? && s.op.to in s.all
      modifies this
      ensures Valid() && s.entries == old(s.entries) && s.next == old(s.next) && s.all.Keys == old(s.all.Keys)
      ensures forall i :: i in s.all ==>
                s.all[i].uid == old(s.all)[i].uid && s.all[i].generation == old(s.all)[i].generation
      ensures returned ==> s.op.Idle? && s.all[old(s.op.to)].signals == 1
      ensures !returned ==> s.cancelled && s.op == old(s.op) && !Receives(s.all[s.op.to])
    {
      Interfere();
      var i := s.op.to;
      if s.all[i].monitor.Connecting? {
        var ok: bool := *;
        Perform(Reconnected(i, ok));
      }
      Sane();
      if s.all[i].monitor != Watching { return false; }
      Perform(Handoff);
      returned := true;
    }

    /** Register: dials under the lock, maps the new entry and signals the old one, in that order. */
    method Register(uid: Uid, generation: int) returns (returned: bool)
      requires Valid() && s.op.Idle?
      modifies this
      ensures Valid()
      ensures uid in s.entries && s.entries[uid] in s.all && s.all[s.entries[uid]].generation == generation
      ensures s.entries[uid] !in old(s.all)
      ensures s.entries - {uid} == old(s.entries) - {uid}
      ensures returned ==> s.op.Idle? && (old(uid in s.entries) ==>
                old(s.entries)[uid] in s.all && s.all[old(s.entries)[uid]].signals == 1)
      ensures !returned ==> s.cancelled
    {
      Perform(BeginRegister(uid, generation));
      Interfere();
      ghost var before := s.entries;
      var found := uid in s.entries;
      Sane();
      var ok: bool := *;
      Perform(Dialled(ok));
      assert s.entries - {uid} == before - {uid};
      returned := true;
      if found { returned := Send(); }
    }

    /** Deregister: unmaps the entry, then signals it. */
    method Deregister(uid: Uid) returns (returned: bool)
      requires Valid() && s.op.Idle?
      modifies this
      ensures Valid() && s.entries == old(s.entries) - {uid}
      ensures returned ==> s.op.Idle? && (old(uid in s.entries) ==>
                old(s.entries)[uid] in s.all && s.all[old(s.entries)[uid]].signals == 1)
      ensures !returned ==> s.cancelled
    {
      Sane();
      var found := uid in s.entries;
      Perform(BeginDeregister(uid));
      returned := true;
      if found { returned := Send(); }
    }
  }
}
