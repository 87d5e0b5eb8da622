/** When PoolReconciler of internal/controller/pool.go probes, and what a probe leaves in the status. */
module PoolProbe {
  import opened Common

  datatype Readiness = NotExist | NotActive | Active

  /** Capacity, allocation and available bytes. */
  datatype Capacity = Capacity(capacity: nat, allocation: nat, available: nat)

  /** A pool as the host has it. */
  datatype Info = Info(running: bool, capacity: nat, allocation: nat, available: nat)

  /** What a probe makes of it. */
  datatype Probe = Probe(there: bool, active: bool, capacity: nat, allocation: nat, available: nat)

  /** The persisted status: `since` is when the Probed condition last flipped. */
  datatype Status = Status(probed: bool, since: nat, ready: Option<Readiness>, capacity: Option<Capacity>)

  const MAX_INT64: nat := 0x7FFF_FFFF_FFFF_FFFF

  /** safecast.ToInt64: what does not fit becomes the largest value that does. */
  function ToInt64(value: nat): (r: nat)
    ensures r <= MAX_INT64 && (value <= MAX_INT64 ==> r == value) && (value > MAX_INT64 ==> r == MAX_INT64)
  {
    if value > MAX_INT64 then MAX_INT64 else value
  }

  /** The probe says what the host has. */
  predicate Tells(p: Probe, info: Option<Info>) {
    match info
    case None => p == Probe(false, false, 0, 0, 0)
    case Some(i) => p == Probe(true, i.running, i.capacity, i.allocation, i.available)
  }

  /** The status shows what the host answered. */
  predicate Shows(s: Status, info: Option<Info>) {
    && s.capacity.Some?
    && match info
       case None => s.ready == Some(NotExist) && s.capacity.value == Capacity(0, 0, 0)
       case Some(i) =>
         && s.ready == Some(if i.running then Active else NotActive)
         && Reads(s.capacity.value.capacity, i.capacity) && Reads(s.capacity.value.allocation, i.allocation)
         && Reads(s.capacity.value.available, i.available)
  }

  /** A size is shown as it is, as long as it is a signed 64-bit number. */
  predicate Reads(shown: nat, size: nat) {
    if size <= 0x7FFF_FFFF_FFFF_FFFF then shown == size else shown == 0x7FFF_FFFF_FFFF_FFFF
  }

  datatype Outcome = After(delay: nat) | Again | Failed

  class PoolStatus {
    var stored: Status
    var clock: nat
    /** The pool on the host, if there is one. */
    var host: Option<Info>
    /** The time between refreshes, and the grain in which times are stored: a stored time is rounded down to it. */
    const interval: nat
    const grain: nat
    /** Whether every call succeeds, and whether it does so at once. */
    const sure: bool
    const quick: bool
    /** How many calls have not been heard. */
    ghost var missed: nat
    /** What the host has answered, and when probes were completed. */
    ghost var answers: seq<Option<Info>>
    ghost var completed: seq<nat>

    ghost predicate Valid()
      reads this
    {
      && interval > 0 && grain > 0
      && (stored.probed ==> answers != [] && Shows(stored, answers[|answers| - 1]))
      && (stored.probed ==> completed != [] && stored.since == Stored(completed[|completed| - 1], grain))
      && (completed != [] ==> completed[|completed| - 1] <= clock)
      && (completed != [] && !stored.probed ==> completed[|completed| - 1] + interval < clock + grain)
      && Paced(completed, interval, grain)
    }

    constructor (interval: nat, grain: nat, sure: bool, quick: bool)
      requires interval > 0 && grain > 0
      ensures Valid() && this.interval == interval && this.grain == grain && this.sure == sure && this.quick == quick
      ensures completed == [] && answers == [] && clock == 0 && host == None
    {
      this.interval, this.grain, this.sure, this.quick := interval, grain, sure, quick;
      stored, clock := Status(false, 0, None, None), 0;
      host, answers, completed, missed := None, [], [], 0;
    }

    /** Time passes. */
    method Wait(d: nat)
      requires Valid()
      modifies this`clock
      ensures Valid() && clock == old(clock) + d
    {
      clock := clock + d;
    }

    /** meta.SetStatusCondition for Probed: the time moves only when the status flips. */
    function SetProbed(s: Status, probed: bool): Status
      reads this
      requires grain > 0
    {
      s.(probed := probed, since := if s.probed == probed then s.since else Stored(clock, grain))
    }

    /** A status update that may be lost on the way there or on the way back. Only an update that leaves Probed false
     *  goes through here. */
    method Update(s: Status) returns (ok: bool)
      requires Valid() && !s.probed
      requires stored.probed ==> completed != [] && completed[|completed| - 1] + interval < clock + grain
      modifies this`missed, this`stored
      ensures sure ==> ok
      ensures ok ==> missed == old(missed)
      ensures Valid() && (ok ==> stored == s) && (stored == old(stored) || stored == s)
    {
      var reached: bool, heard: bool := *, *;
      if sure { reached, heard := true, true; }
      if reached { stored := s; }
      ok := reached && heard;
      if !ok { missed := missed + 1; }
    }

    /** The update that completes a probe: it shows the host's last answer. */
    method Complete(s: Status) returns (ok: bool)
      requires Valid() && !stored.probed && s.probed && s.since == Stored(clock, grain)
      requires answers != [] && Shows(s, answers[|answers| - 1])
      modifies this`missed, this`stored, this`completed
      ensures Valid()
      ensures completed == old(completed) || completed == old(completed) + [clock]
      ensures sure ==> ok
      ensures ok ==> missed == old(missed)
      ensures ok ==> stored == s && completed == old(completed) + [clock]
      ensures stored.probed <==> completed == old(completed) + [clock]
    {
      var reached: bool, heard: bool := *, *;
      if sure { reached, heard := true, true; }
      if reached {
        stored := s;
        completed := completed + [clock];
      }
      ok := reached && heard;
      if !ok { missed := missed + 1; }
    }

    /** The pool on the host changes. */
    method Change(info: Option<Info>)
      requires Valid()
      modifies this`host
      ensures Valid() && host == info
    {
      host := info;
    }

    /** The time a call takes, and what may happen on the host meanwhile. */
    method Pause()
      requires Valid()
      modifies this`clock, this`host
      ensures Valid() && old(clock) <= clock && (quick ==> clock == old(clock) && host == old(host))
    {
      if quick { return; }
      var d: nat, info: Option<Info> := *, *;
      Wait(d);
      Change(info);
    }

    /** A call that may fail. */
    method Call() returns (ok: bool)
      requires Valid()
      modifies this`missed
      ensures Valid() && missed == old(missed) + (if ok then 0 else 1) && (sure ==> ok)
    {
      ok := Chance(sure);
      if !ok { missed := missed + 1; }
    }

    /** The host answers about the pool. */
    method Look() returns (info: Option<Info>)
      requires Valid() && !stored.probed
      modifies this`clock, this`host, this`answers
      ensures Valid() && old(clock) <= clock && info == host && answers == old(answers) + [host]
      ensures quick ==> clock == old(clock) && host == old(host)
    {
      Pause();
      answers := answers + [host];
      info := host;
    }

    /** Host, session and NewPoolProbe; None if any of them fails, as the last one does if the pool has gone since it
     *  was looked up. */
    method Ask() returns (probe: Option<Probe>, again: bool)
      requires Valid() && !stored.probed
      modifies this`clock, this`host, this`answers, this`missed
      ensures Valid() && old(clock) <= clock && (quick ==> clock == old(clock) && host == old(host))
      ensures probe.Some? ==> missed == old(missed)
      ensures sure ==> probe.Some?
      ensures answers == old(answers) || (|answers| == |old(answers)| + 1 && answers[..|old(answers)|] == old(answers))
      ensures probe.Some? ==> answers != old(answers) && Tells(probe.value, answers[|answers| - 1])
      ensures quick && answers != old(answers) ==> answers[|answers| - 1] == old(host)
    {
      again := *;
      var ok := Call();
      if !ok { return None, again; }
      var info := Look();
      if info.None? { return Some(Probe(false, false, 0, 0, 0)), false; }
      ok := Call();
      if !ok { return None, again; }
      return Some(Probe(true, info.value.running, info.value.capacity, info.value.allocation, info.value.available)),
             false;
    }

    /** The readiness a probe amounts to. */
    method Judge(probe: Probe) returns (ready: Readiness)
      ensures probe.there && probe.active ==> ready == Active
      ensures probe.there && !probe.active ==> ready == NotActive
      ensures !probe.there ==> ready == NotExist
    {
      ready := if !probe.there then NotExist else if probe.active then Active else NotActive;
    }

    /** The part of Reconcile that refreshes the status: nothing before the interval is over, then Probed goes first and
     *  comes back last. A reconcile may be cut short at every update. */
    method Refresh() returns (result: Outcome)
      requires Valid()
      modifies this
      ensures Valid() && old(clock) <= clock
      ensures result.After? ==> missed == old(missed)
      ensures result.After? ==> 0 < result.delay <= interval && stored.probed
      ensures || completed == old(completed)
              || (|completed| == |old(completed)| + 1 && completed[..|old(completed)|] == old(completed))
      ensures answers == old(answers) || (|answers| == |old(answers)| + 1 && answers[..|old(answers)|] == old(answers))
      ensures completed != old(completed) ==>
                stored.probed && answers != old(answers) && Shows(stored, answers[|answers| - 1])
      ensures sure && quick && old(stored.probed ==> Due(stored.since, clock, interval)) ==> Shows(stored, old(host))
      ensures sure && old(stored.probed ==> Due(stored.since, clock, interval)) ==>
                result == After(interval) && completed == old(completed) + [clock]
                && stored.since == Stored(clock, grain) && (quick ==> clock == old(clock))
      ensures old(stored.probed && !Due(stored.since, clock, interval)) ==>
                && stored == old(stored) && completed == old(completed) && answers == old(answers)
                && result.After? && result.delay == stored.since + interval - clock && clock == old(clock)
    {
      if stored.probed {
        var passed := clock - stored.since;
        if passed < interval { return After(interval - passed); }
      }
      var s := SetProbed(stored, false);
      if s != stored {
        var ok := Update(s);
        if !ok { return Failed; }
      }
      var probe, again := Ask();
      if probe.None? { return if again then Again else Failed; }
      result := Publish(s, probe.value);
    }

    /** What the probe says goes into the status, Probed last. */
    method Publish(unprobed: Status, probe: Probe) returns (result: Outcome)
      requires Valid() && !stored.probed && !unprobed.probed && answers != [] && Tells(probe, answers[|answers| - 1])
      modifies this`missed, this`stored, this`completed, this`clock, this`host
      ensures Valid() && old(clock) <= clock && (quick ==> clock == old(clock) && host == old(host))
      ensures result == Failed || (result == After(interval) && stored.probed)
      ensures result != Failed ==> missed == old(missed)
      ensures sure ==> result != Failed
      ensures if stored.probed then completed == old(completed) + [clock] else completed == old(completed)
    {
      var s := unprobed;
      var ready := Judge(probe);
      if s.ready != Some(ready) {
        s := s.(ready := Some(ready));
        var ok := Update(s);
        if !ok { return Failed; }
      }
      Pause();
      var capacity :=
        Capacity(ToInt64(probe.capacity), ToInt64(probe.allocation), ToInt64(probe.available));
      s := SetProbed(s.(capacity := Some(capacity)), true);
      var ok := Complete(s);
      result := if ok then After(interval) else Failed;
    }
  }

  /** The interval is over for what was stored as `since`. */
  predicate Due(since: nat, now: nat, interval: nat) {
    since + interval <= now
  }

  /** Times are stored in whole grains, rounded down. */
  function Stored(t: nat, grain: nat): (r: nat)
    requires grain > 0
    ensures r <= t < r + grain && (grain == 1 ==> r == t)
  {
    if t < grain then 0 else grain + Stored(t - grain, grain)
  }

  /** Completed probes are an interval apart, up to what the stored times lose. */
  ghost predicate Paced(completed: seq<nat>, interval: nat, grain: nat) {
    forall i :: 0 < i < |completed| ==> completed[i - 1] + interval < completed[i] + grain
  }

  /** The stored times keep probes an interval apart exactly if nothing is rounded: a probe is due once the interval has
   *  passed since the stored time. */
  lemma PacingExactly(interval: nat, grain: nat)
    requires interval > 0 && grain > 0
    ensures (forall t, u :: 0 <= t <= u && Due(Stored(t, grain), u, interval) ==> t + interval <= u) <==> grain == 1
  {
    if grain > 1 {
      var t, u := 1, interval;
      assert Stored(t, grain) == 0;
      assert 0 <= t <= u && Due(Stored(t, grain), u, interval) && !(t + interval <= u);
    }
  }

  /** Two probes at the times 1 and `interval`, whatever the interval: with coarser times the first is stored as 0. */
  method TooSoon(interval: nat, grain: nat) returns (p: PoolStatus)
    requires interval > 0 && grain > 1
    ensures fresh(p) && p.interval == interval && p.grain == grain && p.completed == [1, interval]
  {
    p := new PoolStatus(interval, grain, true, true);
    p.Wait(1);
    var _ := p.Refresh();
    p.Wait(interval - 1);
    var _ := p.Refresh();
  }

  /** Any number of reconciles at any times, each cut short anywhere: a status that says Probed shows what the host
   *  answered last, and with exactly stored times probes are an interval apart. */
  method Drive(interval: nat, grain: nat, n: nat) returns (p: PoolStatus)
    requires interval > 0 && grain > 0
    ensures fresh(p) && p.interval == interval
    ensures p.stored.probed ==> p.answers != [] && Shows(p.stored, p.answers[|p.answers| - 1])
    ensures forall i :: 0 < i < |p.completed| ==> p.completed[i - 1] + interval < p.completed[i] + grain
    ensures grain == 1 ==> forall i :: 0 < i < |p.completed| ==> p.completed[i - 1] + interval <= p.completed[i]
  {
    p := new PoolStatus(interval, grain, false, false);
    for i := 0 to n
      invariant fresh(p) && p.interval == interval && p.grain == grain && p.Valid()
    {
      var d: nat, info: Option<Info> := *, *;
      p.Wait(d);
      p.Change(info);
      var _ := p.Refresh();
    }
  }
}
