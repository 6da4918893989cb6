/** Bell debouncing (src/control.rs). */
module Bell {
  import opened Basics

  /** A report: when it was made, and the timestamp of the bell it reports. */
  datatype Report = Report(now: nat, at: nat)

  /** What happens to a debouncer: a bell, reported at once or held, or a held bell served. */
  datatype Event = Rung(at: nat, atOnce: bool) | Served

  ghost predicate Spaced(log: seq<Report>, window: nat) {
    forall i, j :: 0 <= i < j < |log| ==> log[i].now + window <= log[j].now
  }

  /** The bell that is held after a run: the latest one that was, unless served since. */
  function Held(run: seq<Event>): Option<nat> {
    if run == [] then None
    else
      match run[|run| - 1]
      case Served => None
      case Rung(at, atOnce) => if atOnce then Held(run[..|run| - 1]) else Some(at)
  }

  /** The latest bell was reported at once, while an older one was still held. */
  predicate Overtook(run: seq<Event>) {
    && run != [] && run[|run| - 1].Rung? && run[|run| - 1].atOnce
    && Held(run).Some? && Held(run).value < run[|run| - 1].at
  }

  /** Bells ring with timestamps that do not decrease. */
  ghost predicate Ordered(bells: seq<nat>) {
    forall i, j :: 0 <= i < j < |bells| ==> bells[i] <= bells[j]
  }

  /** Reported timestamps do not decrease. */
  ghost predicate Rising(log: seq<Report>) {
    forall i, j :: 0 <= i < j < |log| ==> log[i].at <= log[j].at
  }

  /** Neither a report nor a held bell is newer than the latest bell; and if that one was
      reported at once, it is the last report. */
  ghost predicate Bounded(bells: seq<nat>, log: seq<Report>, run: seq<Event>) {
    && (log != [] || Held(run).Some? ==> bells != [])
    && (forall i :: 0 <= i < |log| ==> log[i].at <= bells[|bells| - 1])
    && (Held(run).Some? ==> Held(run).value <= bells[|bells| - 1])
    && (run != [] && run[|run| - 1].Rung? ==>
          && bells != [] && run[|run| - 1].at == bells[|bells| - 1]
          && (run[|run| - 1].atOnce ==> log != [] && log[|log| - 1].at == bells[|bells| - 1]))
  }

  class BellDebouncer {
    const window: nat
    var lastSent: Option<nat>
    var pendingAt: Option<nat>
    ghost var log: seq<Report>
    /** Timestamps of all bells so far. */
    ghost var bells: seq<nat>
    ghost var run: seq<Event>
    /** No held bell was served after a newer one had overtaken it. */
    ghost var inTime: bool

    ghost predicate Valid()
      reads this
    {
      && Spaced(log, window)
      && (lastSent.Some? <==> log != [])
      && (log != [] ==> log[|log| - 1].now == lastSent.value)
      && (pendingAt.Some? ==> lastSent.Some?)
      && pendingAt == Held(run)
      && (bells == [] ==> log == [])
      && (bells != [] ==> LatestIsKept())
      && (Ordered(bells) ==> Bounded(bells, log, run) && (inTime <==> Rising(log)))
    }

    /** The latest bell is pending, or it has been reported. */
    ghost predicate LatestIsKept()
      reads this
      requires bells != []
    {
      var latest := bells[|bells| - 1];
      pendingAt == Some(latest) || exists i :: 0 <= i < |log| && log[i].at == latest
    }

    constructor (w: nat)
      ensures Valid() && window == w && lastSent.None? && pendingAt.None? && log == [] && bells == [] && run == []
              && inTime
    {
      window := w;
      lastSent, pendingAt, log, bells, run, inTime := None, None, [], [], [], true;
    }

    /** When a held bell is due: one window after the last report. */
    function Deadline(): (d: Option<nat>)
      reads this
      ensures Valid() ==> (d.Some? <==> pendingAt.Some?)
      ensures Valid() && d.Some? ==> log != [] && d.value == log[|log| - 1].now + window
    {
      if pendingAt.Some? && lastSent.Some? then Some(lastSent.value + window) else None
    }

    /** A bell at time `now`: reported at once if a window has passed since the last report,
        else held. A report at once overtakes a held bell exactly if there is an older one,
        which was then not served by its deadline. */
    method OnBell(now: nat, at: nat) returns (report: Option<nat>)
      requires Valid() && (lastSent.Some? ==> lastSent.value <= now)
      modifies this
      ensures Valid() && bells == old(bells) + [at] && inTime == old(inTime)
      ensures run == old(run) + [Rung(at, report.Some?)]
      ensures report.Some? <==> old(lastSent).None? || old(lastSent).value + window <= now
      ensures report.Some? ==> report.value == at && log == old(log) + [Report(now, at)]
                               && pendingAt == old(pendingAt) && lastSent == Some(now)
      ensures report.None? ==> log == old(log) && pendingAt == Some(at) && lastSent == old(lastSent)
      ensures Overtook(run) <==> report.Some? && old(pendingAt).Some? && old(pendingAt).value < at
      ensures Overtook(run) ==> old(Deadline()).Some? && old(Deadline()).value <= now
    {
      hide Held, Overtook, Ordered, Rising, Bounded;
      ghost var bells0, log0, run0 := bells, log, run;
      bells := bells + [at];
      if lastSent.Some? && now - lastSent.value < window {
        run := run + [Rung(at, false)];
        BellHeld(bells0, log0, run0, at);
        pendingAt := Some(at);
        return None;
      }
      run := run + [Rung(at, true)];
      lastSent := Some(now);
      log := log + [Report(now, at)];
      BellAtOnce(bells0, log0, run0, Report(now, at), inTime);
      assert log[|log0|].at == at;
      assert forall i :: 0 <= i < |log0| ==> log[i] == log0[i];
      return Some(at);
    }

    /** Reports the held bell. Called once its deadline has come. If bells rang in order, the
        report goes back in time exactly if the latest bell had overtaken it. */
    method Fire(now: nat) returns (report: Option<nat>)
      requires Valid() && (Deadline().Some? ==> Deadline().value <= now)
      modifies this
      ensures Valid() && bells == old(bells) && pendingAt.None?
      ensures run == old(run) + [Served] && inTime == (old(inTime) && !Overtook(old(run)))
      ensures report == old(pendingAt)
      ensures report.None? ==> log == old(log)
      ensures report.Some? ==> log == old(log) + [Report(now, report.value)]
      ensures report.Some? && Ordered(bells) ==>
                (report.value < old(log)[|old(log)| - 1].at <==> Overtook(old(run)))
    {
      hide Held, Overtook, Ordered, Rising, Bounded;
      assert Spaced(log, window) && (log != [] ==> log[|log| - 1].now == lastSent.value);
      report := pendingAt;
      ghost var log0, run0 := log, run;
      run := run + [Served];
      BellServed(bells, log0, run0, now, inTime);
      inTime := inTime && !Overtook(run0);
      if report.Some? {
        pendingAt := None;
        lastSent := Some(now);
        log := log + [Report(now, report.value)];
        assert log[|log0|].at == report.value;
        assert forall i :: 0 <= i < |log0| ==> log[i] == log0[i];
      }
    }
  }

  lemma BellHeld(bells: seq<nat>, log: seq<Report>, run: seq<Event>, at: nat)
    ensures Held(run + [Rung(at, false)]) == Some(at) && !Overtook(run + [Rung(at, false)])
    ensures Ordered(bells + [at]) ==> Ordered(bells)
    ensures Ordered(bells + [at]) && Bounded(bells, log, run) ==> Bounded(bells + [at], log, run + [Rung(at, false)])
  {
    hide Held;
    HeldNext(run, Rung(at, false));
    OrderedBefore(bells, at);
  }

  lemma BellAtOnce(bells: seq<nat>, log: seq<Report>, run: seq<Event>, r: Report, inTime: bool)
    ensures Held(run + [Rung(r.at, true)]) == Held(run)
    ensures Overtook(run + [Rung(r.at, true)]) <==> Held(run).Some? && Held(run).value < r.at
    ensures Ordered(bells + [r.at]) ==> Ordered(bells)
    ensures Ordered(bells + [r.at]) && Bounded(bells, log, run) ==>
              && Bounded(bells + [r.at], log + [r], run + [Rung(r.at, true)])
              && (Rising(log + [r]) <==> Rising(log))
  {
    hide Held, Rising;
    HeldNext(run, Rung(r.at, true));
    OrderedBefore(bells, r.at);
    RisingNext(log, r);
  }

  lemma BellServed(bells: seq<nat>, log: seq<Report>, run: seq<Event>, now: nat, inTime: bool)
    ensures Held(run + [Served]) == None && (Held(run).None? ==> !Overtook(run))
    ensures Bounded(bells, log, run) ==> Bounded(bells, log, run + [Served])
    ensures Bounded(bells, log, run) && Held(run).Some? && log != [] ==>
              var all := log + [Report(now, Held(run).value)];
              && Bounded(bells, all, run + [Served])
              && (Held(run).value < log[|log| - 1].at <==> Overtook(run))
              && (Rising(all) <==> Rising(log) && !Overtook(run))
  {
    hide Rising;
    HeldNext(run, Served);
    if Held(run).Some? {
      HeldIsBell(run);
      RisingNext(log, Report(now, Held(run).value));
    }
  }

  lemma HeldNext(run: seq<Event>, e: Event)
    ensures Held(run + [e]) ==
              match e
              case Served => None
              case Rung(at, atOnce) => if atOnce then Held(run) else Some(at)
  {
    assert (run + [e])[..|run|] == run;
  }

  lemma OrderedBefore(bells: seq<nat>, at: nat)
    ensures Ordered(bells + [at]) ==> Ordered(bells) && (bells != [] ==> bells[|bells| - 1] <= at)
  {
    var all := bells + [at];
    if Ordered(all) {
      forall i, j | 0 <= i < j < |bells| ensures bells[i] <= bells[j] {
        assert all[i] == bells[i] && all[j] == bells[j];
      }
      assert bells != [] ==> all[|bells| - 1] <= all[|bells|];
    }
  }

  lemma RisingNext(log: seq<Report>, r: Report)
    ensures Rising(log + [r]) <==> Rising(log) && forall i :: 0 <= i < |log| ==> log[i].at <= r.at
  {
    var all := log + [r];
    assert forall i :: 0 <= i < |log| ==> all[i] == log[i];
    assert all[|log|] == r;
    if Rising(all) {
      forall i, j | 0 <= i < j < |log| ensures log[i].at <= log[j].at {
        assert all[i] == log[i] && all[j] == log[j];
      }
    }
  }

  lemma HeldIsBell(run: seq<Event>)
    requires Held(run).Some?
    ensures run != [] && run[|run| - 1].Rung?
  {
  }

  /** A bell after the deadline, before `fire`: it is reported first, and the held older one
      after it. */
  method OvertakenReport() returns (first: Option<nat>, held: Option<nat>, late: Option<nat>, last: Option<nat>)
    ensures first == Some(10) && held == None && late == Some(30) && last == Some(20)
  {
    var d := new BellDebouncer(3000);
    first := d.OnBell(0, 10);
    held := d.OnBell(1000, 20);
    late := d.OnBell(4000, 30);
    last := d.Fire(7000);
  }

  /** Overtaking alone does no harm: a bell held later replaces the one that was overtaken. */
  method ReplacedReport() returns (late: Option<nat>, last: Option<nat>, d: BellDebouncer)
    ensures late == Some(30) && last == Some(40) && d.Valid() && d.inTime
  {
    hide Spaced, Rising, Ordered, Bounded, Held;
    d := new BellDebouncer(3000);
    var first := d.OnBell(0, 10);
    var held := d.OnBell(1000, 20);
    late := d.OnBell(4000, 30);
    var again := d.OnBell(5000, 40);
    last := d.Fire(7000);
  }
}
