/** What becomes of a task over time: its keys expire unless they are refreshed, Docket forgets an execution some time
    after it has ended, and no poll prolongs that. A task can be resolved while its metadata key is live and the
    execution of its current leg is not forgotten. */
module TaskLifetime {
  import opened Expiry

  /* --------------------------------------------------------------- a task */

  // A leg's execution: not finished, or ended at a time, by itself or stopped by Docket.
  datatype Leg = Unfinished | Ended(at: real, stopped: bool)

  datatype Task = Task(keys: Keys, legs: seq<Leg>, current: nat)

  predicate Retained(leg: Leg, now: real, micros: int) {
    leg.Ended? ==> now < leg.at + RetentionTtl(micros) as real
  }

  ghost predicate Healthy(t: Task, micros: int) {
    && Kept(t.keys, RefreshTtl(micros))
    && t.current < |t.legs|
    && forall i :: 0 <= i < |t.legs| && t.legs[i].Ended? ==> t.legs[i].at <= t.keys.now
  }

  // The execution `_lookup_task` asks for: that of the current leg, or of the first if the current leg is no longer recorded.
  function Asked(t: Task): Leg
    requires t.current < |t.legs|
  {
    if Live(t.keys, CurrentLeg) then t.legs[t.current] else t.legs[0]
  }

  predicate Resolves(t: Task, micros: int)
    requires t.current < |t.legs|
  {
    Live(t.keys, Meta) && Retained(Asked(t), t.keys.now, micros)
  }

  // `_lookup_task`: nothing is refreshed unless the task resolves.
  function Lookup(t: Task, micros: int): Task
    requires t.current < |t.legs|
  {
    if Resolves(t, micros) then t.(keys := Refresh(t.keys, RefreshTtl(micros))) else t
  }

  // What tasks/get reports, as far as cancellation goes.
  datatype Status = NotFound | Cancelled | Other

  function Report(t: Task, micros: int): Status
    requires t.current < |t.legs|
  {
    if !Resolves(t, micros) then NotFound
    else if Live(t.keys, Marker) then Cancelled
    else if Asked(t).Ended? && Asked(t).stopped then Cancelled
    else Other
  }

  /* -------------------------------------------------------------------- runs */

  // What can happen to a created task, at any time: the clock, a lookup, the enqueue of a next leg, the end of a leg,
  // the two writes of a re-entry, the marker.
  datatype Happening =
    | Passes(d: real)
    | Polled
    | Enqueued
    | Ends(leg: nat, stopped: bool)
    | PointerSaved
    | NumberSaved
    | Marked

  predicate Possible(hs: seq<Happening>) {
    forall i :: 0 <= i < |hs| && hs[i].Passes? ==> hs[i].d >= 0.0
  }

  function Next(t: Task, h: Happening, micros: int): Task
    requires t.current < |t.legs| && (h.Passes? ==> h.d >= 0.0)
  {
    match h
    case Passes(d) => t.(keys := Wait(t.keys, d))
    case Polled => Lookup(t, micros)
    case Enqueued => t.(legs := t.legs + [Unfinished])
    case Ends(leg, stopped) =>
      if leg < |t.legs| && t.legs[leg].Unfinished? then t.(legs := t.legs[leg := Ended(t.keys.now, stopped)]) else t
    case PointerSaved => t.(keys := Set(t.keys, CurrentLeg, RefreshTtl(micros)), current := |t.legs| - 1)
    case NumberSaved => t.(keys := Set(t.keys, LegNumber, RefreshTtl(micros)))
    case Marked => t.(keys := Set(t.keys, Marker, MarkerTtl(micros)))
  }

  function After(t: Task, hs: seq<Happening>, micros: int): (r: Task)
    requires t.current < |t.legs| && Possible(hs)
    ensures r.current < |r.legs|
  {
    if hs == [] then t else Next(After(t, hs[..|hs| - 1], micros), hs[|hs| - 1], micros)
  }

  lemma NextHealthy(t: Task, h: Happening, micros: int)
    requires Healthy(t, micros) && (h.Passes? ==> h.d >= 0.0)
    ensures Healthy(Next(t, h, micros), micros)
  {
    if h.Polled? && Live(t.keys, Meta) {
      forall key { LookupRefreshes(t.keys, RefreshTtl(micros), key); }
    }
  }

  lemma {:induction false} AfterHealthy(t: Task, hs: seq<Happening>, micros: int)
    requires Healthy(t, micros) && Possible(hs)
    ensures Healthy(After(t, hs, micros), micros)
  {
    if hs != [] {
      AfterHealthy(t, hs[..|hs| - 1], micros);
      NextHealthy(After(t, hs[..|hs| - 1], micros), hs[|hs| - 1], micros);
    }
  }

  // A task `create_task` has just made.
  function Created(k: Keys, waits: seq<real>, micros: int): Task
    requires |waits| == 7 && forall i :: 0 <= i < |waits| ==> waits[i] >= 0.0
  {
    Task(SetAll(k, CREATION_ORDER, waits, CreationTtl(micros)), [Unfinished], 0)
  }

  lemma CreatedHealthy(k: Keys, waits: seq<real>, micros: int)
    requires |waits| == 7 && forall i :: 0 <= i < |waits| ==> waits[i] >= 0.0
    ensures Healthy(Created(k, waits, micros), micros)
  {
    TtlsAgree(micros);
    CreationIsWhole(k, waits, CreationTtl(micros));
  }

  /** At any clock value and under any pattern of polls, legs, re-entries and cancels after the creation: while the
      metadata is there the pointer, number, arguments and snapshot are too, and the execution asked for is the one the
      pointer was last set to. */
  lemma ResolvableIsWhole(k: Keys, waits: seq<real>, hs: seq<Happening>, micros: int, key: Key)
    requires |waits| == 7 && (forall i :: 0 <= i < |waits| ==> waits[i] >= 0.0)
    requires Possible(hs) && Routes(key)
    ensures var r := After(Created(k, waits, micros), hs, micros);
            Live(r.keys, Meta) ==> Live(r.keys, key) && Asked(r) == r.legs[r.current]
  {
    CreatedHealthy(k, waits, micros);
    AfterHealthy(Created(k, waits, micros), hs, micros);
  }

  /* ------------------------------------------------------- being polled in time */

  // The time that has passed since the last poll, or since the beginning.
  function Since(hs: seq<Happening>): real {
    if hs == [] || hs[|hs| - 1].Polled? then 0.0
    else if hs[|hs| - 1].Passes? then Since(hs[..|hs| - 1]) + hs[|hs| - 1].d
    else Since(hs[..|hs| - 1])
  }

  /** Never more than a lifetime of the keys passes without a poll. */
  predicate InTime(hs: seq<Happening>, micros: int) {
    Since(hs) < RefreshTtl(micros) as real && (hs == [] || InTime(hs[..|hs| - 1], micros))
  }

  /** Docket still has the current leg's execution at each poll. */
  predicate Found(t: Task, hs: seq<Happening>, micros: int)
    requires t.current < |t.legs| && Possible(hs)
  {
    hs == [] ||
    (var before := After(t, hs[..|hs| - 1], micros);
     && Found(t, hs[..|hs| - 1], micros)
     && (hs[|hs| - 1].Polled? ==> Retained(before.legs[before.current], before.keys.now, micros)))
  }

  predicate NoReentry(hs: seq<Happening>) { forall i :: 0 <= i < |hs| ==> !hs[i].PointerSaved? }

  // A task that has just been looked up.
  ghost predicate Fresh(t: Task, micros: int) {
    Healthy(t, micros) && t.keys.exp[Meta] == t.keys.now + RefreshTtl(micros) as real
  }

  lemma {:induction false} FoundIsRefreshed(t: Task, hs: seq<Happening>, micros: int)
    requires Fresh(t, micros) && Possible(hs) && InTime(hs, micros) && Found(t, hs, micros)
    ensures var r := After(t, hs, micros);
            Healthy(r, micros) && r.keys.exp[Meta] == r.keys.now - Since(hs) + RefreshTtl(micros) as real
  {
    AfterHealthy(t, hs, micros);
    if hs != [] {
      var n := |hs| - 1;
      var before := After(t, hs[..n], micros);
      FoundIsRefreshed(t, hs[..n], micros);
      StaysRefreshed(before, hs[n], Since(hs[..n]), micros);
    }
  }

  lemma StaysRefreshed(t: Task, h: Happening, since: real, micros: int)
    requires Healthy(t, micros) && (h.Passes? ==> h.d >= 0.0) && since < RefreshTtl(micros) as real
    requires t.keys.exp[Meta] == t.keys.now - since + RefreshTtl(micros) as real
    requires h.Polled? ==> Retained(t.legs[t.current], t.keys.now, micros)
    ensures var r := Next(t, h, micros).keys;
            Meta in r.exp && r.exp[Meta] == r.now + RefreshTtl(micros) as real
                                          - if h.Polled? then 0.0 else if h.Passes? then since + h.d else since
  {
    if h.Polled? { LookupRefreshes(t.keys, RefreshTtl(micros), Meta); }
  }

  // The current leg stays the same leg, and a leg once ended stays as it ended.
  lemma {:induction false} LegStays(t: Task, hs: seq<Happening>, micros: int, i: nat)
    requires Healthy(t, micros) && Possible(hs) && i < |t.legs|
    ensures var r := After(t, hs, micros);
            && |t.legs| <= |r.legs| && t.keys.now <= r.keys.now
            && (t.legs[i].Ended? ==> r.legs[i] == t.legs[i])
            && (t.legs[i].Unfinished? && r.legs[i].Ended? ==> t.keys.now <= r.legs[i].at <= r.keys.now)
            && (NoReentry(hs) ==> r.current == t.current)
  {
    if hs != [] {
      LegStays(t, hs[..|hs| - 1], micros, i);
      AfterHealthy(t, hs[..|hs| - 1], micros);
    }
  }

  // Without a re-entry, an execution that is there at the end was there at every poll.
  lemma {:induction false} RetainedIsFound(t: Task, hs: seq<Happening>, micros: int)
    requires Healthy(t, micros) && Possible(hs) && NoReentry(hs)
    requires var r := After(t, hs, micros); Retained(r.legs[r.current], r.keys.now, micros)
    ensures Found(t, hs, micros)
  {
    if hs != [] {
      var n := |hs| - 1;
      var before := After(t, hs[..n], micros);
      var r := After(t, hs, micros);
      AfterHealthy(t, hs[..n], micros);
      assert hs[n] != PointerSaved && r.current == before.current;
      assert Retained(before.legs[before.current], before.keys.now, micros);
      RetainedIsFound(t, hs[..n], micros);
    }
  }

  /** A task that is polled in time resolves exactly as long as Docket keeps its current leg's execution: for good while
      that is not finished, and for the retention time after its end, however often it is polled. */
  lemma ResolvesIffRetained(t: Task, hs: seq<Happening>, micros: int)
    requires Fresh(t, micros) && Possible(hs) && InTime(hs, micros) && (NoReentry(hs) || Found(t, hs, micros))
    ensures var r := After(t, hs, micros);
            Resolves(r, micros) <==> Retained(r.legs[r.current], r.keys.now, micros)
  {
    var r := After(t, hs, micros);
    AfterHealthy(t, hs, micros);
    if Retained(r.legs[r.current], r.keys.now, micros) {
      if NoReentry(hs) { RetainedIsFound(t, hs, micros); }
      FoundIsRefreshed(t, hs, micros);
    }
  }

  /* ------------------------------------------------------------ cancellation */

  predicate NoMark(hs: seq<Happening>) { forall i :: 0 <= i < |hs| ==> !hs[i].Marked? }

  // Nothing but a mark touches the marker.
  lemma NextMarker(t: Task, h: Happening, micros: int)
    requires Healthy(t, micros) && (h.Passes? ==> h.d >= 0.0) && !h.Marked?
    ensures var r := Next(t, h, micros).keys;
            && (Marker in r.exp <==> Marker in t.keys.exp)
            && (Marker in t.keys.exp ==> r.exp[Marker] == t.keys.exp[Marker])
  {
    if h.Polled? && Live(t.keys, Meta) { LookupRefreshes(t.keys, RefreshTtl(micros), Marker); }
  }

  /** A marker lives until a moment fixed when it was written, whatever polls and re-entries follow, unless the task is
      marked again. */
  lemma {:induction false} MarkerIsNotRefreshed(t: Task, hs: seq<Happening>, micros: int)
    requires Healthy(t, micros) && Possible(hs) && NoMark(hs)
    ensures var r := After(t, hs, micros).keys; Live(r, Marker) <==> Marker in t.keys.exp && r.now < t.keys.exp[Marker]
    ensures Marker in After(t, hs, micros).keys.exp <==> Marker in t.keys.exp
    ensures Marker in t.keys.exp ==> After(t, hs, micros).keys.exp[Marker] == t.keys.exp[Marker]
  {
    if hs != [] {
      var n := |hs| - 1;
      MarkerIsNotRefreshed(t, hs[..n], micros);
      AfterHealthy(t, hs[..n], micros);
      NextMarker(After(t, hs[..n], micros), hs[n], micros);
    }
  }

  // The task as the marker is written.
  function Mark(t: Task, micros: int): Task
    requires t.current < |t.legs|
  {
    Next(t, Marked, micros)
  }

  /** Ended, not stopped by Docket, and still kept; or not finished. */
  predicate Speaks(leg: Leg, now: real, micros: int) {
    leg.Unfinished? || (!leg.stopped && now < leg.at + RetentionTtl(micros) as real)
  }

  /** Exactly when a cancelled task resolves and is reported as something else: its metadata is there, the marker's one
      lifetime is over, and the current leg is not finished, or ended by itself and is still kept. */
  lemma UncancelledIff(t: Task, hs: seq<Happening>, micros: int)
    requires Healthy(t, micros) && Possible(hs) && NoMark(hs)
    ensures var r := After(Mark(t, micros), hs, micros);
            Report(r, micros) == Other <==>
            && Live(r.keys, Meta) && t.keys.now + MarkerTtl(micros) as real <= r.keys.now
            && Speaks(r.legs[r.current], r.keys.now, micros)
  {
    NextHealthy(t, Marked, micros);
    AfterHealthy(Mark(t, micros), hs, micros);
    MarkerIsNotRefreshed(Mark(t, micros), hs, micros);
  }

  /** A leg that had ended by the time of the cancel, as every parked one has, is forgotten no later than the marker: the
      task is never reported as anything but cancelled, or not found. */
  lemma EndedStaysCancelled(t: Task, hs: seq<Happening>, micros: int)
    requires Healthy(t, micros) && micros >= 0 && Possible(hs) && NoMark(hs) && NoReentry(hs)
    requires t.legs[t.current].Ended?
    ensures Report(After(Mark(t, micros), hs, micros), micros) != Other
  {
    UncancelledIff(t, hs, micros);
    NextHealthy(t, Marked, micros);
    LegStays(Mark(t, micros), hs, micros, t.current);
  }

  /** So is a task whose current leg Docket has stopped, at any time. */
  lemma StoppedStaysCancelled(t: Task, hs: seq<Happening>, micros: int)
    requires Healthy(t, micros) && Possible(hs) && NoMark(hs)
    requires var r := After(Mark(t, micros), hs, micros); r.legs[r.current].Ended? && r.legs[r.current].stopped
    ensures Report(After(Mark(t, micros), hs, micros), micros) != Other
  {
    UncancelledIff(t, hs, micros);
  }

  // A run that ends with the task reported as something else than cancelled, with no re-entry and no second cancel.
  ghost predicate Reappears(t: Task, hs: seq<Happening>, micros: int)
    requires t.current < |t.legs|
  {
    Possible(hs) && NoMark(hs) && NoReentry(hs) && Report(After(Mark(t, micros), hs, micros), micros) == Other
  }

  /** The condition at the time of the cancel: a task that resolves can be reported as something else later if and only
      if its current leg is not finished. */
  lemma ReappearsIffUnfinished(t: Task, micros: int)
    requires Healthy(t, micros) && micros >= 0 && Resolves(t, micros)
    ensures (exists hs :: Reappears(t, hs, micros)) <==> t.legs[t.current].Unfinished?
  {
    if t.legs[t.current].Unfinished? {
      RunningReappears(t, micros);
    } else {
      forall hs | Possible(hs) && NoMark(hs) && NoReentry(hs) ensures !Reappears(t, hs, micros) {
        EndedStaysCancelled(t, hs, micros);
      }
    }
  }

  lemma AfterMore(t: Task, hs: seq<Happening>, h: Happening, micros: int)
    requires t.current < |t.legs| && Possible(hs) && (h.Passes? ==> h.d >= 0.0)
    ensures Possible(hs + [h]) && After(t, hs + [h], micros) == Next(After(t, hs, micros), h, micros)
  {
    assert (hs + [h])[..|hs|] == hs;
  }

  // Polled once, and again when the marker has lapsed.
  lemma RunningReappears(t: Task, micros: int)
    requires Healthy(t, micros) && micros >= 0 && Resolves(t, micros) && t.legs[t.current].Unfinished?
    ensures Reappears(t, [Polled, Passes(MarkerTtl(micros) as real)], micros)
  {
    var hs := [Polled, Passes(MarkerTtl(micros) as real)];
    var m := Mark(t, micros);
    NextHealthy(t, Marked, micros);
    LookupRefreshes(m.keys, RefreshTtl(micros), Meta);
    AfterMore(m, [], Polled, micros);
    AfterMore(m, [Polled], hs[1], micros);
    assert [] + [Polled] == [Polled] && hs == [Polled] + [hs[1]];
    UncancelledIff(t, hs, micros);
  }

  /** Everything a cancelled task that is polled in time is reported as: not found once its current leg is forgotten,
      and until then cancelled during the marker's one lifetime and, if Docket stopped the leg, after it; the state of
      the leg otherwise. */
  lemma PolledReports(t: Task, hs: seq<Happening>, micros: int)
    requires Fresh(t, micros) && Possible(hs) && NoMark(hs) && InTime(hs, micros)
    requires NoReentry(hs) || Found(Mark(t, micros), hs, micros)
    ensures var r := After(Mark(t, micros), hs, micros);
            var leg := r.legs[r.current];
            Report(r, micros) == (if !Retained(leg, r.keys.now, micros) then NotFound
                                  else if r.keys.now < t.keys.now + MarkerTtl(micros) as real then Cancelled
                                  else if leg.Ended? && leg.stopped then Cancelled
                                  else Other)
  {
    NextHealthy(t, Marked, micros);
    ResolvesIffRetained(Mark(t, micros), hs, micros);
    AfterHealthy(Mark(t, micros), hs, micros);
    MarkerIsNotRefreshed(Mark(t, micros), hs, micros);
  }

  /* ------------------------------------------------------------- an instance */

  // Docket's default of 900 seconds, and a task looked up at time 0 whose one leg is `leg`.
  const DEFAULT := 900_000_000

  function Example(leg: Leg): Task {
    Task(Keys(0.0, map key | key in Named(REFRESH_ORDER) :: 1800.0), [leg], 0)
  }

  // A second after the marker is written the leg ends; then `d` seconds pass.
  function EndsEarly(stopped: bool, d: real): seq<Happening> {
    [Passes(1.0), Ends(0, stopped), Passes(d)]
  }

  /** The example, cancelled at time 0. While it runs it is cancelled for 900 seconds and then working again; if the
      leg ends by itself in time its end is reported in the 901st second; if Docket stops it, it stays cancelled. */
  lemma ExampleReappears(d: real)
    requires 0.0 <= d < 1800.0
    ensures var m := Mark(Example(Unfinished), DEFAULT);
            && Healthy(Example(Unfinished), DEFAULT)
            && Report(After(m, [Passes(d)], DEFAULT), DEFAULT) == (if d < 900.0 then Cancelled else Other)
            && Report(After(m, EndsEarly(false, d), DEFAULT), DEFAULT) ==
               (if d < 899.0 then Cancelled else if d < 900.0 then Other else NotFound)
            && Report(After(m, EndsEarly(true, d), DEFAULT), DEFAULT) == (if d < 900.0 then Cancelled else NotFound)
  {
    var m := Mark(Example(Unfinished), DEFAULT);
    AfterMore(m, [], Passes(d), DEFAULT);
    assert [] + [Passes(d)] == [Passes(d)];
    EndsEarlyAt(m, false, d);
    EndsEarlyAt(m, true, d);
  }

  lemma EndsEarlyAt(m: Task, stopped: bool, d: real)
    requires m.current < |m.legs| && m.legs[0].Unfinished? && d >= 0.0
    ensures After(m, EndsEarly(stopped, d), DEFAULT) ==
            m.(keys := m.keys.(now := m.keys.now + 1.0 + d), legs := m.legs[0 := Ended(m.keys.now + 1.0, stopped)])
  {
    EndsAt(m, stopped);
    AfterMore(m, [Passes(1.0), Ends(0, stopped)], Passes(d), DEFAULT);
    assert [Passes(1.0), Ends(0, stopped)] + [Passes(d)] == EndsEarly(stopped, d);
  }

  lemma EndsAt(m: Task, stopped: bool)
    requires m.current < |m.legs| && m.legs[0].Unfinished?
    ensures After(m, [Passes(1.0), Ends(0, stopped)], DEFAULT) ==
            m.(keys := m.keys.(now := m.keys.now + 1.0), legs := m.legs[0 := Ended(m.keys.now + 1.0, stopped)])
  {
    AfterMore(m, [], Passes(1.0), DEFAULT);
    AfterMore(m, [Passes(1.0)], Ends(0, stopped), DEFAULT);
    assert [] + [Passes(1.0)] == [Passes(1.0)];
    assert [Passes(1.0)] + [Ends(0, stopped)] == [Passes(1.0), Ends(0, stopped)];
  }

  // It is what create_task makes at time 0.
  lemma ExampleIsCreated()
    ensures Example(Unfinished) == Created(Keys(0.0, map[]), NoWaits(7), DEFAULT)
  {
    CreatedAtOnce(CREATION_ORDER, NoWaits(7), CreationTtl(DEFAULT));
    assert Named(CREATION_ORDER) == Named(REFRESH_ORDER);
  }

  lemma CreatedAtOnce(order: seq<Key>, waits: seq<real>, ttl: int)
    requires |waits| == |order| && waits == NoWaits(|waits|)
    ensures SetAll(Keys(0.0, map[]), order, waits, ttl) == Keys(0.0, map key | key in Named(order) :: ttl as real)
  {
    var k := Keys(0.0, map[]);
    var r := SetAll(k, order, waits, ttl);
    NoWaitsSum(|waits|);
    SetAllTime(k, order, waits, ttl);
    forall key ensures (key in r.exp <==> key in Named(order)) && (key in r.exp ==> r.exp[key] == ttl as real) {
      if key in order { SetAllLater(k, order, waits, ttl, key); } else { SetAllOthers(k, order, waits, ttl, key); }
    }
    assert r.exp == map key | key in Named(order) :: ttl as real;
  }

  lemma {:induction false} SetAllTime(k: Keys, order: seq<Key>, waits: seq<real>, ttl: int)
    requires |waits| == |order| && forall i :: 0 <= i < |waits| ==> waits[i] >= 0.0
    ensures SetAll(k, order, waits, ttl).now == k.now + Sum(waits)
    decreases |order|
  {
    if order != [] { SetAllTime(Set(Wait(k, waits[0]), order[0], ttl), order[1..], waits[1..], ttl); }
  }

  // A lookup that finds the task does not change what it is about to report.
  lemma LookupKeepsReport(t: Task, micros: int)
    requires Healthy(t, micros) && Resolves(t, micros)
    ensures var r := Lookup(t, micros).keys;
            r.now == t.keys.now && (Live(r, Marker) <==> Live(t.keys, Marker)) && Asked(t) == t.legs[t.current]
  {
    LookupRefreshes(t.keys, RefreshTtl(micros), Marker);
    LookupRefreshes(t.keys, RefreshTtl(micros), Meta);
  }

  /* ------------------------------------------------------------ the commands */

  /** The same task as the server handles it, one command after another. */
  class TaskRecord {
    const micros: nat
    var now: real
    var exp: map<Key, real>
    // Docket
    var legs: seq<Leg>
    var current: nat

    function State(): Keys
      reads this
    {
      Keys(now, exp)
    }

    function Whole(): Task
      reads this
    {
      Task(State(), legs, current)
    }

    ghost predicate Valid()
      reads this
    {
      Healthy(Whole(), micros)
    }

    method Pass(d: real)
      requires d >= 0.0
      modifies `now
      ensures State() == Wait(old(State()), d)
    {
      now := now + d;
    }

    method SetEx(key: Key, ttl: int)
      modifies `exp
      ensures State() == Set(old(State()), key, ttl)
    {
      exp := exp[key := now + ttl as real];
    }

    method ExpireIn(key: Key, ttl: int)
      modifies `exp
      ensures State() == Expire(old(State()), key, ttl)
    {
      if key in exp && now < exp[key] { exp := exp[key := now + ttl as real]; }
    }

    // Metadata, creation time and poll interval, the first thing `create_task` writes.
    method SaveMetadata(waits: seq<real>, ttl: int)
      requires |waits| == 3 && forall i :: 0 <= i < 3 ==> waits[i] >= 0.0
      modifies `now, `exp
      ensures State() == SetAll(old(State()), METADATA, waits, ttl)
    {
      Pass(waits[0]);
      SetEx(Meta, ttl);
      Pass(waits[1]);
      SetEx(CreatedAt, ttl);
      Pass(waits[2]);
      SetEx(PollInterval, ttl);
    }

    // `save_task_args`, `save_current_leg`
    method SaveState(waits: seq<real>, ttl: int)
      requires |waits| == 3 && forall i :: 0 <= i < 3 ==> waits[i] >= 0.0
      modifies `now, `exp
      ensures State() == SetAll(old(State()), [Args, CurrentLeg, LegNumber], waits, ttl)
    {
      Pass(waits[0]);
      SetEx(Args, ttl);
      Pass(waits[1]);
      SetEx(CurrentLeg, ttl);
      Pass(waits[2]);
      SetEx(LegNumber, ttl);
    }

    // A task nobody knows of yet.
    constructor (micros: nat, start: real)
      ensures this.micros == micros && State() == Keys(start, map[])
    {
      this.micros := micros;
      now, exp := start, map[];
      legs, current := [], 0;
    }

    method WriteKeys(waits: seq<real>)
      requires |waits| == 7 && forall i :: 0 <= i < |waits| ==> waits[i] >= 0.0
      modifies `now, `exp
      ensures State() == SetAll(old(State()), CREATION_ORDER, waits, CreationTtl(micros))
      ensures Kept(State(), RefreshTtl(micros))
    {
      var ttl := CreationTtl(micros);
      ghost var first := State();
      SaveMetadata(waits[..3], ttl);
      SaveState(waits[3..6], ttl);
      ghost var saved := State();
      Pass(waits[6]);
      SetEx(Snapshot, ttl);
      CreationInParts(first, waits, ttl);
      assert State() == SetAll(saved, [Snapshot], waits[6..], ttl);
      CreationIsWhole(first, waits, ttl);
      TtlsAgree(micros);
    }

    /** `create_task`: metadata, arguments and pointer, then the snapshot, each command as late as it likes, and then
        the first leg. The task is whole when it returns. */
    method Create(waits: seq<real>)
      requires |waits| == 7 && forall i :: 0 <= i < |waits| ==> waits[i] >= 0.0
      modifies this
      ensures Valid() && Whole() == Created(old(State()), waits, micros)
    {
      WriteKeys(waits);
      legs, current := [Unfinished], 0;
    }

    // The metadata keys, in the order `_lookup_task` refreshes them.
    method RefreshMetadata(ttl: int)
      modifies `exp
      ensures State() == ExpireAll(old(State()), METADATA, NoWaits(3), ttl)
    {
      ExpireIn(Meta, ttl);
      ExpireIn(CreatedAt, ttl);
      ExpireIn(PollInterval, ttl);
    }

    // `refresh_current_leg_ttl`, `refresh_args_ttl`, `refresh_snapshot_ttl`
    method RefreshState(ttl: int)
      modifies `exp
      ensures State() == ExpireAll(old(State()), [CurrentLeg, LegNumber, Args, Snapshot], NoWaits(4), ttl)
    {
      ExpireIn(CurrentLeg, ttl);
      ExpireIn(LegNumber, ttl);
      ExpireIn(Args, ttl);
      ExpireIn(Snapshot, ttl);
    }

    // `docket.get_execution`, on the key of the current leg, or on the task's own
    function HasExecution(): bool
      reads this
      requires current < |legs|
    {
      var leg := if CurrentLeg in exp && now < exp[CurrentLeg] then legs[current] else legs[0];
      match leg
      case Unfinished => true
      case Ended(at, _) => now < at + RetentionTtl(micros) as real
    }

    /** `_lookup_task`, at one instant: it raises unless the metadata and the execution are there, and refreshes every
        key if they are. */
    method LookupTask() returns (found: bool)
      requires Valid()
      modifies `exp
      ensures Valid() && Whole() == Lookup(old(Whole()), micros) && found == Resolves(old(Whole()), micros)
      ensures found <==> old(Live(State(), Meta) && Retained(legs[current], now, micros))
      ensures if found then forall key :: Routes(key) ==> key in exp && exp[key] == now + RefreshTtl(micros) as real
              else exp == old(exp)
    {
      NextHealthy(Whole(), Polled, micros);
      found := Meta in exp && now < exp[Meta];
      if found { found := HasExecution(); }
      if !found { return; }
      RefreshAll(RefreshTtl(micros));
    }

    method RefreshAll(ttl: int)
      modifies `exp
      ensures State() == Refresh(old(State()), ttl)
    {
      RefreshInParts(State(), ttl);
      RefreshMetadata(ttl);
      RefreshState(ttl);
    }

    /** `tasks_get`: the lookup, the marker, and only then the execution. */
    method TasksGet() returns (r: Status)
      requires Valid()
      modifies `exp
      ensures Valid() && Whole() == Lookup(old(Whole()), micros) && r == Report(old(Whole()), micros)
    {
      ghost var before := Whole();
      var found := LookupTask();
      if !found { return NotFound; }
      LookupKeepsReport(before, micros);
      if Marker in exp && now < exp[Marker] { return Cancelled; }
      r := if legs[current].Ended? && legs[current].stopped then Cancelled else Other;
    }

    // The two writes of `save_current_leg`, when a task re-enters.
    method SavePointer()
      requires Valid()
      modifies `exp, `current
      ensures Valid() && Whole() == Next(old(Whole()), PointerSaved, micros)
    {
      NextHealthy(Whole(), PointerSaved, micros);
      SetEx(CurrentLeg, RefreshTtl(micros));
      current := |legs| - 1;
    }

    method SaveNumber()
      requires Valid()
      modifies `exp
      ensures Valid() && Whole() == Next(old(Whole()), NumberSaved, micros)
    {
      NextHealthy(Whole(), NumberSaved, micros);
      SetEx(LegNumber, RefreshTtl(micros));
    }

    // `mark_cancelled`
    method MarkCancelled()
      requires Valid()
      modifies `exp
      ensures Valid() && Whole() == Mark(old(Whole()), micros)
    {
      NextHealthy(Whole(), Marked, micros);
      SetEx(Marker, MarkerTtl(micros));
    }
  }
}
