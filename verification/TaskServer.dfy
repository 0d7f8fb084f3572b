/** The server half of the protocol as it is written: handlers and a worker that change the shared store one
    command at a time, with everybody else running in between.

    The real fields are one task's Redis keys and Docket executions. `sys` and `trace` are history: the state
    of the transition system the fields stand for, and the run that led there. Every command takes exactly one
    step of that system, so a method keeps `Valid` only if its commands come in the order, and do the
    writes, the protocol prescribes; in exchange everything proved about runs holds of the fields. */
module TaskServer {
  import opened TaskTypes
  import opened TaskProtocol
  import opened TaskInvariant
  import opened TaskRuns
  import opened TaskTheorems
  import opened TaskFinality
  import opened TaskAnswers
  import opened TaskSolo
  import opened TaskReplay
  import opened TaskRely
  import opened TaskStalled
  import opened TaskBody
  import opened AnswerStore
  import TaskLifetime

  const LOCK_TIMEOUT := 5.0
  const LOCK_POLL := 0.02
  const DURABLE_TIMEOUT := 5.0
  const DURABLE_POLL := 0.02

  // What a tasks/update answers: an acknowledgement, or one of the errors it raises.
  datatype UpdateReply = Acked | Busy | Rejected | NotEnqueued | NotDurable

  // Answers that came out of validation.
  lemma TranslateProducible(wire: Wire, c: Config, outstanding: map<SurfacedKey, Request>,
                            mapping: map<SurfacedKey, ToolKey>, p: Payload)
    requires c.validate == wire.validate
    ensures var t := Translate(c, outstanding, mapping, p); t.Translated? ==> AllProducible(wire, t.answers)
  {
    var t := Translate(c, outstanding, mapping, p);
    if t.Translated? {
      forall tool | tool in t.answers ensures Producible(wire, t.answers[tool]) {
        var i := AnswersComeFrom(c, outstanding, mapping, p, tool);
        assert (wire.validate)(KindFor(outstanding[p[i].0]), p[i].1) == Some(t.answers[tool]);
      }
    }
  }

  lemma {:induction false} InvalidStays(c: Config, outstanding: map<SurfacedKey, Request>,
                                        mapping: map<SurfacedKey, ToolKey>, p: Payload, i: nat)
    requires i <= |p| && Translate(c, outstanding, mapping, p[..i]).Invalid?
    ensures Translate(c, outstanding, mapping, p).Invalid?
    decreases |p|
  {
    if i == |p| {
      assert p[..i] == p;
    } else {
      assert p[..|p| - 1][..i] == p[..i];
      InvalidStays(c, outstanding, mapping, p[..|p| - 1], i);
    }
  }

  // The two writes of a parking worker, field by field.
  lemma MintedWorld(c: Config, w: World, leg: nat, legArgs: Json, todo: Requests, state: Option<string>, tool: ToolKey,
                    key: SurfacedKey)
    requires CanAct(w, leg, MintRequest(tool, key)) && w.execs[leg] == Running(legArgs, Parking(todo, state))
    ensures ActNext(c, w, leg, MintRequest(tool, key)) ==
            w.(requests := w.requests[leg := Req(w, leg)[key := todo[tool]]], minted := w.minted + {key},
               execs := w.execs[leg := Running(legArgs, ParkingMap(key, tool, todo - {tool}, state))])
  {}

  lemma MappedWorld(c: Config, w: World, leg: nat, legArgs: Json, key: SurfacedKey, tool: ToolKey, todo: Requests,
                    state: Option<string>)
    requires CanAct(w, leg, RecordMap) && w.execs[leg] == Running(legArgs, ParkingMap(key, tool, todo, state))
    ensures ActNext(c, w, leg, RecordMap) ==
            w.(surfaced := w.surfaced[leg := Smap(w, leg)[key := tool]],
               execs := w.execs[leg := Running(legArgs, Parking(todo, state))])
  {}

  // The enqueue of a next leg, whose key is new to Docket.
  lemma AddedWorld(c: Config, s: Sys, h: HandlerId, p: Payload, leg: nat)
    requires Reachable(c, s) && PcOf(s, h) == Update(p, Enqueuing(leg))
    ensures leg + 1 !in s.w.execs
    ensures EnqueueLeg(s.w, leg + 1) ==
            s.w.(execs := s.w.execs[leg + 1 := Queued(s.w.args)], enqueues := s.w.enqueues + [leg + 1],
                 late := s.w.late || s.w.cancelled)
  {
    EnqueueIsFresh(c, s, h, p, leg);
  }

  lemma RunningIsTop(c: Config, s: Sys, leg: nat)
    requires Reachable(c, s) && leg in s.w.execs && s.w.execs[leg].Running?
    ensures leg == Top(s.w)
  {
    ReachableCore(c, s);
  }

  /** In state `s` the update reads its answers, and one to an outstanding key does not validate. */
  ghost predicate RejectsAt(c: Config, s: Sys, h: HandlerId, p: Payload) {
    Reachable(c, s) &&
    match PcOf(s, h)
    case Update(q, Reading(leg, o)) => q == p && exists i :: FailsAt(c, o, Smap(s.w, leg), p, i)
    case _ => false
  }

  /** In state `s` the update goes to enqueue the leg after `leg`. */
  ghost predicate EnqueuesAt(c: Config, s: Sys, h: HandlerId, p: Payload, leg: nat) {
    Reachable(c, s) && PcOf(s, h) == Update(p, Enqueuing(leg))
  }

  // Of a tool that only asks elicitations, answers that all validate as such are not rejected.
  lemma GoodIsNotRejected(c: Config, s: Sys, h: HandlerId, p: Payload)
    requires VerdictsElicit(c) && forall i :: 0 <= i < |p| ==> c.validate(Elicit, p[i].1).Some?
    ensures !RejectsAt(c, s, h, p)
  {
    if RejectsAt(c, s, h, p) {
      var leg, o := PcOf(s, h).at.leg, PcOf(s, h).at.outstanding;
      GoodAnswersAreTaken(c, s, h, p, leg, o);
      InvalidIffAnyFails(c, o, Smap(s.w, leg), p);
    }
  }

  // A failed re-entry is on record for good.
  lemma UpdateRecords(c: Config, w: World, h: HandlerId, p: Payload, at: UpdateAt, ok: bool)
    ensures w.failed <= UpdateNext(c, w, h, p, at, ok).w.failed
  {}

  lemma CancelRecords(w: World, h: HandlerId, at: CancelAt, ok: bool)
    ensures CancelNext(w, h, at, ok).w.failed == w.failed
  {}

  lemma WorkRecords(c: Config, w: World, leg: nat, act: Act)
    requires CanAct(w, leg, act)
    ensures ActNext(c, w, leg, act).failed == w.failed
  {}

  lemma FailedStep(c: Config, s: Sys, l: Label)
    requires Enabled(s, l)
    ensures s.w.failed <= Apply(c, s, l).w.failed
  {
    match l
    case Move(h, ok) =>
      match PcOf(s, h) {
        case Update(p, at) => UpdateRecords(c, s.w, h, p, at, ok);
        case Cancel(at) => CancelRecords(s.w, h, at, ok);
      }
    case Work(leg, act) => WorkRecords(c, s.w, leg, act);
    case _ =>
  }

  lemma {:induction false} FailedRun(c: Config, a: Sys, ls: seq<Label>, b: Sys)
    requires Runs(c, a, ls, b)
    ensures a.w.failed <= b.w.failed
    decreases |ls|
  {
    if ls != [] {
      FailedStep(c, a, ls[0]);
      FailedRun(c, Apply(c, a, ls[0]), ls[1..], b);
    }
  }

  lemma CancelledKept(c: Config, a: Sys, b: Sys, me: Actor)
    requires OthersRan(c, a, b, me)
    ensures a.w.cancelled ==> b.w.cancelled
  {
    var ls :| Runs(c, a, ls, b) && Spares(ls, me);
    if a.w.cancelled { MarkerStaysForever(c, a, ls, b); }
  }

  lemma ReleaseKeepsSettled(w: World, keys: set<SurfacedKey>)
    ensures Settled(w, keys) ==> Settled(Release(w), keys)
  {
    SameRequests(w, Release(w));
  }

  // What a cancel decides under the lock is the truth; what it decides without is true if it decides to cancel.
  lemma DecidedIsOver(c: Config, s: Sys, h: HandlerId, got: bool, key: nat, leg: nat)
    requires Reachable(c, s) && PcOf(s, h) == Cancel(CDeciding(got, key, leg))
    ensures got || !AlreadyTerminal(s.w, key, leg) ==> Over(Apply(c, s, Move(h, true)).w)
  {
    if got { ParkedIsCancellable(c, s, h, key, leg, true); }
  }

  lemma DecidedIsQuiet(c: Config, s: Sys, h: HandlerId, got: bool, key: nat, leg: nat)
    requires Reachable(c, s) && PcOf(s, h) == Cancel(CDeciding(got, key, leg))
    ensures got && AlreadyTerminal(s.w, key, leg) ==> Quiet(Apply(c, s, Move(h, true)))
  {
    if got && AlreadyTerminal(s.w, key, leg) {
      TerminalIsQuiet(c, s, h, key, leg);
      QuietStep(c, s, Move(h, true));
    }
  }

  // A quiet task stays so under steps of others.
  lemma QuietKept(c: Config, a: Sys, b: Sys, me: Actor)
    requires Reachable(c, a) && Quiet(a) && OthersRan(c, a, b, me)
    ensures Quiet(b)
  {
    var ls :| Runs(c, a, ls, b) && Spares(ls, me);
    QuietRun(c, a, ls, b);
  }

  lemma ReleaseKeepsOver(w: World)
    ensures Over(Release(w)) == Over(w)
  {}

  class TaskStore {
    const c: Config
    const wire: Wire

    // Redis
    var pointer: nat
    var number: nat
    var args: Json
    var requests: map<nat, map<SurfacedKey, Request>>
    var surfaced: map<nat, map<SurfacedKey, ToolKey>>
    var responses: Option<Stored>
    var carried: Option<string>
    var cancelled: bool
    var locked: bool
    // Docket
    var execs: map<nat, Exec>
    var visible: set<nat>
    var stops: set<nat>
    // `loop.time()`
    var clock: real
    // history
    ghost var sys: Sys
    ghost var trace: seq<Label>

    ghost predicate Mirrors(w: World)
      reads this
    {
      && pointer == w.pointer && number == w.number && args == w.args
      && requests == w.requests && surfaced == w.surfaced
      && w.responses == (if responses.None? then None else Some(Decode(wire, responses.value)))
      && carried == w.carried && cancelled == w.cancelled && locked == w.locked
      && execs == w.execs && visible == w.visible && stops == w.stops
    }

    ghost predicate Valid()
      reads this
    {
      Runs(c, Init(c), trace, sys) && Mirrors(sys.w) && c.validate == wire.validate && Faithful(wire)
    }

    // Update `h` stands at `at`.
    ghost predicate Stands(h: HandlerId, p: Payload, at: UpdateAt)
      reads this
    {
      Valid() && PcOf(sys, h) == Update(p, at)
    }

    ghost predicate CancelStands(h: HandlerId, at: CancelAt)
      reads this
    {
      Valid() && PcOf(sys, h) == Cancel(at)
    }

    // `leg` is being run by its worker, which stands at `worker`.
    ghost predicate Works(leg: nat, legArgs: Json, worker: Worker)
      reads this
    {
      Valid() && leg in execs && execs[leg] == Running(legArgs, worker)
    }

    ghost method Step(l: Label)
      requires Runs(c, Init(c), trace, sys) && Enabled(sys, l)
      modifies `sys, `trace
      ensures trace == old(trace) + [l] && sys == Apply(c, old(sys), l)
      ensures Runs(c, Init(c), trace, sys)
    {
      Then(c, Init(c), trace, sys, l, Apply(c, sys, l));
      trace, sys := trace + [l], Apply(c, sys, l);
    }

    ghost method StepWork(leg: nat, act: Act)
      requires Runs(c, Init(c), trace, sys) && CanAct(sys.w, leg, act)
      modifies `sys, `trace
      ensures trace == old(trace) + [Work(leg, act)] && sys.w == ActNext(c, old(sys.w), leg, act)
      ensures Runs(c, Init(c), trace, sys)
    {
      Step(Work(leg, act));
    }

    /** What happens at an `await`: other requests, workers and Docket may do any number of steps. Callers see
        this contract only, so they are right for every choice of steps; doing nothing is one of them.
        Keys in `reserved` are drawn by the caller's own generator: nobody else mints or guesses them. */
    method Interfere(ghost me: Actor, ghost reserved: iset<SurfacedKey>)
      requires Valid() && forall k :: k in reserved ==> k !in sys.w.minted && k !in sys.w.named
      modifies this
      ensures Valid() && old(trace) <= trace && OthersRan(c, old(sys), sys, me) && old(clock) <= clock
      ensures forall k :: k in reserved ==> k !in sys.w.minted && k !in sys.w.named
    {
      assert Runs(c, sys, [], sys) && Spares([], me);
    }

    method Pause(ghost h: HandlerId)
      requires Valid()
      modifies this
      ensures Valid() && old(trace) <= trace && OthersRan(c, old(sys), sys, Handler(h)) && old(clock) <= clock
      ensures PcOf(sys, h) == old(PcOf(sys, h))
    {
      Interfere(Handler(h), iset{});
      HandlerKept(c, old(sys), sys, h);
    }

    // `asyncio.sleep`
    method Sleep(h: HandlerId, d: real)
      requires Valid() && d >= 0.0
      modifies this
      ensures Valid() && old(trace) <= trace && PcOf(sys, h) == old(PcOf(sys, h)) && clock >= old(clock) + d
    {
      Pause(h);
      clock := clock + d;
    }

    /* --------------------------------------------------------- create_task */

    // Nothing is stored yet but what the writes so far have put there; Docket does not know the task.
    ghost predicate Unborn()
      reads this
    {
      && requests == map[] && surfaced == map[] && responses == None && carried == None
      && !cancelled && !locked && stops == {} && execs == map[] && visible == {}
      && c.validate == wire.validate && Faithful(wire)
    }

    // The records a lookup and a worker need.
    ghost predicate Described()
      reads this
    {
      args == c.args && pointer == 1 && number == 1
    }

    // A fresh task id: no key of it has been written.
    constructor (c: Config, wire: Wire)
      requires c.validate == wire.validate && Faithful(wire)
      ensures Unborn() && this.c == c && this.wire == wire
    {
      this.c, this.wire := c, wire;
      args, pointer, number := "", 0, 0;
      requests, surfaced, responses, carried := map[], map[], None, None;
      cancelled, locked, stops := false, false, {};
      execs, visible, clock := map[], {}, 0.0;
      sys, trace := Init(c), [];
    }

    // `save_task_args`, and the two writes of `save_current_leg`
    method SaveRecords()
      requires Unborn()
      modifies `args, `pointer, `number
      ensures Unborn() && Described()
    {
      args := c.args;
      pointer := 1;
      number := 1;
    }

    // `add_component_to_docket`: only once the records are there.
    method EnqueueFirstLeg()
      requires Unborn() && Described()
      modifies `execs
      ensures execs == map[1 := Queued(c.args)]
    {
      execs := map[1 := Queued(c.args)];
    }

    /** `_await_durable_creation`: poll until Docket shows the execution, or give up at the deadline. */
    method AwaitCreation() returns (durable: bool)
      requires 1 in execs && visible == {}
      modifies `visible, `clock
      ensures visible == (if durable then {1} else {}) && (!durable ==> clock >= old(clock) + DURABLE_TIMEOUT)
    {
      var deadline := clock + DURABLE_TIMEOUT;
      durable := false;
      while true
        invariant visible == {} && !durable
        decreases ((deadline - clock) / DURABLE_POLL).Floor
      {
        var surfaced := *;
        if surfaced {
          visible := {1};
          return true;
        }
        if clock >= deadline { return false; }
        clock := clock + DURABLE_POLL;
      }
    }

    // The keys of the task, with their lifetimes.
    static method NewRecord(micros: nat, start: real, waits: seq<real>) returns (record: TaskLifetime.TaskRecord)
      requires |waits| == 7 && forall i :: 0 <= i < 7 ==> waits[i] >= 0.0
      ensures fresh(record) && record.micros == micros && record.Valid() && record.legs == [TaskLifetime.Unfinished]
    {
      record := new TaskLifetime.TaskRecord(micros, start);
      record.Create(waits);
    }

    /** `create_task`: the seven keys first, each written as late as it likes, then the execution, then the wait until
        the backend shows it. A created task is whole and starts the protocol in its initial state; if the wait runs
        out no handle is returned. No request can name the task before, so nobody but its first worker can be at work,
        whose steps are the run's. */
    static method CreateTask(c: Config, wire: Wire, micros: nat, start: real, waits: seq<real>)
      returns (store: TaskStore, record: TaskLifetime.TaskRecord, created: bool)
      requires c.validate == wire.validate && Faithful(wire)
      requires |waits| == 7 && forall i :: 0 <= i < 7 ==> waits[i] >= 0.0
      ensures fresh(store) && store.c == c && store.wire == wire
      ensures fresh(record) && record.micros == micros && record.Valid() && record.legs == [TaskLifetime.Unfinished]
      ensures created ==> store.Valid() && store.sys == Init(c) && store.trace == []
      ensures !created ==> 1 !in store.visible
    {
      store := new TaskStore(c, wire);
      store.SaveRecords();
      record := NewRecord(micros, start, waits);
      store.EnqueueFirstLeg();
      created := store.AwaitCreation();
      if created { store.Commence(); }
    }

    // The task has been created: its history begins.
    ghost method Commence()
      requires Described() && execs == map[1 := Queued(c.args)] && visible == {1}
      requires requests == map[] && surfaced == map[] && responses == None && carried == None
      requires !cancelled && !locked && stops == {} && c.validate == wire.validate && Faithful(wire)
      modifies `sys, `trace
      ensures Valid() && sys == Init(c) && trace == []
    {
      sys, trace := Init(c), [];
    }

    /* ----------------------------------------------------------- tasks/get */

    // `read_outstanding_inputs`
    function Outstanding(leg: nat): map<SurfacedKey, Request>
      reads this
    {
      if leg in requests then requests[leg] else map[]
    }

    // `_read_outstanding_map`
    function OutstandingMap(leg: nat): map<SurfacedKey, ToolKey>
      reads this
    {
      if leg in surfaced then surfaced[leg] else map[]
    }

    /** `tasks_get`, as one observation. It reports exactly `Observe`, and the keys it shows become known. */
    method TasksGet() returns (r: Reply)
      requires Valid()
      modifies this
      ensures Valid() && trace == old(trace) + [Get]
      ensures r == Observe(old(sys.w)) && r != NotFound
      ensures old(cancelled) ==> r == CancelledReply
      ensures old(pointer in execs)
      ensures !old(cancelled) ==>
                var e := old(execs[pointer]);
                && (r == Working <==> e.Queued? || e.Running?)
                && (r.InputRequired? <==> e == Completed(ParkedAsk) || (e.Completed? && old(pointer != number)))
                && (forall x :: r == Done(x) <==> e == Completed(x) && x != ParkedAsk && old(pointer == number))
                && (forall x :: r == FailedReply(x) <==> e == Exec.Failed(x))
      ensures r.InputRequired? ==> r.asked == old(Outstanding(number)) != map[] && r.asked.Keys <= sys.w.shown
    {
      PointerSafe(c, sys);
      if !cancelled { Reports(c, sys); }
      var e := execs[pointer];
      if cancelled {
        r := CancelledReply;
      } else if e.Completed? {
        var outstanding := Outstanding(number);
        if outstanding != map[] {
          r := InputRequired(outstanding);
        } else {
          r := Done(e.ending);
        }
      } else if e.Failed? {
        r := FailedReply(e.error);
      } else if e.Stopped? {
        r := CancelledReply;
      } else {
        r := Working;
      }
      Step(Get);
    }

    /* -------------------------------------------------------- tasks/update */

    // `_lookup_task`: the pointer always names an execution the backend shows, so this never raises.
    method LookupLeg(h: HandlerId, p: Payload) returns (leg: nat)
      requires Stands(h, p, Arrived)
      modifies this
      ensures Stands(h, p, Looked(leg)) && old(trace) <= trace && clock == old(clock) && leg == old(number)
    {
      PointerSafe(c, sys);
      leg := number;
      Step(Move(h, true));
    }

    // `set(nx=True)`
    method TryLock() returns (got: bool)
      modifies `locked
      ensures got == !old(locked) && locked
    {
      got := !locked;
      locked := true;
    }

    method TryUpdateLock(h: HandlerId, p: Payload, leg: nat, last: bool) returns (got: bool)
      requires Stands(h, p, Looked(leg))
      modifies this
      ensures old(trace) <= trace && clock == old(clock)
      ensures if got then Stands(h, p, Locked(leg))
              else if last then Valid() && PcOf(sys, h) == Idle && trace != [] && trace[|trace| - 1] == Move(h, false)
              else Stands(h, p, Looked(leg))
    {
      got := TryLock();
      if got || last { Step(Move(h, got)); }
    }

    /** `acquire_update_lock_blocking`: poll until the lock is ours, or is still held at the deadline. */
    method AcquireUpdateLock(h: HandlerId, p: Payload, leg: nat) returns (got: bool)
      requires Stands(h, p, Looked(leg))
      modifies this
      ensures old(trace) <= trace && old(clock) <= clock
      ensures if got then Stands(h, p, Locked(leg))
              else Valid() && PcOf(sys, h) == Idle && trace != [] && trace[|trace| - 1] == Move(h, false)
      ensures !got ==> clock >= old(clock) + LOCK_TIMEOUT
    {
      var deadline := clock + LOCK_TIMEOUT;
      while true
        invariant Stands(h, p, Looked(leg)) && old(trace) <= trace && old(clock) <= clock
        decreases ((deadline - clock) / LOCK_POLL).Floor
      {
        var last := clock >= deadline;
        got := TryUpdateLock(h, p, leg, last);
        if got || last { return; }
        Sleep(h, LOCK_POLL);
      }
    }

    // `is_cancelled`, checked under the lock
    method CheckCancelled(h: HandlerId, p: Payload, leg: nat) returns (marked: bool)
      requires Stands(h, p, Locked(leg))
      modifies this
      ensures old(trace) <= trace
      ensures if marked then Stands(h, p, Releasing) && Settled(sys.w, KeysOf(p)) else Stands(h, p, Checked(leg))
    {
      marked := cancelled;
      Step(Move(h, true));
    }

    // The first half of `translate_responses`: `None` when the leg has nothing outstanding.
    method ReadRequests(h: HandlerId, p: Payload, leg: nat) returns (outstanding: map<SurfacedKey, Request>)
      requires Stands(h, p, Checked(leg))
      modifies this
      ensures old(trace) <= trace
      ensures if outstanding == map[] then Stands(h, p, Releasing) && Settled(sys.w, KeysOf(p))
              else Stands(h, p, Reading(leg, outstanding))
    {
      outstanding := Outstanding(leg);
      if outstanding == map[] { AcknowledgedIsSpent(c, sys, h, p, Checked(leg), true); }
      Step(Move(h, true));
    }

    // The look at the marker and the read, up to which an update only watches.
    method ReadUncancelled(h: HandlerId, p: Payload, leg: nat) returns (outstanding: map<SurfacedKey, Request>)
      requires Stands(h, p, Locked(leg))
      modifies this
      ensures old(trace) <= trace
      ensures if outstanding == map[] then Stands(h, p, Releasing) && Settled(sys.w, KeysOf(p))
              else Stands(h, p, Reading(leg, outstanding))
    {
      var marked := CheckCancelled(h, p, leg);
      if marked { return map[]; }
      Pause(h);
      outstanding := ReadRequests(h, p, leg);
    }

    /** The loop of `translate_responses`. An answer that does not validate raises, before anything is stored. */
    method TranslateResponses(outstanding: map<SurfacedKey, Request>, mapping: map<SurfacedKey, ToolKey>, p: Payload)
      returns (t: Translation)
      ensures t == Translate(c, outstanding, mapping, p)
      ensures t.Invalid? <==> exists i :: FailsAt(c, outstanding, mapping, p, i)
    {
      var translated: Answers, matched: set<SurfacedKey> := map[], {};
      for i := 0 to |p|
        invariant Translate(c, outstanding, mapping, p[..i]) == Translated(translated, matched)
      {
        assert p[..i + 1][..i] == p[..i];
        var (key, raw) := p[i];
        if key in outstanding && key in mapping {
          match c.validate(KindFor(outstanding[key]), raw) {
            case None =>
              InvalidStays(c, outstanding, mapping, p, i + 1);
              InvalidIffAnyFails(c, outstanding, mapping, p);
              return Invalid;
            case Some(a) =>
              translated, matched := translated[mapping[key] := a], matched + {key};
          }
        }
      }
      assert p[..|p|] == p;
      t := Translated(translated, matched);
      InvalidIffAnyFails(c, outstanding, mapping, p);
    }

    // The second half of `translate_responses`.
    method MatchResponses(h: HandlerId, p: Payload, leg: nat, outstanding: map<SurfacedKey, Request>)
      returns (t: Translation)
      requires Stands(h, p, Reading(leg, outstanding))
      modifies this
      ensures old(trace) <= trace
      ensures if t.Invalid? then Stands(h, p, Releasing) && RejectsAt(c, old(sys), h, p)
              else if t.answers == map[] then Stands(h, p, Releasing) && Settled(sys.w, KeysOf(p))
              else Stands(h, p, Matched(leg, t.answers, t.answered)) && AllProducible(wire, t.answers)
    {
      t := TranslateResponses(outstanding, OutstandingMap(leg), p);
      TranslateProducible(wire, c, outstanding, OutstandingMap(leg), p);
      InvalidIffAnyFails(c, outstanding, OutstandingMap(leg), p);
      if t.Translated? && t.answers == map[] { AcknowledgedIsSpent(c, sys, h, p, Reading(leg, outstanding), true); }
      Step(Move(h, true));
    }

    /** `store_input_responses`: read what is stored, merge, write it back. The others run between the read
        and the write; the lock is what makes the merge right. */
    method StoreInputResponses(h: HandlerId, p: Payload, leg: nat, answers: Answers, answered: set<SurfacedKey>)
      requires Stands(h, p, Matched(leg, answers, answered)) && AllProducible(wire, answers)
      modifies this
      ensures old(trace) <= trace && Stands(h, p, Stored(leg, answered))
    {
      var existing := responses.GetOr(map[]);
      Pause(h);
      AnswersStandStill(c, old(sys), sys, h);
      EmptyDecodes();
      WriteMerged(h, p, leg, answers, answered, existing);
    }

    // What was read still decodes to the answers stored.
    method WriteMerged(h: HandlerId, p: Payload, leg: nat, answers: Answers, answered: set<SurfacedKey>, existing: Stored)
      requires Stands(h, p, Matched(leg, answers, answered)) && AllProducible(wire, answers)
      requires Decode(wire, existing) == Responses(sys.w)
      modifies this
      ensures old(trace) <= trace && Stands(h, p, Stored(leg, answered))
    {
      MergeRoundTrip(wire, existing, answers);
      responses := Some(existing + Encode(wire, answers));
      Step(Move(h, true));
    }

    lemma EmptyDecodes()
      ensures Decode(wire, map[]) == map[]
    {}

    // The second look at the outstanding requests: is every one of them answered?
    method AllAnsweredNow(h: HandlerId, p: Payload, leg: nat, answered: set<SurfacedKey>) returns (all: bool)
      requires Stands(h, p, Stored(leg, answered))
      modifies this
      ensures old(trace) <= trace
      ensures Stands(h, p, if all then Enqueuing(leg) else Discarding(leg, answered))
    {
      all := Outstanding(leg).Keys - answered == {};
      Step(Move(h, true));
    }

    // The two deletions of `discard_outstanding`.
    method DiscardRequests(h: HandlerId, p: Payload, leg: nat, answered: set<SurfacedKey>)
      requires Stands(h, p, Discarding(leg, answered))
      modifies this
      ensures old(trace) <= trace && Stands(h, p, DiscardingMap(leg, answered))
    {
      requests := requests[leg := Outstanding(leg) - answered];
      Step(Move(h, true));
    }

    method DiscardMap(h: HandlerId, p: Payload, leg: nat, answered: set<SurfacedKey>)
      requires Stands(h, p, DiscardingMap(leg, answered))
      modifies this
      ensures old(trace) <= trace && Stands(h, p, Releasing) && Settled(sys.w, KeysOf(p))
    {
      AcknowledgedIsSpent(c, sys, h, p, DiscardingMap(leg, answered), true);
      surfaced := surfaced[leg := OutstandingMap(leg) - answered];
      Step(Move(h, true));
    }

    /** `enqueue_task_leg` up to the durable wait. `queued` is false when Docket or the coercion of the
        arguments raises: nothing is queued then. The next leg's key is always new to Docket. */
    method EnqueueNextLeg(h: HandlerId, p: Payload, leg: nat) returns (queued: bool)
      requires Stands(h, p, Enqueuing(leg))
      modifies this
      ensures old(trace) <= trace && Stands(h, p, if queued then Awaiting(leg) else Releasing)
      ensures if queued then leg + 1 !in old(execs) && leg + 1 in execs else leg in sys.w.failed
    {
      queued := *;
      if queued { AddLeg(h, p, leg); } else { FailToAdd(h, p, leg); }
    }

    // `docket.add`
    method AddLeg(h: HandlerId, p: Payload, leg: nat)
      requires Stands(h, p, Enqueuing(leg))
      modifies this
      ensures old(trace) <= trace && Stands(h, p, Awaiting(leg)) && leg + 1 !in old(execs) && leg + 1 in execs
    {
      StepEnqueue(h, p, leg);
      execs := execs[leg + 1 := Queued(args)];
    }

    ghost method StepEnqueue(h: HandlerId, p: Payload, leg: nat)
      requires Runs(c, Init(c), trace, sys) && PcOf(sys, h) == Update(p, Enqueuing(leg))
      modifies `sys, `trace
      ensures Runs(c, Init(c), trace, sys) && old(trace) <= trace && PcOf(sys, h) == Update(p, Awaiting(leg))
      ensures leg + 1 !in old(sys.w.execs)
      ensures sys.w == old(sys.w).(execs := old(sys.w.execs)[leg + 1 := Queued(old(sys.w.args))],
                                   enqueues := old(sys.w.enqueues) + [leg + 1],
                                   late := old(sys.w.late) || old(sys.w.cancelled))
    {
      AddedWorld(c, sys, h, p, leg);
      Step(Move(h, true));
    }

    ghost method FailToAdd(h: HandlerId, p: Payload, leg: nat)
      requires Stands(h, p, Enqueuing(leg))
      modifies `sys, `trace
      ensures old(trace) <= trace && Stands(h, p, Releasing) && leg in sys.w.failed
    {
      Step(Move(h, false));
    }

    /** `_await_durable_creation`: poll until Docket shows the execution, or raise if it does not by the deadline. */
    method AwaitDurable(h: HandlerId, p: Payload, leg: nat) returns (durable: bool)
      requires Stands(h, p, Awaiting(leg))
      modifies this
      ensures old(trace) <= trace
      ensures if durable then Stands(h, p, Swapping(leg)) else Stands(h, p, Awaiting(leg)) && leg + 1 !in visible
      ensures !durable ==> clock >= old(clock) + DURABLE_TIMEOUT
    {
      var deadline := clock + DURABLE_TIMEOUT;
      while leg + 1 !in visible
        invariant Stands(h, p, Awaiting(leg)) && old(trace) <= trace
        decreases ((deadline - clock) / DURABLE_POLL).Floor
      {
        if clock >= deadline { return false; }
        Sleep(h, DURABLE_POLL);
      }
      Step(Move(h, true));
      durable := true;
    }

    // The two writes of `save_current_leg`.
    method SavePointer(h: HandlerId, p: Payload, leg: nat)
      requires Stands(h, p, Swapping(leg))
      modifies this
      ensures old(trace) <= trace && Stands(h, p, SwappingNumber(leg))
    {
      pointer := leg + 1;
      Step(Move(h, true));
    }

    method SaveNumber(h: HandlerId, p: Payload, leg: nat)
      requires Stands(h, p, SwappingNumber(leg))
      modifies this
      ensures old(trace) <= trace && Stands(h, p, Clearing(leg))
    {
      number := leg + 1;
      Step(Move(h, true));
    }

    // The two deletions of `clear_outstanding`.
    method ClearLegRequests(h: HandlerId, p: Payload, leg: nat)
      requires Stands(h, p, Clearing(leg))
      modifies this
      ensures old(trace) <= trace && Stands(h, p, ClearingMap(leg))
    {
      requests := requests - {leg};
      Step(Move(h, true));
    }

    method ClearLegMap(h: HandlerId, p: Payload, leg: nat)
      requires Stands(h, p, ClearingMap(leg))
      modifies this
      ensures old(trace) <= trace && Stands(h, p, Releasing) && Settled(sys.w, KeysOf(p))
    {
      AcknowledgedIsSpent(c, sys, h, p, ClearingMap(leg), true);
      surfaced := surfaced - {leg};
      Step(Move(h, true));
    }

    // What an update has settled by the time it goes to release the lock stays settled.
    method PauseSettled(h: HandlerId, ghost keys: set<SurfacedKey>)
      requires Valid()
      modifies this
      ensures Valid() && old(trace) <= trace && PcOf(sys, h) == old(PcOf(sys, h))
      ensures old(Settled(sys.w, keys)) ==> Settled(sys.w, keys)
      ensures old(sys.w.failed) <= sys.w.failed
    {
      Pause(h);
      if old(Settled(sys.w, keys)) { SettledKept(c, old(sys), sys, Handler(h), keys); }
      ghost var ls :| Runs(c, old(sys), ls, sys) && Spares(ls, Handler(h));
      FailedRun(c, old(sys), ls, sys);
    }

    // `release_update_lock`
    method ReleaseUpdateLock(h: HandlerId, p: Payload)
      requires Stands(h, p, Releasing)
      modifies this
      ensures old(trace) <= trace && Valid() && PcOf(sys, h) == Idle
      ensures sys.w == Release(old(sys.w))
    {
      locked := false;
      Step(Move(h, true));
    }

    method FinishUpdate(h: HandlerId, p: Payload)
      requires Stands(h, p, Releasing)
      modifies this
      ensures old(trace) <= trace && Valid() && PcOf(sys, h) == Idle
      ensures old(Settled(sys.w, KeysOf(p))) ==> Settled(sys.w, KeysOf(p))
      ensures old(sys.w.failed) <= sys.w.failed
    {
      PauseSettled(h, KeysOf(p));
      ReleaseKeepsSettled(sys.w, KeysOf(p));
      ReleaseUpdateLock(h, p);
    }

    // The request arrives and the task is looked up.
    method ArriveUpdate(h: HandlerId, p: Payload) returns (leg: nat)
      requires Valid() && Enabled(sys, StartUpdate(h, p))
      modifies this
      ensures Stands(h, p, Looked(leg)) && old(trace) + [StartUpdate(h, p)] <= trace && old(clock) <= clock
    {
      Step(StartUpdate(h, p));
      Pause(h);
      leg := LookupLeg(h, p);
    }

    /** How an update stands after `r`: on its way out, or still where it waited for the leg after `leg`. */
    ghost predicate Leaves(h: HandlerId, p: Payload, leg: nat, r: UpdateReply)
      reads this
    {
      Stands(h, p, if r.NotDurable? then Awaiting(leg) else Releasing)
    }

    // What a reply to an update says of state `at`, where it was decided, and of now.
    ghost predicate Explained(h: HandlerId, p: Payload, leg: nat, r: UpdateReply, at: Sys)
      reads this
    {
      && (r.Acked? ==> Settled(sys.w, KeysOf(p)))
      && (r.Rejected? ==> RejectsAt(c, at, h, p))
      && (r.NotEnqueued? ==> EnqueuesAt(c, at, h, p, leg) && leg in sys.w.failed)
    }

    /** The re-entry of a fully answered leg: enqueue, wait, swap both halves of the pointer, and only then
        drop the answered keys. If the wait runs out everything is left as it is then. */
    method Reenter(h: HandlerId, p: Payload, leg: nat) returns (r: UpdateReply)
      requires Stands(h, p, Enqueuing(leg))
      modifies this
      ensures old(trace) <= trace && Leaves(h, p, leg, r)
      ensures r.Acked? ==> Settled(sys.w, KeysOf(p))
      ensures r.Acked? || (r.NotEnqueued? && leg in sys.w.failed) || (r.NotDurable? && leg + 1 !in visible)
    {
      var queued := EnqueueNextLeg(h, p, leg);
      if !queued { return NotEnqueued; }
      var durable := AwaitDurable(h, p, leg);
      if !durable { return NotDurable; }
      Pause(h);
      SwapAndClear(h, p, leg);
      return Acked;
    }

    // `save_current_leg` and `clear_outstanding`
    method SwapAndClear(h: HandlerId, p: Payload, leg: nat)
      requires Stands(h, p, Swapping(leg))
      modifies this
      ensures old(trace) <= trace && Stands(h, p, Releasing) && Settled(sys.w, KeysOf(p))
    {
      SavePointer(h, p, leg);
      Pause(h);
      SaveNumber(h, p, leg);
      Pause(h);
      ClearLegRequests(h, p, leg);
      Pause(h);
      ClearLegMap(h, p, leg);
    }

    // The body of the `try` of `tasks_update`, once the answers are matched.
    method Answer(h: HandlerId, p: Payload, leg: nat, answers: Answers, answered: set<SurfacedKey>)
      returns (r: UpdateReply, ghost at: Sys)
      requires Stands(h, p, Matched(leg, answers, answered)) && AllProducible(wire, answers)
      modifies this
      ensures old(trace) <= trace && Leaves(h, p, leg, r) && Explained(h, p, leg, r, at) && !r.Busy?
    {
      StoreInputResponses(h, p, leg, answers, answered);
      Pause(h);
      var all := AllAnsweredNow(h, p, leg, answered);
      Pause(h);
      at := sys;
      if all {
        r := Reenter(h, p, leg);
      } else {
        DiscardAnswered(h, p, leg, answered);
        r := Acked;
      }
    }

    // `discard_outstanding`
    method DiscardAnswered(h: HandlerId, p: Payload, leg: nat, answered: set<SurfacedKey>)
      requires Stands(h, p, Discarding(leg, answered))
      modifies this
      ensures old(trace) <= trace && Stands(h, p, Releasing) && Settled(sys.w, KeysOf(p))
    {
      DiscardRequests(h, p, leg, answered);
      Pause(h);
      DiscardMap(h, p, leg, answered);
    }

    // The body of the `try` of `tasks_update`.
    method UpdateLocked(h: HandlerId, p: Payload, leg: nat) returns (r: UpdateReply, ghost at: Sys)
      requires Stands(h, p, Locked(leg))
      modifies this
      ensures old(trace) <= trace && Leaves(h, p, leg, r) && Explained(h, p, leg, r, at) && !r.Busy?
    {
      var outstanding := ReadUncancelled(h, p, leg);
      at := sys;
      if outstanding == map[] { return Acked, at; }
      Pause(h);
      r, at := MatchAndAnswer(h, p, leg, outstanding);
    }

    method MatchAndAnswer(h: HandlerId, p: Payload, leg: nat, outstanding: map<SurfacedKey, Request>)
      returns (r: UpdateReply, ghost at: Sys)
      requires Stands(h, p, Reading(leg, outstanding))
      modifies this
      ensures old(trace) <= trace && Leaves(h, p, leg, r) && Explained(h, p, leg, r, at) && !r.Busy?
    {
      at := sys;
      var t := MatchResponses(h, p, leg, outstanding);
      if t.Invalid? { return Rejected, at; }
      if t.answers == map[] { return Acked, at; }
      r, at := Answer(h, p, leg, t.answers, t.answered);
    }

    /** The next leg is enqueued, the lock given back, and the pointer still on `leg`: the fields are no state of the
        protocol, but what its state `sys`, in which the update waits, becomes by the raise. */
    ghost predicate Stalled(h: HandlerId, p: Payload, leg: nat)
      reads this
    {
      Runs(c, Init(c), trace, sys) && PcOf(sys, h) == Update(p, Awaiting(leg)) && Mirrors(WaitRanOut(sys, h).w)
    }

    // The `finally`, after the durable wait has raised.
    method ReleaseStalled(h: HandlerId, p: Payload, leg: nat)
      requires Stands(h, p, Awaiting(leg))
      modifies this
      ensures old(trace) <= trace && Stalled(h, p, leg)
    {
      Pause(h);
      locked := false;
    }

    // The `try` and the `finally`.
    method UpdateAndRelease(h: HandlerId, p: Payload, leg: nat) returns (r: UpdateReply, ghost at: Sys)
      requires Stands(h, p, Locked(leg))
      modifies this
      ensures old(trace) <= trace && Explained(h, p, leg, r, at) && !r.Busy?
      ensures if r.NotDurable? then Stalled(h, p, leg) else Valid() && PcOf(sys, h) == Idle
    {
      r, at := UpdateLocked(h, p, leg);
      if r.NotDurable? { ReleaseStalled(h, p, leg); } else { FinishUpdate(h, p); }
    }

    /** `tasks_update`, with everyone else at work at each await. The lock is always given back. An
        acknowledgement means that the task is cancelled or that every key the payload named is retired for
        good, so no acknowledged answer is waiting to be sent again. A rejection means that, in the state `at` in
        which the update read its answers, one to an outstanding key did not validate; a failure to enqueue, that
        the leg is on record as one whose re-entry failed; busy, that the lock was still held at the deadline; and
        a wait that ran out, that the next leg is enqueued with the pointer still on this one. */
    method TasksUpdate(h: HandlerId, p: Payload) returns (r: UpdateReply, ghost leg: nat, ghost at: Sys)
      requires Valid() && Enabled(sys, StartUpdate(h, p))
      modifies this
      ensures old(trace) + [StartUpdate(h, p)] <= trace && Explained(h, p, leg, r, at)
      ensures if r.NotDurable? then Stalled(h, p, leg) else Valid() && PcOf(sys, h) == Idle
      ensures r.Busy? ==> trace[|trace| - 1] == Move(h, false) && clock >= old(clock) + LOCK_TIMEOUT
      ensures VerdictsElicit(c) && (forall i :: 0 <= i < |p| ==> c.validate(Elicit, p[i].1).Some?) ==> !r.Rejected?
    {
      if VerdictsElicit(c) && (forall i :: 0 <= i < |p| ==> c.validate(Elicit, p[i].1).Some?) {
        forall s: Sys ensures !RejectsAt(c, s, h, p) { GoodIsNotRejected(c, s, h, p); }
      }
      var looked, got := OpenUpdate(h, p);
      leg, at := looked, sys;
      if !got { return Busy, leg, at; }
      Pause(h);
      r, at := UpdateAndRelease(h, p, looked);
    }

    // Up to the lock.
    method OpenUpdate(h: HandlerId, p: Payload) returns (leg: nat, got: bool)
      requires Valid() && Enabled(sys, StartUpdate(h, p))
      modifies this
      ensures old(trace) + [StartUpdate(h, p)] <= trace
      ensures if got then Stands(h, p, Locked(leg))
              else Valid() && PcOf(sys, h) == Idle && trace[|trace| - 1] == Move(h, false)
      ensures !got ==> clock >= old(clock) + LOCK_TIMEOUT
    {
      leg := ArriveUpdate(h, p);
      Pause(h);
      got := AcquireUpdateLock(h, p, leg);
    }

    /* -------------------------------------------------------- tasks/cancel */

    // The request arrives and the task is looked up.
    method ArriveCancel(h: HandlerId)
      requires Valid() && Enabled(sys, StartCancel(h))
      modifies this
      ensures old(trace) + [StartCancel(h)] <= trace && CancelStands(h, CLooked)
    {
      Step(StartCancel(h));
      Pause(h);
      PointerSafe(c, sys);
      Step(Move(h, true));
    }

    method TryCancelLock(h: HandlerId, last: bool) returns (got: bool)
      requires CancelStands(h, CLooked)
      modifies this
      ensures old(trace) <= trace && CancelStands(h, if got || last then CResolving(got) else CLooked) && clock == old(clock)
    {
      got := TryLock();
      if got || last { Step(Move(h, got)); }
    }

    /** The same lock, but a cancel that does not get it goes on without. */
    method AcquireCancelLock(h: HandlerId) returns (got: bool)
      requires CancelStands(h, CLooked)
      modifies this
      ensures old(trace) <= trace && CancelStands(h, CResolving(got))
      ensures !got ==> clock >= old(clock) + LOCK_TIMEOUT
    {
      var deadline := clock + LOCK_TIMEOUT;
      while true
        invariant CancelStands(h, CLooked) && old(trace) <= trace && old(clock) <= clock
        decreases ((deadline - clock) / LOCK_POLL).Floor
      {
        var last := clock >= deadline;
        got := TryCancelLock(h, last);
        if got || last { return; }
        Sleep(h, LOCK_POLL);
      }
    }

    // `_lookup_task` again, under the lock if we have it
    method ResolveLeg(h: HandlerId, got: bool) returns (key: nat, leg: nat)
      requires CancelStands(h, CResolving(got))
      modifies this
      ensures old(trace) <= trace && CancelStands(h, CDeciding(got, key, leg)) && key == old(pointer) && leg == old(number)
    {
      PointerSafe(c, sys);
      key, leg := pointer, number;
      Step(Move(h, true));
    }

    function Ended(key: nat, leg: nat): bool
      reads this
    {
      key in execs &&
      (execs[key].Failed? || execs[key].Stopped? || (execs[key].Completed? && Outstanding(leg) == map[]))
    }

    lemma EndedIsTerminal(key: nat, leg: nat)
      requires Valid()
      ensures Ended(key, leg) == AlreadyTerminal(sys.w, key, leg)
    {}

    /** A task that has reached its end is left as it is; any other is marked. The check and the marker are one
        step with respect to everybody. Decided under the lock, the task is over either way. */
    method Decide(h: HandlerId, got: bool, key: nat, leg: nat) returns (ended: bool)
      requires CancelStands(h, CDeciding(got, key, leg))
      modifies this
      ensures old(trace) <= trace
      ensures CancelStands(h, if ended then CReleasing(got) else CClearing(got, key, leg))
      ensures got || !ended ==> Over(sys.w)
      ensures got && ended ==> Quiet(sys)
    {
      DecidedIsOver(c, sys, h, got, key, leg);
      DecidedIsQuiet(c, sys, h, got, key, leg);
      ended := Ended(key, leg);
      EndedIsTerminal(key, leg);
      if !ended { cancelled := true; }
      Step(Move(h, true));
    }

    // The two deletions of `clear_outstanding`.
    method ClearCancelled(h: HandlerId, got: bool, key: nat, leg: nat)
      requires CancelStands(h, CClearing(got, key, leg))
      modifies this
      ensures old(trace) <= trace && CancelStands(h, CClearingMap(got, key, leg)) && sys.w.cancelled == old(sys.w.cancelled)
      ensures Outstanding(leg) == map[]
    {
      requests := requests - {leg};
      Step(Move(h, true));
    }

    method ClearCancelledMap(h: HandlerId, got: bool, key: nat, leg: nat)
      requires CancelStands(h, CClearingMap(got, key, leg))
      modifies this
      ensures old(trace) <= trace && CancelStands(h, CStopping(got, key)) && sys.w.cancelled == old(sys.w.cancelled)
      ensures OutstandingMap(leg) == map[]
    {
      surfaced := surfaced - {leg};
      Step(Move(h, true));
    }

    // `docket.cancel`: cooperative, it only asks.
    method StopExecution(h: HandlerId, got: bool, key: nat)
      requires CancelStands(h, CStopping(got, key))
      modifies this
      ensures old(trace) <= trace && CancelStands(h, CReleasing(got)) && sys.w.cancelled == old(sys.w.cancelled)
      ensures key in stops && (got ==> Quiet(sys))
    {
      if got { StopIsQuiet(c, sys, h, key, true); }
      stops := stops + {key};
      Step(Move(h, true));
    }

    // The `finally` of `tasks_cancel`.
    method FinishCancel(h: HandlerId, got: bool)
      requires CancelStands(h, CReleasing(got))
      modifies this
      ensures old(trace) <= trace && Valid() && PcOf(sys, h) == Idle
      ensures sys.w == if got then Release(old(sys.w)) else old(sys.w)
      ensures old(Quiet(sys)) ==> Quiet(sys)
    {
      if Quiet(sys) { QuietStep(c, sys, Move(h, true)); }
      if got { locked := false; }
      Step(Move(h, true));
    }

    // A task that is over stays so across an await.
    method PauseOver(h: HandlerId)
      requires Valid()
      modifies this
      ensures Valid() && old(trace) <= trace && PcOf(sys, h) == old(PcOf(sys, h))
      ensures old(Over(sys.w)) ==> Over(sys.w)
      ensures old(Quiet(sys)) ==> Quiet(sys)
      ensures old(sys.w.cancelled) ==> sys.w.cancelled
    {
      Pause(h);
      CancelledKept(c, old(sys), sys, Handler(h));
      if old(Quiet(sys)) { QuietKept(c, old(sys), sys, Handler(h)); }
      if old(Over(sys.w)) { OverKept(c, old(sys), sys, Handler(h)); }
    }

    // Everything after the marker is written.
    method CancelMarked(h: HandlerId, got: bool, key: nat, leg: nat)
      requires CancelStands(h, CClearing(got, key, leg)) && sys.w.cancelled
      modifies this
      ensures old(trace) <= trace && CancelStands(h, CReleasing(got)) && sys.w.cancelled
      ensures key in stops && (got ==> Quiet(sys))
    {
      ClearCancelled(h, got, key, leg);
      PauseOver(h);
      ClearCancelledMap(h, got, key, leg);
      PauseOver(h);
      StopExecution(h, got, key);
    }

    // The body of the `try` of `tasks_cancel`.
    method CancelLocked(h: HandlerId, got: bool)
      requires CancelStands(h, CResolving(got))
      modifies this
      ensures old(trace) <= trace && CancelStands(h, CReleasing(got)) && (got ==> Over(sys.w) && Quiet(sys))
    {
      var key, leg := ResolveLeg(h, got);
      Pause(h);
      var ended := Decide(h, got, key, leg);
      PauseOver(h);
      if !ended {
        Marked(h, got, key, leg);
        CancelMarked(h, got, key, leg);
      }
    }

    lemma Marked(h: HandlerId, got: bool, key: nat, leg: nat)
      requires CancelStands(h, CClearing(got, key, leg))
      ensures sys.w.cancelled
    {
      ReachableInv(c, sys);
      assert HandlerInv(sys.w, h, PcOf(sys, h));
    }

    // The `try` and the `finally`.
    method CancelAndRelease(h: HandlerId, got: bool)
      requires CancelStands(h, CResolving(got))
      modifies this
      ensures old(trace) <= trace && Valid() && PcOf(sys, h) == Idle && (got ==> Over(sys.w) && Quiet(sys))
    {
      CancelLocked(h, got);
      PauseOver(h);
      ReleaseKeepsOver(sys.w);
      FinishCancel(h, got);
    }

    /** `tasks_cancel`, with everyone else at work at each await. The lock is given back if it was taken, and
        then the task is over when the request returns: cancelled, or at the end it had already reached; and Docket has
        been asked to stop every execution that is not finished. */
    method TasksCancel(h: HandlerId) returns (got: bool)
      requires Valid() && Enabled(sys, StartCancel(h))
      modifies this
      ensures old(trace) + [StartCancel(h)] <= trace && Valid() && PcOf(sys, h) == Idle
      ensures got ==> Over(sys.w)
      ensures got ==> forall n :: n in execs && (execs[n].Queued? || execs[n].Running?) ==> n in stops
    {
      ArriveCancel(h);
      Pause(h);
      got := AcquireCancelLock(h);
      Pause(h);
      CancelAndRelease(h, got);
    }

    /* ------------------------------------------------------------ a worker */

    // No key a generator has still to draw is known to anyone.
    ghost predicate Unguessed(draws: nat -> SurfacedKey, used: nat)
      reads this
    {
      forall i: nat :: used <= i ==> draws(i) !in sys.w.minted && draws(i) !in sys.w.named
    }

    ghost predicate Distinct(draws: nat -> SurfacedKey) {
      forall i: nat, j: nat :: i < j ==> draws(i) != draws(j)
    }

    /** An `await` in the worker of `leg`: the leg is where it was, unless Docket has stopped it. */
    method PauseLeg(leg: nat, draws: nat -> SurfacedKey, ghost used: nat) returns (alive: bool)
      requires Valid() && leg in execs && !execs[leg].Stopped? && Unguessed(draws, used)
      modifies this
      ensures Valid() && old(trace) <= trace && leg in execs && Unguessed(draws, used)
      ensures execs[leg] == if alive then old(execs[leg]) else Stopped
    {
      Interfere(LegWorker(leg), iset i: nat | used <= i :: draws(i));
      LegKept(c, old(sys), sys, leg);
      alive := !execs[leg].Stopped?;
    }

    // The same, with no key left to draw.
    method PauseDrawn(leg: nat) returns (alive: bool)
      requires Valid() && leg in execs && !execs[leg].Stopped?
      modifies this
      ensures Valid() && old(trace) <= trace && leg in execs
      ensures execs[leg] == if alive then old(execs[leg]) else Stopped
    {
      Interfere(LegWorker(leg), iset{});
      LegKept(c, old(sys), sys, leg);
      alive := !execs[leg].Stopped?;
    }

    method BeginLeg(leg: nat) returns (legArgs: Json)
      requires Valid() && leg in execs && execs[leg].Queued?
      modifies this
      ensures old(trace) + [Work(leg, Begin)] <= trace && Works(leg, legArgs, Begun) && legArgs == old(execs[leg].args)
      ensures sys.w.minted == old(sys.w.minted) && sys.w.named == old(sys.w.named)
    {
      legArgs := execs[leg].args;
      execs := execs[leg := Running(legArgs, Begun)];
      StepWork(leg, Begin);
    }

    // `load_pending_input`, the first read
    method LoadState(leg: nat, legArgs: Json) returns (state: Option<string>)
      requires Works(leg, legArgs, Begun)
      modifies this
      ensures old(trace) <= trace && Works(leg, legArgs, GotState(state))
      ensures sys.w.minted == old(sys.w.minted) && sys.w.named == old(sys.w.named)
    {
      state := carried;
      execs := execs[leg := Running(legArgs, GotState(state))];
      StepWork(leg, Act.LoadState);
    }

    /** The second read of `load_pending_input`, rebuilding the answers, and the tool body on what was read. */
    method RunBody(leg: nat, legArgs: Json, state: Option<string>) returns (v: Verdict)
      requires Works(leg, legArgs, GotState(state))
      modifies this
      ensures old(trace) <= trace && Works(leg, legArgs, AfterBody(v))
      ensures sys.w.minted == old(sys.w.minted) && sys.w.named == old(sys.w.named)
      ensures sys.w.log != [] && LastCall(sys.w) == Call(leg, legArgs, state, old(sys.w.responses))
      ensures v == VerdictOf(c, LastCall(sys.w))
    {
      var answers := None;
      if responses.Some? {
        var loaded := LoadResponses(wire, responses.value);
        answers := Some(loaded);
      }
      v := VerdictOf(c, Call(leg, legArgs, state, answers));
      execs := execs[leg := Running(legArgs, AfterBody(v))];
      StepWork(leg, Act.RunBody);
    }

    // The two writes of one round of the loop of `store_outstanding`: the request under a fresh key, the mapping.
    method StoreRequest(leg: nat, legArgs: Json, todo: Requests, state: Option<string>, tool: ToolKey, key: SurfacedKey)
      requires Works(leg, legArgs, Parking(todo, state)) && tool in todo
      requires key !in sys.w.minted && key !in sys.w.named
      modifies this
      ensures old(trace) <= trace && Works(leg, legArgs, ParkingMap(key, tool, todo - {tool}, state))
      ensures sys.w.minted == old(sys.w.minted) + {key} && sys.w.named == old(sys.w.named)
    {
      MintedWorld(c, sys.w, leg, legArgs, todo, state, tool, key);
      requests := requests[leg := Outstanding(leg)[key := todo[tool]]];
      execs := execs[leg := Running(legArgs, ParkingMap(key, tool, todo - {tool}, state))];
      StepWork(leg, MintRequest(tool, key));
    }

    method StoreMapping(leg: nat, legArgs: Json, key: SurfacedKey, tool: ToolKey, todo: Requests, state: Option<string>)
      requires Works(leg, legArgs, ParkingMap(key, tool, todo, state))
      modifies this
      ensures old(trace) <= trace && Works(leg, legArgs, Parking(todo, state))
      ensures sys.w.minted == old(sys.w.minted) && sys.w.named == old(sys.w.named)
    {
      MappedWorld(c, sys.w, leg, legArgs, key, tool, todo, state);
      surfaced := surfaced[leg := OutstandingMap(leg)[key := tool]];
      execs := execs[leg := Running(legArgs, Parking(todo, state))];
      StepWork(leg, RecordMap);
    }

    method StoreOne(leg: nat, legArgs: Json, todo: Requests, state: Option<string>, tool: ToolKey,
                    draws: nat -> SurfacedKey, used: nat) returns (alive: bool)
      requires Works(leg, legArgs, Parking(todo, state)) && tool in todo && Unguessed(draws, used) && Distinct(draws)
      modifies this
      ensures Valid() && old(trace) <= trace && leg in execs && Unguessed(draws, used + 1)
      ensures execs[leg] == if alive then Running(legArgs, Parking(todo - {tool}, state)) else Stopped
    {
      StoreRequest(leg, legArgs, todo, state, tool, draws(used));
      assert Unguessed(draws, used + 1);
      alive := PauseLeg(leg, draws, used + 1);
      if !alive { return; }
      StoreMapping(leg, legArgs, draws(used), tool, todo - {tool}, state);
      alive := PauseLeg(leg, draws, used + 1);
    }

    /** `store_outstanding`, up to its expiry calls: every request under a fresh key. */
    method StoreOutstanding(leg: nat, legArgs: Json, reqs: Requests, state: Option<string>, draws: nat -> SurfacedKey)
      returns (alive: bool)
      requires Works(leg, legArgs, Parking(reqs, state)) && Unguessed(draws, 0) && Distinct(draws)
      modifies this
      ensures Valid() && old(trace) <= trace && leg in execs
      ensures execs[leg] == if alive then Running(legArgs, Parking(map[], state)) else Stopped
    {
      var todo, drawn := reqs, 0;
      while todo != map[]
        invariant Works(leg, legArgs, Parking(todo, state)) && Unguessed(draws, drawn) && old(trace) <= trace
        decreases todo.Keys
      {
        var tool :| tool in todo;
        alive := StoreOne(leg, legArgs, todo, state, tool, draws, drawn);
        if !alive { return; }
        todo, drawn := todo - {tool}, drawn + 1;
      }
      alive := true;
    }

    // The answers this leg consumed are dropped, so that they do not look like answers to its own ask.
    method DropConsumed(leg: nat, legArgs: Json, state: Option<string>)
      requires Works(leg, legArgs, Parking(map[], state))
      modifies this
      ensures old(trace) <= trace && Works(leg, legArgs, Consumed(state))
    {
      responses := None;
      execs := execs[leg := Running(legArgs, Consumed(state))];
      StepWork(leg, DropAnswers);
    }

    method CarryOn(leg: nat, legArgs: Json, state: Option<string>)
      requires Works(leg, legArgs, Consumed(state))
      modifies this
      ensures old(trace) <= trace && Works(leg, legArgs, Parked)
    {
      carried := state;
      execs := execs[leg := Running(legArgs, Parked)];
      StepWork(leg, CarryState);
    }

    /** The leg's execution ends: with a result, with a protocol error, or parked. */
    method FinishLeg(leg: nat, legArgs: Json, worker: Worker)
      requires Works(leg, legArgs, worker) && (worker.Parked? || worker.Finishing? || worker.Failing?)
      modifies this
      ensures Valid() && old(trace) <= trace && leg in execs && EndedAsDecided(c, sys.w, leg)
    {
      RunningIsTop(c, sys, leg);
      execs := execs[leg := match worker
                            case Finishing(e) => Completed(e)
                            case Failing(e) => Exec.Failed(e)
                            case _ => Completed(ParkedAsk)];
      StepWork(leg, Finish);
      EndIsDecided(c, sys);
    }

    // A leg that asked parks: requests, consumed answers, carried state, and only then the end of the execution.
    method ParkLeg(leg: nat, legArgs: Json, reqs: Requests, state: Option<string>, draws: nat -> SurfacedKey)
      requires Works(leg, legArgs, Parking(reqs, state)) && Unguessed(draws, 0) && Distinct(draws)
      modifies this
      ensures Valid() && old(trace) <= trace && leg in execs
      ensures execs[leg] == Stopped || EndedAsDecided(c, sys.w, leg)
    {
      var alive := StoreOutstanding(leg, legArgs, reqs, state, draws);
      if alive { EndParked(leg, legArgs, state); }
    }

    method EndParked(leg: nat, legArgs: Json, state: Option<string>)
      requires Works(leg, legArgs, Parking(map[], state))
      modifies this
      ensures Valid() && old(trace) <= trace && leg in execs
      ensures execs[leg] == Stopped || EndedAsDecided(c, sys.w, leg)
    {
      DropConsumed(leg, legArgs, state);
      var alive := PauseDrawn(leg);
      if !alive { return; }
      CarryOn(leg, legArgs, state);
      alive := PauseDrawn(leg);
      if !alive { return; }
      FinishLeg(leg, legArgs, Parked);
    }

    // From the loaded state to the verdict.
    method LoadAndRun(leg: nat, legArgs: Json, draws: nat -> SurfacedKey) returns (alive: bool, v: Verdict)
      requires Works(leg, legArgs, Begun) && Unguessed(draws, 0)
      modifies this
      ensures Valid() && old(trace) <= trace && leg in execs && Unguessed(draws, 0)
      ensures execs[leg] == if alive then Running(legArgs, AfterBody(v)) else Stopped
    {
      v := Fails("");
      var state := LoadState(leg, legArgs);
      alive := PauseLeg(leg, draws, 0);
      if !alive { return; }
      v := RunBody(leg, legArgs, state);
      alive := PauseLeg(leg, draws, 0);
    }

    // What the verdict calls for.
    method EndLeg(leg: nat, legArgs: Json, v: Verdict, draws: nat -> SurfacedKey)
      requires Works(leg, legArgs, AfterBody(v)) && Unguessed(draws, 0) && Distinct(draws)
      modifies this
      ensures Valid() && old(trace) <= trace && leg in execs
      ensures execs[leg] == Stopped || EndedAsDecided(c, sys.w, leg)
    {
      match v {
        case Ends(e) => FinishLeg(leg, legArgs, Finishing(e));
        case Fails(e) => FinishLeg(leg, legArgs, Failing(e));
        case Parks(reqs, state) => ParkLeg(leg, legArgs, reqs, state, draws);
      }
    }

    /** One leg, from the queue to its end, as `make_task_context` and `reentrant_task_fn` run it: unless Docket
        stops it, it ends as its one call of the body decided. */
    method RunLeg(leg: nat, draws: nat -> SurfacedKey)
      requires Valid() && leg in execs && execs[leg].Queued? && Unguessed(draws, 0) && Distinct(draws)
      modifies this
      ensures Valid() && old(trace) + [Work(leg, Begin)] <= trace && leg in execs
      ensures execs[leg] == Stopped || EndedAsDecided(c, sys.w, leg)
    {
      var legArgs := BeginLeg(leg);
      var alive := PauseLeg(leg, draws, 0);
      if !alive { return; }
      var v: Verdict;
      alive, v := LoadAndRun(leg, legArgs, draws);
      if alive { EndLeg(leg, legArgs, v, draws); }
    }
  }
}
