/** The background-task protocol as a labelled transition system.

    The state of one task is its Redis keys and Docket executions plus, for every request in flight,
    a program counter. Every Redis write and every read that can be separated from the next one is a
    step of its own, so a run is an arbitrary interleaving of workers, tasks/get, tasks/update and
    tasks/cancel. */
module TaskProtocol {
  import opened TaskTypes

  /* ---------------------------------------------------------------- state */

  // Where the worker of one leg stands (`reentrant_task_fn` and `make_task_context`).
  datatype Worker =
    | Begun
    | GotState(state: Option<string>)
    | Finishing(ending: Ending)
    | Failing(error: Json)
    | Parking(todo: Requests, state: Option<string>)
    | ParkingMap(key: SurfacedKey, tool: ToolKey, todo: Requests, state: Option<string>)
    | Consumed(state: Option<string>)
    | Parked

  // A Docket execution.
  datatype Exec =
    | Queued(args: Json)
    | Running(args: Json, worker: Worker)
    | Completed(ending: Ending)
    | Failed(error: Json)
    | Stopped

  // Answers one accepted update stored for a leg.
  datatype Ack = Ack(leg: nat, answers: Answers)

  datatype World = World(
    // Redis
    pointer: nat, number: nat, args: Json,
    requests: map<nat, map<SurfacedKey, Request>>,
    surfaced: map<nat, map<SurfacedKey, ToolKey>>,
    responses: Option<Answers>,
    carried: Option<string>,
    cancelled: bool,
    locked: bool,
    // Docket
    execs: map<nat, Exec>, visible: set<nat>, stops: set<nat>,
    // history, read by no step of the program: who holds the lock, keys minted, shown to clients and
    // named by clients, body invocations, stored answers, enqueued legs, legs whose re-entry failed,
    // and whether a leg was enqueued after the cancellation marker was written
    owner: Option<HandlerId>,
    minted: set<SurfacedKey>, shown: set<SurfacedKey>, named: set<SurfacedKey>,
    log: seq<Call>, acks: seq<Ack>, enqueues: seq<nat>, failed: set<nat>, late: bool)

  // The program counter of a tasks/update, named after what it has done last.
  datatype UpdateAt =
    | Arrived
    | Looked(leg: nat)
    | Locked(leg: nat)
    | Checked(leg: nat)
    | Reading(leg: nat, outstanding: map<SurfacedKey, Request>)
    | Matched(leg: nat, translated: Answers, answered: set<SurfacedKey>)
    | Stored(leg: nat, answered: set<SurfacedKey>)
    | Discarding(leg: nat, answered: set<SurfacedKey>)
    | DiscardingMap(leg: nat, answered: set<SurfacedKey>)
    | Enqueuing(leg: nat)
    | Awaiting(leg: nat)
    | Swapping(leg: nat)
    | SwappingNumber(leg: nat)
    | Clearing(leg: nat)
    | ClearingMap(leg: nat)
    | Releasing

  // The program counter of a tasks/cancel; `got` says whether it holds the lock.
  datatype CancelAt =
    | CArrived
    | CLooked
    | CResolving(got: bool)
    | CDeciding(got: bool, pointer: nat, leg: nat)
    | CClearing(got: bool, pointer: nat, leg: nat)
    | CClearingMap(got: bool, pointer: nat, leg: nat)
    | CStopping(got: bool, pointer: nat)
    | CReleasing(got: bool)

  datatype Pc = Idle | Update(payload: Payload, at: UpdateAt) | Cancel(cat: CancelAt)

  datatype Sys = Sys(w: World, pcs: map<HandlerId, Pc>)

  function PcOf(s: Sys, h: HandlerId): Pc {
    if h in s.pcs then s.pcs[h] else Idle
  }

  function SetPc(s: Sys, h: HandlerId, pc: Pc): map<HandlerId, Pc> {
    if pc == Idle then s.pcs - {h} else s.pcs[h := pc]
  }

  function Req(w: World, leg: nat): map<SurfacedKey, Request> {
    if leg in w.requests then w.requests[leg] else map[]
  }

  function Smap(w: World, leg: nat): map<SurfacedKey, ToolKey> {
    if leg in w.surfaced then w.surfaced[leg] else map[]
  }

  function Top(w: World): nat { |w.enqueues| }

  /** After `create_task` has returned: leg 1 is queued and visible, nothing has been asked. */
  function Init(c: Config): Sys {
    Sys(World(1, 1, c.args, map[], map[], None, None, false, false,
              map[1 := Queued(c.args)], {1}, {},
              None, {}, {}, {}, [], [], [1], {}, false),
        map[])
  }

  /* ------------------------------------------------- single store commands */

  function PutRequest(w: World, leg: nat, key: SurfacedKey, r: Request): World {
    w.(requests := w.requests[leg := Req(w, leg)[key := r]])
  }

  function PutSurfaced(w: World, leg: nat, key: SurfacedKey, t: ToolKey): World {
    w.(surfaced := w.surfaced[leg := Smap(w, leg)[key := t]])
  }

  function DropRequests(w: World, leg: nat, keys: set<SurfacedKey>): World {
    w.(requests := w.requests[leg := Req(w, leg) - keys])
  }

  function DropSurfaced(w: World, leg: nat, keys: set<SurfacedKey>): World {
    w.(surfaced := w.surfaced[leg := Smap(w, leg) - keys])
  }

  function ClearRequests(w: World, leg: nat): World {
    w.(requests := w.requests - {leg})
  }

  function ClearSurfaced(w: World, leg: nat): World {
    w.(surfaced := w.surfaced - {leg})
  }

  function SetExec(w: World, leg: nat, e: Exec): World {
    w.(execs := w.execs[leg := e])
  }

  /* ------------------------------------------------------------ tasks/get */

  datatype Reply =
    | NotFound
    | Working
    | InputRequired(asked: map<SurfacedKey, Request>)
    | Done(ending: Ending)
    | FailedReply(error: Json)
    | CancelledReply

  /** One atomic observation of the task. */
  function Observe(w: World): Reply {
    if w.pointer !in w.visible || w.pointer !in w.execs then NotFound
    else if w.cancelled then CancelledReply
    else match w.execs[w.pointer]
      case Completed(e) => if Req(w, w.number) != map[] then InputRequired(Req(w, w.number)) else Done(e)
      case Failed(e) => FailedReply(e)
      case Stopped => CancelledReply
      case Queued(_) => Working
      case Running(_, _) => Working
  }

  function Show(w: World): World {
    match Observe(w)
    case InputRequired(asked) => w.(shown := w.shown + asked.Keys)
    case _ => w
  }

  /* --------------------------------------------------------- tasks/update */

  datatype Translation = Invalid | Translated(answers: Answers, answered: set<SurfacedKey>)

  /** The loop of `translate_responses`: entries in order, unknown keys skipped, later ones winning. */
  function Translate(c: Config, outstanding: map<SurfacedKey, Request>, mapping: map<SurfacedKey, ToolKey>,
                     p: Payload): Translation {
    if p == [] then Translated(map[], {})
    else
      var t := Translate(c, outstanding, mapping, p[..|p| - 1]);
      var (key, raw) := p[|p| - 1];
      if t.Invalid? || key !in outstanding || key !in mapping then t
      else match c.validate(KindFor(outstanding[key]), raw)
        case None => Invalid
        case Some(a) => Translated(t.answers[mapping[key] := a], t.answered + {key})
  }

  datatype Moved = Moved(w: World, pc: Pc)

  function Release(w: World): World {
    w.(locked := false, owner := None)
  }

  function Acquire(w: World, h: HandlerId): World {
    w.(locked := true, owner := Some(h))
  }

  function Responses(w: World): Answers {
    w.responses.GetOr(map[])
  }

  function StoreAnswers(w: World, leg: nat, tr: Answers): World {
    w.(responses := Some(Responses(w) + tr), acks := w.acks + [Ack(leg, tr)])
  }

  // Docket ignores an add under a key it already knows.
  function EnqueueLeg(w: World, leg: nat): World {
    w.(execs := if leg in w.execs then w.execs else w.execs[leg := Queued(w.args)],
       enqueues := w.enqueues + [leg],
       late := w.late || w.cancelled)
  }

  /** The next step of a tasks/update. `ok` resolves the two choices that are not the program's:
      whether a lock attempt succeeded before its deadline, and whether an enqueue did. */
  function UpdateNext(c: Config, w: World, h: HandlerId, p: Payload, at: UpdateAt, ok: bool): Moved {
    match at
    case Arrived =>
      if w.pointer in w.visible then Moved(w, Update(p, Looked(w.number))) else Moved(w, Idle)
    case Looked(leg) =>
      if ok then Moved(Acquire(w, h), Update(p, Locked(leg))) else Moved(w, Idle)
    case Locked(leg) =>
      Moved(w, Update(p, if w.cancelled then Releasing else Checked(leg)))
    case Checked(leg) =>
      Moved(w, Update(p, if Req(w, leg) == map[] then Releasing else Reading(leg, Req(w, leg))))
    case Reading(leg, outstanding) =>
      var t := Translate(c, outstanding, Smap(w, leg), p);
      Moved(w, Update(p, if t.Invalid? || t.answers == map[] then Releasing
                         else Matched(leg, t.answers, t.answered)))
    case Matched(leg, tr, answered) =>
      Moved(StoreAnswers(w, leg, tr), Update(p, Stored(leg, answered)))
    case Stored(leg, answered) =>
      Moved(w, Update(p, if Req(w, leg).Keys - answered != {} then Discarding(leg, answered)
                         else Enqueuing(leg)))
    case Discarding(leg, answered) =>
      Moved(DropRequests(w, leg, answered), Update(p, DiscardingMap(leg, answered)))
    case DiscardingMap(leg, answered) =>
      Moved(DropSurfaced(w, leg, answered), Update(p, Releasing))
    case Enqueuing(leg) =>
      if ok then Moved(EnqueueLeg(w, leg + 1), Update(p, Awaiting(leg)))
      else Moved(w.(failed := w.failed + {leg}), Update(p, Releasing))
    case Awaiting(leg) =>
      Moved(w, Update(p, Swapping(leg)))
    case Swapping(leg) =>
      Moved(w.(pointer := leg + 1), Update(p, SwappingNumber(leg)))
    case SwappingNumber(leg) =>
      Moved(w.(number := leg + 1), Update(p, Clearing(leg)))
    case Clearing(leg) =>
      Moved(ClearRequests(w, leg), Update(p, ClearingMap(leg)))
    case ClearingMap(leg) =>
      Moved(ClearSurfaced(w, leg), Update(p, Releasing))
    case Releasing =>
      Moved(Release(w), Idle)
  }

  /* --------------------------------------------------------- tasks/cancel */

  // A task that already reached a terminal status stays there.
  predicate AlreadyTerminal(w: World, pointer: nat, leg: nat) {
    pointer in w.execs &&
    match w.execs[pointer]
    case Failed(_) => true
    case Stopped => true
    case Completed(_) => Req(w, leg) == map[]
    case Queued(_) => false
    case Running(_, _) => false
  }

  function CancelNext(w: World, h: HandlerId, at: CancelAt, ok: bool): Moved {
    match at
    case CArrived =>
      Moved(w, if w.pointer in w.visible then Cancel(CLooked) else Idle)
    case CLooked =>
      if ok then Moved(Acquire(w, h), Cancel(CResolving(true))) else Moved(w, Cancel(CResolving(false)))
    case CResolving(got) =>
      Moved(w, Cancel(if w.pointer in w.visible then CDeciding(got, w.pointer, w.number) else CReleasing(got)))
    case CDeciding(got, p, leg) =>
      if AlreadyTerminal(w, p, leg) then Moved(w, Cancel(CReleasing(got)))
      else Moved(w.(cancelled := true), Cancel(CClearing(got, p, leg)))
    case CClearing(got, p, leg) =>
      Moved(ClearRequests(w, leg), Cancel(CClearingMap(got, p, leg)))
    case CClearingMap(got, p, leg) =>
      Moved(ClearSurfaced(w, leg), Cancel(CStopping(got, p)))
    case CStopping(got, p) =>
      Moved(w.(stops := w.stops + {p}), Cancel(CReleasing(got)))
    case CReleasing(got) =>
      Moved(if got then Release(w) else w, Idle)
  }

  // A lock attempt succeeds exactly when the lock is free; it gives up only on a lock that is held.
  // The durable wait ends when Docket shows the enqueued execution.
  predicate CanMove(w: World, pc: Pc, ok: bool) {
    match pc
    case Idle => false
    case Update(_, Looked(_)) => ok == !w.locked
    case Update(_, Awaiting(leg)) => leg + 1 in w.visible
    case Update(_, _) => true
    case Cancel(CLooked) => ok == !w.locked
    case Cancel(_) => true
  }

  function HandlerNext(c: Config, w: World, h: HandlerId, pc: Pc, ok: bool): Moved {
    match pc
    case Idle => Moved(w, Idle)
    case Update(p, at) => UpdateNext(c, w, h, p, at, ok)
    case Cancel(at) => CancelNext(w, h, at, ok)
  }

  /* --------------------------------------------------------------- worker */

  datatype Act =
    | Begin
    | LoadState
    | RunBody
    | MintRequest(tool: ToolKey, key: SurfacedKey)
    | RecordMap
    | DropAnswers
    | CarryState
    | Finish
    | Abort

  predicate CanAct(w: World, leg: nat, act: Act) {
    leg in w.execs &&
    var e := w.execs[leg];
    match act
    case Begin => e.Queued?
    case LoadState => e.Running? && e.worker.Begun?
    case RunBody => e.Running? && e.worker.GotState?
    case MintRequest(tool, key) =>
      // entropy: the key is new to the store and no client has ever guessed it
      e.Running? && e.worker.Parking? && tool in e.worker.todo && key !in w.minted && key !in w.named
    case RecordMap => e.Running? && e.worker.ParkingMap?
    case DropAnswers => e.Running? && e.worker.Parking? && e.worker.todo == map[]
    case CarryState => e.Running? && e.worker.Consumed?
    case Finish => e.Running? && (e.worker.Parked? || e.worker.Finishing? || e.worker.Failing?)
    case Abort => leg in w.stops && (e.Queued? || e.Running?)
  }

  function AfterBody(v: Verdict): Worker {
    match v
    case Ends(e) => Finishing(e)
    case Fails(e) => Failing(e)
    case Parks(reqs, st) => Parking(reqs, st)
  }

  function ActNext(c: Config, w: World, leg: nat, act: Act): World
    requires CanAct(w, leg, act)
  {
    var e := w.execs[leg];
    match act
    case Begin => SetExec(w, leg, Running(e.args, Begun))
    case LoadState => SetExec(w, leg, Running(e.args, GotState(w.carried)))
    case RunBody =>
      var call := Call(leg, e.args, e.worker.state, w.responses);
      SetExec(w, leg, Running(e.args, AfterBody(VerdictOf(c, call)))).(log := w.log + [call])
    case MintRequest(tool, key) =>
      var todo := e.worker.todo;
      SetExec(PutRequest(w, leg, key, todo[tool]), leg,
              Running(e.args, ParkingMap(key, tool, todo - {tool}, e.worker.state)))
      .(minted := w.minted + {key})
    case RecordMap =>
      SetExec(PutSurfaced(w, leg, e.worker.key, e.worker.tool), leg,
              Running(e.args, Parking(e.worker.todo, e.worker.state)))
    case DropAnswers =>
      SetExec(w, leg, Running(e.args, Consumed(e.worker.state))).(responses := None)
    case CarryState =>
      SetExec(w, leg, Running(e.args, Parked)).(carried := e.worker.state)
    case Finish =>
      SetExec(w, leg, match e.worker
                      case Finishing(ending) => Completed(ending)
                      case Failing(error) => Failed(error)
                      case _ => Completed(ParkedAsk))
    case Abort => SetExec(w, leg, Stopped)
  }

  /* ------------------------------------------------------------------ runs */

  datatype Label =
    | StartUpdate(h: HandlerId, payload: Payload)
    | StartCancel(h: HandlerId)
    | Move(h: HandlerId, ok: bool)
    | Get
    | Propagate(leg: nat)
    | Work(leg: nat, act: Act)

  predicate Enabled(s: Sys, l: Label) {
    match l
    case StartUpdate(h, p) =>
      // clients know the keys tasks/get showed them; any other key they name is one nobody minted
      PcOf(s, h) == Idle && KeysOf(p) * s.w.minted <= s.w.shown
    case StartCancel(h) => PcOf(s, h) == Idle
    case Move(h, ok) => CanMove(s.w, PcOf(s, h), ok)
    case Get => true
    case Propagate(leg) => leg in s.w.execs
    case Work(leg, act) => CanAct(s.w, leg, act)
  }

  function Apply(c: Config, s: Sys, l: Label): Sys
    requires Enabled(s, l)
  {
    match l
    case StartUpdate(h, p) =>
      Sys(s.w.(named := s.w.named + KeysOf(p)), SetPc(s, h, Update(p, Arrived)))
    case StartCancel(h) => s.(pcs := SetPc(s, h, Cancel(CArrived)))
    case Move(h, ok) =>
      var m := HandlerNext(c, s.w, h, PcOf(s, h), ok);
      Sys(m.w, SetPc(s, h, m.pc))
    case Get => s.(w := Show(s.w))
    case Propagate(leg) => s.(w := s.w.(visible := s.w.visible + {leg}))
    case Work(leg, act) => s.(w := ActNext(c, s.w, leg, act))
  }

  /** `Runs(c, a, ls, b)`: the labels `ls`, taken in order from `a`, are all enabled and end in `b`. */
  ghost predicate Runs(c: Config, a: Sys, ls: seq<Label>, b: Sys)
    decreases |ls|
  {
    if ls == [] then a == b
    else Enabled(a, ls[0]) && Runs(c, Apply(c, a, ls[0]), ls[1..], b)
  }

  lemma {:induction false} RunsConcat(c: Config, a: Sys, ls: seq<Label>, m: Sys, ms: seq<Label>, b: Sys)
    requires Runs(c, a, ls, m) && Runs(c, m, ms, b)
    ensures Runs(c, a, ls + ms, b)
    decreases |ls|
  {
    if ls == [] {
      assert ls + ms == ms;
    } else {
      assert (ls + ms)[0] == ls[0] && (ls + ms)[1..] == ls[1..] + ms;
      RunsConcat(c, Apply(c, a, ls[0]), ls[1..], m, ms, b);
    }
  }
}
