/** Every step of a worker keeps the invariant. Only the current leg can have a worker at work. */
module TaskWorkerSteps {
  import opened TaskTypes
  import opened TaskProtocol
  import opened TaskInvariant
  import opened TaskUpdateSteps

  lemma ActorIsTop(w: World, leg: nat, act: Act)
    requires LegsInv(w) && CanAct(w, leg, act)
    ensures leg == Top(w) && !WaitsParked(w)
  {}

  /** What a worker step cannot reach: everything but its own execution, the log, the carried state and
      answers, and the input hashes of its own leg. */
  ghost predicate OwnLegOnly(w: World, w': World) {
    && w'.(execs := w.execs, log := w.log, carried := w.carried, responses := w.responses,
           requests := w.requests, surfaced := w.surfaced, minted := w.minted) == w
    && w'.execs.Keys == w.execs.Keys
    && (forall n :: n in w.execs && n != Top(w) ==> w'.execs[n] == w.execs[n])
    && (forall m: nat :: m != Top(w) ==> Req(w', m) == Req(w, m) && Smap(w', m) == Smap(w, m))
  }

  lemma WorkLegs(w: World, w': World)
    requires LegsInv(w) && !WaitsParked(w) && OwnLegOnly(w, w')
    ensures LegsInv(w')
  {}

  lemma WorkWindow(w: World, w': World, at: Pc)
    requires WindowInv(w, at) && OwnLegOnly(w, w')
    ensures WindowInv(w', at)
  {}

  lemma WorkSection(c: Config, w: World, w': World, at: Pc)
    requires SectionInv(c, w, at) && !WaitsParked(w) && OwnLegOnly(w, w')
    ensures SectionInv(c, w', at)
  {}

  lemma WorkFrame(c: Config, w: World, w': World, at: Pc)
    requires CoreInv(c, w, at) && !WaitsParked(w) && OwnLegOnly(w, w')
    ensures LegsInv(w') && WindowInv(w', at) && SectionInv(c, w', at)
  {
    WorkLegs(w, w');
    WorkWindow(w, w', at);
    WorkSection(c, w, w', at);
  }

  // What is known of a running leg, and what has to be known of it after its step.
  lemma AtWork(c: Config, w: World, at: Pc, leg: nat, act: Act)
    requires CoreInv(c, w, at) && CanAct(w, leg, act) && !act.Begin? && !act.Abort?
    ensures leg == Top(w) && !WaitsParked(w)
    ensures w.execs[leg].args == c.args && WorkerInv(c, w, w.execs[leg].worker)
  {
    ActorIsTop(w, leg, act);
  }

  lemma StillAtWork(c: Config, w: World, at: Pc, worker: Worker)
    requires Top(w) in w.execs && w.execs[Top(w)] == Running(c.args, worker) && WorkerInv(c, w, worker)
    ensures CurrentInv(c, w, at)
  {}

  // Steps that write the input hashes of a parking leg but not the log.
  lemma HashWork(c: Config, w: World, w': World, at: Pc, worker: Worker)
    requires CoreInv(c, w, at) && !WaitsParked(w) && OwnLegOnly(w, w') && w'.log == w.log && KeysInv(w')
    requires w'.execs[Top(w)] == Running(c.args, worker) && (worker.Parking? || worker.ParkingMap?)
    requires ParkingInv(c, w', worker)
    ensures CoreInv(c, w', at)
  {
    StillAtWork(c, w', at, worker);
    WorkFrame(c, w, w', at);
    LogFrame(c, w, w');
  }

  // Steps that touch neither the input hashes nor the log.
  lemma PlainWork(c: Config, w: World, w': World, at: Pc, e: Exec)
    requires CoreInv(c, w, at) && !WaitsParked(w)
    requires w'.(execs := w.execs, carried := w.carried, responses := w.responses) == w
    requires w'.execs == w.execs[Top(w) := e]
    requires CurrentInv(c, w', at)
    ensures CoreInv(c, w', at)
  {
    SameHashes(w, w');
    assert OwnLegOnly(w, w');
    WorkFrame(c, w, w', at);
    LogFrame(c, w, w');
    KeysFrame(w, w');
  }

  lemma SameHashes(w: World, w': World)
    requires w'.requests == w.requests && w'.surfaced == w.surfaced
    ensures forall m: nat :: Req(w', m) == Req(w, m) && Smap(w', m) == Smap(w, m)
  {}

  /* ------------------------------------------------------------ before the body */

  lemma BeginStep(c: Config, w: World, w': World, at: Pc, leg: nat)
    requires CoreInv(c, w, at) && CanAct(w, leg, Begin) && w' == ActNext(c, w, leg, Begin)
    ensures CoreInv(c, w', at)
  {
    ActorIsTop(w, leg, Begin);
    SameHashes(w, w');
    assert Loaded(c, w');
    PlainWork(c, w, w', at, w'.execs[leg]);
  }

  lemma LoadStateStep(c: Config, w: World, w': World, at: Pc, leg: nat)
    requires CoreInv(c, w, at) && CanAct(w, leg, LoadState) && w' == ActNext(c, w, leg, LoadState)
    ensures CoreInv(c, w', at)
  {
    AtWork(c, w, at, leg, LoadState);
    SameHashes(w, w');
    StillAtWork(c, w', at, w'.execs[leg].worker);
    PlainWork(c, w, w', at, w'.execs[leg]);
  }

  /* ------------------------------------------------------------------ the body */

  lemma RunLinks(c: Config, w: World, w': World, leg: nat)
    requires LogInv(c, w) && Loaded(c, w) && leg == Top(w)
    requires w'.(execs := w.execs, log := w.log) == w
    requires w'.log == w.log + [Call(leg, c.args, w.carried, w.responses)]
    ensures LogInv(c, w')
  {
    forall i | 0 <= i < |w'.log| ensures Linked(c, w', i) {
      if i < |w.log| {
        assert Linked(c, w, i);
        assert w'.log[i] == w.log[i] && (i > 0 ==> w'.log[i - 1] == w.log[i - 1]);
      } else if i > 0 {
        assert w'.log[i - 1] == LastCall(w);
        assert DidPark(c, LastCall(w));
      }
    }
  }

  lemma RunPlaces(c: Config, w: World, w': World, leg: nat, worker: Worker)
    requires Loaded(c, w) && leg == Top(w) >= 1
    requires w'.(execs := w.execs, log := w.log) == w
    requires w'.log == w.log + [Call(leg, c.args, w.carried, w.responses)]
    requires worker == AfterBody(VerdictOf(c, LastCall(w')))
    ensures WorkerInv(c, w', worker)
  {}

  lemma RunWork(c: Config, w: World, w': World, leg: nat)
    requires LogInv(c, w) && KeysInv(w) && Loaded(c, w) && CanAct(w, leg, RunBody) && leg == Top(w) >= 1
    requires !WaitsParked(w) && w.execs[leg] == Running(c.args, GotState(w.carried))
    requires w' == ActNext(c, w, leg, RunBody)
    ensures OwnLegOnly(w, w') && LogInv(c, w') && KeysInv(w') && WorkerInv(c, w', w'.execs[leg].worker)
  {
    RunLinks(c, w, w', leg);
    RunPlaces(c, w, w', leg, w'.execs[leg].worker);
    SameHashes(w, w');
    KeysFrame(w, w');
  }

  lemma RunBodyStep(c: Config, w: World, w': World, at: Pc, leg: nat)
    requires CoreInv(c, w, at) && CanAct(w, leg, RunBody) && w' == ActNext(c, w, leg, RunBody)
    ensures CoreInv(c, w', at)
    ensures w'.log == w.log + [Call(leg, c.args, w.carried, w.responses)] && |w'.log| == leg
  {
    AtWork(c, w, at, leg, RunBody);
    RunWork(c, w, w', leg);
    WorkFrame(c, w, w', at);
    StillAtWork(c, w', at, w'.execs[leg].worker);
  }

  /* --------------------------------------------------------------- the ask */

  lemma MintPlaces(c: Config, w: World, w': World, leg: nat, tool: ToolKey, key: SurfacedKey,
                   todo: Requests, st: Option<string>)
    requires ParkingInv(c, w, Parking(todo, st)) && leg == Top(w) && tool in todo
    requires key !in Req(w, leg)
    requires w'.log == w.log && w'.enqueues == w.enqueues && w'.cancelled == w.cancelled
    requires Req(w', leg) == Req(w, leg)[key := todo[tool]] && Smap(w', leg) == Smap(w, leg)
    ensures ParkingInv(c, w', ParkingMap(key, tool, todo - {tool}, st))
  {
    var rest := todo - {tool};
    assert AskNow(c, w') == AskNow(c, w);
    assert rest.Keys == todo.Keys - {tool};
    if !w.cancelled { MintPlaced(w, w', leg, AskNow(c, w), tool, key, todo, rest); }
  }

  lemma ToolsGrow(s: map<SurfacedKey, ToolKey>, key: SurfacedKey, tool: ToolKey)
    requires key !in s
    ensures var s' := s[key := tool]; Tools(s', s'.Keys) == Tools(s, s.Keys) + {tool}
    ensures OneToOne(s) && tool !in Tools(s, s.Keys) ==> OneToOne(s[key := tool])
  {
    var s' := s[key := tool];
    forall t | t in Tools(s, s.Keys) ensures t in Tools(s', s'.Keys) {
      var k :| k in s && s[k] == t;
      assert k in s' && s'[k] == t;
    }
    assert key in s' && s'[key] == tool;
    forall k | k in s ensures s[k] in Tools(s, s.Keys) {}
  }

  lemma MintPlaced(w: World, w': World, leg: nat, reqs: Requests, tool: ToolKey, key: SurfacedKey,
                   todo: Requests, rest: Requests)
    requires Placed(w, reqs, todo, map[]) && leg == Top(w) == Top(w') && tool in todo && todo.Keys <= reqs.Keys
    requires todo[tool] == reqs[tool] && rest.Keys == todo.Keys - {tool}
    requires key !in Req(w, leg)
    requires Req(w', leg) == Req(w, leg)[key := todo[tool]] && Smap(w', leg) == Smap(w, leg)
    ensures Placed(w', reqs, rest, map[key := tool])
  {
    var s := Smap(w, leg);
    assert s + map[] == s;
    ToolsGrow(s, key, tool);
    assert s + map[key := tool] == s[key := tool];
  }

  lemma MintKeys(w: World, w': World, leg: nat, key: SurfacedKey)
    requires KeysInv(w) && leg == Top(w) && !WaitsParked(w) && key !in w.minted
    requires forall m: nat :: m != leg ==> Req(w', m) == Req(w, m)
    requires Req(w', leg).Keys == Req(w, leg).Keys + {key}
    requires w'.minted == w.minted + {key} && w'.shown == w.shown && Top(w') == Top(w)
    ensures KeysInv(w')
  {}

  lemma MintFrame(w: World, w': World, leg: nat, tool: ToolKey, key: SurfacedKey)
    requires LegsInv(w) && KeysInv(w) && CanAct(w, leg, MintRequest(tool, key)) && leg == Top(w) && !WaitsParked(w)
    requires w'.(execs := w.execs, requests := w.requests, minted := w.minted) == w
    requires w'.requests == w.requests[leg := Req(w, leg)[key := w.execs[leg].worker.todo[tool]]]
    requires w'.minted == w.minted + {key} && w'.execs.Keys == w.execs.Keys
    requires forall n :: n in w.execs && n != leg ==> w'.execs[n] == w.execs[n]
    ensures OwnLegOnly(w, w') && KeysInv(w') && key !in Req(w, leg)
    ensures Req(w', leg) == Req(w, leg)[key := w.execs[leg].worker.todo[tool]] && Smap(w', leg) == Smap(w, leg)
  {
    assert forall m: nat :: Smap(w', m) == Smap(w, m);
    assert forall m: nat :: m != leg ==> Req(w', m) == Req(w, m);
    MintKeys(w, w', leg, key);
  }

  lemma MintWork(c: Config, w: World, w': World, leg: nat, tool: ToolKey, key: SurfacedKey)
    requires LegsInv(w) && KeysInv(w) && CanAct(w, leg, MintRequest(tool, key)) && leg == Top(w) && !WaitsParked(w)
    requires ParkingInv(c, w, w.execs[leg].worker) && w' == ActNext(c, w, leg, MintRequest(tool, key))
    ensures OwnLegOnly(w, w') && KeysInv(w') && ParkingInv(c, w', w'.execs[leg].worker)
  {
    var worker := w.execs[leg].worker;
    MintFrame(w, w', leg, tool, key);
    MintPlaces(c, w, w', leg, tool, key, worker.todo, worker.state);
  }

  lemma MintStep(c: Config, w: World, w': World, at: Pc, leg: nat, tool: ToolKey, key: SurfacedKey)
    requires CoreInv(c, w, at) && CanAct(w, leg, MintRequest(tool, key))
    requires w' == ActNext(c, w, leg, MintRequest(tool, key))
    ensures CoreInv(c, w', at)
  {
    AtWork(c, w, at, leg, MintRequest(tool, key));
    MintWork(c, w, w', leg, tool, key);
    HashWork(c, w, w', at, w'.execs[leg].worker);
  }

  lemma MapPlaces(c: Config, w: World, w': World, leg: nat, key: SurfacedKey, tool: ToolKey,
                  todo: Requests, st: Option<string>)
    requires ParkingInv(c, w, ParkingMap(key, tool, todo, st)) && leg == Top(w)
    requires w'.log == w.log && w'.enqueues == w.enqueues && w'.cancelled == w.cancelled
    requires Req(w', leg) == Req(w, leg) && Smap(w', leg) == Smap(w, leg)[key := tool]
    ensures ParkingInv(c, w', Parking(todo, st))
  {
    assert AskNow(c, w') == AskNow(c, w);
    if !w.cancelled { MapPlaced(w, w', leg, AskNow(c, w), todo, key, tool); }
  }

  lemma MapPlaced(w: World, w': World, leg: nat, reqs: Requests, todo: Requests, key: SurfacedKey, tool: ToolKey)
    requires Placed(w, reqs, todo, map[key := tool]) && leg == Top(w) == Top(w')
    requires Req(w', leg) == Req(w, leg) && Smap(w', leg) == Smap(w, leg)[key := tool]
    ensures Placed(w', reqs, todo, map[])
  {
    assert Smap(w, leg) + map[key := tool] == Smap(w', leg) == Smap(w', leg) + map[];
  }

  lemma RecordFrame(w: World, w': World, leg: nat, key: SurfacedKey, tool: ToolKey)
    requires KeysInv(w) && leg == Top(w) && !WaitsParked(w)
    requires w'.(execs := w.execs, surfaced := w.surfaced) == w && w'.execs.Keys == w.execs.Keys
    requires forall n :: n in w.execs && n != leg ==> w'.execs[n] == w.execs[n]
    requires w'.surfaced == w.surfaced[leg := Smap(w, leg)[key := tool]]
    ensures OwnLegOnly(w, w') && KeysInv(w')
    ensures Req(w', leg) == Req(w, leg) && Smap(w', leg) == Smap(w, leg)[key := tool]
  {
    assert forall m: nat :: Req(w', m) == Req(w, m);
    assert forall m: nat :: m != leg ==> Smap(w', m) == Smap(w, m);
  }

  lemma RecordWork(c: Config, w: World, w': World, leg: nat)
    requires KeysInv(w) && CanAct(w, leg, RecordMap) && leg == Top(w) && !WaitsParked(w)
    requires ParkingInv(c, w, w.execs[leg].worker) && w' == ActNext(c, w, leg, RecordMap)
    ensures OwnLegOnly(w, w') && KeysInv(w') && ParkingInv(c, w', w'.execs[leg].worker)
  {
    var worker := w.execs[leg].worker;
    RecordFrame(w, w', leg, worker.key, worker.tool);
    MapPlaces(c, w, w', leg, worker.key, worker.tool, worker.todo, worker.state);
  }

  lemma RecordMapStep(c: Config, w: World, w': World, at: Pc, leg: nat)
    requires CoreInv(c, w, at) && CanAct(w, leg, RecordMap) && w' == ActNext(c, w, leg, RecordMap)
    ensures CoreInv(c, w', at)
  {
    AtWork(c, w, at, leg, RecordMap);
    RecordWork(c, w, w', leg);
    HashWork(c, w, w', at, w'.execs[leg].worker);
  }

  lemma DropParks(c: Config, w: World, w': World, worker: Worker)
    requires ParkingInv(c, w, worker) && worker.Parking? && worker.todo == map[]
    requires w'.(execs := w.execs) == w.(responses := None)
    ensures ParkingInv(c, w', Consumed(worker.state))
  {
    SameHashes(w, w');
    assert AskNow(c, w') == AskNow(c, w);
  }

  lemma CarryParks(c: Config, w: World, w': World, worker: Worker)
    requires ParkingInv(c, w, worker) && worker.Consumed? && w'.(execs := w.execs) == w.(carried := worker.state)
    ensures ParkingInv(c, w', Parked)
  {
    SameHashes(w, w');
    assert AskNow(c, w') == AskNow(c, w);
  }

  lemma DropAnswersStep(c: Config, w: World, w': World, at: Pc, leg: nat)
    requires CoreInv(c, w, at) && CanAct(w, leg, DropAnswers) && w' == ActNext(c, w, leg, DropAnswers)
    ensures CoreInv(c, w', at)
  {
    AtWork(c, w, at, leg, DropAnswers);
    var worker := w.execs[leg].worker;
    DropParks(c, w, w', worker);
    StillAtWork(c, w', at, Consumed(worker.state));
    PlainWork(c, w, w', at, w'.execs[leg]);
  }

  lemma CarryStateStep(c: Config, w: World, w': World, at: Pc, leg: nat)
    requires CoreInv(c, w, at) && CanAct(w, leg, CarryState) && w' == ActNext(c, w, leg, CarryState)
    ensures CoreInv(c, w', at)
  {
    AtWork(c, w, at, leg, CarryState);
    CarryParks(c, w, w', w.execs[leg].worker);
    StillAtWork(c, w', at, Parked);
    PlainWork(c, w, w', at, w'.execs[leg]);
  }

  /* ------------------------------------------------------------------ the end */

  // While a leg is still at work no update can be past matching it.
  lemma NoneGoing(c: Config, w: World, at: Pc)
    requires SectionInv(c, w, at) && !WaitsParked(w)
    ensures Going(at) == {} && Gone(at) == {} && !(at.Update? && at.at.Enqueuing?)
  {}

  lemma ParkConserves(c: Config, w: World, w': World, at: Pc)
    requires Placed(w, AskNow(c, w), map[], map[]) && AskNow(c, w) != map[]
    requires w.responses == None && Top(w) !in w.failed
    requires Going(at) == {} && Gone(at) == {} && !(at.Update? && at.at.Enqueuing?)
    requires w'.(execs := w.execs) == w
    ensures Conserved(c, w', at)
  {
    SameHashes(w, w');
    assert AskNow(c, w') == AskNow(c, w);
    var r, s := Req(w, Top(w)), Smap(w, Top(w));
    assert s + map[] == s && AskNow(c, w).Keys - {} == AskNow(c, w).Keys;
    assert r != map[] by {
      var t :| t in AskNow(c, w);
      assert t in Tools(s, s.Keys);
    }
    assert r.Keys - {} == r.Keys;
  }

  lemma ParkedAtLast(c: Config, w: World, w': World, at: Pc)
    requires LegsInv(w) && ParkingInv(c, w, Parked) && SectionInv(c, w, at) && !WaitsParked(w)
    requires w'.(execs := w.execs) == w
    ensures ParkedInv(c, w', at)
  {
    SameHashes(w, w');
    NoneGoing(c, w, at);
    assert AskNow(c, w') == AskNow(c, w);
    assert AskNow(c, w) != map[];
    CollectedNone(w.acks, Top(w));
    if !w.cancelled { ParkConserves(c, w, w', at); }
  }

  lemma EndsAtLast(c: Config, w: World, w': World, at: Pc)
    requires Top(w) in w.execs && w.execs[Top(w)].Running? && WorkerInv(c, w, w.execs[Top(w)].worker)
    requires var worker := w.execs[Top(w)].worker;
             (worker.Finishing? && w' == SetExec(w, Top(w), Completed(worker.ending)))
             || (worker.Failing? && w' == SetExec(w, Top(w), Failed(worker.error)))
    ensures CurrentInv(c, w', at)
  {
    SameHashes(w, w');
    assert LastCall(w') == LastCall(w);
  }

  lemma FinishStep(c: Config, w: World, w': World, at: Pc, leg: nat)
    requires CoreInv(c, w, at) && CanAct(w, leg, Finish) && w' == ActNext(c, w, leg, Finish)
    ensures CoreInv(c, w', at)
  {
    AtWork(c, w, at, leg, Finish);
    if w.execs[leg].worker.Parked? { ParkedAtLast(c, w, w', at); } else { EndsAtLast(c, w, w', at); }
    PlainWork(c, w, w', at, w'.execs[leg]);
  }

  lemma AbortStep(c: Config, w: World, w': World, at: Pc, leg: nat)
    requires CoreInv(c, w, at) && CanAct(w, leg, Abort) && w' == ActNext(c, w, leg, Abort)
    ensures CoreInv(c, w', at)
  {
    ActorIsTop(w, leg, Abort);
    PlainWork(c, w, w', at, Stopped);
  }

  lemma BodyStep(c: Config, w: World, at: Pc, leg: nat, act: Act)
    requires CoreInv(c, w, at) && CanAct(w, leg, act) && (act.Begin? || act.LoadState? || act.RunBody?)
    ensures CoreInv(c, ActNext(c, w, leg, act), at)
  {
    var w' := ActNext(c, w, leg, act);
    match act
    case Begin => BeginStep(c, w, w', at, leg);
    case LoadState => LoadStateStep(c, w, w', at, leg);
    case RunBody => RunBodyStep(c, w, w', at, leg);
  }

  lemma ParkStep(c: Config, w: World, at: Pc, leg: nat, act: Act)
    requires CoreInv(c, w, at) && CanAct(w, leg, act)
    requires act.MintRequest? || act.RecordMap? || act.DropAnswers? || act.CarryState?
    ensures CoreInv(c, ActNext(c, w, leg, act), at)
  {
    var w' := ActNext(c, w, leg, act);
    match act
    case MintRequest(tool, key) => MintStep(c, w, w', at, leg, tool, key);
    case RecordMap => RecordMapStep(c, w, w', at, leg);
    case DropAnswers => DropAnswersStep(c, w, w', at, leg);
    case CarryState => CarryStateStep(c, w, w', at, leg);
  }

  lemma WorkStep(c: Config, w: World, at: Pc, leg: nat, act: Act)
    requires CoreInv(c, w, at) && CanAct(w, leg, act)
    ensures CoreInv(c, ActNext(c, w, leg, act), at)
  {
    if act.Finish? { FinishStep(c, w, ActNext(c, w, leg, act), at, leg); }
    else if act.Abort? { AbortStep(c, w, ActNext(c, w, leg, act), at, leg); }
    else if act.Begin? || act.LoadState? || act.RunBody? { BodyStep(c, w, at, leg, act); }
    else { ParkStep(c, w, at, leg, act); }
  }
}
