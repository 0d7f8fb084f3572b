/** The promises to the author of a tool, over the tool body itself: what each call of it sees, what becomes of what it
    returns or raises, and which answers its questions get. */
module TaskBody {
  import opened TaskTypes
  import opened TaskProtocol
  import opened TaskInvariant
  import opened TaskAnswers
  import opened TaskRuns
  import opened TaskTheorems

  type ToolBody = Call -> Outcome
  type Validator = (ResultKind, Json) -> Option<Answer>

  /* --------------------------------------------------------- the foreground loop */

  /** The foreground loop of a tool body, given the answers to each of its asks in turn: while it asks, call it again with
      the state it carries and an answer to every request. `None` if some answers do not fit. */
  ghost function BodyLoop(args: Json, body: ToolBody, answers: seq<Answers>): Option<seq<Call>> {
    if answers == [] then Some([Call(1, args, None, None)])
    else
      match BodyLoop(args, body, answers[..|answers| - 1])
      case None => None
      case Some(calls) =>
        if calls == [] then None
        else
          var given := answers[|answers| - 1];
          match body(calls[|calls| - 1])
          case Ask(requests, state) =>
            if requests != map[] && given.Keys == requests.Keys
            then Some(calls + [Call(|calls| + 1, args, state, Some(given))]) else None
          case _ => None
  }

  lemma {:induction false} LoopIsForeground(args: Json, body: ToolBody, validate: Validator, answers: seq<Answers>)
    ensures BodyLoop(args, body, answers) == Foreground(TaskOf(args, body, validate), answers)
  {
    if answers != [] {
      LoopIsForeground(args, body, validate, answers[..|answers| - 1]);
      var calls := Foreground(TaskOf(args, body, validate), answers[..|answers| - 1]);
      if calls.Some? { TaskOfWraps(args, body, validate, calls.value[|calls.value| - 1]); }
    }
  }

  /** The calls of the body in any run are those of its foreground loop on the answers it was given, unless a leg was
      enqueued after the cancellation marker. */
  lemma CallsAreTheLoop(args: Json, body: ToolBody, validate: Validator, s: Sys)
    requires Reachable(TaskOf(args, body, validate), s) && s.w.log != [] && !s.w.late
    ensures BodyLoop(args, body, AnswersSeen(s.w.log)) == Some(s.w.log)
  {
    RefinesForeground(TaskOf(args, body, validate), s);
    LoopIsForeground(args, body, validate, AnswersSeen(s.w.log));
  }

  /** Call by call, marked or not: each but the last asked something, and the next one has its arguments, the state it
      carried, and answers to keys it asked for, to all of them unless it is the last and was enqueued too late. */
  lemma EachCallFollows(args: Json, body: ToolBody, validate: Validator, s: Sys, i: nat)
    requires Reachable(TaskOf(args, body, validate), s) && i < |s.w.log|
    ensures s.w.log[i].leg == i + 1 && s.w.log[i].args == args
    ensures i == 0 ==> s.w.log[i].state == None && s.w.log[i].responses == None
    ensures i > 0 ==>
              var call, before := s.w.log[i], body(s.w.log[i - 1]);
              && before.Ask? && before.requests != map[] && call.state == before.state
              && call.responses.Some? && call.responses.value.Keys <= before.requests.Keys
              && (i + 1 < |s.w.log| || !s.w.late ==> call.responses.value.Keys == before.requests.Keys)
  {
    var c := TaskOf(args, body, validate);
    ReachableCore(c, s);
    assert Linked(c, s.w, i);
    if i > 0 { TaskOfWraps(args, body, validate, s.w.log[i - 1]); }
  }

  /* ---------------------------------------------------------------- its end */

  /** What tasks/get reports as the end of a task is what the last call of the body did. */
  lemma EndComesFromBody(args: Json, body: ToolBody, validate: Validator, s: Sys)
    requires Reachable(TaskOf(args, body, validate), s) && (Observe(s.w).Done? || Observe(s.w).FailedReply?)
    ensures s.w.log != []
    ensures var o, r := body(LastCall(s.w)), Observe(s.w);
            && (forall v :: r == Done(Returned(v)) <==> o == Value(v))
            && (forall e :: r == FailedReply(e) <==> o == ProtocolError(e))
            && (forall m :: r == Done(Errored(m)) <==>
                  o == ToolError(m) || (m == STATE_ONLY_MESSAGE && o.Ask? && o.requests == map[] && o.state.Some?))
            && (r == Done(EmptyAsk) <==> o == Ask(map[], None))
  {
    ReportsForegroundResult(TaskOf(args, body, validate), s);
    TaskOfWraps(args, body, validate, LastCall(s.w));
  }

  /** And once the newest leg has ended, in a task that is not cancelled and with the lock free, what its call did is
      reported: a question as input_required, anything else as the end. */
  lemma BodyIsReported(args: Json, body: ToolBody, validate: Validator, s: Sys)
    requires Reachable(TaskOf(args, body, validate), s) && !s.w.cancelled && !s.w.locked
    requires Top(s.w) in s.w.execs && !s.w.execs[Top(s.w)].Queued? && !s.w.execs[Top(s.w)].Running?
    ensures |s.w.log| == Top(s.w) > 0
    ensures var r := Observe(s.w);
            match body(LastCall(s.w))
            case Value(v) => r == Done(Returned(v))
            case ToolError(m) => r == Done(Errored(m))
            case ProtocolError(e) => r == FailedReply(e)
            case Ask(requests, state) =>
              if requests != map[] then r.InputRequired?
              else r == Done(if state.Some? then Errored(STATE_ONLY_MESSAGE) else EmptyAsk)
  {
    var c := TaskOf(args, body, validate);
    PointerSafe(c, s);
    Reports(c, s);
    EndIsDecided(c, s);
    TaskOfWraps(args, body, validate, LastCall(s.w));
  }

  /* ------------------------------------------------------------ elicitations */

  /** The body asks for nothing but elicitations, the input the tasked path supports. */
  ghost predicate OnlyElicits(body: ToolBody) {
    forall call: Call, t :: body(call).Ask? && t in body(call).requests ==> IsElicitation(body(call).requests[t])
  }

  ghost predicate AllElicit<K>(requests: map<K, Request>) {
    forall k :: k in requests ==> IsElicitation(requests[k])
  }

  // What is stored, and what a parking worker has still to store.
  ghost predicate StoreElicits(w: World) {
    && (forall m: nat :: AllElicit(Req(w, m)))
    && (forall n :: n in w.execs && w.execs[n].Running? ==> AllElicit(Left(w.execs[n].worker)))
  }

  // What an update has read.
  ghost predicate ReadElicits(pc: Pc) {
    match pc
    case Update(_, Reading(_, o)) => AllElicit(o)
    case _ => true
  }

  ghost predicate Elicits(s: Sys) {
    StoreElicits(s.w) && forall h :: h in s.pcs ==> ReadElicits(s.pcs[h])
  }

  ghost predicate VerdictsElicit(c: Config) {
    forall call: Call :: AllElicit(AskedBy(c, call))
  }

  lemma BodyElicits(args: Json, body: ToolBody, validate: Validator)
    requires OnlyElicits(body)
    ensures VerdictsElicit(TaskOf(args, body, validate))
  {
    forall call: Call ensures AllElicit(AskedBy(TaskOf(args, body, validate), call)) {
      TaskOfWraps(args, body, validate, call);
    }
  }

  // Requests are only ever removed by an update, or by a cancel.
  ghost predicate FewerRequests(w: World, w': World) {
    forall m: nat, k :: k in Req(w', m) ==> k in Req(w, m) && Req(w', m)[k] == Req(w, m)[k]
  }

  lemma UpdateElicits(c: Config, w: World, h: HandlerId, p: Payload, at: UpdateAt, ok: bool)
    ensures FewerRequests(w, UpdateNext(c, w, h, p, at, ok).w)
    ensures StoreElicits(w) ==> ReadElicits(UpdateNext(c, w, h, p, at, ok).pc)
    ensures forall n :: n in UpdateNext(c, w, h, p, at, ok).w.execs ==>
              (n in w.execs && UpdateNext(c, w, h, p, at, ok).w.execs[n] == w.execs[n])
              || UpdateNext(c, w, h, p, at, ok).w.execs[n].Queued?
  {}

  lemma CancelElicits(w: World, h: HandlerId, at: CancelAt, ok: bool)
    ensures FewerRequests(w, CancelNext(w, h, at, ok).w) && CancelNext(w, h, at, ok).w.execs == w.execs
    ensures ReadElicits(CancelNext(w, h, at, ok).pc)
  {}

  lemma WorkElicits(c: Config, w: World, leg: nat, act: Act)
    requires VerdictsElicit(c) && StoreElicits(w) && CanAct(w, leg, act)
    ensures StoreElicits(ActNext(c, w, leg, act))
  {
    var w' := ActNext(c, w, leg, act);
    match act
    case RunBody =>
      var call := Call(leg, w.execs[leg].args, w.execs[leg].worker.state, w.responses);
      assert Left(w'.execs[leg].worker) == AskedBy(c, call) && AllElicit(AskedBy(c, call));
      SameElicit(w, w');
    case MintRequest(tool, key) => MintElicits(c, w, leg, tool, key);
    case RecordMap => SameElicit(w, w'); assert AllElicit(Left(w.execs[leg].worker));
    case _ => SameElicit(w, w');
  }

  lemma SameElicit(w: World, w': World)
    requires StoreElicits(w) && w'.requests == w.requests
    ensures forall m: nat :: AllElicit(Req(w', m))
  {
    forall m: nat ensures AllElicit(Req(w', m)) { assert AllElicit(Req(w, m)) && Req(w', m) == Req(w, m); }
  }

  lemma MintElicits(c: Config, w: World, leg: nat, tool: ToolKey, key: SurfacedKey)
    requires StoreElicits(w) && CanAct(w, leg, MintRequest(tool, key))
    ensures StoreElicits(ActNext(c, w, leg, MintRequest(tool, key)))
  {
    var w', todo := ActNext(c, w, leg, MintRequest(tool, key)), w.execs[leg].worker.todo;
    assert AllElicit(Left(w.execs[leg].worker)) && IsElicitation(todo[tool]);
    forall m: nat ensures AllElicit(Req(w', m)) { assert AllElicit(Req(w, m)); }
    assert Left(w'.execs[leg].worker) == todo - {tool};
  }

  lemma ElicitsStep(c: Config, s: Sys, l: Label)
    requires VerdictsElicit(c) && Elicits(s) && Enabled(s, l)
    ensures Elicits(Apply(c, s, l))
  {
    match l
    case Move(h, ok) =>
      match PcOf(s, h) {
        case Update(p, at) => UpdateElicits(c, s.w, h, p, at, ok);
        case Cancel(at) => CancelElicits(s.w, h, at, ok);
      }
      FewerElicit(s.w, Apply(c, s, l).w);
    case Work(leg, act) => WorkElicits(c, s.w, leg, act);
    case Get => FewerElicit(s.w, Show(s.w));
    case _ => FewerElicit(s.w, Apply(c, s, l).w);
  }

  lemma FewerElicit(w: World, w': World)
    requires StoreElicits(w) && FewerRequests(w, w')
    requires forall n :: n in w'.execs ==> (n in w.execs && w'.execs[n] == w.execs[n]) || w'.execs[n].Queued?
    ensures StoreElicits(w')
  {
    forall m: nat ensures AllElicit(Req(w', m)) { assert AllElicit(Req(w, m)); }
  }

  lemma {:induction false} ElicitsRun(c: Config, a: Sys, ls: seq<Label>, b: Sys)
    requires VerdictsElicit(c) && Elicits(a) && Runs(c, a, ls, b)
    ensures Elicits(b)
    decreases |ls|
  {
    if ls != [] {
      ElicitsStep(c, a, ls[0]);
      ElicitsRun(c, Apply(c, a, ls[0]), ls[1..], b);
    }
  }

  lemma AlwaysElicits(c: Config, s: Sys)
    requires VerdictsElicit(c) && Reachable(c, s)
    ensures Elicits(s)
  {
    var ls :| Runs(c, Init(c), ls, s);
    ElicitsRun(c, Init(c), ls, s);
  }

  /** An update of such a task is refused only if some answer in its payload is no elicitation result: wherever it reads
      its answers, under any interleaving, they are taken if each of them is one. */
  lemma GoodAnswersAreTaken(c: Config, s: Sys, h: HandlerId, p: Payload, leg: nat, o: map<SurfacedKey, Request>)
    requires VerdictsElicit(c) && Reachable(c, s) && PcOf(s, h) == Update(p, Reading(leg, o))
    requires forall i :: 0 <= i < |p| ==> c.validate(Elicit, p[i].1).Some?
    ensures Translate(c, o, Smap(s.w, leg), p).Translated?
  {
    AlwaysElicits(c, s);
    assert AllElicit(o);
    ElicitationsAreTaken(c, o, Smap(s.w, leg), p);
  }
}
