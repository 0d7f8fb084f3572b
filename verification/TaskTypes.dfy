/** Values shared by the whole project: wire payloads, a tool body and what one run of it produces. */
module TaskTypes {

  datatype Option<+T> = None | Some(value: T) {
    function GetOr(default: T): T {
      match this
      case Some(v) => v
      case None => default
    }
  }

  // JSON documents are kept as their text.
  type Json = string
  // A request key of the tool's own choosing, and the server-minted key that stands for it on the wire.
  type ToolKey = string
  type SurfacedKey = string
  type HandlerId = nat

  // The result classes a client's answer can be validated into.
  datatype ResultKind = Elicit | CreateMessage | CreateMessageWithTools | ListRoots

  // A typed answer, as `model_validate` returns it.
  datatype Answer = Answer(kind: ResultKind, data: Json)
  type Answers = map<ToolKey, Answer>

  // One outstanding input request; the wire method may be absent from its payload.
  datatype Request = Request(methodName: Option<string>, body: Json)
  type Requests = map<ToolKey, Request>

  // The `inputResponses` object of a tasks/update, in the order of its entries.
  type Payload = seq<(SurfacedKey, Json)>

  function KeysOf(p: Payload): set<SurfacedKey> {
    set i | 0 <= i < |p| :: p[i].0
  }

  /** One invocation of a tool body: everything it can read that differs between legs. */
  datatype Call = Call(leg: nat, args: Json, state: Option<string>, responses: Option<Answers>)

  /** What one invocation of the raw tool body does. */
  datatype Outcome =
    | Value(v: Json)
    | ToolError(message: string)
    | ProtocolError(error: Json)
    | Ask(requests: Requests, state: Option<string>)

  /** How a Docket execution that completed ended. `ParkedAsk` carries no result: the task waits. */
  datatype Ending = Returned(v: Json) | Errored(message: string) | EmptyAsk | ParkedAsk

  /** What the capture wrapper makes of an outcome. */
  datatype AnyVerdict = Ends(ending: Ending) | Fails(error: Json) | Parks(requests: Requests, state: Option<string>)

  /** A leg parks only when it asks something, and never ends by itself without a result. */
  type Verdict = v: AnyVerdict |
    (v.Parks? ==> v.requests != map[]) && (v.Ends? ==> v.ending != ParkedAsk) witness Fails("")

  const STATE_ONLY_MESSAGE: string := "state-only InputRequiredResult is not supported for tasks"

  /** `reentrant_task_fn`: a result or a tool error ends the leg, a protocol error fails it, and an ask parks it, with
      its requests and its state, if it asks something. */
  function Classify(o: Outcome): (v: Verdict)
    ensures v.Parks? <==> o.Ask? && o.requests != map[]
    ensures v.Parks? ==> v.requests == o.requests && v.state == o.state
    ensures o.Value? ==> v == Ends(Returned(o.v))
    ensures o.ToolError? ==> v == Ends(Errored(o.message))
    ensures v.Fails? <==> o.ProtocolError?
    ensures v.Fails? ==> v.error == o.error
    ensures o.Ask? && o.requests == map[] ==> v == Ends(if o.state.Some? then Errored(STATE_ONLY_MESSAGE) else EmptyAsk)
  {
    match o
    case Value(x) => Ends(Returned(x))
    case ToolError(m) => Ends(Errored(m))
    case ProtocolError(e) => Fails(e)
    case Ask(reqs, st) =>
      if reqs != map[] then Parks(reqs, st)
      else if st.None? then Ends(EmptyAsk)
      else Ends(Errored(STATE_ONLY_MESSAGE))
  }

  /** A task: its arguments, its wrapped body, and the validator of client answers.
      The body may depend on the leg, so it stands for any body, also one that is not deterministic:
      each leg runs it at most once. */
  datatype Config = Config(args: Json, verdict: Call -> Verdict, validate: (ResultKind, Json) -> Option<Answer>)

  /** The task that runs a tool body under the capture wrapper. */
  function TaskOf(args: Json, body: Call -> Outcome, validate: (ResultKind, Json) -> Option<Answer>): Config {
    Config(args, call => Classify(body(call)), validate)
  }

  function VerdictOf(c: Config, call: Call): Verdict {
    (c.verdict)(call)
  }

  lemma TaskOfWraps(args: Json, body: Call -> Outcome, validate: (ResultKind, Json) -> Option<Answer>, call: Call)
    ensures VerdictOf(TaskOf(args, body, validate), call) == Classify(body(call))
  {}

  // Every request but these two is answered with an elicitation result: `elicitation/create`, an unknown method, none.
  predicate IsElicitation(r: Request) {
    r.methodName != Some("sampling/createMessage") && r.methodName != Some("roots/list")
  }

  // `result_type_for_method`: an unknown or absent method is read as an elicitation.
  function KindFor(r: Request): (kind: ResultKind)
    ensures kind == Elicit <==> IsElicitation(r)
    ensures kind == CreateMessage <==> r.methodName == Some("sampling/createMessage")
    ensures kind == ListRoots <==> r.methodName == Some("roots/list")
  {
    match r.methodName
    case None => Elicit
    case Some(m) =>
      if m == "sampling/createMessage" then CreateMessage
      else if m == "roots/list" then ListRoots
      else Elicit
  }
}
