/** The client's drive of a task to its end (`_drive_to_terminal`, `_answer_input_requests`), over a logical clock.

    The world answers by a script: what the k-th poll gets and how long everything takes. A call that is given
    a budget and does not finish within it is cut off when the budget is spent. */
module ClientDrive {
  import opened TaskTypes
  import opened PollBackoff

  datatype Handled = Answered(content: Json) | Refused(message: string)

  // One outstanding request as the server shows it, and what the client's handler will make of it.
  datatype Prompt = Prompt(key: SurfacedKey, methodName: Option<string>, took: real, handled: Handled)

  datatype Shown =
    | Terminal(status: string)
    | InputRequired(prompts: seq<Prompt>, updateTook: real, accepted: bool)
    | Working(advertised: Option<real>)

  datatype Exchange = Exchange(took: real, shown: Shown)
  type Script = nat -> Exchange

  datatype Result = Final(status: string) | TimedOut | Failed

  // What the client does, with the clock before and after.
  datatype Event =
    | Poll(k: nat, from: real, until: real)
    | Prompted(k: nat, key: SurfacedKey, from: real, until: real)
    | Updated(k: nat, answers: map<SurfacedKey, Json>, from: real, until: real)
    | Slept(k: nat, from: real, until: real)

  predicate Timely(script: Script, k: nat) {
    var e := script(k);
    && e.took >= 0.0
    && (e.shown.InputRequired? ==>
          e.shown.updateTook >= 0.0 && forall i :: 0 <= i < |e.shown.prompts| ==> e.shown.prompts[i].took >= 0.0)
  }

  // The intervals advertised since the last input round before round `k`.
  function Since(script: Script, k: nat): seq<Option<real>> {
    if k == 0 then []
    else match script(k - 1).shown
      case Working(advertised) => Since(script, k - 1) + [advertised]
      case _ => []
  }

  // The backoff in force in round `k`; an input round resets it.
  function BackoffAt(script: Script, setting: Setting, k: nat): real {
    if k == 0 then MIN_POLL_INTERVAL
    else match script(k - 1).shown
      case Working(advertised) => NextPollDelay(advertised, setting, BackoffAt(script, setting, k - 1)).1
      case _ => MIN_POLL_INTERVAL
  }

  // How long round `k` sleeps, if it finds the task at work.
  function DelayAt(script: Script, setting: Setting, k: nat): real {
    match script(k).shown
    case Working(advertised) => NextPollDelay(advertised, setting, BackoffAt(script, setting, k)).0
    case _ => 0.0
  }

  lemma {:induction false} BackoffSince(script: Script, setting: Setting, k: nat)
    ensures BackoffAt(script, setting, k) == Backoff(Since(script, k), setting)
  {
    if k > 0 && script(k - 1).shown.Working? {
      BackoffSince(script, setting, k - 1);
      var before := Since(script, k - 1);
      assert (before + [script(k - 1).shown.advertised])[..|before|] == before;
    }
  }

  /** The sleeps of a drive follow the cadence over the intervals advertised since the last input round. */
  lemma DelaySince(script: Script, setting: Setting, k: nat)
    requires script(k).shown.Working?
    ensures DelayAt(script, setting, k) == Delay(Since(script, k), script(k).shown.advertised, setting) >= Least(setting)
  {
    BackoffSince(script, setting, k);
    DelayAtLeast(Since(script, k), script(k).shown.advertised, setting);
  }

  /** The first round, and the one after an input round, sleep for 20 ms, or for the ceiling if that is less; a round
      after a sleep never sleeps for less than that round did, or for its own ceiling. */
  lemma DelayRestarts(script: Script, setting: Setting, k: nat)
    requires script(k).shown.Working?
    ensures k == 0 || script(k - 1).shown.InputRequired? ==>
              DelayAt(script, setting, k) == Min(0.02, PollCeiling(script(k).shown.advertised, setting))
    ensures k > 0 && script(k - 1).shown.Working? ==>
              DelayAt(script, setting, k) >=
              Min(DelayAt(script, setting, k - 1), PollCeiling(script(k).shown.advertised, setting))
  {
    if k > 0 && script(k - 1).shown.Working? { DelaySince(script, setting, k - 1); }
  }

  // A call of length `took` started at `now`, cut off at the deadline.
  function Until(now: real, took: real, deadline: Option<real>): real {
    match deadline
    case None => now + took
    case Some(d) => Min(now + took, d)
  }

  predicate InTime(now: real, took: real, deadline: Option<real>) {
    deadline.None? || now + took <= deadline.value
  }

  predicate Expired(now: real, deadline: Option<real>) {
    deadline.Some? && now >= deadline.value
  }

  /** The events follow each other without a gap, from `start` to `now`, none past the deadline. */
  ghost predicate Orderly(events: seq<Event>, start: real, now: real, deadline: Option<real>) {
    && start <= now
    && (forall e :: e in events ==> start <= e.from <= e.until <= now && (deadline.Some? ==> e.until <= deadline.value))
    && (forall i :: 0 < i < |events| ==> events[i - 1].until == events[i].from)
    && (if events == [] then start == now else events[0].from == start && events[|events| - 1].until == now)
  }

  /** Every event is what the script and the cadence call for. */
  ghost predicate Faithful(script: Script, setting: Setting, deadline: Option<real>, e: Event) {
    match e
    case Poll(k, from, until) => until == Until(from, script(k).took, deadline)
    case Prompted(k, key, from, until) =>
      script(k).shown.InputRequired? &&
      exists p :: p in script(k).shown.prompts && p.key == key && p.methodName == Some("elicitation/create")
                  && until == Until(from, p.took, deadline)
    case Updated(k, answers, from, until) =>
      && script(k).shown.InputRequired?
      && AnswersAll(script(k).shown.prompts, answers)
      && until == Until(from, script(k).shown.updateTook, deadline)
    case Slept(k, from, until) =>
      && script(k).shown.Working?
      && until == Until(from, DelayAt(script, setting, k), deadline)
  }

  /** The update delivers the handler's answer to every request, and nothing else. */
  ghost predicate AnswersAll(prompts: seq<Prompt>, answers: map<SurfacedKey, Json>) {
    && (forall key :: key in answers <==> exists p :: p in prompts && p.key == key)
    && (forall key :: key in answers ==>
          exists p :: p in prompts && p.key == key && p.handled == Answered(answers[key]))
  }

  ghost predicate AllFaithful(script: Script, setting: Setting, deadline: Option<real>, events: seq<Event>) {
    forall e :: e in events ==> Faithful(script, setting, deadline, e)
  }

  /** The same, event by event. */
  ghost predicate Proper(script: Script, setting: Setting, deadline: Option<real>, events: seq<Event>, start: real, now: real)
  {
    if events == [] then start == now
    else
      var n := |events| - 1;
      && Proper(script, setting, deadline, events[..n], start, events[n].from)
      && events[n].from <= events[n].until == now && (deadline.Some? ==> now <= deadline.value)
      && Faithful(script, setting, deadline, events[n])
  }

  lemma {:induction false} ProperOrderly(script: Script, setting: Setting, deadline: Option<real>, events: seq<Event>,
                                         start: real, now: real)
    requires Proper(script, setting, deadline, events, start, now)
    ensures Orderly(events, start, now, deadline)
  {
    if events != [] {
      var n := |events| - 1;
      ProperOrderly(script, setting, deadline, events[..n], start, events[n].from);
      assert events == events[..n] + [events[n]];
    }
  }

  lemma {:induction false} ProperFaithful(script: Script, setting: Setting, deadline: Option<real>, events: seq<Event>,
                                          start: real, now: real)
    requires Proper(script, setting, deadline, events, start, now)
    ensures AllFaithful(script, setting, deadline, events)
  {
    if events != [] {
      var n := |events| - 1;
      ProperFaithful(script, setting, deadline, events[..n], start, events[n].from);
      assert events == events[..n] + [events[n]];
    }
  }

  // One more event.
  lemma Extend(script: Script, setting: Setting, deadline: Option<real>, events: seq<Event>, start: real, e: Event)
    requires Proper(script, setting, deadline, events, start, e.from)
    requires e.from <= e.until && (deadline.Some? ==> e.until <= deadline.value)
    requires Faithful(script, setting, deadline, e)
    ensures Proper(script, setting, deadline, events + [e], start, e.until)
  {
    assert (events + [e])[..|events|] == events;
  }

  lemma {:induction false} ProperConcat(script: Script, setting: Setting, deadline: Option<real>, a: seq<Event>,
                                        b: seq<Event>, start: real, mid: real, now: real)
    requires Proper(script, setting, deadline, a, start, mid) && Proper(script, setting, deadline, b, mid, now)
    ensures Proper(script, setting, deadline, a + b, start, now)
    decreases |b|
  {
    if b == [] {
      assert a + b == a;
    } else {
      var n := |b| - 1;
      ProperConcat(script, setting, deadline, a, b[..n], start, mid, b[n].from);
      Extend(script, setting, deadline, a + b[..n], start, b[n]);
      assert a + b == a + b[..n] + [b[n]];
    }
  }

  /** The drive fails on an ask the client cannot serve: it has no handler, a request is not an elicitation, the
      handler refuses, or the server turns the update down. */
  ghost predicate CannotServe(shown: Shown, hasHandler: bool) {
    shown.InputRequired? &&
    (!hasHandler || !shown.accepted ||
     exists p :: p in shown.prompts && (p.methodName != Some("elicitation/create") || p.handled.Refused?))
  }

  /* ------------------------------------------------------- rounds of events */

  // The first `n` prompts of an input round have been put to the handler, each answered in time.
  ghost predicate PromptsDone(k: nat, prompts: seq<Prompt>, tail: seq<Event>, n: nat) {
    n <= |prompts| && n <= |tail| &&
    forall i :: 0 <= i < n ==> tail[i] == Prompted(k, prompts[i].key, tail[i].from, tail[i].from + prompts[i].took)
  }

  // Events of round `k` that come after its poll.
  ghost predicate AfterPoll(k: nat, tail: seq<Event>) {
    forall i :: 0 <= i < |tail| ==> tail[i].k == k && !tail[i].Poll?
  }

  ghost predicate PolledInTime(script: Script, k: nat, round: seq<Event>) {
    round != [] && round[0] == Poll(k, round[0].from, round[0].from + script(k).took) && AfterPoll(k, round[1..])
  }

  // After the poll of an input round: every prompt, answered, in order and in time, and the update, accepted in time.
  ghost predicate InputServed(script: Script, k: nat, hasHandler: bool, tail: seq<Event>)
    requires script(k).shown.InputRequired?
  {
    var prompts, n := script(k).shown.prompts, |script(k).shown.prompts|;
    && hasHandler && script(k).shown.accepted && (forall i :: 0 <= i < n ==> Answerable(prompts[i]))
    && |tail| == n + 1 && PromptsDone(k, prompts, tail, n)
    && tail[n].Updated? && tail[n].until == tail[n].from + script(k).shown.updateTook
  }

  /** A round the drive went on from: its poll, and then the sleep, or every prompt in order and the update, all
      finished in time; only a sleep may have been cut at the deadline. */
  ghost predicate Served(script: Script, k: nat, hasHandler: bool, round: seq<Event>) {
    PolledInTime(script, k, round) &&
    match script(k).shown
    case Terminal(_) => false
    case Working(_) => |round| == 2 && round[1].Slept?
    case InputRequired(_, _, _) => InputServed(script, k, hasHandler, round[1..])
  }

  /** What the drive did in the round it ended in. */
  ghost predicate EndsIn(script: Script, k: nat, round: seq<Event>, result: Result) {
    match result
    case Final(status) => |round| == 1 && PolledInTime(script, k, round) && script(k).shown == Terminal(status)
    case Failed => PolledInTime(script, k, round)
    case TimedOut => round == [] || (round[0].Poll? && round[0].k == k && AfterPoll(k, round[1..]))
  }

  /** The rounds of a drive, the last one outermost, and when each began. */
  datatype Rounds = Start | Then(before: Rounds, round: seq<Event>, from: real)

  function Count(rounds: Rounds): nat {
    match rounds case Start => 0 case Then(before, _, _) => Count(before) + 1
  }

  function Flat(rounds: Rounds): seq<Event> {
    match rounds case Start => [] case Then(before, round, _) => Flat(before) + round
  }

  /** From `start` to `now` round after round was served, the k-th as the script has it. */
  ghost predicate AllServed(script: Script, setting: Setting, hasHandler: bool, deadline: Option<real>, rounds: Rounds,
                            start: real, now: real)
  {
    match rounds
    case Start => start == now
    case Then(before, round, from) =>
      && AllServed(script, setting, hasHandler, deadline, before, start, from)
      && Served(script, Count(before), hasHandler, round) && Proper(script, setting, deadline, round, from, now)
  }

  lemma {:induction false} NoneWasLast(script: Script, setting: Setting, hasHandler: bool, deadline: Option<real>, rounds: Rounds,
                                       start: real, now: real, k: nat)
    requires AllServed(script, setting, hasHandler, deadline, rounds, start, now) && k < Count(rounds)
    ensures !Over(script(k).shown) && !CannotServe(script(k).shown, hasHandler)
  {
    if k < Count(rounds.before) { NoneWasLast(script, setting, hasHandler, deadline, rounds.before, start, rounds.from, k); }
  }

  lemma {:induction false} ServedIsProper(script: Script, setting: Setting, hasHandler: bool, deadline: Option<real>, rounds: Rounds,
                                          start: real, now: real)
    requires AllServed(script, setting, hasHandler, deadline, rounds, start, now)
    ensures Proper(script, setting, deadline, Flat(rounds), start, now)
  {
    match rounds
    case Start =>
    case Then(before, round, from) =>
      ServedIsProper(script, setting, hasHandler, deadline, before, start, from);
      ProperConcat(script, setting, deadline, Flat(before), round, start, from, now);
  }

  // The numbers of the polls, in order.
  function Polls(events: seq<Event>): seq<nat> {
    if events == [] then []
    else
      var n := |events| - 1;
      Polls(events[..n]) + if events[n].Poll? then [events[n].k] else []
  }

  function Upto(n: nat): seq<nat> {
    if n == 0 then [] else Upto(n - 1) + [n - 1]
  }

  lemma {:induction false} PollsConcat(a: seq<Event>, b: seq<Event>)
    ensures Polls(a + b) == Polls(a) + Polls(b)
    decreases |b|
  {
    if b == [] {
      assert a + b == a;
    } else {
      var n := |b| - 1;
      assert (a + b)[..|a| + n] == a + b[..n];
      PollsConcat(a, b[..n]);
    }
  }

  lemma {:induction false} NoPolls(k: nat, tail: seq<Event>)
    requires AfterPoll(k, tail)
    ensures Polls(tail) == []
  {
    if tail != [] { NoPolls(k, tail[..|tail| - 1]); }
  }

  // A round polls once, and first.
  lemma OnePoll(k: nat, round: seq<Event>)
    requires round != [] && round[0].Poll? && round[0].k == k && AfterPoll(k, round[1..])
    ensures Polls(round) == [k]
  {
    assert round == [round[0]] + round[1..];
    PollsConcat([round[0]], round[1..]);
    NoPolls(k, round[1..]);
    assert [round[0]][..0] == [];
  }

  lemma {:induction false} PollsInOrder(script: Script, setting: Setting, hasHandler: bool, deadline: Option<real>, rounds: Rounds,
                                        start: real, now: real)
    requires AllServed(script, setting, hasHandler, deadline, rounds, start, now)
    ensures Polls(Flat(rounds)) == Upto(Count(rounds))
  {
    match rounds
    case Start =>
    case Then(before, round, from) =>
      PollsInOrder(script, setting, hasHandler, deadline, before, start, from);
      OnePoll(Count(before), round);
      PollsConcat(Flat(before), round);
  }

  /** `_answer_input_requests`: prompt by prompt through the elicitation handler, then one tasks/update; any
      call cut off ends the drive. */
  method AnswerInput(script: Script, setting: Setting, k: nat, hasHandler: bool, from: real, deadline: Option<real>)
    returns (now: real, verdict: Option<Result>, ghost tail: seq<Event>)
    requires Timely(script, k) && script(k).shown.InputRequired? && (deadline.Some? ==> from <= deadline.value)
    ensures from <= now && AfterPoll(k, tail) && Proper(script, setting, deadline, tail, from, now)
    ensures deadline.Some? ==> now <= deadline.value
    ensures verdict == Some(TimedOut) ==> deadline == Some(now)
    ensures verdict.Some? ==> !verdict.value.Final?
    ensures verdict == Some(Failed) ==> CannotServe(script(k).shown, hasHandler)
    ensures verdict.None? ==> InputServed(script, k, hasHandler, tail)
    ensures !hasHandler ==> tail == [] && verdict == Some(Failed)
  {
    var prompts := script(k).shown.prompts;
    now, tail, verdict := from, [], Some(Failed);
    if !hasHandler { return; }
    var answers;
    now, verdict, answers, tail := PromptAll(script, setting, k, from, deadline);
    if verdict.Some? { return; }
    assert prompts[..|prompts|] == prompts;
    now, verdict, tail := Deliver(script, setting, k, from, now, deadline, tail, answers);
  }

  // The tasks/update with all the answers.
  method Deliver(script: Script, setting: Setting, k: nat, start: real, from: real, deadline: Option<real>,
                 ghost tail: seq<Event>, answers: map<SurfacedKey, Json>)
    returns (now: real, verdict: Option<Result>, ghost longer: seq<Event>)
    requires Timely(script, k) && script(k).shown.InputRequired? && AnswersAll(script(k).shown.prompts, answers)
    requires Proper(script, setting, deadline, tail, start, from) && (deadline.Some? ==> from <= deadline.value)
    ensures from <= now && Proper(script, setting, deadline, longer, start, now)
    ensures deadline.Some? ==> now <= deadline.value
    ensures longer == tail || longer == tail + [Updated(k, answers, from, now)]
    ensures verdict == Some(TimedOut) ==> deadline == Some(now)
    ensures verdict == Some(Failed) ==> CannotServe(script(k).shown, true)
    ensures verdict.None? ==>
              script(k).shown.accepted && longer == tail + [Updated(k, answers, from, from + script(k).shown.updateTook)]
    ensures verdict.Some? ==> !verdict.value.Final?
  {
    if Expired(from, deadline) { return from, Some(TimedOut), tail; }
    var took := script(k).shown.updateTook;
    var e := Updated(k, answers, from, Until(from, took, deadline));
    Extend(script, setting, deadline, tail, start, e);
    now, longer := e.until, tail + [e];
    verdict := if !InTime(from, took, deadline) then Some(TimedOut)
               else if script(k).shown.accepted then None else Some(Failed);
  }

  // The first `n` requests have been answered, in order and in time.
  ghost predicate Asked(script: Script, k: nat, n: nat, tail: seq<Event>, answers: map<SurfacedKey, Json>)
    requires script(k).shown.InputRequired?
  {
    var prompts := script(k).shown.prompts;
    n <= |prompts| && |tail| == n && PromptsDone(k, prompts, tail, n) && AnswersAll(prompts[..n], answers)
    && forall i :: 0 <= i < n ==> Answerable(prompts[i])
  }

  // An elicitation the handler answers.
  ghost predicate Answerable(p: Prompt) {
    p.methodName == Some("elicitation/create") && p.handled.Answered?
  }

  lemma AskedMore(script: Script, k: nat, n: nat, tail: seq<Event>, answers: map<SurfacedKey, Json>, e: Event)
    requires script(k).shown.InputRequired? && Asked(script, k, n, tail, answers) && n < |script(k).shown.prompts|
    requires var p := script(k).shown.prompts[n];
             e == Prompted(k, p.key, e.from, e.from + p.took) && Answerable(p)
    ensures var p := script(k).shown.prompts[n];
            Asked(script, k, n + 1, tail + [e], answers[p.key := p.handled.content])
  {
    var prompts := script(k).shown.prompts;
    AnswersMore(prompts[..n], prompts[n], answers);
    assert prompts[..n + 1] == prompts[..n] + [prompts[n]];
  }

  // One request put to the handler.
  method PromptOne(script: Script, setting: Setting, k: nat, i: nat, start: real, from: real, deadline: Option<real>,
                   ghost tail: seq<Event>, answers: map<SurfacedKey, Json>)
    returns (now: real, verdict: Option<Result>, more: map<SurfacedKey, Json>, ghost longer: seq<Event>)
    requires Timely(script, k) && script(k).shown.InputRequired? && i < |script(k).shown.prompts|
    requires Asked(script, k, i, tail, answers) && AfterPoll(k, tail)
    requires Proper(script, setting, deadline, tail, start, from) && (deadline.Some? ==> from <= deadline.value)
    ensures from <= now && AfterPoll(k, longer) && Proper(script, setting, deadline, longer, start, now)
    ensures deadline.Some? ==> now <= deadline.value
    ensures verdict == Some(TimedOut) ==> deadline == Some(now)
    ensures verdict == Some(Failed) ==> CannotServe(script(k).shown, true)
    ensures if verdict.None? then Asked(script, k, i + 1, longer, more) else !verdict.value.Final?
  {
    var p := script(k).shown.prompts[i];
    if p.methodName != Some("elicitation/create") { return from, Some(Failed), answers, tail; }
    if Expired(from, deadline) { return from, Some(TimedOut), answers, tail; }
    var e := Prompted(k, p.key, from, Until(from, p.took, deadline));
    Extend(script, setting, deadline, tail, start, e);
    now, longer, more := e.until, tail + [e], answers;
    if !InTime(from, p.took, deadline) { return now, Some(TimedOut), answers, longer; }
    if p.handled.Refused? { return now, Some(Failed), answers, longer; }
    AskedMore(script, k, i, tail, answers, e);
    more, verdict := answers[p.key := p.handled.content], None;
  }

  // The loop over the requests.
  method PromptAll(script: Script, setting: Setting, k: nat, from: real, deadline: Option<real>)
    returns (now: real, verdict: Option<Result>, answers: map<SurfacedKey, Json>, ghost tail: seq<Event>)
    requires Timely(script, k) && script(k).shown.InputRequired? && (deadline.Some? ==> from <= deadline.value)
    ensures from <= now && AfterPoll(k, tail) && Proper(script, setting, deadline, tail, from, now)
    ensures deadline.Some? ==> now <= deadline.value
    ensures verdict == Some(TimedOut) ==> deadline == Some(now)
    ensures verdict == Some(Failed) ==> CannotServe(script(k).shown, true)
    ensures if verdict.None? then Asked(script, k, |script(k).shown.prompts|, tail, answers) else !verdict.value.Final?
  {
    now, verdict, tail, answers := from, None, [], map[];
    for i := 0 to |script(k).shown.prompts|
      invariant from <= now && AfterPoll(k, tail) && Proper(script, setting, deadline, tail, from, now)
      invariant deadline.Some? ==> now <= deadline.value
      invariant Asked(script, k, i, tail, answers) && verdict.None?
    {
      now, verdict, answers, tail := PromptOne(script, setting, k, i, from, now, deadline, tail, answers);
      if verdict.Some? { return; }
    }
  }

  lemma AnswersMore(prompts: seq<Prompt>, p: Prompt, answers: map<SurfacedKey, Json>)
    requires AnswersAll(prompts, answers) && p.handled.Answered?
    ensures AnswersAll(prompts + [p], answers[p.key := p.handled.content])
  {}

  // At most `left` more full sleeps fit before the deadline.
  ghost predicate Within(now: real, deadline: real, least: real, left: nat)
    decreases left
  {
    now >= deadline || (left > 0 && Within(now + least, deadline, least, left - 1))
  }

  lemma {:induction false} EnoughSleeps(now: real, deadline: real, least: real, left: nat)
    requires least > 0.0 && now + left as real * least >= deadline
    ensures Within(now, deadline, least, left)
    decreases left
  {
    if left > 0 && now < deadline {
      assert left as real * least == (left - 1) as real * least + least;
      EnoughSleeps(now + least, deadline, least, left - 1);
    }
  }

  lemma WithinStart(now: real, deadline: real, least: real) returns (left: nat)
    requires least > 0.0
    ensures Within(now, deadline, least, left)
  {
    left := 0;
    if now < deadline {
      var q := (deadline - now) / least;
      assert q * least == deadline - now;
      left := q.Floor + 1;
      Scales(q, left as real, least);
      EnoughSleeps(now, deadline, least, left);
    }
  }

  lemma Scales(a: real, b: real, least: real)
    requires a <= b && least > 0.0
    ensures a * least <= b * least
  {}

  lemma {:induction false} WithinLater(now: real, later: real, deadline: real, least: real, left: nat)
    requires Within(now, deadline, least, left) && now <= later
    ensures Within(later, deadline, least, left)
    decreases left
  {
    if left > 0 && now < deadline { WithinLater(now + least, later + least, deadline, least, left - 1); }
  }

  // A sleep uses one up.
  lemma WithinSleep(now: real, later: real, deadline: real, least: real, left: nat)
    requires Within(now, deadline, least, left) && now < deadline
    requires later >= now + least || later == deadline
    ensures left > 0 && Within(later, deadline, least, left - 1)
  {
    if later >= now + least { WithinLater(now + least, later, deadline, least, left - 1); }
  }

  predicate Over(shown: Shown) {
    shown.Terminal?
  }

  /** The loop comes to an end: with a deadline, because from some round on no input is asked for; without, because
      some round is the last. */
  ghost predicate Settles(script: Script, deadline: Option<real>, horizon: nat) {
    if deadline.None? then Over(script(horizon).shown)
    else forall k: nat :: k >= horizon ==> !script(k).shown.InputRequired?
  }

  // A round that found the task at work: sleep, and back off.
  method SleepOn(script: Script, setting: Setting, k: nat, start: real, from: real, deadline: Option<real>, backoff: real,
                 ghost poll: Event)
    returns (now: real, next: real, ghost round: seq<Event>)
    requires script(k).shown.Working? && backoff == BackoffAt(script, setting, k)
    requires Proper(script, setting, deadline, [poll], start, from) && (deadline.Some? ==> from <= deadline.value)
    requires poll == Poll(k, poll.from, poll.from + script(k).took)
    ensures (forall able :: Served(script, k, able, round)) && Proper(script, setting, deadline, round, start, now)
    ensures next == BackoffAt(script, setting, k + 1) && (deadline.Some? ==> now <= deadline.value)
    ensures now >= from + Least(setting) || (deadline.Some? && now == deadline.value)
  {
    var advertised := script(k).shown.advertised;
    var delay;
    delay, next := NextPollDelay(advertised, setting, backoff).0, NextPollDelay(advertised, setting, backoff).1;
    DelaySince(script, setting, k);
    var sleep := Slept(k, from, Until(from, delay, deadline));
    Extend(script, setting, deadline, [poll], start, sleep);
    now, round := sleep.until, [poll] + [sleep];
  }

  // A round that found the task waiting for input.
  method AnswerOn(script: Script, setting: Setting, k: nat, hasHandler: bool, start: real, from: real,
                  deadline: Option<real>, ghost poll: Event)
    returns (now: real, verdict: Option<Result>, ghost round: seq<Event>)
    requires Timely(script, k) && script(k).shown.InputRequired?
    requires Proper(script, setting, deadline, [poll], start, from) && (deadline.Some? ==> from <= deadline.value)
    requires poll == Poll(k, poll.from, poll.from + script(k).took)
    ensures from <= now && if verdict.None? then Served(script, k, hasHandler, round) else EndsIn(script, k, round, verdict.value)
    ensures round != [] && Proper(script, setting, deadline, round, start, now)
    ensures deadline.Some? ==> now <= deadline.value
    ensures verdict == Some(TimedOut) ==> deadline == Some(now)
    ensures verdict == Some(Failed) ==> CannotServe(script(k).shown, hasHandler)
    ensures !hasHandler ==> round == [poll] && verdict == Some(Failed)
  {
    ghost var tail;
    now, verdict, tail := AnswerInput(script, setting, k, hasHandler, from, deadline);
    round := [poll] + tail;
    ProperConcat(script, setting, deadline, [poll], tail, start, from, now);
    assert round[1..] == tail;
  }

  /** One round: its poll, and then a terminal reply ends the drive, an ask is answered, work is slept on. */
  method Round(script: Script, setting: Setting, k: nat, hasHandler: bool, from: real, deadline: Option<real>, backoff: real)
    returns (now: real, verdict: Option<Result>, next: real, ghost round: seq<Event>)
    requires Timely(script, k) && backoff == BackoffAt(script, setting, k) && (deadline.Some? ==> from < deadline.value)
    ensures from <= now && if verdict.None? then Served(script, k, hasHandler, round) else EndsIn(script, k, round, verdict.value)
    ensures round != [] && Proper(script, setting, deadline, round, from, now)
    ensures deadline.Some? ==> now <= deadline.value
    ensures verdict == Some(TimedOut) ==> deadline == Some(now)
    ensures verdict == Some(Failed) ==> CannotServe(script(k).shown, hasHandler)
    ensures verdict == Some(Failed) && !hasHandler ==> |round| == 1
    ensures verdict.None? ==> next == BackoffAt(script, setting, k + 1)
    ensures verdict.None? && script(k).shown.Working? ==>
              now >= from + Least(setting) || (deadline.Some? && now == deadline.value)
  {
    var exchange := script(k);
    var e := Poll(k, from, Until(from, exchange.took, deadline));
    assert [] + [e] == [e];
    Extend(script, setting, deadline, [], from, e);
    now, next, round := e.until, backoff, [e];
    if !InTime(from, exchange.took, deadline) { return now, Some(TimedOut), next, round; }
    match exchange.shown {
      case Terminal(status) => verdict := Some(Final(status));
      case InputRequired(_, _, _) =>
        now, verdict, round := AnswerOn(script, setting, k, hasHandler, from, now, deadline, e);
        next := MIN_POLL_INTERVAL;
      case Working(_) =>
        now, next, round := SleepOn(script, setting, k, from, now, deadline, backoff, e);
        verdict := None;
    }
  }

  // The loop.
  method DriveLoop(script: Script, setting: Setting, hasHandler: bool, start: real, deadline: Option<real>,
                   ghost horizon: nat)
    returns (result: Result, rounds: nat, now: real, ghost served: Rounds, ghost last: seq<Event>, ghost from: real)
    requires forall k: nat :: Timely(script, k)
    requires Settles(script, deadline, horizon)
    ensures Count(served) == rounds && AllServed(script, setting, hasHandler, deadline, served, start, from)
    ensures EndsIn(script, rounds, last, result) && Proper(script, setting, deadline, last, from, now)
    ensures result.TimedOut? ==> deadline.Some? && (now == deadline.value || now == start >= deadline.value)
    ensures deadline.None? ==> rounds <= horizon
    ensures result.Failed? ==> CannotServe(script(rounds).shown, hasHandler) && (!hasHandler ==> |last| == 1)
  {
    var backoff := MIN_POLL_INTERVAL;
    now, rounds, served, last, from := start, 0, Start, [], start;
    ghost var least, left := Least(setting), 0;
    if deadline.Some? { left := WithinStart(now, deadline.value, least); }
    while true
      invariant start <= now && (deadline.Some? ==> now == start || now <= deadline.value)
      invariant backoff == BackoffAt(script, setting, rounds)
      invariant Count(served) == rounds && AllServed(script, setting, hasHandler, deadline, served, start, now)
      invariant deadline.None? ==> rounds <= horizon
      invariant deadline.Some? ==> Within(now, deadline.value, least, left)
      decreases if rounds < horizon then horizon - rounds else 0, left
    {
      from := now;
      if Expired(now, deadline) {
        result, last := TimedOut, [];
        return;
      }
      var verdict;
      now, verdict, backoff, last := Round(script, setting, rounds, hasHandler, now, deadline, backoff);
      if verdict.Some? {
        result := verdict.value;
        return;
      }
      if deadline.Some? {
        if script(rounds).shown.Working? {
          WithinSleep(from, now, deadline.value, least, left);
          left := left - 1;
        } else {
          WithinLater(from, now, deadline.value, least, left);
        }
      }
      served, rounds := Then(served, last, from), rounds + 1;
    }
  }

  /** The whole drive: the rounds it served, one after another, and the round it ended in. It polls 0, 1, 2, ... each
      once; nothing starts or ends past start + timeout, over any mix of working and input rounds; a timeout is
      reported at the deadline and not before; a terminal reply is returned by the poll that got it, in time, and is
      the first; a failure has its cause in the last round; and every call and sleep is what the script and the
      cadence call for. */
  method DriveToTerminal(script: Script, setting: Setting, hasHandler: bool, start: real, timeout: Option<real>,
                         ghost horizon: nat)
    returns (result: Result, rounds: nat, now: real, ghost served: Rounds, ghost last: seq<Event>, ghost from: real)
    requires forall k: nat :: Timely(script, k)
    requires Settles(script, timeout, horizon)
    ensures var deadline := if timeout.None? then None else Some(start + timeout.value);
            && Count(served) == rounds && AllServed(script, setting, hasHandler, deadline, served, start, from)
            && EndsIn(script, rounds, last, result)
            && (result.TimedOut? ==> deadline.Some? && now == Max(start, deadline.value))
            && Orderly(Flat(served) + last, start, now, deadline)
            && AllFaithful(script, setting, deadline, Flat(served) + last)
    ensures Polls(Flat(served) + last) == Upto(if last == [] then rounds else rounds + 1)
    ensures timeout.None? ==> rounds <= horizon
    ensures forall k: nat :: k < rounds ==> !Over(script(k).shown) && !CannotServe(script(k).shown, hasHandler)
    ensures result.Failed? ==> CannotServe(script(rounds).shown, hasHandler) && (!hasHandler ==> |last| == 1)
  {
    var deadline := if timeout.None? then None else Some(start + timeout.value);
    result, rounds, now, served, last, from := DriveLoop(script, setting, hasHandler, start, deadline, horizon);
    DriveEnds(script, setting, hasHandler, deadline, served, last, start, from, now, rounds, result);
    DrivePolls(script, setting, hasHandler, deadline, served, last, start, from, rounds, result);
    forall k: nat | k < rounds ensures !Over(script(k).shown) && !CannotServe(script(k).shown, hasHandler) {
      NoneWasLast(script, setting, hasHandler, deadline, served, start, from, k);
    }
  }

  lemma DriveEnds(script: Script, setting: Setting, hasHandler: bool, deadline: Option<real>, served: Rounds, last: seq<Event>,
                  start: real, from: real, now: real, rounds: nat, result: Result)
    requires Count(served) == rounds && AllServed(script, setting, hasHandler, deadline, served, start, from)
    requires EndsIn(script, rounds, last, result) && Proper(script, setting, deadline, last, from, now)
    ensures Orderly(Flat(served) + last, start, now, deadline)
    ensures AllFaithful(script, setting, deadline, Flat(served) + last)
  {
    ServedIsProper(script, setting, hasHandler, deadline, served, start, from);
    ProperConcat(script, setting, deadline, Flat(served), last, start, from, now);
    ProperOrderly(script, setting, deadline, Flat(served) + last, start, now);
    ProperFaithful(script, setting, deadline, Flat(served) + last, start, now);
  }

  lemma DrivePolls(script: Script, setting: Setting, hasHandler: bool, deadline: Option<real>, served: Rounds, last: seq<Event>,
                   start: real, from: real, rounds: nat, result: Result)
    requires Count(served) == rounds && AllServed(script, setting, hasHandler, deadline, served, start, from)
    requires EndsIn(script, rounds, last, result)
    ensures Polls(Flat(served) + last) == Upto(if last == [] then rounds else rounds + 1)
  {
    PollsInOrder(script, setting, hasHandler, deadline, served, start, from);
    PollsConcat(Flat(served), last);
    if last != [] { OnePoll(rounds, last); }
  }
}
