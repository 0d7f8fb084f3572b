/** Concrete tasks in which the runs of `TaskOvertaken` and `TaskStalled` take place: a tool that asks two questions and
    then does whatever it likes. */
module TaskInstances {
  import opened TaskTypes
  import opened TaskProtocol
  import opened TaskInvariant
  import opened TaskRuns
  import opened TaskTheorems
  import opened TaskSolo
  import opened TaskOvertaken
  import opened TaskStalled

  /* --------------------------------------------------------- a leg that parks */

  lemma {:induction false} LongerThanAll(used: set<string>) returns (n: nat)
    ensures forall k :: k in used ==> |k| < n
    decreases used
  {
    n := 0;
    if used != {} {
      var k :| k in used;
      n := LongerThanAll(used - {k});
      n := n + |k| + 1;
    }
  }

  // Keys never run out.
  lemma FreshKey(used: set<string>) returns (k: string)
    ensures k !in used
  {
    var n := LongerThanAll(used);
    k := seq(n, i => 'k');
  }

  /** What the worker of `leg` has changed: its execution, its hashes, what a park consumes and carries, and minted keys
      that nobody had named. */
  ghost predicate OnlyParked(w: World, w': World, leg: nat) {
    && leg in w'.execs && w'.execs == w.execs[leg := w'.execs[leg]]
    && w'.(execs := w.execs, requests := w.requests, surfaced := w.surfaced, responses := w.responses,
           carried := w.carried, minted := w.minted) == w
    && (forall m: nat :: m != leg ==> Req(w', m) == Req(w, m) && Smap(w', m) == Smap(w, m))
    && w.minted <= w'.minted && w'.minted * w.named <= w.minted
  }

  // One step of a worker, given where it leads.
  lemma ThenWork(c: Config, a: Sys, ls: seq<Label>, q: Sys, w: World, leg: nat, act: Act, w': World)
    returns (more: seq<Label>)
    requires Runs(c, a, ls, q.(w := w)) && CanAct(w, leg, act) && w' == ActNext(c, w, leg, act)
    ensures more == ls + [Work(leg, act)] && Runs(c, a, more, q.(w := w'))
  {
    more := ls + [Work(leg, act)];
    Then(c, a, ls, q.(w := w), Work(leg, act), q.(w := w'));
  }

  lemma MintOne(c: Config, a: Sys, ls0: seq<Label>, q: Sys, leg: nat, args: Json, todo: Requests, st: Option<string>,
                tool: ToolKey)
    returns (ls: seq<Label>, b: Sys)
    requires Runs(c, a, ls0, q) && leg in q.w.execs && q.w.execs[leg] == Running(args, Parking(todo, st)) && tool in todo
    ensures Runs(c, a, ls, b) && b.pcs == q.pcs && OnlyParked(q.w, b.w, leg)
    ensures b.w.execs[leg] == Running(args, Parking(todo - {tool}, st))
  {
    var key := FreshKey(q.w.minted + q.w.named);
    var half := ActNext(c, q.w, leg, MintRequest(tool, key));
    ls := ThenWork(c, a, ls0, q, q.w, leg, MintRequest(tool, key), half);
    var both := ActNext(c, half, leg, RecordMap);
    ls := ThenWork(c, a, ls, q, half, leg, RecordMap, both);
    b := q.(w := both);
    MintedOnly(c, q.w, half, both, leg, tool, key);
  }

  lemma MintedOnly(c: Config, w: World, half: World, w': World, leg: nat, tool: ToolKey, key: SurfacedKey)
    requires CanAct(w, leg, MintRequest(tool, key)) && half == ActNext(c, w, leg, MintRequest(tool, key))
    requires CanAct(half, leg, RecordMap) && w' == ActNext(c, half, leg, RecordMap)
    ensures OnlyParked(w, w', leg)
  {
    assert w'.execs == w.execs[leg := w'.execs[leg]];
  }

  lemma OnlyParkedOn(w: World, m: World, w': World, leg: nat)
    requires OnlyParked(w, m, leg) && OnlyParked(m, w', leg)
    ensures OnlyParked(w, w', leg)
  {
    assert w'.execs == w.execs[leg := w'.execs[leg]];
  }

  // The two steps after the last question, and the third.
  lemma ParkCarries(c: Config, a: Sys, ls0: seq<Label>, q: Sys, leg: nat, args: Json, st: Option<string>)
    returns (ls: seq<Label>, b: Sys)
    requires Runs(c, a, ls0, q) && leg in q.w.execs && q.w.execs[leg] == Running(args, Parking(map[], st))
    ensures Runs(c, a, ls, b)
    ensures b == q.(w := q.w.(responses := None, carried := st, execs := q.w.execs[leg := Running(args, Parked)]))
  {
    var w1 := q.w.(responses := None, execs := q.w.execs[leg := Running(args, Consumed(st))]);
    ls := ThenWork(c, a, ls0, q, q.w, leg, DropAnswers, w1);
    var w2 := w1.(carried := st, execs := w1.execs[leg := Running(args, Parked)]);
    ls := ThenWork(c, a, ls, q, w1, leg, CarryState, w2);
    b := q.(w := w2);
    assert w2.execs == q.w.execs[leg := Running(args, Parked)];
  }

  lemma ParkEnds(c: Config, a: Sys, ls0: seq<Label>, q: Sys, leg: nat, args: Json, st: Option<string>)
    returns (ls: seq<Label>, b: Sys)
    requires Runs(c, a, ls0, q) && leg in q.w.execs && q.w.execs[leg] == Running(args, Parking(map[], st))
    ensures Runs(c, a, ls, b) && b.pcs == q.pcs && OnlyParked(q.w, b.w, leg)
    ensures b.w.execs[leg] == Completed(ParkedAsk) && b.w.responses == None && b.w.carried == st
  {
    var r;
    ls, r := ParkCarries(c, a, ls0, q, leg, args, st);
    var w3 := r.w.(execs := r.w.execs[leg := Completed(ParkedAsk)]);
    ls := ThenWork(c, a, ls, r, r.w, leg, Finish, w3);
    b := r.(w := w3);
    EndedOnly(q.w, w3, leg);
  }

  lemma EndedOnly(w: World, w': World, leg: nat)
    requires w' == w.(responses := w'.responses, carried := w'.carried, execs := w'.execs)
    requires leg in w'.execs && w'.execs == w.execs[leg := w'.execs[leg]]
    ensures OnlyParked(w, w', leg)
  {}

  /** A leg that asks parks, question by question. */
  lemma {:induction false} LegParks(c: Config, a: Sys, ls0: seq<Label>, q: Sys, leg: nat, args: Json, todo: Requests,
                                    st: Option<string>)
    returns (ls: seq<Label>, b: Sys)
    requires Runs(c, a, ls0, q) && leg in q.w.execs && q.w.execs[leg] == Running(args, Parking(todo, st))
    ensures Runs(c, a, ls, b) && b.pcs == q.pcs && OnlyParked(q.w, b.w, leg)
    ensures b.w.execs[leg] == Completed(ParkedAsk) && b.w.responses == None && b.w.carried == st
    decreases todo.Keys
  {
    if todo == map[] {
      ls, b := ParkEnds(c, a, ls0, q, leg, args, st);
    } else {
      var tool :| tool in todo;
      var m;
      ls, m := MintOne(c, a, ls0, q, leg, args, todo, st, tool);
      assert (todo - {tool}).Keys == todo.Keys - {tool};
      ls, b := LegParks(c, a, ls, m, leg, args, todo - {tool}, st);
      OnlyParkedOn(q.w, m.w, b.w, leg);
    }
  }

  // A queued leg whose body asks.
  lemma LegAsks(c: Config, a: Sys, ls0: seq<Label>, q: Sys, leg: nat) returns (ls: seq<Label>, b: Sys)
    requires Runs(c, a, ls0, q) && leg in q.w.execs && q.w.execs[leg].Queued?
    requires VerdictOf(c, Call(leg, q.w.execs[leg].args, q.w.carried, q.w.responses)).Parks?
    ensures Runs(c, a, ls, b) && b.pcs == q.pcs && b.w.execs == q.w.execs[leg := Completed(ParkedAsk)]
    ensures var call := Call(leg, q.w.execs[leg].args, q.w.carried, q.w.responses);
            OnlyParked(q.w.(log := q.w.log + [call]), b.w, leg)
    ensures b.w.responses == None
  {
    var call := Call(leg, q.w.execs[leg].args, q.w.carried, q.w.responses);
    var v := VerdictOf(c, call);
    var r;
    ls, r := LegBody(c, a, ls0, q, leg);
    ls, b := LegParks(c, a, ls, r, leg, q.w.execs[leg].args, v.requests, v.state);
    assert b.w.execs == q.w.execs[leg := Completed(ParkedAsk)];
    AskedOnly(q.w, call, r.w, b.w, leg);
  }

  lemma AskedOnly(w: World, call: Call, r: World, w': World, leg: nat)
    requires leg in w.execs && leg in r.execs && r == w.(execs := w.execs[leg := r.execs[leg]], log := w.log + [call])
    requires OnlyParked(r, w', leg)
    ensures OnlyParked(w.(log := w.log + [call]), w', leg)
  {
    assert w'.execs == w.execs[leg := w'.execs[leg]];
    assert forall m: nat :: Req(r, m) == Req(w, m) && Smap(r, m) == Smap(w, m);
  }

  /* ---------------------------------------------------- a next leg that parks */

  /** From every live parked task, and every payload that answers all of its outstanding keys, if the next leg asks
      again: a run in which that leg has parked while the update still waits for Docket to show it. */
  lemma ParksUnseen(c: Config, s: Sys, p: Payload, t: Translation) returns (ls: seq<Label>, b: Sys)
    requires ParkedFor(c, s, p, t) && Req(s.w, s.w.number).Keys <= t.answered
    requires VerdictOf(c, Call(s.w.number + 1, s.w.args, s.w.carried, Some(Responses(s.w) + t.answers))).Parks?
    ensures Runs(c, s, ls, b) && PcOf(b, 1) == Update(p, Awaiting(s.w.number)) && s.w.number + 1 !in b.w.visible
    ensures s.w.number + 1 in b.w.execs
    ensures Top(b.w) == s.w.number + 1 && b.w.execs[s.w.number + 1] == Completed(ParkedAsk)
    ensures !b.w.cancelled && WaitsParked(b.w) && b.w.responses == None && KeysOf(p) * b.w.minted <= b.w.shown
    ensures t == Translate(c, Req(b.w, s.w.number), Smap(b.w, s.w.number), p)
  {
    ParkedFacts(c, s, p, t);
    var q;
    ls, q := EnqueuedUnseen(c, s, p, t);
    NotSeen(c, s);
    ls, b := LegAsks(c, s, ls, q, s.w.number + 1);
  }

  lemma NotSeen(c: Config, s: Sys)
    requires Reachable(c, s)
    ensures s.w.visible <= s.w.execs.Keys
  {
    ReachableCore(c, s);
  }

  lemma EnqueuedUnseen(c: Config, s: Sys, p: Payload, t: Translation) returns (ls: seq<Label>, q: Sys)
    requires ParkedFor(c, s, p, t) && Req(s.w, s.w.number).Keys <= t.answered
    ensures Runs(c, s, ls, q) && PcOf(q, 1) == Update(p, Awaiting(s.w.number))
    ensures q.w == EnqueueLeg(StoreAnswers(Acquire(s.w.(named := s.w.named + KeysOf(p)), 1), s.w.number, t.answers), s.w.number + 1)
  {
    var leg := s.w.number;
    var named := s.w.(named := s.w.named + KeysOf(p));
    var stored := StoreAnswers(Acquire(named, 1), leg, t.answers);
    var u := With(s, named, 1, Update(p, Arrived));
    ls := ReachEnqueuing(c, s, u, named, p, t);
    ls := ThenMove(c, s, u, ls, 1, stored, Update(p, Enqueuing(leg)), true, EnqueueLeg(stored, leg + 1), Update(p, Awaiting(leg)));
    q := With(u, EnqueueLeg(stored, leg + 1), 1, Update(p, Awaiting(leg)));
  }

  /** Such a run, the raise, and the same payload once more: it is stored where the answers to the next leg belong. */
  lemma ParkedLegIsMixed(c: Config, s: Sys, p: Payload, t: Translation)
    returns (ls: seq<Label>, m: Sys, more: seq<Label>, b: Sys)
    requires ParkedFor(c, s, p, t) && Req(s.w, s.w.number).Keys <= t.answered
    requires VerdictOf(c, Call(s.w.number + 1, s.w.args, s.w.carried, Some(Responses(s.w) + t.answers))).Parks?
    ensures Runs(c, s, ls, m) && PcOf(m, 1) == Update(p, Awaiting(s.w.number)) && s.w.number + 1 !in m.w.visible
    ensures Runs(c, WaitRanOut(m, 1), more, b)
    ensures Top(b.w) == s.w.number + 1 && WaitsParked(b.w) && b.w.responses == Some(t.answers)
  {
    ls, m := ParksUnseen(c, s, p, t);
    ReachableRun(c, s, ls, m);
    more, b := RetryMixesLegs(c, m, 1, p, s.w.number, p, t);
  }

  /* ------------------------------------------- a pointer without its number */

  /** From every live parked task, complete answers and a next leg that returns: a run in which that leg has returned
      between the two writes of the re-entry, and tasks/get reports the questions just answered once more. */
  lemma StaleQuestions(c: Config, s: Sys, p: Payload, t: Translation, v: Json) returns (ls: seq<Label>, b: Sys)
    requires ParkedFor(c, s, p, t) && Req(s.w, s.w.number).Keys <= t.answered
    requires VerdictOf(c, Call(s.w.number + 1, s.w.args, s.w.carried, Some(Responses(s.w) + t.answers))) == Ends(Returned(v))
    ensures Runs(c, s, ls, b) && PcOf(b, 1) == Update(p, SwappingNumber(s.w.number)) && !b.w.cancelled
    ensures b.w.pointer == s.w.number + 1 && b.w.pointer in b.w.execs && b.w.execs[b.w.pointer] == Completed(Returned(v))
    ensures Observe(b.w) == InputRequired(Req(s.w, s.w.number))
  {
    ParkedFacts(c, s, p, t);
    var q;
    ls, q := PointerSwapped(c, s, p, t);
    var r;
    ls, r := LegBody(c, s, ls, q, s.w.number + 1);
    b := r.(w := SetExec(r.w, s.w.number + 1, Completed(Returned(v))));
    Then(c, s, ls, r, Work(s.w.number + 1, Finish), b);
    ls := ls + [Work(s.w.number + 1, Finish)];
    assert b.w.requests == s.w.requests;
  }

  lemma PointerSwapped(c: Config, s: Sys, p: Payload, t: Translation) returns (ls: seq<Label>, q: Sys)
    requires ParkedFor(c, s, p, t) && Req(s.w, s.w.number).Keys <= t.answered
    ensures Runs(c, s, ls, q) && PcOf(q, 1) == Update(p, SwappingNumber(s.w.number))
    ensures var leg := s.w.number;
            q.w == EnqueueLeg(StoreAnswers(Acquire(s.w.(named := s.w.named + KeysOf(p)), 1), leg, t.answers), leg + 1)
                   .(visible := s.w.visible + {leg + 1}, pointer := leg + 1)
  {
    ParkedFacts(c, s, p, t);
    var leg := s.w.number;
    var e;
    ls, e := EnqueuedUnseen(c, s, p, t);
    var seen := e.(w := e.w.(visible := e.w.visible + {leg + 1}));
    Then(c, s, ls, e, Propagate(leg + 1), seen);
    assert With(seen, seen.w, 1, Update(p, Awaiting(leg))) == seen;
    ls := ThenMove(c, s, seen, ls + [Propagate(leg + 1)], 1, seen.w, Update(p, Awaiting(leg)), true, seen.w, Update(p, Swapping(leg)));
    ls := ThenMove(c, s, seen, ls, 1, seen.w, Update(p, Swapping(leg)), true, seen.w.(pointer := leg + 1), Update(p, SwappingNumber(leg)));
    q := With(seen, seen.w.(pointer := leg + 1), 1, Update(p, SwappingNumber(leg)));
  }

  /* ---------------------------------------------------------- such a task exists */

  const QUESTION: Request := Request(Some("elicitation/create"), "?")
  const BOTH: Requests := map["a" := QUESTION, "b" := QUESTION]

  // A tool that asks two questions, and then does `next`.
  function AskFirst(call: Call, next: Outcome): Outcome {
    if call.leg == 1 then Ask(BOTH, None) else next
  }

  function Demo(next: Outcome): Config {
    TaskOf("{}", (call: Call) => AskFirst(call, next), (kind: ResultKind, raw: Json) => Some(Answer(kind, raw)))
  }

  lemma DemoVerdict(call: Call, next: Outcome)
    ensures call.leg == 1 ==> VerdictOf(Demo(next), call) == Parks(BOTH, None)
    ensures call.leg != 1 ==> VerdictOf(Demo(next), call) == Classify(next)
  {
    assert "a" in BOTH;
    TaskOfWraps("{}", (call: Call) => AskFirst(call, next), Demo(next).validate, call);
  }

  // Leg 1 of the demo task has parked, with nothing else going on.
  ghost predicate DemoParked(next: Outcome, s: Sys) {
    && Reachable(Demo(next), s) && s.pcs == map[] && WaitsParked(s.w) && !s.w.locked && !s.w.cancelled
    && s.w.number == Top(s.w) == 1 && s.w.log == [Call(1, "{}", None, None)] && s.w.responses == None && s.w.failed == {}
  }

  lemma DemoParks(next: Outcome) returns (s: Sys)
    ensures DemoParked(next, s)
  {
    var c, i := Demo(next), Init(Demo(next));
    DemoVerdict(Call(1, "{}", None, None), next);
    assert Runs(c, i, [], i);
    var ls;
    ls, s := LegAsks(c, i, [], i, 1);
  }

  lemma DemoShows(next: Outcome) returns (s: Sys)
    ensures DemoParked(next, s) && Req(s.w, 1).Keys <= s.w.shown
  {
    var q := DemoParks(next);
    WaitingNeverLooksFinished(Demo(next), q);
    s := q.(w := Show(q.w));
    ReachableNext(Demo(next), q, Get);
    assert Req(s.w, 1) == Req(q.w, 1);
  }

  lemma OneAnswer(next: Outcome, r: map<SurfacedKey, Request>, m: map<SurfacedKey, ToolKey>, k: SurfacedKey)
    requires k in r && k in m
    ensures Translate(Demo(next), r, m, [(k, "yes")]).Translated? && Translate(Demo(next), r, m, [(k, "yes")]).answered == {k}
    ensures IsElicitation(r[k]) ==> Translate(Demo(next), r, m, [(k, "yes")]).answers == map[m[k] := Answer(Elicit, "yes")]
    ensures Translate(Demo(next), r, m, [(k, "yes")]).answers.Keys == {m[k]}
    ensures KeysOf([(k, "yes")]) == {k}
  {}

  lemma TwoAnswers(next: Outcome, r: map<SurfacedKey, Request>, m: map<SurfacedKey, ToolKey>, k1: SurfacedKey, k2: SurfacedKey)
    requires k1 in r && k1 in m && k2 in r && k2 in m && k1 != k2
    ensures var t := Translate(Demo(next), r, m, [(k1, "yes"), (k2, "yes")]);
            t.Translated? && t.answers != map[] && t.answered == {k1, k2}
    ensures KeysOf([(k1, "yes"), (k2, "yes")]) == {k1, k2}
  {
    var p := [(k1, "yes"), (k2, "yes")];
    assert p[..1] == [(k1, "yes")] && p[0].0 == k1 && p[1].0 == k2;
    OneAnswer(next, r, m, k1);
    assert m[k2] in Translate(Demo(next), r, m, p).answers;
  }

  lemma DemoConserved(next: Outcome, s: Sys)
    requires DemoParked(next, s)
    ensures AskNow(Demo(next), s.w) == BOTH && Req(s.w, 1).Keys == Smap(s.w, 1).Keys
    ensures OneToOne(Smap(s.w, 1)) && Tools(Smap(s.w, 1), Smap(s.w, 1).Keys) == BOTH.Keys
  {
    Conservation(Demo(next), s);
    DemoVerdict(Call(1, "{}", None, None), next);
  }

  // The two questions of the demo task are outstanding, each under a key of its own.
  lemma DemoKeys(next: Outcome, s: Sys) returns (k1: SurfacedKey, k2: SurfacedKey)
    requires DemoParked(next, s)
    ensures Req(s.w, 1).Keys == {k1, k2} && k1 in Smap(s.w, 1) && k2 in Smap(s.w, 1) && k1 != k2
    ensures AskNow(Demo(next), s.w) == BOTH
  {
    DemoConserved(next, s);
    assert "a" in BOTH && "b" in BOTH;
    k1, k2 := TwoKeys(Smap(s.w, 1));
  }

  lemma TwoKeys(m: map<SurfacedKey, ToolKey>) returns (k1: SurfacedKey, k2: SurfacedKey)
    requires OneToOne(m) && Tools(m, m.Keys) == {"a", "b"}
    ensures m.Keys == {k1, k2} && k1 != k2
  {
    assert "a" in Tools(m, m.Keys) && "b" in Tools(m, m.Keys);
    k1 :| k1 in m && m[k1] == "a";
    k2 :| k2 in m && m[k2] == "b";
    forall k | k in m.Keys ensures k in {k1, k2} { assert m[k] in Tools(m, m.Keys); }
  }

  /** A reachable parked task with two outstanding keys, one of which the client answers. */
  lemma DemoIsParked() returns (c: Config, s: Sys, p: Payload, t: Translation)
    ensures ParkedFor(c, s, p, t) && Req(s.w, s.w.number).Keys - t.answered != {}
    ensures AskNow(c, s.w) == BOTH && Responses(s.w) == map[] && s.w.number !in s.w.failed
    ensures exists tool :: t.answers == map[tool := Answer(Elicit, "yes")]
  {
    var next := Value("v");
    c := Demo(next);
    s := DemoShows(next);
    var k1, k2 := DemoKeys(next, s);
    OneAnswer(next, Req(s.w, 1), Smap(s.w, 1), k1);
    p, t := [(k1, "yes")], Translate(c, Req(s.w, 1), Smap(s.w, 1), [(k1, "yes")]);
    assert k2 in Req(s.w, 1).Keys - t.answered;
    Conservation(c, s);
    assert t.answers == map[Smap(s.w, 1)[k1] := Answer(Elicit, "yes")];
  }

  // The same task, and a client that answers both.
  lemma DemoAnswered(next: Outcome) returns (s: Sys, p: Payload, t: Translation)
    ensures ParkedFor(Demo(next), s, p, t) && Req(s.w, s.w.number).Keys <= t.answered && s.w.number == 1
    ensures forall call: Call :: call.leg == s.w.number + 1 ==> VerdictOf(Demo(next), call) == Classify(next)
  {
    s := DemoShows(next);
    var k1, k2 := DemoKeys(next, s);
    TwoAnswers(next, Req(s.w, 1), Smap(s.w, 1), k1, k2);
    p := [(k1, "yes"), (k2, "yes")];
    t := Translate(Demo(next), Req(s.w, 1), Smap(s.w, 1), p);
    forall call: Call | call.leg == 2 ensures VerdictOf(Demo(next), call) == Classify(next) { DemoVerdict(call, next); }
  }

  /** A reachable parked task and a client that answers both of its keys; the next leg would return. */
  lemma DemoCompletes() returns (c: Config, s: Sys, p: Payload, t: Translation)
    ensures ParkedFor(c, s, p, t) && Req(s.w, s.w.number).Keys <= t.answered
    ensures VerdictOf(c, Call(s.w.number + 1, s.w.args, s.w.carried, Some(Responses(s.w) + t.answers))) == Ends(Returned("v"))
  {
    c := Demo(Value("v"));
    s, p, t := DemoAnswered(Value("v"));
  }

  /** The same of a tool that asks again. */
  lemma DemoAsksAgain() returns (c: Config, s: Sys, p: Payload, t: Translation)
    ensures ParkedFor(c, s, p, t) && Req(s.w, s.w.number).Keys <= t.answered
    ensures VerdictOf(c, Call(s.w.number + 1, s.w.args, s.w.carried, Some(Responses(s.w) + t.answers))) == Parks(BOTH, None)
  {
    assert "a" in BOTH;
    c := Demo(Ask(BOTH, None));
    s, p, t := DemoAnswered(Ask(BOTH, None));
  }
}
