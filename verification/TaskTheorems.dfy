/** What the protocol promises, over every run. */
module TaskTheorems {
  import opened TaskTypes
  import opened TaskProtocol
  import opened TaskInvariant
  import opened TaskRuns

  /* ------------------------------------------- refinement of the foreground loop */

  /** The foreground loop, given the answers the client gives to each ask in turn: call the tool, take its
      ask, collect an answer to every request of it, call the tool again. `None` if some answers do not fit. */
  ghost function Foreground(c: Config, answers: seq<Answers>): (r: Option<seq<Call>>)
    ensures r.Some? ==> |r.value| == |answers| + 1
  {
    if answers == [] then Some([Call(1, c.args, None, None)])
    else
      match Foreground(c, answers[..|answers| - 1])
      case None => None
      case Some(calls) =>
        var last := calls[|calls| - 1];
        var given := answers[|answers| - 1];
        if DidPark(c, last) && given.Keys == AskedBy(c, last).Keys
        then Some(calls + [Call(|calls| + 1, c.args, CarriedBy(c, last), Some(given))])
        else None
  }

  ghost function AnswersSeen(log: seq<Call>): (r: seq<Answers>)
    requires log != []
    ensures |r| == |log| - 1
  {
    seq(|log| - 1, i requires 0 <= i < |log| - 1 => log[i + 1].responses.GetOr(map[]))
  }

  lemma {:induction false} LogIsForeground(c: Config, w: World, k: nat)
    requires LogInv(c, w) && 1 <= k <= |w.log| && (k < Top(w) || !w.late)
    ensures Foreground(c, AnswersSeen(w.log[..k])) == Some(w.log[..k])
    decreases k
  {
    assert Linked(c, w, k - 1);
    if k == 1 {
      assert w.log[..1] == [w.log[0]];
    } else {
      LogIsForeground(c, w, k - 1);
      var seen := AnswersSeen(w.log[..k]);
      assert seen[..k - 2] == AnswersSeen(w.log[..k - 1]);
      assert w.log[..k] == w.log[..k - 1] + [w.log[k - 1]];
    }
  }

  // The foreground loop takes a set of answers exactly if they are to the keys the last call asked for.
  lemma ForegroundTakes(c: Config, calls: seq<Call>, call: Call, given: Answers)
    requires calls != [] && Foreground(c, AnswersSeen(calls)) == Some(calls) && DidPark(c, calls[|calls| - 1])
    requires call == Call(|calls| + 1, c.args, CarriedBy(c, calls[|calls| - 1]), Some(given))
    ensures Foreground(c, AnswersSeen(calls + [call])) == Some(calls + [call])
            <==> given.Keys == AskedBy(c, calls[|calls| - 1]).Keys
  {
    var seen := AnswersSeen(calls + [call]);
    assert seen[..|calls| - 1] == AnswersSeen(calls) && seen[|calls| - 1] == given;
  }

  /** Successive legs see exactly what successive calls of the foreground loop see: leg 1 nothing, leg n+1
      the state leg n carried and answers to exactly the keys leg n asked for, later answers winning over
      earlier ones. Only a last leg enqueued after the cancellation marker can see less: the log is the foreground
      loop's if and only if the answers accepted for the leg before it are to all the keys that one asked for. */
  lemma RefinesForeground(c: Config, s: Sys)
    requires Reachable(c, s) && s.w.log != []
    ensures !s.w.late ==> Foreground(c, AnswersSeen(s.w.log)) == Some(s.w.log)
    ensures |s.w.log| > 1 ==>
      var n := |s.w.log| - 1;
      var before := s.w.log[..n];
      && Foreground(c, AnswersSeen(before)) == Some(before)
      && (Foreground(c, AnswersSeen(s.w.log)) == Some(s.w.log)
          <==> Collected(s.w.acks, n).Keys == AskedBy(c, s.w.log[n - 1]).Keys)
    ensures forall i :: 0 < i < |s.w.log| ==> s.w.log[i].responses == Some(Collected(s.w.acks, i))
    ensures s.w.late ==> s.w.cancelled
  {
    ReachableCore(c, s);
    var w := s.w;
    if !w.late {
      LogIsForeground(c, w, |w.log|);
      assert w.log[..|w.log|] == w.log;
    }
    if |w.log| > 1 { LastIsTaken(c, w, |w.log| - 1); }
    forall i | 0 < i < |w.log| ensures w.log[i].responses == Some(Collected(w.acks, i)) {
      assert Linked(c, w, i);
    }
  }

  lemma LastIsTaken(c: Config, w: World, n: nat)
    requires LogInv(c, w) && 1 <= n && |w.log| == n + 1
    ensures var before := w.log[..n];
            && Foreground(c, AnswersSeen(before)) == Some(before)
            && (Foreground(c, AnswersSeen(w.log)) == Some(w.log) <==> Collected(w.acks, n).Keys == AskedBy(c, w.log[n - 1]).Keys)
  {
    LogIsForeground(c, w, n);
    assert Linked(c, w, n);
    assert w.log == w.log[..n] + [w.log[n]];
    ForegroundTakes(c, w.log[..n], w.log[n], Collected(w.acks, n));
  }

  lemma EndOfLog(c: Config, w: World, at: Pc)
    requires CurrentInv(c, w, at) && LegsInv(w) && WindowInv(w, at)
    ensures Observe(w).Done? ==> RanTo(c, w, Ends(Observe(w).ending)) && w.pointer == Top(w) && Observe(w).ending != ParkedAsk
    ensures Observe(w).FailedReply? ==> RanTo(c, w, Fails(Observe(w).error)) && w.pointer == Top(w)
    ensures w.pointer in w.visible && w.pointer in w.execs
    ensures WaitsParked(w) && !w.cancelled ==> Observe(w).InputRequired?
  {}

  /** Whatever tasks/get reports as the end of the task is what the last call of the foreground loop, fed the
      same answers, returned or failed with. */
  lemma ReportsForegroundResult(c: Config, s: Sys)
    requires Reachable(c, s) && (Observe(s.w).Done? || Observe(s.w).FailedReply?)
    ensures s.w.log != [] && Foreground(c, AnswersSeen(s.w.log)) == Some(s.w.log)
    ensures VerdictOf(c, LastCall(s.w)) ==
            match Observe(s.w) case Done(e) => Ends(e) case FailedReply(e) => Fails(e)
  {
    ReachableInv(c, s);
    EndOfLog(c, s.w, At(s));
    RefinesForeground(c, s);
  }

  /* --------------------------------------------------------- how a leg ends */

  // What an execution ends as when the body's verdict is `v`.
  function EndOf(v: Verdict): Exec {
    match v
    case Ends(e) => Completed(e)
    case Fails(e) => Exec.Failed(e)
    case Parks(_, _) => Completed(ParkedAsk)
  }

  // Leg `leg` has been called, last of all, and its execution ended as the call decided.
  ghost predicate EndedAsDecided(c: Config, w: World, leg: nat) {
    && |w.log| == leg > 0 && LastCall(w).leg == leg
    && leg in w.execs && w.execs[leg] == EndOf(VerdictOf(c, LastCall(w)))
  }

  lemma DecidedRan(c: Config, w: World, at: Pc)
    requires CurrentInv(c, w, at) && (w.execs[Top(w)].Completed? || w.execs[Top(w)].Failed?)
    ensures w.log != [] && |w.log| == Top(w) && w.execs[Top(w)] == EndOf(VerdictOf(c, LastCall(w)))
  {
    match w.execs[Top(w)]
    case Completed(e) =>
      if e == ParkedAsk { ParkedRan(c, w, at); } else { assert RanTo(c, w, Ends(e)); }
    case Failed(e) => assert RanTo(c, w, Fails(e));
  }

  lemma ParkedRan(c: Config, w: World, at: Pc)
    requires CurrentInv(c, w, at) && WaitsParked(w)
    ensures RanTo(c, w, Parks(AskNow(c, w), w.carried))
  {
    assert ParkedInv(c, w, at);
  }

  lemma CurrentIsDecided(c: Config, w: World, at: Pc)
    requires CurrentInv(c, w, at) && LogInv(c, w) && (w.execs[Top(w)].Completed? || w.execs[Top(w)].Failed?)
    ensures EndedAsDecided(c, w, Top(w))
  {
    DecidedRan(c, w, at);
    assert Linked(c, w, Top(w) - 1);
  }

  lemma EndIsDecided(c: Config, s: Sys)
    requires Reachable(c, s) && Top(s.w) in s.w.execs && (s.w.execs[Top(s.w)].Completed? || s.w.execs[Top(s.w)].Failed?)
    ensures EndedAsDecided(c, s.w, Top(s.w))
  {
    ReachableCore(c, s);
    CurrentIsDecided(c, s.w, At(s));
  }

  /* --------------------------------------------------------- no double execution */

  ghost predicate Unfinished(e: Exec) { e.Queued? || e.Running? }

  /** Legs are enqueued as 1, 2, 3, ... each once, the body runs at most once for each, and no two are
      unfinished at a time, however updates interleave. */
  lemma NoDoubleExecution(c: Config, s: Sys)
    requires Reachable(c, s)
    ensures forall i :: 0 <= i < |s.w.enqueues| ==> s.w.enqueues[i] == i + 1
    ensures forall i :: 0 <= i < |s.w.log| ==> s.w.log[i].leg == i + 1
    ensures forall m, n :: m in s.w.execs && n in s.w.execs && Unfinished(s.w.execs[m]) && Unfinished(s.w.execs[n])
              ==> m == n
    ensures s.w.execs.Keys == set i | 0 <= i < |s.w.enqueues| :: s.w.enqueues[i]
  {
    ReachableInv(c, s);
    forall i | 0 <= i < |s.w.log| ensures s.w.log[i].leg == i + 1 { assert Linked(c, s.w, i); }
    forall n | n in s.w.execs ensures n in set i | 0 <= i < |s.w.enqueues| :: s.w.enqueues[i] {
      assert s.w.enqueues[n - 1] == n;
    }
  }

  /** An update never enqueues a leg Docket already knows, nor while another leg is unfinished. */
  lemma EnqueueIsFresh(c: Config, s: Sys, h: HandlerId, p: Payload, leg: nat)
    requires Reachable(c, s) && PcOf(s, h) == Update(p, Enqueuing(leg))
    ensures leg + 1 !in s.w.execs && leg in s.w.execs
    ensures forall n :: n in s.w.execs ==> s.w.execs[n] == Completed(ParkedAsk)
  {
    ReachableInv(c, s);
    assert HandlerInv(s.w, h, PcOf(s, h));
    assert At(s) == Update(p, Enqueuing(leg));
  }

  /* ---------------------------------------------- a waiting task never looks finished */

  /** In every state between any two writes: a task whose current leg ended in an ask is reported as
      input_required until it is cancelled, and `completed` is only ever reported with a real result. */
  lemma WaitingNeverLooksFinished(c: Config, s: Sys)
    requires Reachable(c, s)
    ensures Observe(s.w) != Done(ParkedAsk)
    ensures WaitsParked(s.w) && !s.w.cancelled ==> Observe(s.w).InputRequired?
  {
    ReachableInv(c, s);
    EndOfLog(c, s.w, At(s));
  }

  /** Exactly what tasks/get reports of a task that is not cancelled. While a re-entry has written the pointer but not yet
      the number, the questions of the leg before go with whatever the new leg has completed with. */
  lemma Reports(c: Config, s: Sys)
    requires Reachable(c, s) && !s.w.cancelled && s.w.pointer in s.w.execs
    ensures var e, r := s.w.execs[s.w.pointer], Observe(s.w);
            && (r == Working <==> e.Queued? || e.Running?)
            && (r.InputRequired? <==> e == Completed(ParkedAsk) || (e.Completed? && s.w.pointer != s.w.number))
            && (r.InputRequired? ==> r.asked == Req(s.w, s.w.number) != map[])
            && (forall x :: r == Done(x) <==> e == Completed(x) && x != ParkedAsk && s.w.pointer == s.w.number)
            && (forall x :: r == FailedReply(x) <==> e == Exec.Failed(x))
            && r != CancelledReply && r != NotFound
    ensures s.w.pointer != s.w.number <==> At(s).Update? && At(s).at.SwappingNumber?
  {
    SwapFacts(c, s);
    CurrentFacts(c, s);
  }

  lemma SwapFacts(c: Config, s: Sys)
    requires Reachable(c, s)
    ensures s.w.pointer != s.w.number <==> At(s).Update? && At(s).at.SwappingNumber?
    ensures s.w.pointer != s.w.number && !s.w.cancelled ==> Req(s.w, s.w.number) != map[]
    ensures s.w.pointer in s.w.visible
  {
    ReachableCore(c, s);
  }

  lemma CurrentFacts(c: Config, s: Sys)
    requires Reachable(c, s) && !s.w.cancelled && s.w.pointer in s.w.execs
    ensures !s.w.execs[s.w.pointer].Stopped?
    ensures s.w.pointer == s.w.number && s.w.execs[s.w.pointer].Completed? ==>
              (Req(s.w, s.w.number) != map[] <==> s.w.execs[s.w.pointer] == Completed(ParkedAsk))
  {
    ReachableCore(c, s);
    if s.w.pointer == Top(s.w) { NewestFacts(c, s.w, At(s)); } else { EarlierFacts(s.w, At(s)); }
  }

  lemma NewestFacts(c: Config, w: World, at: Pc)
    requires CurrentInv(c, w, at) && !w.cancelled
    ensures !w.execs[Top(w)].Stopped?
    ensures w.execs[Top(w)].Completed? ==> (Req(w, Top(w)) != map[] <==> WaitsParked(w))
  {
    match w.execs[Top(w)]
    case Completed(e) =>
      if e == ParkedAsk { assert ParkedInv(c, w, at) && Conserved(c, w, at); } else { assert NothingAsked(w); }
    case _ =>
  }

  lemma EarlierFacts(w: World, at: Pc)
    requires LegsInv(w) && WindowInv(w, at) && !w.cancelled && w.pointer in w.execs && w.pointer != Top(w)
    ensures w.execs[w.pointer] == Completed(ParkedAsk) && (w.pointer == w.number ==> Req(w, w.number) != map[])
  {}

  /** The pointer always names an execution the backend shows, so a lookup never fails. */
  lemma PointerSafe(c: Config, s: Sys)
    requires Reachable(c, s)
    ensures s.w.pointer in s.w.visible && s.w.pointer in s.w.execs && s.w.number in s.w.execs
    ensures s.w.number <= s.w.pointer <= Top(s.w) <= s.w.number + 1
    ensures Observe(s.w) != NotFound
    ensures !s.w.locked ==> s.w.pointer == s.w.number == Top(s.w)
  {
    ReachableInv(c, s);
    EndOfLog(c, s.w, At(s));
  }

  /* ------------------------------------------------ conservation under partial answers */

  /** While the lock is free and a live task is parked: every key the leg asked for is answered or is
      outstanding under exactly one surfaced key that carries its request. The two parts are disjoint if and
      only if no complete set of answers has failed to re-enter; and what the next leg would load is the
      key-wise union of all accepted answers. */
  lemma Conservation(c: Config, s: Sys)
    requires Reachable(c, s) && !s.w.locked && !s.w.cancelled && WaitsParked(s.w)
    ensures var r, m := Req(s.w, Top(s.w)), Smap(s.w, Top(s.w));
            && r.Keys == m.Keys && OneToOne(m) && r != map[]
            && AskNow(c, s.w).Keys == Responses(s.w).Keys + Tools(m, m.Keys)
            && (forall k :: k in r ==> m[k] in AskNow(c, s.w) && r[k] == AskNow(c, s.w)[m[k]])
            && (Responses(s.w).Keys !! Tools(m, m.Keys) <==> Top(s.w) !in s.w.failed)
    ensures Responses(s.w) == Collected(s.w.acks, Top(s.w))
  {
    ReachableInv(c, s);
    var r, m := Req(s.w, Top(s.w)), Smap(s.w, Top(s.w));
    assert ParkedInv(c, s.w, Idle) && Conserved(c, s.w, Idle);
    assert r.Keys + {} == r.Keys && r.Keys - {} == r.Keys;
    var k :| k in r;
    assert m[k] in Tools(m, m.Keys);
  }

  lemma StoredIsBalanced(r: map<SurfacedKey, Request>, m: map<SurfacedKey, ToolKey>, answers: Answers, asked: Requests,
                         answered: set<SurfacedKey>, all: bool)
    requires Balanced(r, m, answers, asked, answered, {}, all) && Tools(m, answered) <= answers.Keys
    requires answered <= r.Keys
    ensures asked.Keys == answers.Keys <==> r.Keys - answered == {} || all
  {}
}
