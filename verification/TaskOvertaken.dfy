/** Runs in which a promise fails, from every parked task. `TaskInstances` has such tasks.

    `tasks_cancel` proceeds without the lock when its holder is still at work after five seconds. The holder
    here is slow, not dead, so nothing in these runs relies on the lock expiring. */
module TaskOvertaken {
  import opened TaskTypes
  import opened TaskProtocol
  import opened TaskInvariant
  import opened TaskRuns
  import opened TaskTheorems
  import opened TaskFinality
  import opened TaskUpdateSteps
  import opened TaskCoverage
  import opened TaskSolo

  /** A live task parked with the lock free and no request in flight, on which a client may send `p`. */
  ghost predicate ParkedFor(c: Config, s: Sys, p: Payload, t: Translation) {
    && Reachable(c, s) && s.pcs == map[] && WaitsParked(s.w) && !s.w.locked && !s.w.cancelled
    && KeysOf(p) * s.w.minted <= s.w.shown
    && t == Translate(c, Req(s.w, s.w.number), Smap(s.w, s.w.number), p) && t.Translated? && t.answers != map[]
  }

  // Update 1 carrying `p` holds the lock and has matched its answers; cancel 2, waiting for the lock, gave up
  // and resolved the leg without it.
  ghost function Contended(s: Sys, p: Payload, t: Translation): Sys
    requires t.Translated?
  {
    var cancelling := With(s, s.w, 2, Cancel(CDeciding(false, s.w.number, s.w.number)));
    With(cancelling, Acquire(s.w.(named := s.w.named + KeysOf(p)), 1), 1,
         Update(p, Matched(s.w.number, t.answers, t.answered)))
  }

  // Both requests arrive, and the cancel gets as far as the lock.
  lemma BothArrive(c: Config, s: Sys, p: Payload) returns (ls: seq<Label>, b: Sys)
    requires s.pcs == map[] && KeysOf(p) * s.w.minted <= s.w.shown && s.w.pointer in s.w.visible
    ensures Runs(c, s, ls, b) && b.w == s.w.(named := s.w.named + KeysOf(p))
    ensures b.pcs == map[1 := Update(p, Arrived), 2 := Cancel(CLooked)]
  {
    var w := s.w.(named := s.w.named + KeysOf(p));
    var s1 := With(s, w, 1, Update(p, Arrived));
    Then(c, s, [], s, StartUpdate(1, p), s1);
    var s2 := With(s1, w, 2, Cancel(CArrived));
    Then(c, s, [StartUpdate(1, p)], s1, StartCancel(2), s2);
    ls := ThenMove(c, s, s1, [StartUpdate(1, p)] + [StartCancel(2)], 2, w, Cancel(CArrived), true, w, Cancel(CLooked));
    b := With(s1, w, 2, Cancel(CLooked));
  }

  // The cancel finds the lock held and resolves the leg without it.
  lemma GiveUp(c: Config, a: Sys, s: Sys, ls0: seq<Label>, w: World) returns (ls: seq<Label>)
    requires Runs(c, a, ls0, With(s, w, 2, Cancel(CLooked))) && w.locked && w.pointer in w.visible
    ensures Runs(c, a, ls, With(s, w, 2, Cancel(CDeciding(false, w.pointer, w.number))))
  {
    ls := ThenMove(c, a, s, ls0, 2, w, Cancel(CLooked), false, w, Cancel(CResolving(false)));
    ls := ThenMove(c, a, s, ls, 2, w, Cancel(CResolving(false)), true, w, Cancel(CDeciding(false, w.pointer, w.number)));
  }

  lemma Contend(c: Config, s: Sys, p: Payload, t: Translation) returns (ls: seq<Label>)
    requires ParkedFor(c, s, p, t)
    ensures Runs(c, s, ls, Contended(s, p, t))
    ensures s.w.number == s.w.pointer && s.w.number + 1 !in s.w.execs && s.w.number in s.w.execs
    ensures s.w.execs[s.w.number] == Completed(ParkedAsk) && Req(s.w, s.w.number) != map[]
  {
    ParkedFacts(c, s, p, t);
    var q;
    ls, q := BothArrive(c, s, p);
    ls := MatchBeside(c, s, q, ls, p, t);
    BothContend(s, q, p, t);
    ls := GiveUp(c, s, With(q, Acquire(q.w, 1), 1, Update(p, Matched(s.w.number, t.answers, t.answered))), ls, Acquire(q.w, 1));
  }

  lemma BothContend(s: Sys, q: Sys, p: Payload, t: Translation)
    requires t.Translated? && q.w == s.w.(named := s.w.named + KeysOf(p))
    requires q.pcs == map[1 := Update(p, Arrived), 2 := Cancel(CLooked)] && s.pcs == map[]
    ensures var held := Acquire(q.w, 1);
            var m := With(q, held, 1, Update(p, Matched(s.w.number, t.answers, t.answered)));
            && With(m, held, 2, Cancel(CLooked)) == m
            && With(m, held, 2, Cancel(CDeciding(false, s.w.number, s.w.number))) == Contended(s, p, t)
  {
    var held := Acquire(q.w, 1);
    var m := With(q, held, 1, Update(p, Matched(s.w.number, t.answers, t.answered)));
    assert With(m, held, 2, Cancel(CLooked)).pcs == m.pcs;
    assert With(m, held, 2, Cancel(CDeciding(false, s.w.number, s.w.number))).pcs == Contended(s, p, t).pcs;
  }

  // The update takes the lock and matches its answers.
  lemma MatchBeside(c: Config, s: Sys, q: Sys, ls0: seq<Label>, p: Payload, t: Translation) returns (ls: seq<Label>)
    requires ParkedFor(c, s, p, t) && Runs(c, s, ls0, q) && q.w == s.w.(named := s.w.named + KeysOf(p))
    requires q.pcs == map[1 := Update(p, Arrived), 2 := Cancel(CLooked)]
    ensures Runs(c, s, ls, With(q, Acquire(q.w, 1), 1, Update(p, Matched(s.w.number, t.answers, t.answered))))
  {
    ParkedFacts(c, s, p, t);
    var leg := s.w.number;
    assert With(q, q.w, 1, Update(p, Arrived)) == q;
    assert Req(q.w, leg) == Req(s.w, leg) && Smap(q.w, leg) == Smap(s.w, leg);
    ls := SoloMatch(c, s, q, ls0, 1, q.w, p, t);
  }

  lemma ParkedFacts(c: Config, s: Sys, p: Payload, t: Translation)
    requires ParkedFor(c, s, p, t)
    ensures s.w.number == s.w.pointer && s.w.pointer in s.w.visible && s.w.owner == None
    ensures s.w.number == Top(s.w) && s.w.number in s.w.execs && s.w.number + 1 !in s.w.execs
    ensures s.w.execs[s.w.number] == Completed(ParkedAsk) && Req(s.w, s.w.number) != map[]
  {
    ReachableInv(c, s);
    SoloStart(c, s, 1);
    PointerSafe(c, s);
  }

  // The cancel marks the task and clears the requests of `leg`, whatever update 1 is doing.
  lemma MarkAndClear(c: Config, a: Sys, d: Sys, ls0: seq<Label>, leg: nat) returns (ls: seq<Label>)
    requires Runs(c, a, ls0, d) && PcOf(d, 2) == Cancel(CDeciding(false, leg, leg))
    requires leg in d.w.execs && d.w.execs[leg].Completed? && Req(d.w, leg) != map[]
    ensures Runs(c, a, ls, With(d, ClearRequests(d.w.(cancelled := true), leg), 2, Cancel(CClearingMap(false, leg, leg))))
  {
    var marked := d.w.(cancelled := true);
    assert With(d, d.w, 2, Cancel(CDeciding(false, leg, leg))) == d;
    ls := ThenMove(c, a, d, ls0, 2, d.w, Cancel(CDeciding(false, leg, leg)), true, marked, Cancel(CClearing(false, leg, leg)));
    ls := ThenMove(c, a, d, ls, 2, marked, Cancel(CClearing(false, leg, leg)), true, ClearRequests(marked, leg),
                   Cancel(CClearingMap(false, leg, leg)));
  }

  /** From every live parked task, and every client payload that answers part of its outstanding keys: a
      cancel without the lock can clear the requests between the update's match and its second look at them.
      The update then enqueues the next leg although keys are unanswered and the task is cancelled. */
  lemma UnlockedCancelReentersShort(c: Config, s: Sys, p: Payload, t: Translation) returns (ls: seq<Label>, b: Sys)
    requires ParkedFor(c, s, p, t) && Req(s.w, s.w.number).Keys - t.answered != {}
    ensures Runs(c, s, ls, b)
    ensures b.w.cancelled && b.w.late && Top(b.w) == Top(s.w) + 1 && s.w.number + 1 in b.w.execs
    ensures b.w.execs[s.w.number + 1] == Queued(s.w.args) && b.w.responses == Some(Responses(s.w) + t.answers)
    ensures b.w.carried == s.w.carried && b.w.log == s.w.log
  {
    ls := Contend(c, s, p, t);
    var leg, d := s.w.number, Contended(s, p, t);
    assert Req(d.w, leg) == Req(s.w, leg);
    ls := MarkAndClear(c, s, d, ls, leg);
    var cleared := ClearRequests(d.w.(cancelled := true), leg);
    ls, b := ShortTail(c, s, With(d, cleared, 2, Cancel(CClearingMap(false, leg, leg))), ls, p, leg, t);
  }

  // The update, its requests gone from under it.
  lemma ShortTail(c: Config, a: Sys, e: Sys, ls0: seq<Label>, p: Payload, leg: nat, t: Translation)
    returns (ls: seq<Label>, b: Sys)
    requires t.Translated? && Runs(c, a, ls0, e) && PcOf(e, 1) == Update(p, Matched(leg, t.answers, t.answered))
    requires Req(e.w, leg) == map[] && leg + 1 !in e.w.execs && e.w.cancelled
    ensures Runs(c, a, ls, b) && b.w == Enqueued(StoreAnswers(e.w, leg, t.answers), leg)
  {
    assert With(e, e.w, 1, Update(p, Matched(leg, t.answers, t.answered))) == e;
    ls := SoloStore(c, a, e, ls0, 1, e.w, p, leg, t);
    var stored := StoreAnswers(e.w, leg, t.answers);
    ls := SoloEnqueue(c, a, e, ls, 1, stored, p, leg);
    b := With(e, Enqueued(stored, leg), 1, Update(p, Awaiting(leg)));
  }

  /** From every live parked task whose next leg would return: a cancel without the lock can turn a result
      that tasks/get has already reported into `cancelled`. */
  lemma UnlockedCancelUndoesResult(c: Config, s: Sys, p: Payload, t: Translation, v: Json)
    returns (ls: seq<Label>, mid: Sys, more: seq<Label>, b: Sys)
    requires ParkedFor(c, s, p, t) && Req(s.w, s.w.number).Keys <= t.answered
    requires VerdictOf(c, Call(s.w.number + 1, s.w.args, s.w.carried, Some(Responses(s.w) + t.answers))) == Ends(Returned(v))
    ensures Runs(c, s, ls, mid) && Observe(mid.w) == Done(Returned(v))
    ensures Runs(c, mid, more, b) && Observe(b.w) == CancelledReply
  {
    ls := Contend(c, s, p, t);
    var leg, d := s.w.number, Contended(s, p, t);
    assert Req(d.w, leg) == Req(s.w, leg);
    var q;
    ls, q := SwapUnderCancel(c, s, d, ls, p, leg, t);
    NothingAhead(c, s);
    assert q.w.requests == s.w.requests;
    ls, mid, more, b := UndoTail(c, s, q, ls, leg, v);
  }

  lemma NothingAhead(c: Config, s: Sys)
    requires Reachable(c, s) && !s.w.locked
    ensures Req(s.w, s.w.number + 1) == map[]
  {
    ReachableInv(c, s);
    PointerSafe(c, s);
  }

  // The next leg returns; then the cancel, which resolved the leg before it, decides.
  lemma UndoTail(c: Config, a: Sys, q: Sys, ls0: seq<Label>, leg: nat, v: Json)
    returns (ls: seq<Label>, mid: Sys, more: seq<Label>, b: Sys)
    requires Runs(c, a, ls0, q) && PcOf(q, 2) == Cancel(CDeciding(false, leg, leg)) && !q.w.cancelled
    requires leg in q.w.execs && q.w.execs[leg].Completed? && Req(q.w, leg) != map[]
    requires q.w.pointer == q.w.number == leg + 1 && leg + 1 in q.w.visible && Req(q.w, leg + 1) == map[]
    requires leg + 1 in q.w.execs && q.w.execs[leg + 1].Queued?
    requires VerdictOf(c, Call(leg + 1, q.w.execs[leg + 1].args, q.w.carried, q.w.responses)) == Ends(Returned(v))
    ensures Runs(c, a, ls, mid) && Observe(mid.w) == Done(Returned(v))
    ensures Runs(c, mid, more, b) && Observe(b.w) == CancelledReply
  {
    ls, mid := LegReturns(c, a, ls0, q, leg + 1, v);
    assert Req(mid.w, leg) == Req(q.w, leg);
    more, b := DecideLate(c, mid, leg);
  }

  /** From every live parked task, and every payload that answers all of its outstanding keys: a cancel without the
      lock can take the answered leg for the end of the task and be acknowledged although the task goes on. */
  lemma UnlockedCancelIsLost(c: Config, s: Sys, p: Payload, t: Translation) returns (ls: seq<Label>, b: Sys)
    requires ParkedFor(c, s, p, t) && Req(s.w, s.w.number).Keys <= t.answered
    ensures Runs(c, s, ls, b) && PcOf(b, 2) == Cancel(CReleasing(false))
    ensures !b.w.cancelled && Observe(b.w) == Working
  {
    ls := Contend(c, s, p, t);
    var leg, d := s.w.number, Contended(s, p, t);
    assert Req(d.w, leg) == Req(s.w, leg);
    var q;
    ls, q := SwapUnderCancel(c, s, d, ls, p, leg, t);
    ls, b := LostTail(c, s, q, ls, p, leg);
  }

  // The update clears the answered leg and is done; then the cancel looks.
  lemma LostTail(c: Config, a: Sys, q: Sys, ls0: seq<Label>, p: Payload, leg: nat) returns (ls: seq<Label>, b: Sys)
    requires Runs(c, a, ls0, q) && PcOf(q, 1) == Update(p, Clearing(leg)) && PcOf(q, 2) == Cancel(CDeciding(false, leg, leg))
    requires leg in q.w.execs && q.w.execs[leg].Completed? && !q.w.cancelled
    requires q.w.pointer in q.w.visible && q.w.pointer in q.w.execs && q.w.execs[q.w.pointer].Queued?
    ensures Runs(c, a, ls, b) && PcOf(b, 2) == Cancel(CReleasing(false))
    ensures !b.w.cancelled && Observe(b.w) == Working
  {
    assert With(q, q.w, 1, Update(p, Clearing(leg))) == q;
    ls := SoloClear(c, a, q, ls0, 1, q.w, p, leg);
    ls, b := OverlookLeg(c, a, With(q, Release(ClearSurfaced(ClearRequests(q.w, leg), leg)), 1, Idle), ls, leg);
  }

  // The cancel decides on the leg it resolved before the update went on to the next one.
  lemma OverlookLeg(c: Config, a: Sys, e: Sys, ls0: seq<Label>, leg: nat) returns (ls: seq<Label>, b: Sys)
    requires Runs(c, a, ls0, e) && PcOf(e, 2) == Cancel(CDeciding(false, leg, leg))
    requires leg in e.w.execs && e.w.execs[leg].Completed? && Req(e.w, leg) == map[]
    ensures Runs(c, a, ls, b) && b.w == e.w && PcOf(b, 2) == Cancel(CReleasing(false))
  {
    ls, b := ls0 + [Move(2, true)], Apply(c, e, Move(2, true));
    Then(c, a, ls0, e, Move(2, true), b);
  }

  // The update enqueues the next leg and swaps the pointer; the answered leg's keys are still there.
  lemma SwapUnderCancel(c: Config, a: Sys, d: Sys, ls0: seq<Label>, p: Payload, leg: nat, t: Translation)
    returns (ls: seq<Label>, q: Sys)
    requires t.Translated? && Runs(c, a, ls0, d) && PcOf(d, 1) == Update(p, Matched(leg, t.answers, t.answered))
    requires Req(d.w, leg).Keys - t.answered == {} && leg + 1 !in d.w.execs
    ensures Runs(c, a, ls, q) && PcOf(q, 2) == PcOf(d, 2) && PcOf(q, 1) == Update(p, Clearing(leg))
    ensures q.w == Enqueued(StoreAnswers(d.w, leg, t.answers), leg).(pointer := leg + 1, number := leg + 1)
  {
    assert With(d, d.w, 1, Update(p, Matched(leg, t.answers, t.answered))) == d;
    ls := SoloStore(c, a, d, ls0, 1, d.w, p, leg, t);
    var stored := StoreAnswers(d.w, leg, t.answers);
    ls := SoloEnqueue(c, a, d, ls, 1, stored, p, leg);
    ls := SoloSwap(c, a, d, ls, 1, Enqueued(stored, leg), p, leg);
    q := With(d, Enqueued(stored, leg).(pointer := leg + 1, number := leg + 1), 1, Update(p, Clearing(leg)));
  }

  lemma DecideLate(c: Config, mid: Sys, leg: nat) returns (more: seq<Label>, b: Sys)
    requires PcOf(mid, 2) == Cancel(CDeciding(false, leg, leg)) && mid.w.pointer in mid.w.visible
    requires mid.w.pointer in mid.w.execs
    requires leg in mid.w.execs && mid.w.execs[leg].Completed? && Req(mid.w, leg) != map[]
    ensures Runs(c, mid, more, b) && Observe(b.w) == CancelledReply
  {
    more, b := [] + [Move(2, true)], Apply(c, mid, Move(2, true));
    Then(c, mid, [], mid, Move(2, true), b);
    assert b.w == mid.w.(cancelled := true);
  }

  // A queued leg runs its body.
  lemma LegBody(c: Config, a: Sys, ls0: seq<Label>, q: Sys, leg: nat) returns (ls: seq<Label>, b: Sys)
    requires Runs(c, a, ls0, q) && leg in q.w.execs && q.w.execs[leg].Queued?
    ensures Runs(c, a, ls, b)
    ensures var call := Call(leg, q.w.execs[leg].args, q.w.carried, q.w.responses);
            b == q.(w := q.w.(execs := q.w.execs[leg := Running(q.w.execs[leg].args, AfterBody(VerdictOf(c, call)))],
                              log := q.w.log + [call]))
  {
    var args := q.w.execs[leg].args;
    var w1 := SetExec(q.w, leg, Running(args, Begun));
    Then(c, a, ls0, q, Work(leg, Begin), q.(w := w1));
    var w2 := SetExec(w1, leg, Running(args, GotState(q.w.carried)));
    ls := ls0 + [Work(leg, Begin)];
    Then(c, a, ls, q.(w := w1), Work(leg, LoadState), q.(w := w2));
    var call := Call(leg, args, q.w.carried, q.w.responses);
    var w3 := SetExec(w2, leg, Running(args, AfterBody(VerdictOf(c, call)))).(log := w2.log + [call]);
    ls := ls + [Work(leg, LoadState)];
    Then(c, a, ls, q.(w := w2), Work(leg, RunBody), q.(w := w3));
    ls, b := ls + [Work(leg, RunBody)], q.(w := w3);
    assert w3.execs == q.w.execs[leg := Running(args, AfterBody(VerdictOf(c, call)))];
  }

  // A queued leg runs to its end.
  lemma LegReturns(c: Config, a: Sys, ls0: seq<Label>, q: Sys, leg: nat, v: Json)
    returns (ls: seq<Label>, b: Sys)
    requires Runs(c, a, ls0, q) && leg in q.w.execs && q.w.execs[leg].Queued? && leg == q.w.pointer && leg in q.w.visible
    requires !q.w.cancelled && Req(q.w, q.w.number) == map[]
    requires VerdictOf(c, Call(leg, q.w.execs[leg].args, q.w.carried, q.w.responses)) == Ends(Returned(v))
    ensures Runs(c, a, ls, b) && Observe(b.w) == Done(Returned(v)) && b.pcs == q.pcs
    ensures b.w.requests == q.w.requests && b.w.cancelled == q.w.cancelled
    ensures b.w.execs == q.w.execs[leg := Completed(Returned(v))]
  {
    var r;
    ls, r := LegBody(c, a, ls0, q, leg);
    b := r.(w := SetExec(r.w, leg, Completed(Returned(v))));
    Then(c, a, ls, r, Work(leg, Finish), b);
    ls := ls + [Work(leg, Finish)];
    assert b.w.execs == q.w.execs[leg := Completed(Returned(v))];
  }

  /** Run on: the next leg is called with a part of the answers its ask needs, which the foreground loop never does,
      unless a complete set had already been stored and failed to re-enter. */
  lemma UnlockedCancelRunsShort(c: Config, s: Sys, p: Payload, t: Translation) returns (ls: seq<Label>, b: Sys)
    requires ParkedFor(c, s, p, t) && Req(s.w, s.w.number).Keys - t.answered != {}
    ensures Runs(c, s, ls, b)
    ensures b.w.log == s.w.log + [Call(s.w.number + 1, s.w.args, s.w.carried, Some(Responses(s.w) + t.answers))]
    ensures Foreground(c, AnswersSeen(b.w.log)) == Some(b.w.log) <==> s.w.number in s.w.failed
  {
    var q;
    ls, q := UnlockedCancelReentersShort(c, s, p, t);
    ls, b := LegBody(c, s, ls, q, s.w.number + 1);
    ShortLog(c, s, p, t);
  }

  lemma ShortLog(c: Config, s: Sys, p: Payload, t: Translation)
    requires ParkedFor(c, s, p, t) && Req(s.w, s.w.number).Keys - t.answered != {}
    ensures var log := s.w.log + [Call(s.w.number + 1, s.w.args, s.w.carried, Some(Responses(s.w) + t.answers))];
            Foreground(c, AnswersSeen(log)) == Some(log) <==> s.w.number in s.w.failed
  {
    ParkedLog(c, s, p, t);
    ShortKeys(c, s.w, p, t);
    ForegroundTakes(c, s.w.log, Call(s.w.number + 1, s.w.args, s.w.carried, Some(Responses(s.w) + t.answers)),
                    Responses(s.w) + t.answers);
  }

  lemma ShortKeys(c: Config, w: World, p: Payload, t: Translation)
    requires t == Translate(c, Req(w, w.number), Smap(w, w.number), p) && t.Translated?
    requires Req(w, w.number).Keys - t.answered != {}
    requires Balanced(Req(w, w.number), Smap(w, w.number), Responses(w), AskNow(c, w), {}, {}, w.number in w.failed)
    ensures (Responses(w) + t.answers).Keys == AskNow(c, w).Keys <==> w.number in w.failed
  {
    var r, m := Req(w, w.number), Smap(w, w.number);
    TranslateFacts(c, r, m, p);
    var k :| k in r.Keys - t.answered;
    MatchBalances(r, m, Responses(w), t.answers, AskNow(c, w), KeysOf(p), t.answered, w.number in w.failed);
    assert k !in KeysOf(p);
  }

  // What a live parked task's log and hashes are.
  lemma ParkedLog(c: Config, s: Sys, p: Payload, t: Translation)
    requires ParkedFor(c, s, p, t)
    ensures |s.w.log| == s.w.number > 0 && s.w.args == c.args && Foreground(c, AnswersSeen(s.w.log)) == Some(s.w.log)
    ensures DidPark(c, LastCall(s.w)) && s.w.carried == CarriedBy(c, LastCall(s.w)) && AskNow(c, s.w) == AskedBy(c, LastCall(s.w))
    ensures Balanced(Req(s.w, s.w.number), Smap(s.w, s.w.number), Responses(s.w), AskNow(c, s.w), {}, {},
                     s.w.number in s.w.failed)
  {
    ReachableCore(c, s);
    PointerSafe(c, s);
    assert ParkedInv(c, s.w, At(s)) && Conserved(c, s.w, At(s));
    RefinesForeground(c, s);
  }

  /* -------------------------------------------------------- a failed re-entry */

  /** From every live parked task, and every payload that answers all of its outstanding keys: if the enqueue fails,
      the lock is given back and the task stays parked, its answers stored, with the keys just answered still
      outstanding and reported. */
  lemma FailedReentryOverlaps(c: Config, s: Sys, p: Payload, t: Translation) returns (ls: seq<Label>, b: Sys)
    requires ParkedFor(c, s, p, t) && Req(s.w, s.w.number).Keys <= t.answered
    ensures Runs(c, s, ls, b) && b.pcs == map[] && !b.w.locked && !b.w.cancelled && WaitsParked(b.w)
    ensures Top(b.w) == s.w.number && s.w.number in b.w.failed && Responses(b.w) == Responses(s.w) + t.answers
    ensures Responses(b.w).Keys * Tools(Smap(b.w, Top(b.w)), Smap(b.w, Top(b.w)).Keys) != {}
    ensures Observe(b.w) == InputRequired(Req(s.w, s.w.number))
  {
    var leg := s.w.number;
    var named := s.w.(named := s.w.named + KeysOf(p));
    var q := With(s, named, 1, Update(p, Arrived));
    ls := ReachEnqueuing(c, s, q, named, p, t);
    ls, b := FailTail(c, s, q, ls, StoreAnswers(Acquire(named, 1), leg, t.answers), p, leg);
    FailedFacts(c, s, p, t, b.w);
  }

  lemma ReachEnqueuing(c: Config, s: Sys, q: Sys, named: World, p: Payload, t: Translation) returns (ls: seq<Label>)
    requires ParkedFor(c, s, p, t) && Req(s.w, s.w.number).Keys <= t.answered
    requires named == s.w.(named := s.w.named + KeysOf(p)) && q == With(s, named, 1, Update(p, Arrived))
    ensures Runs(c, s, ls, With(q, StoreAnswers(Acquire(named, 1), s.w.number, t.answers), 1, Update(p, Enqueuing(s.w.number))))
  {
    ParkedFacts(c, s, p, t);
    var leg := s.w.number;
    assert Req(named, leg) == Req(s.w, leg) && Smap(named, leg) == Smap(s.w, leg);
    Then(c, s, [], s, StartUpdate(1, p), q);
    assert With(q, named, 1, Update(p, Arrived)) == q;
    ls := SoloMatch(c, s, q, [] + [StartUpdate(1, p)], 1, named, p, t);
    ls := SoloStore(c, s, q, ls, 1, Acquire(named, 1), p, leg, t);
    assert Req(s.w, leg).Keys - t.answered == {};
  }

  // What the failure leaves.
  lemma FailedFacts(c: Config, s: Sys, p: Payload, t: Translation, w: World)
    requires ParkedFor(c, s, p, t)
    requires w == Release(StoreAnswers(Acquire(s.w.(named := s.w.named + KeysOf(p)), 1), s.w.number, t.answers)
                          .(failed := s.w.failed + {s.w.number}))
    ensures !w.locked && !w.cancelled && WaitsParked(w)
    ensures Top(w) == s.w.number && s.w.number in w.failed && Responses(w) == Responses(s.w) + t.answers
    ensures Responses(w).Keys * Tools(Smap(w, Top(w)), Smap(w, Top(w)).Keys) != {}
    ensures Observe(w) == InputRequired(Req(s.w, s.w.number))
  {
    ParkedFacts(c, s, p, t);
    assert w.requests == s.w.requests && w.surfaced == s.w.surfaced;
    Overlaps(c, s, p, t, w);
  }

  // The enqueue fails and the lock is given back.
  lemma FailTail(c: Config, a: Sys, q: Sys, ls0: seq<Label>, w: World, p: Payload, leg: nat) returns (ls: seq<Label>, b: Sys)
    requires Runs(c, a, ls0, With(q, w, 1, Update(p, Enqueuing(leg))))
    ensures Runs(c, a, ls, b) && b == With(q, Release(w.(failed := w.failed + {leg})), 1, Idle)
  {
    var failed := w.(failed := w.failed + {leg});
    ls := ThenMove(c, a, q, ls0, 1, w, Update(p, Enqueuing(leg)), false, failed, Update(p, Releasing));
    ls := ThenMove(c, a, q, ls, 1, failed, Update(p, Releasing), true, Release(failed), Idle);
    b := With(q, Release(failed), 1, Idle);
  }

  lemma Overlaps(c: Config, s: Sys, p: Payload, t: Translation, w: World)
    requires ParkedFor(c, s, p, t) && w.surfaced == s.w.surfaced && w.responses == Some(Responses(s.w) + t.answers)
    requires Top(w) == s.w.number
    ensures Responses(w).Keys * Tools(Smap(w, Top(w)), Smap(w, Top(w)).Keys) != {}
  {
    var m := Smap(s.w, s.w.number);
    TranslateFacts(c, Req(s.w, s.w.number), m, p);
    var tool :| tool in t.answers;
    assert Smap(w, Top(w)) == m && tool in Tools(m, t.answered) && tool in Tools(m, m.Keys);
    assert tool in Responses(w).Keys * Tools(m, m.Keys);
  }
}
