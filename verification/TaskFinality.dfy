/** Cancellation absorbs, finished results stay, and exactly what a cancel without the lock can undo. */
module TaskFinality {
  import opened TaskTypes
  import opened TaskProtocol
  import opened TaskInvariant
  import opened TaskRuns
  import opened TaskTheorems

  /* ------------------------------------------------------ cancellation absorbs */

  lemma MarkerStays(c: Config, s: Sys, l: Label)
    requires Enabled(s, l) && s.w.cancelled
    ensures Apply(c, s, l).w.cancelled
  {
    match l
    case Move(h, ok) =>
      match PcOf(s, h) {
        case Update(p, at) => UpdateIsCivil(c, s.w, h, p, at, ok);
        case Cancel(at) => CancelIsCivil(s.w, h, at, ok);
      }
    case Work(leg, act) => WorkIsCivil(c, s.w, leg, act, ActNext(c, s.w, leg, act));
    case _ =>
  }

  lemma {:induction false} MarkerStaysForever(c: Config, a: Sys, ls: seq<Label>, b: Sys)
    requires Runs(c, a, ls, b) && a.w.cancelled
    ensures b.w.cancelled
    decreases |ls|
  {
    if ls != [] {
      MarkerStays(c, a, ls[0]);
      MarkerStaysForever(c, Apply(c, a, ls[0]), ls[1..], b);
    }
  }

  /** Once the marker is written every later tasks/get reports `cancelled`, whatever the running leg does. */
  lemma CancellationAbsorbs(c: Config, a: Sys, ls: seq<Label>, b: Sys)
    requires Reachable(c, a) && a.w.cancelled && Runs(c, a, ls, b)
    ensures Observe(b.w) == CancelledReply
  {
    MarkerStaysForever(c, a, ls, b);
    ReachableInv(c, a);
    RunInv(c, a, ls, b);
    EndOfLog(c, b.w, At(b));
  }

  /** The task is cancelled and no update is past its look at the marker. */
  ghost predicate Sealed(s: Sys) {
    s.w.cancelled && forall h :: h in s.pcs ==> !PastCheck(s.pcs[h])
  }

  // An update that has not yet looked at the marker finds it.
  lemma SealedUpdate(c: Config, w: World, h: HandlerId, p: Payload, at: UpdateAt, ok: bool)
    requires w.cancelled && !PastCheck(Update(p, at))
    ensures var m := UpdateNext(c, w, h, p, at, ok); !PastCheck(m.pc) && m.w.enqueues == w.enqueues
  {}

  lemma SealedCancel(w: World, h: HandlerId, at: CancelAt, ok: bool)
    ensures var m := CancelNext(w, h, at, ok); !PastCheck(m.pc) && m.w.enqueues == w.enqueues
  {}

  lemma SealedMove(c: Config, s: Sys, h: HandlerId, ok: bool)
    requires Sealed(s) && CanMove(s.w, PcOf(s, h), ok)
    ensures var m := HandlerNext(c, s.w, h, PcOf(s, h), ok); !PastCheck(m.pc) && m.w.enqueues == s.w.enqueues
  {
    match PcOf(s, h)
    case Update(p, at) => SealedUpdate(c, s.w, h, p, at, ok);
    case Cancel(at) => SealedCancel(s.w, h, at, ok);
  }

  lemma SealedStep(c: Config, s: Sys, l: Label)
    requires Sealed(s) && Enabled(s, l)
    ensures Sealed(Apply(c, s, l)) && Apply(c, s, l).w.enqueues == s.w.enqueues
  {
    MarkerStays(c, s, l);
    match l
    case Move(h, ok) => SealedMove(c, s, h, ok);
    case Work(leg, act) => WorkIsCivil(c, s.w, leg, act, ActNext(c, s.w, leg, act));
    case _ =>
  }

  /** From a sealed state no run ever enqueues a leg. */
  lemma {:induction false} SealedNeverEnqueues(c: Config, a: Sys, ls: seq<Label>, b: Sys)
    requires Sealed(a) && Runs(c, a, ls, b)
    ensures Sealed(b) && b.w.enqueues == a.w.enqueues
    decreases |ls|
  {
    if ls != [] {
      SealedStep(c, a, ls[0]);
      SealedNeverEnqueues(c, Apply(c, a, ls[0]), ls[1..], b);
    }
  }

  /** A cancel that decides under the lock seals the task. */
  lemma LockedCancelSeals(c: Config, s: Sys, h: HandlerId, p: nat, leg: nat, ok: bool, ls: seq<Label>, b: Sys)
    requires Reachable(c, s) && PcOf(s, h) == Cancel(CDeciding(true, p, leg)) && !AlreadyTerminal(s.w, p, leg)
    requires Runs(c, Apply(c, s, Move(h, ok)), ls, b)
    ensures b.w.enqueues == s.w.enqueues && Observe(b.w) == CancelledReply
  {
    var m := Apply(c, s, Move(h, ok));
    HolderAlone(c, s, h);
    assert m.w.cancelled && m.pcs[h] == Cancel(CClearing(true, p, leg));
    SealedNeverEnqueues(c, m, ls, b);
    ReachableNext(c, s, Move(h, ok));
    CancellationAbsorbs(c, m, ls, b);
  }

  // While one handler holds the lock no other is past its look at the marker.
  lemma HolderAlone(c: Config, s: Sys, h: HandlerId)
    requires Reachable(c, s) && InSection(PcOf(s, h))
    ensures forall g :: g in s.pcs && g != h ==> !PastCheck(s.pcs[g])
  {
    ReachableHandlers(c, s);
    assert HandlerInv(s.w, h, PcOf(s, h));
    forall g | g in s.pcs && g != h ensures !PastCheck(s.pcs[g]) { assert HandlerInv(s.w, g, s.pcs[g]); }
  }

  /** The execution a lock-holding cancel asks Docket to stop is the current leg, and the only one that is
      not finished. */
  lemma CancelsTheLiveLeg(c: Config, s: Sys, h: HandlerId, p: nat)
    requires Reachable(c, s) && PcOf(s, h) == Cancel(CStopping(true, p))
    ensures p == s.w.pointer == Top(s.w) && s.w.cancelled
    ensures forall n :: n in s.w.execs && n != p ==> s.w.execs[n] == Completed(ParkedAsk)
  {
    ReachableInv(c, s);
    assert HandlerInv(s.w, h, PcOf(s, h));
  }

  /* --------------------------------------------- every leg is asked to stop */

  /** Docket has been asked to stop every execution that is not finished. */
  ghost predicate AllAsked(w: World) {
    forall n :: n in w.execs && Unfinished(w.execs[n]) ==> n in w.stops
  }

  /** And no further leg can be enqueued: the task is sealed, or its newest leg has ended without asking. */
  ghost predicate Quiet(s: Sys) {
    && AllAsked(s.w)
    && (Sealed(s) || (Top(s.w) in s.w.execs && !Unfinished(s.w.execs[Top(s.w)]) && !WaitsParked(s.w)))
  }

  lemma UpdateAddsNone(c: Config, w: World, h: HandlerId, p: Payload, at: UpdateAt, ok: bool)
    ensures var w' := UpdateNext(c, w, h, p, at, ok).w;
            w'.stops == w.stops && (!at.Enqueuing? || !ok ==> w'.execs == w.execs && w'.enqueues == w.enqueues)
    ensures at.Enqueuing? && ok ==> UpdateNext(c, w, h, p, at, ok).w.enqueues != w.enqueues
  {}

  lemma CancelAddsNone(w: World, h: HandlerId, at: CancelAt, ok: bool)
    ensures var w' := CancelNext(w, h, at, ok).w;
            w'.execs == w.execs && w'.enqueues == w.enqueues && w.stops <= w'.stops
  {}

  lemma WorkAddsNone(c: Config, w: World, leg: nat, act: Act)
    requires CanAct(w, leg, act)
    ensures var w' := ActNext(c, w, leg, act);
            && w'.stops == w.stops && w'.enqueues == w.enqueues && Unfinished(w.execs[leg])
            && w'.execs.Keys == w.execs.Keys && forall n :: n in w.execs && n != leg ==> w'.execs[n] == w.execs[n]
  {}

  // A quiet task does not enqueue.
  lemma QuietNeverEnqueues(c: Config, s: Sys, h: HandlerId, p: Payload, at: UpdateAt, ok: bool)
    requires Reachable(c, s) && Quiet(s) && PcOf(s, h) == Update(p, at)
    ensures !(at.Enqueuing? && ok)
  {
    if at.Enqueuing? && !Sealed(s) { EnqueueIsFresh(c, s, h, p, at.leg); }
  }

  lemma QuietWork(c: Config, s: Sys, leg: nat, act: Act)
    requires Reachable(c, s) && Quiet(s) && CanAct(s.w, leg, act)
    ensures AllAsked(ActNext(c, s.w, leg, act)) && Sealed(s)
  {
    WorkAddsNone(c, s.w, leg, act);
    NewestWorks(c, s, leg, act);
  }

  lemma NewestWorks(c: Config, s: Sys, leg: nat, act: Act)
    requires Reachable(c, s) && CanAct(s.w, leg, act)
    ensures leg == Top(s.w)
  {
    ReachableCore(c, s);
  }

  lemma QuietStep(c: Config, s: Sys, l: Label)
    requires Reachable(c, s) && Quiet(s) && Enabled(s, l)
    ensures Quiet(Apply(c, s, l))
  {
    if Sealed(s) { SealedStep(c, s, l); }
    match l
    case Move(h, ok) =>
      match PcOf(s, h) {
        case Update(p, at) =>
          QuietNeverEnqueues(c, s, h, p, at, ok);
          UpdateAddsNone(c, s.w, h, p, at, ok);
        case Cancel(at) => CancelAddsNone(s.w, h, at, ok);
      }
    case Work(leg, act) => QuietWork(c, s, leg, act);
    case _ =>
  }

  lemma {:induction false} QuietRun(c: Config, a: Sys, ls: seq<Label>, b: Sys)
    requires Reachable(c, a) && Quiet(a) && Runs(c, a, ls, b)
    ensures Quiet(b)
    decreases |ls|
  {
    if ls != [] {
      QuietStep(c, a, ls[0]);
      ReachableNext(c, a, ls[0]);
      QuietRun(c, Apply(c, a, ls[0]), ls[1..], b);
    }
  }

  // A cancel that holds the lock has asked the live leg to stop, or found no leg to stop.
  lemma StopIsQuiet(c: Config, s: Sys, h: HandlerId, p: nat, ok: bool)
    requires Reachable(c, s) && PcOf(s, h) == Cancel(CStopping(true, p))
    ensures p in Apply(c, s, Move(h, ok)).w.stops && Quiet(Apply(c, s, Move(h, ok)))
  {
    CancelsTheLiveLeg(c, s, h, p);
    HolderAlone(c, s, h);
  }

  lemma TerminalIsQuiet(c: Config, s: Sys, h: HandlerId, p: nat, leg: nat)
    requires Reachable(c, s) && PcOf(s, h) == Cancel(CDeciding(true, p, leg)) && AlreadyTerminal(s.w, p, leg)
    ensures Quiet(s)
  {
    HolderAlone(c, s, h);
    TerminalFacts(c, s, h, p, leg);
  }

  lemma TerminalFacts(c: Config, s: Sys, h: HandlerId, p: nat, leg: nat)
    requires Reachable(c, s) && PcOf(s, h) == Cancel(CDeciding(true, p, leg)) && AlreadyTerminal(s.w, p, leg)
    ensures p == Top(s.w) && p in s.w.execs && !Unfinished(s.w.execs[p]) && (!s.w.cancelled ==> !WaitsParked(s.w))
    ensures forall n :: n in s.w.execs && n != p ==> s.w.execs[n] == Completed(ParkedAsk)
  {
    ReachableHandlers(c, s);
    ReachableCore(c, s);
    assert HandlerInv(s.w, h, PcOf(s, h)) && At(s) == PcOf(s, h);
  }

  /** From the moment a cancel that holds the lock has asked, on every run: whatever leg is not finished is one Docket has
      been asked to stop. */
  lemma LockedCancelStops(c: Config, s: Sys, h: HandlerId, p: nat, ok: bool, ls: seq<Label>, b: Sys)
    requires Reachable(c, s) && PcOf(s, h) == Cancel(CStopping(true, p)) && Runs(c, Apply(c, s, Move(h, ok)), ls, b)
    ensures p in Apply(c, s, Move(h, ok)).w.stops && AllAsked(b.w)
  {
    StopIsQuiet(c, s, h, p, ok);
    ReachableNext(c, s, Move(h, ok));
    QuietRun(c, Apply(c, s, Move(h, ok)), ls, b);
  }

  /* ----------------------------------------------------- finished results stay */

  ghost predicate Final(r: Reply) { r.Done? || r.FailedReply? }

  // A cancel that gave up on the lock decides now, from what it resolved earlier, that the task is live.
  ghost predicate UnlockedDecision(s: Sys, l: Label) {
    l.Move? && PcOf(s, l.h).Cancel? && PcOf(s, l.h).cat.CDeciding? && !PcOf(s, l.h).cat.got
    && !AlreadyTerminal(s.w, PcOf(s, l.h).cat.pointer, PcOf(s, l.h).cat.leg)
  }

  // The execution a final reply came from, with its input hashes, is out of everyone's reach.
  lemma FinalFacts(c: Config, s: Sys)
    requires Reachable(c, s) && Final(Observe(s.w))
    ensures s.w.pointer == Top(s.w) && s.w.pointer in s.w.visible && !s.w.cancelled
    ensures !s.w.execs[Top(s.w)].Queued? && !s.w.execs[Top(s.w)].Running? && !WaitsParked(s.w)
    ensures Req(s.w, Top(s.w)) == map[]
    ensures Observe(s.w).Done? ==> Req(s.w, s.w.number) == map[]
    ensures s.w.number == Top(s.w) || (At(s).Update? && At(s).at.SwappingNumber?)
  {
    ReachableCore(c, s);
    EndOfLog(c, s.w, At(s));
  }

  lemma NoWorkerLeft(c: Config, s: Sys, leg: nat, act: Act)
    requires Reachable(c, s) && Final(Observe(s.w))
    ensures !CanAct(s.w, leg, act)
  {
    ReachableCore(c, s);
  }

  lemma CancelLeavesFinal(c: Config, s: Sys, h: HandlerId, at: CancelAt, ok: bool)
    requires Reachable(c, s) && Final(Observe(s.w)) && PcOf(s, h) == Cancel(at) && CanMove(s.w, Cancel(at), ok)
    requires !UnlockedDecision(s, Move(h, ok))
    ensures Observe(CancelNext(s.w, h, at, ok).w) == Observe(s.w)
  {
    FinalFacts(c, s);
    ReachableHandlers(c, s);
    ReachableCore(c, s);
  }

  lemma UpdateLeavesFinal(c: Config, s: Sys, h: HandlerId, p: Payload, at: UpdateAt, ok: bool)
    requires Reachable(c, s) && Final(Observe(s.w)) && PcOf(s, h) == Update(p, at) && CanMove(s.w, Update(p, at), ok)
    ensures Observe(UpdateNext(c, s.w, h, p, at, ok).w) == Observe(s.w)
  {
    FinalFacts(c, s);
    if InSection(Update(p, at)) {
      ReachableHandlers(c, s);
      ReachableCore(c, s);
      assert HandlerInv(s.w, h, PcOf(s, h));
    }
  }

  /** A reported result or error never changes, except through a cancel that decides without the lock. */
  lemma FinalStep(c: Config, s: Sys, l: Label)
    requires Reachable(c, s) && Enabled(s, l) && Final(Observe(s.w))
    ensures Observe(Apply(c, s, l).w) == (if UnlockedDecision(s, l) then CancelledReply else Observe(s.w))
  {
    match l
    case Move(h, ok) =>
      match PcOf(s, h) {
        case Update(p, at) => UpdateLeavesFinal(c, s, h, p, at, ok);
        case Cancel(at) =>
          if UnlockedDecision(s, l) { FinalFacts(c, s); } else { CancelLeavesFinal(c, s, h, at, ok); }
      }
    case Work(leg, act) => NoWorkerLeft(c, s, leg, act);
    case _ =>
  }

  /** No cancel along the run decides without the lock. */
  ghost predicate DecidesLocked(c: Config, a: Sys, ls: seq<Label>)
    decreases |ls|
  {
    ls == [] || (Enabled(a, ls[0]) && !UnlockedDecision(a, ls[0]) && DecidesLocked(c, Apply(c, a, ls[0]), ls[1..]))
  }

  lemma {:induction false} FinalRun(c: Config, a: Sys, ls: seq<Label>, b: Sys)
    requires Reachable(c, a) && Final(Observe(a.w)) && Runs(c, a, ls, b)
    ensures Observe(b.w) == (if DecidesLocked(c, a, ls) then Observe(a.w) else CancelledReply)
    decreases |ls|
  {
    if ls != [] {
      var m := Apply(c, a, ls[0]);
      FinalStep(c, a, ls[0]);
      ReachableNext(c, a, ls[0]);
      if UnlockedDecision(a, ls[0]) {
        CancellationAbsorbs(c, m, ls[1..], b);
      } else {
        FinalRun(c, m, ls[1..], b);
      }
    }
  }

  /** Terminal results are final: in every run after a task was reported completed or failed it is reported
      so again, with the same payload, if and only if no cancel decided without holding the lock. */
  lemma FinalIffDecidedLocked(c: Config, a: Sys, ls: seq<Label>, b: Sys)
    requires Reachable(c, a) && Final(Observe(a.w)) && Runs(c, a, ls, b)
    ensures Observe(b.w) == Observe(a.w) <==> DecidesLocked(c, a, ls)
    ensures !DecidesLocked(c, a, ls) ==> Observe(b.w) == CancelledReply
  {
    FinalRun(c, a, ls, b);
  }

  /** A parked leg has completed too, but is not finished: a lock-holding cancel still cancels it. */
  lemma ParkedIsCancellable(c: Config, s: Sys, h: HandlerId, p: nat, leg: nat, ok: bool)
    requires Reachable(c, s) && PcOf(s, h) == Cancel(CDeciding(true, p, leg))
    ensures !s.w.cancelled ==> (AlreadyTerminal(s.w, p, leg) <==> Final(Observe(s.w)))
    ensures Observe(s.w).InputRequired? || Observe(s.w) == Working
            ==> Observe(Apply(c, s, Move(h, ok)).w) == CancelledReply
  {
    ReachableInv(c, s);
    assert HandlerInv(s.w, h, PcOf(s, h));
    assert At(s) == PcOf(s, h);
  }

  /** The task is cancelled, or tasks/get reports its end. */
  ghost predicate Over(w: World) {
    w.cancelled || Final(Observe(w))
  }

  /** What a cancel that decides without the lock achieves, exactly: the task is over afterwards if and only if the
      cancel did not take the leg it had resolved for the end of the task, or the task really was at its end. */
  lemma UnlockedCancelEndsIff(c: Config, s: Sys, h: HandlerId, p: nat, leg: nat, ok: bool)
    requires Reachable(c, s) && PcOf(s, h) == Cancel(CDeciding(false, p, leg)) && !s.w.cancelled
    ensures Over(Apply(c, s, Move(h, ok)).w) <==>
            !AlreadyTerminal(s.w, p, leg) || AlreadyTerminal(s.w, s.w.pointer, s.w.number)
  {
    ReachableCore(c, s);
    EndOfLog(c, s.w, At(s));
    FinalIsTerminal(c, s);
    if AlreadyTerminal(s.w, p, leg) { assert Apply(c, s, Move(h, ok)).w == s.w; }
  }

  // The terminal test of a cancel, applied to the current leg, agrees with tasks/get.
  lemma FinalIsTerminal(c: Config, s: Sys)
    requires Reachable(c, s) && !s.w.cancelled
    ensures AlreadyTerminal(s.w, s.w.pointer, s.w.number) <==> Final(Observe(s.w))
  {
    ReachableCore(c, s);
    EndOfLog(c, s.w, At(s));
  }

  /** What a cancel decides, on the execution and the leg it has resolved: one that failed, was stopped, or completed with
      nothing outstanding is left alone, and any other has its task marked. */
  lemma CancelDecides(c: Config, s: Sys, h: HandlerId, got: bool, p: nat, leg: nat, ok: bool)
    requires PcOf(s, h) == Cancel(CDeciding(got, p, leg))
    ensures var s' := Apply(c, s, Move(h, ok));
            if p in s.w.execs && (s.w.execs[p].Failed? || s.w.execs[p].Stopped?
                                  || (s.w.execs[p].Completed? && Req(s.w, leg) == map[]))
            then s'.w == s.w && PcOf(s', h) == Cancel(CReleasing(got))
            else s'.w == s.w.(cancelled := true) && PcOf(s', h) == Cancel(CClearing(got, p, leg))
  {}

  /* ------------------------------------------------------------ late re-entry */

  /** If every cancel of a run that decides holds the lock, no leg is enqueued after the marker, so by
      RefinesForeground every leg of the run sees all its answers. */
  lemma {:induction false} LockedCancelsNeverLate(c: Config, a: Sys, ls: seq<Label>, b: Sys)
    requires Reachable(c, a) && !a.w.late && (a.w.cancelled ==> Sealed(a))
    requires Runs(c, a, ls, b) && DecidesLocked(c, a, ls)
    ensures !b.w.late
    decreases |ls|
  {
    if ls != [] {
      var m := Apply(c, a, ls[0]);
      ReachableNext(c, a, ls[0]);
      if a.w.cancelled { SealedStep(c, a, ls[0]); } else { FirstMark(c, a, ls[0]); }
      NotLateStep(c, a, ls[0]);
      LockedCancelsNeverLate(c, m, ls[1..], b);
    }
  }

  lemma OnlyEnqueuesAreLate(c: Config, w: World, h: HandlerId, p: Payload, at: UpdateAt, ok: bool)
    ensures UpdateNext(c, w, h, p, at, ok).w.late ==> w.late || (at.Enqueuing? && w.cancelled)
  {}

  lemma NotLateStep(c: Config, s: Sys, l: Label)
    requires Enabled(s, l) && !s.w.late && (s.w.cancelled ==> Sealed(s))
    ensures !Apply(c, s, l).w.late
  {
    if l.Move? && PcOf(s, l.h).Update? {
      OnlyEnqueuesAreLate(c, s.w, l.h, PcOf(s, l.h).payload, PcOf(s, l.h).at, l.ok);
    } else {
      OthersAreNotLate(c, s, l);
    }
  }

  lemma OthersAreNotLate(c: Config, s: Sys, l: Label)
    requires Enabled(s, l) && !(l.Move? && PcOf(s, l.h).Update?)
    ensures Apply(c, s, l).w.late == s.w.late
  {
    match l
    case Move(h, ok) => CancelIsCivil(s.w, h, PcOf(s, h).cat, ok);
    case Work(leg, act) => WorkIsCivil(c, s.w, leg, act, ActNext(c, s.w, leg, act));
    case _ =>
  }

  lemma OnlyDecisionsMark(c: Config, s: Sys, l: Label)
    requires Enabled(s, l) && !s.w.cancelled && Apply(c, s, l).w.cancelled
    ensures l.Move? && PcOf(s, l.h).Cancel? && PcOf(s, l.h).cat.CDeciding?
    ensures !AlreadyTerminal(s.w, PcOf(s, l.h).cat.pointer, PcOf(s, l.h).cat.leg)
  {
    match l
    case Move(h, ok) =>
      match PcOf(s, h) {
        case Update(p, at) => UpdateNeverMarks(c, s.w, h, p, at, ok);
        case Cancel(at) => CancelMarks(s.w, h, at, ok);
      }
    case Work(leg, act) => WorkIsCivil(c, s.w, leg, act, ActNext(c, s.w, leg, act));
    case _ =>
  }

  lemma UpdateNeverMarks(c: Config, w: World, h: HandlerId, p: Payload, at: UpdateAt, ok: bool)
    ensures UpdateNext(c, w, h, p, at, ok).w.cancelled == w.cancelled
  {}

  lemma CancelMarks(w: World, h: HandlerId, at: CancelAt, ok: bool)
    ensures CancelNext(w, h, at, ok).w.cancelled <==>
            w.cancelled || (at.CDeciding? && !AlreadyTerminal(w, at.pointer, at.leg))
  {}

  // The marker is first written by a cancel that holds the lock, so nobody is past its look at it.
  lemma FirstMark(c: Config, s: Sys, l: Label)
    requires Reachable(c, s) && Enabled(s, l) && !UnlockedDecision(s, l) && !s.w.cancelled
    ensures Apply(c, s, l).w.cancelled ==> Sealed(Apply(c, s, l))
  {
    if Apply(c, s, l).w.cancelled {
      OnlyDecisionsMark(c, s, l);
      HolderAlone(c, s, l.h);
      assert Apply(c, s, l).pcs[l.h].Cancel?;
    }
  }

  lemma NeverLate(c: Config, ls: seq<Label>, s: Sys)
    requires Runs(c, Init(c), ls, s) && DecidesLocked(c, Init(c), ls)
    ensures !s.w.late
    ensures s.w.log != [] ==> Foreground(c, AnswersSeen(s.w.log)) == Some(s.w.log)
  {
    assert Runs(c, Init(c), [], Init(c));
    LockedCancelsNeverLate(c, Init(c), ls, s);
    assert Reachable(c, s);
    if s.w.log != [] { RefinesForeground(c, s); }
  }
}
