/** What one actor can rely on while the others take steps: its program counter or leg stays, retired keys
    stay retired, and nobody touches the stored answers under the lock. */
module TaskRely {
  import opened TaskTypes
  import opened TaskProtocol
  import opened TaskInvariant
  import opened TaskRuns
  import opened TaskTheorems
  import opened TaskFinality
  import opened TaskReplay

  datatype Actor = Handler(h: HandlerId) | LegWorker(leg: nat)

  // The steps an actor takes itself. Docket, not the worker, aborts a leg.
  predicate Mine(me: Actor, l: Label) {
    match l
    case StartUpdate(h, _) => me == Handler(h)
    case StartCancel(h) => me == Handler(h)
    case Move(h, _) => me == Handler(h)
    case Work(leg, act) => me == LegWorker(leg) && !act.Abort?
    case _ => false
  }

  ghost predicate Spares(ls: seq<Label>, me: Actor) {
    forall i :: 0 <= i < |ls| ==> !Mine(me, ls[i])
  }

  /** The others took some steps, and `me` none. */
  ghost predicate OthersRan(c: Config, a: Sys, b: Sys, me: Actor) {
    exists ls :: Runs(c, a, ls, b) && Spares(ls, me)
  }

  ghost predicate Settled(w: World, keys: set<SurfacedKey>) {
    w.cancelled || Spent(w, keys)
  }

  lemma HandlerStep(c: Config, a: Sys, l: Label, h: HandlerId)
    requires Enabled(a, l) && !Mine(Handler(h), l)
    ensures PcOf(Apply(c, a, l), h) == PcOf(a, h)
  {}

  lemma {:induction false} HandlerRun(c: Config, a: Sys, ls: seq<Label>, b: Sys, h: HandlerId)
    requires Runs(c, a, ls, b) && Spares(ls, Handler(h))
    ensures PcOf(b, h) == PcOf(a, h)
    decreases |ls|
  {
    if ls != [] {
      var m := Apply(c, a, ls[0]);
      assert !Mine(Handler(h), ls[0]);
      HandlerStep(c, a, ls[0], h);
      HandlerRun(c, m, ls[1..], b, h);
    }
  }

  /** A request stands where it stood. */
  lemma HandlerKept(c: Config, a: Sys, b: Sys, h: HandlerId)
    requires OthersRan(c, a, b, Handler(h))
    ensures PcOf(b, h) == PcOf(a, h)
  {
    var ls :| Runs(c, a, ls, b) && Spares(ls, Handler(h));
    HandlerRun(c, a, ls, b, h);
  }

  // A leg nobody has finished, before and after steps of others.
  ghost predicate LegHeld(a: World, b: World, leg: nat) {
    leg in a.execs && leg in b.execs && (b.execs[leg] == a.execs[leg] || b.execs[leg] == Stopped)
  }

  // Updates only ever add legs, and cancels do not touch them.
  lemma UpdatesKeepLegs(c: Config, w: World, h: HandlerId, p: Payload, at: UpdateAt, ok: bool, leg: nat, w': World)
    requires leg in w.execs && w' == UpdateNext(c, w, h, p, at, ok).w
    ensures LegHeld(w, w', leg)
  {
    if !at.Enqueuing? { OnlyEnqueueAddsLegs(c, w, h, p, at, ok); }
  }

  lemma OnlyEnqueueAddsLegs(c: Config, w: World, h: HandlerId, p: Payload, at: UpdateAt, ok: bool)
    requires !at.Enqueuing?
    ensures UpdateNext(c, w, h, p, at, ok).w.execs == w.execs
  {}

  lemma CancelsKeepLegs(w: World, h: HandlerId, at: CancelAt, ok: bool)
    ensures CancelNext(w, h, at, ok).w.execs == w.execs
    ensures CancelNext(w, h, at, ok).w.responses == w.responses
  {}

  lemma WorkersKeepLegs(c: Config, w: World, n: nat, act: Act, leg: nat, w': World)
    requires CanAct(w, n, act) && (n != leg || act.Abort?) && leg in w.execs && w' == ActNext(c, w, n, act)
    ensures LegHeld(w, w', leg)
  {}

  lemma LegStep(c: Config, a: Sys, l: Label, leg: nat)
    requires Enabled(a, l) && !Mine(LegWorker(leg), l) && leg in a.w.execs
    ensures LegHeld(a.w, Apply(c, a, l).w, leg)
  {
    match l
    case Move(h, ok) =>
      match PcOf(a, h) {
        case Update(p, at) => UpdatesKeepLegs(c, a.w, h, p, at, ok, leg, UpdateNext(c, a.w, h, p, at, ok).w);
        case Cancel(at) => CancelsKeepLegs(a.w, h, at, ok);
      }
    case Work(n, act) => WorkersKeepLegs(c, a.w, n, act, leg, ActNext(c, a.w, n, act));
    case _ =>
  }

  lemma {:induction false} LegRun(c: Config, a: Sys, ls: seq<Label>, b: Sys, leg: nat)
    requires Runs(c, a, ls, b) && Spares(ls, LegWorker(leg)) && leg in a.w.execs
    ensures LegHeld(a.w, b.w, leg)
    decreases |ls|
  {
    if ls != [] {
      assert !Mine(LegWorker(leg), ls[0]);
      LegStep(c, a, ls[0], leg);
      LegRun(c, Apply(c, a, ls[0]), ls[1..], b, leg);
    }
  }

  /** A leg stands where its worker left it, or Docket has stopped it. */
  lemma LegKept(c: Config, a: Sys, b: Sys, leg: nat)
    requires OthersRan(c, a, b, LegWorker(leg)) && leg in a.w.execs
    ensures LegHeld(a.w, b.w, leg)
  {
    var ls :| Runs(c, a, ls, b) && Spares(ls, LegWorker(leg));
    LegRun(c, a, ls, b, leg);
  }

  /** Retired keys stay retired, and a cancelled task stays cancelled. */
  lemma SettledKept(c: Config, a: Sys, b: Sys, me: Actor, keys: set<SurfacedKey>)
    requires OthersRan(c, a, b, me) && Settled(a.w, keys)
    ensures Settled(b.w, keys)
  {
    var ls :| Runs(c, a, ls, b) && Spares(ls, me);
    if a.w.cancelled { MarkerStaysForever(c, a, ls, b); } else { SpentForever(c, a, ls, b, keys); }
  }

  /** A task that is over stays over. */
  lemma OverKept(c: Config, a: Sys, b: Sys, me: Actor)
    requires Reachable(c, a) && Over(a.w) && OthersRan(c, a, b, me)
    ensures Over(b.w)
  {
    var ls :| Runs(c, a, ls, b) && Spares(ls, me);
    if a.w.cancelled {
      MarkerStaysForever(c, a, ls, b);
    } else {
      FinalIffDecidedLocked(c, a, ls, b);
      CancelledReplies(c, a, ls, b);
    }
  }

  // `cancelled` is reported for a stopped execution too, but only once the marker is there.
  lemma CancelledReplies(c: Config, a: Sys, ls: seq<Label>, b: Sys)
    requires Reachable(c, a) && Runs(c, a, ls, b)
    ensures Observe(b.w) == CancelledReply ==> b.w.cancelled
    ensures b.w.cancelled ==> Observe(b.w) == CancelledReply
  {
    ReachableInv(c, a);
    RunInv(c, a, ls, b);
    EndOfLog(c, b.w, At(b));
  }

  /* --------------------------------------------- the answers under the lock */

  /** Update `h` holds the lock and the task is parked. */
  ghost predicate HoldsParked(s: Sys, h: HandlerId) {
    PcOf(s, h).Update? && InSection(PcOf(s, h)) && WaitsParked(s.w)
  }

  // Any other update is still outside the locked section and changes nothing.
  lemma ForeignUpdate(c: Config, s: Sys, h: HandlerId, g: HandlerId, q: Payload, at: UpdateAt, ok: bool)
    requires HandlersInv(s) && InSection(PcOf(s, h)) && g != h
    requires PcOf(s, g) == Update(q, at) && CanMove(s.w, Update(q, at), ok)
    ensures UpdateNext(c, s.w, g, q, at, ok).w == s.w
  {
    assert HandlerInv(s.w, h, PcOf(s, h)) && HandlerInv(s.w, g, PcOf(s, g));
  }

  // A cancel without the lock can mark the task, clear a leg's hashes and ask Docket to stop, no more.
  ghost predicate OnlyCancels(w: World, w': World) {
    w'.(cancelled := w.cancelled, requests := w.requests, surfaced := w.surfaced, stops := w.stops) == w
  }

  lemma ForeignCancel(s: Sys, h: HandlerId, g: HandlerId, at: CancelAt, ok: bool)
    requires HandlersInv(s) && InSection(PcOf(s, h)) && g != h
    requires PcOf(s, g) == Cancel(at) && CanMove(s.w, Cancel(at), ok)
    ensures OnlyCancels(s.w, CancelNext(s.w, g, at, ok).w)
  {
    assert HandlerInv(s.w, h, PcOf(s, h)) && HandlerInv(s.w, g, PcOf(s, g));
  }

  // Under a parked leg no worker is left to run.
  lemma NobodyWorks(c: Config, s: Sys, leg: nat, act: Act)
    requires Reachable(c, s) && WaitsParked(s.w)
    ensures !CanAct(s.w, leg, act)
  {
    ReachableCore(c, s);
  }

  // What the answers of the parked leg depend on, and that it stays parked.
  ghost predicate SameAnswers(w: World, w': World) {
    w'.responses == w.responses && w'.log == w.log && w'.failed == w.failed && w'.execs == w.execs
    && w'.enqueues == w.enqueues
  }

  lemma NoWorkLeaves(c: Config, s: Sys, h: HandlerId, l: Label)
    requires HandlersInv(s) && HoldsParked(s, h) && Enabled(s, l) && !Mine(Handler(h), l) && !l.Work?
    ensures SameAnswers(s.w, Apply(c, s, l).w)
  {
    match l
    case Move(g, ok) =>
      match PcOf(s, g) {
        case Update(p, at) => ForeignUpdate(c, s, h, g, p, at, ok);
        case Cancel(at) => ForeignCancel(s, h, g, at, ok);
      }
    case _ =>
  }

  /** While an update holds the lock of a parked task, nobody else touches what its answers depend on. */
  lemma OthersLeave(c: Config, s: Sys, h: HandlerId, l: Label)
    requires Reachable(c, s) && HoldsParked(s, h) && Enabled(s, l) && !Mine(Handler(h), l)
    ensures var m := Apply(c, s, l); HoldsParked(m, h) && SameAnswers(s.w, m.w)
  {
    ReachableHandlers(c, s);
    if l.Work? { NobodyWorks(c, s, l.leg, l.act); } else { NoWorkLeaves(c, s, h, l); }
    HandlerStep(c, s, l, h);
  }

  lemma {:induction false} StillRun(c: Config, a: Sys, ls: seq<Label>, b: Sys, h: HandlerId)
    requires Reachable(c, a) && HoldsParked(a, h) && Runs(c, a, ls, b) && Spares(ls, Handler(h))
    ensures SameAnswers(a.w, b.w)
    decreases |ls|
  {
    if ls != [] {
      assert !Mine(Handler(h), ls[0]);
      OthersLeave(c, a, h, ls[0]);
      ReachableNext(c, a, ls[0]);
      StillRun(c, Apply(c, a, ls[0]), ls[1..], b, h);
    }
  }

  predicate PastMatch(at: UpdateAt) {
    at.Matched? || at.Stored? || at.Discarding? || at.Enqueuing?
  }

  lemma MatchedHoldsParked(c: Config, s: Sys, h: HandlerId)
    requires Reachable(c, s) && PcOf(s, h).Update? && PastMatch(PcOf(s, h).at)
    ensures HoldsParked(s, h) && PcOf(s, h).at.leg == Top(s.w)
  {
    ReachableInv(c, s);
    assert HandlerInv(s.w, h, PcOf(s, h)) && At(s) == PcOf(s, h);
  }

  /** Between the read and the write of the stored answers nobody else writes them: the lock keeps other
      updates out, and a parked task has no worker. */
  lemma AnswersStandStill(c: Config, a: Sys, b: Sys, h: HandlerId)
    requires Reachable(c, a) && PcOf(a, h).Update? && PcOf(a, h).at.Matched? && OthersRan(c, a, b, Handler(h))
    ensures b.w.responses == a.w.responses
  {
    MatchedHoldsParked(c, a, h);
    var ls :| Runs(c, a, ls, b) && Spares(ls, Handler(h));
    StillRun(c, a, ls, b, h);
  }
}
