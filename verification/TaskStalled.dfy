/** A re-entry whose durable wait runs out: `_await_durable_creation` raises after the next leg has been enqueued, the
    lock is given back and the pointer stays on the old leg. */
module TaskStalled {
  import opened TaskTypes
  import opened TaskProtocol
  import opened TaskInvariant
  import opened TaskRuns
  import opened TaskTheorems
  import opened TaskRely
  import opened TaskSolo

  // What the raise leaves behind.
  ghost function WaitRanOut(s: Sys, h: HandlerId): Sys {
    Sys(Release(s.w), SetPc(s, h, Idle))
  }

  /** It leaves the pointer one leg behind with the lock free, which no reachable state has. */
  lemma WaitRunningOutBreaksInv(c: Config, s: Sys, h: HandlerId, p: Payload, leg: nat)
    requires Reachable(c, s) && PcOf(s, h) == Update(p, Awaiting(leg))
    ensures var g := WaitRanOut(s, h); g.w.pointer == g.w.number == leg == Top(g.w) - 1 && !Inv(c, g) && !Reachable(c, g)
  {
    AwaitingFacts(c, s, h, p, leg);
    var g := WaitRanOut(s, h);
    assert At(g) == Idle;
    assert !WindowInv(g.w, Idle);
    if Reachable(c, g) { ReachableInv(c, g); }
  }

  lemma AwaitingFacts(c: Config, s: Sys, h: HandlerId, p: Payload, leg: nat)
    requires Reachable(c, s) && PcOf(s, h) == Update(p, Awaiting(leg))
    ensures s.w.pointer == s.w.number == leg == Top(s.w) - 1 && s.w.pointer in s.w.visible
    ensures !s.w.cancelled ==> Req(s.w, leg) != map[]
  {
    ReachableHandlers(c, s);
    ReachableCore(c, s);
    assert At(s) == PcOf(s, h);
  }

  /* ------------------------------------- whose answers the next leg has left */

  // The newest leg has dropped the answers it consumed, and not ended otherwise since.
  ghost predicate Dropped(w: World) {
    Top(w) in w.execs &&
    match w.execs[Top(w)]
    case Running(_, worker) => worker.Consumed? || worker.Parked?
    case Completed(e) => e == ParkedAsk
    case _ => false
  }

  /** What is stored while the leg after `leg` is awaited: the answers to `leg`, until that next leg drops them. */
  ghost predicate LeftBehind(w: World, leg: nat) {
    && leg + 1 == Top(w) && Top(w) in w.execs
    && (w.responses == None || w.responses == Some(Collected(w.acks, leg)))
    && (Dropped(w) ==> w.responses == None)
    && (w.responses == None ==> Dropped(w) || w.execs[Top(w)].Stopped?)
  }

  ghost predicate Awaits(pc: Pc) { pc.Update? && pc.at.Awaiting? }

  ghost predicate AllLeft(s: Sys) {
    forall h :: h in s.pcs && Awaits(s.pcs[h]) ==> LeftBehind(s.w, s.pcs[h].at.leg)
  }

  lemma EnqueueLeaves(c: Config, s: Sys, h: HandlerId, p: Payload, leg: nat)
    requires Reachable(c, s) && PcOf(s, h) == Update(p, Enqueuing(leg))
    ensures LeftBehind(EnqueueLeg(s.w, leg + 1), leg)
  {
    EnqueueIsFresh(c, s, h, p, leg);
    EnqueuingFacts(c, s, h, p, leg);
  }

  lemma EnqueuingFacts(c: Config, s: Sys, h: HandlerId, p: Payload, leg: nat)
    requires Reachable(c, s) && PcOf(s, h) == Update(p, Enqueuing(leg))
    ensures leg == Top(s.w) && s.w.responses == Some(Collected(s.w.acks, leg))
  {
    ReachableHandlers(c, s);
    ReachableCore(c, s);
    assert HandlerInv(s.w, h, PcOf(s, h)) && At(s) == PcOf(s, h);
    assert ParkedInv(c, s.w, At(s));
  }

  lemma WorkLeaves(c: Config, w: World, leg: nat, n: nat, act: Act)
    requires LeftBehind(w, leg) && CanAct(w, n, act) && n == Top(w)
    requires act.Finish? && w.execs[n].worker.Finishing? ==> w.execs[n].worker.ending != ParkedAsk
    ensures LeftBehind(ActNext(c, w, n, act), leg)
  {}

  // Only the newest leg has a worker, and its body never ends by itself without a result.
  lemma WorkerFacts(c: Config, s: Sys, n: nat, act: Act)
    requires Reachable(c, s) && CanAct(s.w, n, act)
    ensures n == Top(s.w)
    ensures s.w.execs[n].Running? && s.w.execs[n].worker.Finishing? ==> s.w.execs[n].worker.ending != ParkedAsk
  {
    ReachableCore(c, s);
    if s.w.execs[n].Running? && s.w.execs[n].worker.Finishing? {
      var v := VerdictOf(c, LastCall(s.w));
      assert v == Ends(s.w.execs[n].worker.ending);
    }
  }

  lemma OthersLeft(c: Config, s: Sys, l: Label, h: HandlerId)
    requires Reachable(c, s) && Enabled(s, l) && !Mine(Handler(h), l)
    requires Awaits(PcOf(s, h)) && LeftBehind(s.w, PcOf(s, h).at.leg)
    ensures LeftBehind(Apply(c, s, l).w, PcOf(s, h).at.leg)
  {
    ReachableHandlers(c, s);
    match l
    case Move(g, ok) =>
      match PcOf(s, g) {
        case Update(q, at) => ForeignUpdate(c, s, h, g, q, at, ok);
        case Cancel(at) => ForeignCancel(s, h, g, at, ok);
      }
    case Work(n, act) =>
      WorkerFacts(c, s, n, act);
      WorkLeaves(c, s.w, PcOf(s, h).at.leg, n, act);
    case _ =>
  }

  // The step that brings an update to its wait.
  lemma ComesToWait(c: Config, s: Sys, h: HandlerId, q: Payload, at: UpdateAt, ok: bool)
    requires PcOf(s, h) == Update(q, at) && Awaits(UpdateNext(c, s.w, h, q, at, ok).pc)
    ensures var m := UpdateNext(c, s.w, h, q, at, ok);
            at == Enqueuing(m.pc.at.leg) && m.w == EnqueueLeg(s.w, m.pc.at.leg + 1)
  {}

  lemma LeftStep(c: Config, s: Sys, l: Label, h: HandlerId)
    requires Reachable(c, s) && AllLeft(s) && Enabled(s, l) && Awaits(PcOf(Apply(c, s, l), h))
    ensures LeftBehind(Apply(c, s, l).w, PcOf(Apply(c, s, l), h).at.leg)
  {
    if !Mine(Handler(h), l) {
      HandlerStep(c, s, l, h);
      OthersLeft(c, s, l, h);
    } else if l.Move? && PcOf(s, h).Update? {
      var p, at := PcOf(s, h).payload, PcOf(s, h).at;
      ComesToWait(c, s, h, p, at, l.ok);
      EnqueueLeaves(c, s, h, p, at.leg);
    }
  }

  lemma {:induction false} LeftRun(c: Config, a: Sys, ls: seq<Label>, b: Sys)
    requires Reachable(c, a) && AllLeft(a) && Runs(c, a, ls, b)
    ensures AllLeft(b)
    decreases |ls|
  {
    if ls != [] {
      var m := Apply(c, a, ls[0]);
      forall h | h in m.pcs && Awaits(m.pcs[h]) ensures LeftBehind(m.w, m.pcs[h].at.leg) { LeftStep(c, a, ls[0], h); }
      ReachableNext(c, a, ls[0]);
      LeftRun(c, m, ls[1..], b);
    }
  }

  /** While an update waits for the leg after `leg`, the answers to `leg` are stored until that leg drops them. */
  lemma AwaitedLeft(c: Config, s: Sys, h: HandlerId, p: Payload, leg: nat)
    requires Reachable(c, s) && PcOf(s, h) == Update(p, Awaiting(leg))
    ensures LeftBehind(s.w, leg)
  {
    var ls :| Runs(c, Init(c), ls, s);
    assert Runs(c, Init(c), [], Init(c));
    LeftRun(c, Init(c), ls, s);
  }

  /* --------------------------------------------------------------- the retry */

  /** A client that sends answers again after the raise gets them stored. They join those to the same leg as long as the
      next one has not dropped them; once it has, they alone are stored where the answers to that next leg belong. */
  lemma RetryMixesLegs(c: Config, s: Sys, h: HandlerId, p: Payload, leg: nat, again: Payload, t: Translation)
    returns (ls: seq<Label>, b: Sys)
    requires Reachable(c, s) && PcOf(s, h) == Update(p, Awaiting(leg)) && !s.w.cancelled
    requires KeysOf(again) * s.w.minted <= s.w.shown
    requires t == Translate(c, Req(s.w, leg), Smap(s.w, leg), again) && t.Translated? && t.answers != map[]
    ensures Runs(c, WaitRanOut(s, h), ls, b) && b.w.execs == s.w.execs && Top(b.w) == leg + 1
    ensures Collected(b.w.acks, leg) == Collected(s.w.acks, leg) + t.answers
    ensures b.w.responses == Some(if s.w.responses == None then t.answers else Collected(b.w.acks, leg))
    ensures Dropped(s.w) ==> s.w.responses == None
    ensures leg + 1 in s.w.execs && (s.w.responses == None ==> Dropped(s.w) || s.w.execs[leg + 1].Stopped?)
  {
    AwaitingFacts(c, s, h, p, leg);
    AwaitedLeft(c, s, h, p, leg);
    CollectedAppend(s.w.acks, Ack(leg, t.answers));
    assert map[] + t.answers == t.answers;
    ls, b := RetryStores(c, WaitRanOut(s, h), h, again, t);
  }

  lemma RetryStores(c: Config, g: Sys, h: HandlerId, p: Payload, t: Translation) returns (ls: seq<Label>, b: Sys)
    requires PcOf(g, h) == Idle && KeysOf(p) * g.w.minted <= g.w.shown
    requires g.w.pointer in g.w.visible && !g.w.locked && !g.w.cancelled && Req(g.w, g.w.number) != map[]
    requires t == Translate(c, Req(g.w, g.w.number), Smap(g.w, g.w.number), p) && t.Translated? && t.answers != map[]
    ensures Runs(c, g, ls, b) && b.w.enqueues == g.w.enqueues && b.w.execs == g.w.execs
    ensures b.w.responses == Some(Responses(g.w) + t.answers) && b.w.acks == g.w.acks + [Ack(g.w.number, t.answers)]
  {
    var w, leg := g.w.(named := g.w.named + KeysOf(p)), g.w.number;
    Then(c, g, [], g, StartUpdate(h, p), With(g, w, h, Update(p, Arrived)));
    assert Req(w, leg) == Req(g.w, leg) && Smap(w, leg) == Smap(g.w, leg);
    ls := SoloMatch(c, g, g, [] + [StartUpdate(h, p)], h, w, p, t);
    ls := SoloStore(c, g, g, ls, h, Acquire(w, h), p, leg, t);
    b := With(g, StoreAnswers(Acquire(w, h), leg, t.answers), h,
              Update(p, if Req(w, leg).Keys - t.answered != {} then Discarding(leg, t.answered) else Enqueuing(leg)));
  }
}
