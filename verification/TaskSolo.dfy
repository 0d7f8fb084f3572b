/** What one request does when nothing else runs beside it, as a composition of store commands. */
module TaskSolo {
  import opened TaskTypes
  import opened TaskProtocol
  import opened TaskInvariant
  import opened TaskAnswers
  import opened TaskRuns

  // The system `s` with world `w` and handler `h` at `pc`.
  ghost function With(s: Sys, w: World, h: HandlerId, pc: Pc): (b: Sys)
    ensures b.w == w && PcOf(b, h) == pc
    ensures forall g :: g != h ==> PcOf(b, g) == PcOf(s, g)
  {
    Sys(w, SetPc(s, h, pc))
  }

  lemma Then(c: Config, a: Sys, ls: seq<Label>, s: Sys, l: Label, b: Sys)
    requires Runs(c, a, ls, s) && Enabled(s, l) && b == Apply(c, s, l)
    ensures Runs(c, a, ls + [l], b)
  {
    assert [l][1..] == [];
    assert Runs(c, b, [], b);
    RunsConcat(c, a, ls, s, [l], b);
  }

  // One move of handler `h`, given where it leads.
  lemma ThenMove(c: Config, a: Sys, s: Sys, ls: seq<Label>, h: HandlerId, w: World, pc: Pc, ok: bool, w': World, pc': Pc)
    returns (more: seq<Label>)
    requires Runs(c, a, ls, With(s, w, h, pc)) && CanMove(w, pc, ok) && HandlerNext(c, w, h, pc, ok) == Moved(w', pc')
    ensures more == ls + [Move(h, ok)] && Runs(c, a, more, With(s, w', h, pc'))
  {
    more := ls + [Move(h, ok)];
    var m := With(s, w, h, pc);
    assert SetPc(m, h, pc') == SetPc(s, h, pc');
    Then(c, a, ls, m, Move(h, ok), With(s, w', h, pc'));
  }

  // The update run up to its read of the requests: only the lock has changed.
  lemma SoloRead(c: Config, a: Sys, s: Sys, ls0: seq<Label>, h: HandlerId, w: World, p: Payload) returns (ls: seq<Label>)
    requires Runs(c, a, ls0, With(s, w, h, Update(p, Arrived)))
    requires w.pointer in w.visible && !w.locked && !w.cancelled && Req(w, w.number) != map[]
    ensures Runs(c, a, ls, With(s, Acquire(w, h), h, Update(p, Reading(w.number, Req(w, w.number)))))
  {
    var leg, held := w.number, Acquire(w, h);
    assert Req(held, leg) == Req(w, leg);
    ls := ThenMove(c, a, s, ls0, h, w, Update(p, Arrived), true, w, Update(p, Looked(leg)));
    ls := ThenMove(c, a, s, ls, h, w, Update(p, Looked(leg)), true, held, Update(p, Locked(leg)));
    ls := ThenMove(c, a, s, ls, h, held, Update(p, Locked(leg)), true, held, Update(p, Checked(leg)));
    ls := ThenMove(c, a, s, ls, h, held, Update(p, Checked(leg)), true, held, Update(p, Reading(leg, Req(w, leg))));
  }

  /** The update run up to the match of its answers: only the lock has changed. */
  lemma SoloMatch(c: Config, a: Sys, s: Sys, ls0: seq<Label>, h: HandlerId, w: World, p: Payload, t: Translation)
    returns (ls: seq<Label>)
    requires Runs(c, a, ls0, With(s, w, h, Update(p, Arrived)))
    requires w.pointer in w.visible && !w.locked && !w.cancelled && Req(w, w.number) != map[]
    requires t == Translate(c, Req(w, w.number), Smap(w, w.number), p) && t.Translated? && t.answers != map[]
    ensures Runs(c, a, ls, With(s, Acquire(w, h), h, Update(p, Matched(w.number, t.answers, t.answered))))
  {
    var leg, held := w.number, Acquire(w, h);
    assert Smap(held, leg) == Smap(w, leg);
    ls := SoloRead(c, a, s, ls0, h, w, p);
    ls := ThenMove(c, a, s, ls, h, held, Update(p, Reading(leg, Req(w, leg))), true, held,
                   Update(p, Matched(leg, t.answers, t.answered)));
  }

  lemma SoloStore(c: Config, a: Sys, s: Sys, ls0: seq<Label>, h: HandlerId, w: World, p: Payload, leg: nat, t: Translation)
    returns (ls: seq<Label>)
    requires t.Translated? && Runs(c, a, ls0, With(s, w, h, Update(p, Matched(leg, t.answers, t.answered))))
    ensures Runs(c, a, ls, With(s, StoreAnswers(w, leg, t.answers), h,
                                Update(p, if Req(w, leg).Keys - t.answered != {} then Discarding(leg, t.answered)
                                          else Enqueuing(leg))))
  {
    var stored := StoreAnswers(w, leg, t.answers);
    assert Req(stored, leg) == Req(w, leg);
    ls := ThenMove(c, a, s, ls0, h, w, Update(p, Matched(leg, t.answers, t.answered)), true, stored, Update(p, Stored(leg, t.answered)));
    ls := ThenMove(c, a, s, ls, h, stored, Update(p, Stored(leg, t.answered)), true, stored,
                   Update(p, if Req(w, leg).Keys - t.answered != {} then Discarding(leg, t.answered) else Enqueuing(leg)));
  }

  lemma SoloDiscard(c: Config, a: Sys, s: Sys, ls0: seq<Label>, h: HandlerId, w: World, p: Payload, leg: nat,
                    answered: set<SurfacedKey>)
    returns (ls: seq<Label>)
    requires Runs(c, a, ls0, With(s, w, h, Update(p, Discarding(leg, answered))))
    ensures Runs(c, a, ls, With(s, Release(DropSurfaced(DropRequests(w, leg, answered), leg, answered)), h, Idle))
  {
    var dropped := DropRequests(w, leg, answered);
    var done := DropSurfaced(dropped, leg, answered);
    ls := ThenMove(c, a, s, ls0, h, w, Update(p, Discarding(leg, answered)), true, dropped, Update(p, DiscardingMap(leg, answered)));
    ls := ThenMove(c, a, s, ls, h, dropped, Update(p, DiscardingMap(leg, answered)), true, done, Update(p, Releasing));
    ls := ThenMove(c, a, s, ls, h, done, Update(p, Releasing), true, Release(done), Idle);
  }

  // The world once the next leg is enqueued and visible.
  ghost function Enqueued(w: World, leg: nat): World {
    EnqueueLeg(w, leg + 1).(visible := w.visible + {leg + 1})
  }

  lemma SoloEnqueue(c: Config, a: Sys, s: Sys, ls0: seq<Label>, h: HandlerId, w: World, p: Payload, leg: nat)
    returns (ls: seq<Label>)
    requires Runs(c, a, ls0, With(s, w, h, Update(p, Enqueuing(leg)))) && leg + 1 !in w.execs
    ensures Runs(c, a, ls, With(s, Enqueued(w, leg), h, Update(p, Awaiting(leg))))
  {
    var queued := EnqueueLeg(w, leg + 1);
    ls := ThenMove(c, a, s, ls0, h, w, Update(p, Enqueuing(leg)), true, queued, Update(p, Awaiting(leg)));
    Then(c, a, ls, With(s, queued, h, Update(p, Awaiting(leg))), Propagate(leg + 1),
         With(s, Enqueued(w, leg), h, Update(p, Awaiting(leg))));
    ls := ls + [Propagate(leg + 1)];
  }

  lemma SoloSwap(c: Config, a: Sys, s: Sys, ls0: seq<Label>, h: HandlerId, w: World, p: Payload, leg: nat)
    returns (ls: seq<Label>)
    requires leg + 1 in w.visible && Runs(c, a, ls0, With(s, w, h, Update(p, Awaiting(leg))))
    ensures Runs(c, a, ls, With(s, w.(pointer := leg + 1, number := leg + 1), h, Update(p, Clearing(leg))))
  {
    var half := w.(pointer := leg + 1);
    ls := ThenMove(c, a, s, ls0, h, w, Update(p, Awaiting(leg)), true, w, Update(p, Swapping(leg)));
    ls := ThenMove(c, a, s, ls, h, w, Update(p, Swapping(leg)), true, half, Update(p, SwappingNumber(leg)));
    ls := ThenMove(c, a, s, ls, h, half, Update(p, SwappingNumber(leg)), true,
                   w.(pointer := leg + 1, number := leg + 1), Update(p, Clearing(leg)));
  }

  lemma SoloClear(c: Config, a: Sys, s: Sys, ls0: seq<Label>, h: HandlerId, w: World, p: Payload, leg: nat)
    returns (ls: seq<Label>)
    requires Runs(c, a, ls0, With(s, w, h, Update(p, Clearing(leg))))
    ensures Runs(c, a, ls, With(s, Release(ClearSurfaced(ClearRequests(w, leg), leg)), h, Idle))
  {
    var c1 := ClearRequests(w, leg);
    var c2 := ClearSurfaced(c1, leg);
    ls := ThenMove(c, a, s, ls0, h, w, Update(p, Clearing(leg)), true, c1, Update(p, ClearingMap(leg)));
    ls := ThenMove(c, a, s, ls, h, c1, Update(p, ClearingMap(leg)), true, c2, Update(p, Releasing));
    ls := ThenMove(c, a, s, ls, h, c2, Update(p, Releasing), true, Release(c2), Idle);
  }

  /** What a partial update leaves: its answers stored, exactly its keys retired. */
  ghost function PartlyAnswered(w: World, leg: nat, t: Translation): World
    requires t.Translated?
  {
    DropSurfaced(DropRequests(StoreAnswers(w, leg, t.answers), leg, t.answered), leg, t.answered)
  }

  /** What a completing update leaves: the next leg enqueued with all answers in place, both halves of the
      pointer on it, and the answered leg's keys gone. */
  ghost function Reentered(w: World, leg: nat, t: Translation): World
    requires t.Translated?
  {
    ClearSurfaced(ClearRequests(
      Enqueued(StoreAnswers(w, leg, t.answers), leg).(pointer := leg + 1, number := leg + 1), leg), leg)
  }

  // From the match to the release, when keys stay open.
  lemma SoloPartial(c: Config, a: Sys, s: Sys, ls0: seq<Label>, h: HandlerId, w: World, p: Payload, leg: nat, t: Translation)
    returns (ls: seq<Label>)
    requires t.Translated? && Req(w, leg).Keys - t.answered != {}
    requires !w.locked && w.owner == None && leg + 1 !in w.execs
    requires Runs(c, a, ls0, With(s, Acquire(w, h), h, Update(p, Matched(leg, t.answers, t.answered))))
    ensures Runs(c, a, ls, With(s, PartlyAnswered(w, leg, t), h, Idle))
  {
    var held := Acquire(w, h);
    assert Req(held, leg) == Req(w, leg);
    ls := SoloStore(c, a, s, ls0, h, held, p, leg, t);
    ls := SoloDiscard(c, a, s, ls, h, StoreAnswers(held, leg, t.answers), p, leg, t.answered);
    SoloResult(w, h, leg, t);
  }

  // From the match to the release, when every key is answered.
  lemma SoloComplete(c: Config, a: Sys, s: Sys, ls0: seq<Label>, h: HandlerId, w: World, p: Payload, leg: nat, t: Translation)
    returns (ls: seq<Label>)
    requires t.Translated? && Req(w, leg).Keys - t.answered == {}
    requires !w.locked && w.owner == None && leg + 1 !in w.execs
    requires Runs(c, a, ls0, With(s, Acquire(w, h), h, Update(p, Matched(leg, t.answers, t.answered))))
    ensures Runs(c, a, ls, With(s, Reentered(w, leg, t), h, Idle))
  {
    var held := Acquire(w, h);
    assert Req(held, leg) == Req(w, leg);
    ls := SoloStore(c, a, s, ls0, h, held, p, leg, t);
    var stored := StoreAnswers(held, leg, t.answers);
    ls := SoloEnqueue(c, a, s, ls, h, stored, p, leg);
    ls := SoloSwap(c, a, s, ls, h, Enqueued(stored, leg), p, leg);
    ls := SoloClear(c, a, s, ls, h, Enqueued(stored, leg).(pointer := leg + 1, number := leg + 1), p, leg);
    SoloResult(w, h, leg, t);
  }

  ghost function Updated(w: World, leg: nat, t: Translation): World
    requires t.Translated?
  {
    if Req(w, leg).Keys - t.answered != {} then PartlyAnswered(w, leg, t) else Reentered(w, leg, t)
  }

  lemma SoloTail(c: Config, a: Sys, s: Sys, ls0: seq<Label>, h: HandlerId, w: World, p: Payload, leg: nat, t: Translation)
    returns (ls: seq<Label>)
    requires t.Translated? && !w.locked && w.owner == None && leg + 1 !in w.execs
    requires Runs(c, a, ls0, With(s, Acquire(w, h), h, Update(p, Matched(leg, t.answers, t.answered))))
    ensures Runs(c, a, ls, With(s, Updated(w, leg, t), h, Idle))
  {
    if Req(w, leg).Keys - t.answered != {} { ls := SoloPartial(c, a, s, ls0, h, w, p, leg, t); }
    else { ls := SoloComplete(c, a, s, ls0, h, w, p, leg, t); }
  }

  /** What an answered leg looks like afterwards: the next leg is queued, current and visible, with the answers in
      place and nothing asked; of the answered leg nothing is outstanding. */
  ghost predicate GoesOn(w: World, w': World, leg: nat) {
    && w'.enqueues == w.enqueues + [leg + 1] && w'.execs == w.execs[leg + 1 := Queued(w.args)]
    && w'.pointer == w'.number == leg + 1
    && Req(w', leg) == map[] && Smap(w', leg) == map[] && Req(w', leg + 1) == map[] && Smap(w', leg + 1) == map[]
    && Observe(w') == Working
  }

  /** What a partly answered leg looks like afterwards: exactly the other keys are outstanding, and reported. */
  ghost predicate StaysParked(w: World, w': World, leg: nat, answered: set<SurfacedKey>) {
    && w'.enqueues == w.enqueues && w'.execs == w.execs && w'.pointer == w.pointer && w'.number == w.number
    && Req(w', leg) == Req(w, leg) - answered && Smap(w', leg) == Smap(w, leg) - answered
    && Observe(w') == InputRequired(Req(w, leg) - answered)
  }

  lemma ReenteredGoesOn(w: World, leg: nat, t: Translation)
    requires t.Translated? && leg + 1 !in w.execs && !w.cancelled && Req(w, leg + 1) == map[] && Smap(w, leg + 1) == map[]
    ensures GoesOn(w, Reentered(w, leg, t), leg)
  {
    var w' := Reentered(w, leg, t);
    assert w'.requests == w.requests - {leg} && w'.surfaced == w.surfaced - {leg};
    assert w'.execs == w.execs[leg + 1 := Queued(w.args)] && w'.visible == w.visible + {leg + 1};
  }

  lemma PartlyStaysParked(w: World, leg: nat, t: Translation)
    requires t.Translated? && w.number == leg == w.pointer && leg in w.visible && !w.cancelled
    requires leg in w.execs && w.execs[leg].Completed? && Req(w, leg).Keys - t.answered != {}
    ensures StaysParked(w, PartlyAnswered(w, leg, t), leg, t.answered)
  {
    var w' := PartlyAnswered(w, leg, t);
    var k :| k in Req(w, leg).Keys - t.answered;
    assert w'.requests == w.requests[leg := Req(w, leg) - t.answered];
    assert k in Req(w', leg);
  }

  /** An undisturbed tasks/update on a parked task. Its answers join those already there. If they are to every
      outstanding key the task goes on to the next leg; otherwise exactly the answered keys are retired, and the
      others reported. No other leg is touched. */
  lemma SoloUpdate(c: Config, s: Sys, h: HandlerId, p: Payload, t: Translation) returns (ls: seq<Label>, b: Sys)
    requires Inv(c, s) && !s.w.locked && !s.w.cancelled && WaitsParked(s.w)
    requires PcOf(s, h) == Update(p, Arrived)
    requires t == Translate(c, Req(s.w, s.w.number), Smap(s.w, s.w.number), p) && t.Translated? && t.answers != map[]
    ensures Runs(c, s, ls, b) && PcOf(b, h) == Idle && forall g :: g != h ==> PcOf(b, g) == PcOf(s, g)
    ensures b.w.responses == Some(Responses(s.w) + t.answers) && !b.w.locked && !b.w.cancelled
    ensures var leg := s.w.number;
            if Req(s.w, leg).Keys <= t.answered then GoesOn(s.w, b.w, leg) else StaysParked(s.w, b.w, leg, t.answered)
    ensures forall m: nat :: m != s.w.number ==> Req(b.w, m) == Req(s.w, m) && Smap(b.w, m) == Smap(s.w, m)
  {
    var leg := s.w.number;
    SoloStart(c, s, h);
    assert s == With(s, s.w, h, Update(p, Arrived));
    ls := SoloMatch(c, s, s, [], h, s.w, p, t);
    ls := SoloTail(c, s, s, ls, h, s.w, p, leg, t);
    b := With(s, Updated(s.w, leg, t), h, Idle);
    UpdatedFacts(s.w, leg, t);
    forall m: nat | m != leg ensures Req(b.w, m) == Req(s.w, m) && Smap(b.w, m) == Smap(s.w, m) {
      OtherLegsKept(s.w, leg, t, m);
    }
  }

  lemma OtherLegsKept(w: World, leg: nat, t: Translation, m: nat)
    requires t.Translated? && m != leg
    ensures Req(Updated(w, leg, t), m) == Req(w, m) && Smap(Updated(w, leg, t), m) == Smap(w, m)
  {
    if Req(w, leg).Keys - t.answered != {} {
      PartlyHashes(w, leg, t);
    } else {
      ReenteredHashes(w, leg, t);
    }
  }

  lemma PartlyHashes(w: World, leg: nat, t: Translation)
    requires t.Translated?
    ensures PartlyAnswered(w, leg, t).requests == w.requests[leg := Req(w, leg) - t.answered]
    ensures PartlyAnswered(w, leg, t).surfaced == w.surfaced[leg := Smap(w, leg) - t.answered]
  {}

  lemma ReenteredHashes(w: World, leg: nat, t: Translation)
    requires t.Translated?
    ensures Reentered(w, leg, t).requests == w.requests - {leg} && Reentered(w, leg, t).surfaced == w.surfaced - {leg}
  {}

  lemma UpdatedFacts(w: World, leg: nat, t: Translation)
    requires t.Translated? && w.number == leg == w.pointer && leg in w.visible && !w.cancelled && !w.locked
    requires leg in w.execs && w.execs[leg].Completed? && leg + 1 !in w.execs
    requires Req(w, leg + 1) == map[] && Smap(w, leg + 1) == map[]
    ensures var w' := Updated(w, leg, t);
            && w'.responses == Some(Responses(w) + t.answers) && !w'.locked && !w'.cancelled
            && (if Req(w, leg).Keys <= t.answered then GoesOn(w, w', leg) else StaysParked(w, w', leg, t.answered))
  {
    if Req(w, leg).Keys - t.answered != {} {
      PartlyStaysParked(w, leg, t);
      assert !(Req(w, leg).Keys <= t.answered);
    } else {
      ReenteredGoesOn(w, leg, t);
      forall k | k in Req(w, leg).Keys ensures k in t.answered { assert k !in Req(w, leg).Keys - t.answered; }
    }
  }

  lemma SoloStart(c: Config, s: Sys, h: HandlerId)
    requires Inv(c, s) && !s.w.locked && !s.w.cancelled && WaitsParked(s.w)
    ensures s.w.number == s.w.pointer == Top(s.w) && s.w.owner == None && s.w.number + 1 !in s.w.execs
    ensures Req(s.w, s.w.number + 1) == map[] && Smap(s.w, s.w.number + 1) == map[]
    ensures s.w.pointer in s.w.visible && Req(s.w, s.w.number) != map[]
  {}

  // Taking the lock and giving it back leaves no trace.
  lemma SoloResult(w: World, h: HandlerId, leg: nat, t: Translation)
    requires t.Translated? && !w.locked && w.owner == None && leg + 1 !in w.execs
    ensures var stored := StoreAnswers(Acquire(w, h), leg, t.answers);
            && Release(DropSurfaced(DropRequests(stored, leg, t.answered), leg, t.answered)) == PartlyAnswered(w, leg, t)
            && Release(ClearSurfaced(ClearRequests(
                 Enqueued(stored, leg).(pointer := leg + 1, number := leg + 1), leg), leg)) == Reentered(w, leg, t)
    ensures Top(Reentered(w, leg, t)) == Top(w) + 1 && Top(PartlyAnswered(w, leg, t)) == Top(w)
  {}
}
