/** The invariant holds in every state of every run. */
module TaskRuns {
  import opened TaskTypes
  import opened TaskProtocol
  import opened TaskInvariant
  import opened TaskUpdateSteps
  import opened TaskOtherSteps
  import opened TaskWorkerSteps

  /* --------------------------------------------------------- tasks/update */

  // The steps of the update that holds the lock, up to the match of its answers.
  lemma CheckMove(c: Config, w: World, h: HandlerId, p: Payload, leg: nat, ok: bool, m: Moved)
    requires CoreInv(c, w, Update(p, Locked(leg))) && m == UpdateNext(c, w, h, p, Locked(leg), ok)
    ensures CoreInv(c, m.w, m.pc)
  {
    if w.cancelled { Settle(c, w, Update(p, Locked(leg)), m.pc); } else { CheckStep(c, w, p, leg); }
  }

  lemma ReadMove(c: Config, w: World, h: HandlerId, p: Payload, leg: nat, ok: bool, m: Moved)
    requires CoreInv(c, w, Update(p, Checked(leg))) && m == UpdateNext(c, w, h, p, Checked(leg), ok)
    requires KeysOf(p) * w.minted <= w.shown
    ensures CoreInv(c, m.w, m.pc)
  {
    if Req(w, leg) == map[] { Settle(c, w, Update(p, Checked(leg)), m.pc); } else { ReadStep(c, w, p, leg); }
  }

  lemma TranslateMove(c: Config, w: World, h: HandlerId, p: Payload, leg: nat,
                      outstanding: map<SurfacedKey, Request>, ok: bool, m: Moved)
    requires CoreInv(c, w, Update(p, Reading(leg, outstanding)))
    requires m == UpdateNext(c, w, h, p, Reading(leg, outstanding), ok)
    ensures CoreInv(c, m.w, m.pc)
  {
    var t := Translate(c, outstanding, Smap(w, leg), p);
    if t.Invalid? || t.answers == map[] { Settle(c, w, Update(p, Reading(leg, outstanding)), m.pc); }
    else { TranslateStep(c, w, p, leg, outstanding, t); }
  }

  // A handler that has nothing to claim: it is about to give the lock back, or has.
  lemma Settle(c: Config, w: World, at: Pc, at': Pc)
    requires CoreInv(c, w, at) && SameClaims(at, at')
    requires at' == Idle || (at'.Update? && (at'.at.Locked? || at'.at.Releasing?))
             || (at'.Cancel? && (at'.cat.CResolving? || at'.cat.CReleasing?))
    ensures CoreInv(c, w, at')
  {
    MoveAt(c, w, at, at');
  }

  lemma AnswerMove(c: Config, w: World, h: HandlerId, p: Payload, at: UpdateAt, ok: bool, m: Moved)
    requires CoreInv(c, w, Update(p, at)) && m == UpdateNext(c, w, h, p, at, ok)
    requires at.Matched? || at.Stored?
    ensures CoreInv(c, m.w, m.pc)
  {
    match at
    case Matched(leg, tr, answered) => StoreStep(c, w, m.w, p, leg, tr, answered);
    case Stored(leg, answered) =>
      if Req(w, leg).Keys - answered != {} { PartialStep(c, w, p, leg, answered); }
      else { CompleteStep(c, w, p, leg, answered); }
  }

  lemma DiscardMove(c: Config, w: World, h: HandlerId, p: Payload, at: UpdateAt, ok: bool, m: Moved)
    requires CoreInv(c, w, Update(p, at)) && m == UpdateNext(c, w, h, p, at, ok)
    requires at.Discarding? || at.DiscardingMap?
    ensures CoreInv(c, m.w, m.pc)
  {
    match at
    case Discarding(leg, answered) => DiscardStep(c, w, m.w, p, leg, answered);
    case DiscardingMap(leg, answered) => DiscardMapStep(c, w, m.w, p, leg, answered);
  }

  lemma EnqueueMove(c: Config, w: World, h: HandlerId, p: Payload, leg: nat, ok: bool, m: Moved)
    requires CoreInv(c, w, Update(p, Enqueuing(leg))) && m == UpdateNext(c, w, h, p, Enqueuing(leg), ok)
    ensures CoreInv(c, m.w, m.pc)
  {
    if ok { EnqueueStep(c, w, m.w, p, leg); } else { EnqueueFails(c, w, m.w, p, leg); }
  }

  lemma AwaitMove(c: Config, w: World, h: HandlerId, p: Payload, leg: nat, ok: bool, m: Moved)
    requires CoreInv(c, w, Update(p, Awaiting(leg))) && m == UpdateNext(c, w, h, p, Awaiting(leg), ok)
    requires leg + 1 in w.visible
    ensures CoreInv(c, m.w, m.pc)
  {
    AwaitStep(c, w, p, leg);
  }

  lemma SwapMove(c: Config, w: World, h: HandlerId, p: Payload, leg: nat, ok: bool, m: Moved)
    requires CoreInv(c, w, Update(p, Swapping(leg))) && m == UpdateNext(c, w, h, p, Swapping(leg), ok)
    ensures CoreInv(c, m.w, m.pc)
  {
    SwapStep(c, w, m.w, p, leg);
  }

  lemma SwapNumberMove(c: Config, w: World, h: HandlerId, p: Payload, leg: nat, ok: bool, m: Moved)
    requires CoreInv(c, w, Update(p, SwappingNumber(leg))) && m == UpdateNext(c, w, h, p, SwappingNumber(leg), ok)
    ensures CoreInv(c, m.w, m.pc)
  {
    SwapNumberStep(c, w, m.w, p, leg);
  }

  lemma ClearMove(c: Config, w: World, h: HandlerId, p: Payload, at: UpdateAt, ok: bool, m: Moved)
    requires CoreInv(c, w, Update(p, at)) && m == UpdateNext(c, w, h, p, at, ok)
    requires at.Clearing? || at.ClearingMap?
    ensures CoreInv(c, m.w, m.pc)
  {
    match at
    case Clearing(leg) => ClearStep(c, w, m.w, p, leg);
    case ClearingMap(leg) => ClearMapStep(c, w, m.w, p, leg);
  }

  // Giving the lock back, by an update or by a cancel.
  lemma ReleaseMove(c: Config, w: World, at: Pc)
    requires CoreInv(c, w, at) && SameClaims(at, Idle)
    ensures CoreInv(c, Release(w), Idle)
  {
    Settle(c, w, at, Idle);
    QuietFrame(c, w, Release(w), Idle);
  }

  // Up to the second look at the requests, and from there on.
  lemma AnsweringMove(c: Config, w: World, h: HandlerId, p: Payload, at: UpdateAt, ok: bool, m: Moved)
    requires CoreInv(c, w, Update(p, at)) && m == UpdateNext(c, w, h, p, at, ok) && KeysOf(p) * w.minted <= w.shown
    requires at.Locked? || at.Checked? || at.Reading? || at.Matched? || at.Stored?
    ensures CoreInv(c, m.w, m.pc)
  {
    if at.Locked? { CheckMove(c, w, h, p, at.leg, ok, m); }
    else if at.Checked? { ReadMove(c, w, h, p, at.leg, ok, m); }
    else if at.Reading? { TranslateMove(c, w, h, p, at.leg, at.outstanding, ok, m); }
    else { AnswerMove(c, w, h, p, at, ok, m); }
  }

  lemma ReenteringMove(c: Config, w: World, h: HandlerId, p: Payload, at: UpdateAt, ok: bool, m: Moved)
    requires CoreInv(c, w, Update(p, at)) && m == UpdateNext(c, w, h, p, at, ok) && CanMove(w, Update(p, at), ok)
    requires at.Enqueuing? || at.Awaiting? || at.Swapping? || at.SwappingNumber? || at.Clearing? || at.ClearingMap?
    ensures CoreInv(c, m.w, m.pc)
  {
    if at.Enqueuing? { EnqueueMove(c, w, h, p, at.leg, ok, m); }
    else if at.Awaiting? { AwaitMove(c, w, h, p, at.leg, ok, m); }
    else if at.Swapping? { SwapMove(c, w, h, p, at.leg, ok, m); }
    else if at.SwappingNumber? { SwapNumberMove(c, w, h, p, at.leg, ok, m); }
    else { ClearMove(c, w, h, p, at, ok, m); }
  }

  lemma LockedUpdateMove(c: Config, w: World, h: HandlerId, p: Payload, at: UpdateAt, ok: bool, m: Moved)
    requires CoreInv(c, w, Update(p, at)) && InSection(Update(p, at))
    requires m == UpdateNext(c, w, h, p, at, ok)
    requires KeysOf(p) * w.minted <= w.shown && CanMove(w, Update(p, at), ok)
    ensures CoreInv(c, m.w, m.pc)
  {
    if at.Locked? || at.Checked? || at.Reading? || at.Matched? || at.Stored? { AnsweringMove(c, w, h, p, at, ok, m); }
    else if at.Discarding? || at.DiscardingMap? { DiscardMove(c, w, h, p, at, ok, m); }
    else if at.Releasing? { ReleaseMove(c, w, Update(p, at)); }
    else { ReenteringMove(c, w, h, p, at, ok, m); }
  }

  /** What a step of a request leaves alone: the key history; the marker is only ever set; and the lock
      changes hands only by the step that takes it or gives it up. */
  ghost predicate Civil(w: World, w': World, h: HandlerId, pc: Pc, pc': Pc) {
    && w'.minted == w.minted && w'.shown == w.shown && w'.named == w.named
    && (w.cancelled ==> w'.cancelled)
    && (InSection(pc) && InSection(pc') ==> w'.owner == w.owner && w'.locked == w.locked)
    && (!InSection(pc) && InSection(pc') ==> !w.locked && w'.owner == Some(h) && w'.locked)
    && (InSection(pc) && !InSection(pc') ==> w'.owner == None && !w'.locked)
    && (!InSection(pc) && !InSection(pc') ==> w'.owner == w.owner && w'.locked == w.locked)
    && (pc.Update? ==> pc' == Idle || (pc'.Update? && pc'.payload == pc.payload))
    && (pc.Cancel? ==> (pc' == Idle || pc'.Cancel?) && w'.late == w.late)
  }

  lemma UpdateIsCivil(c: Config, w: World, h: HandlerId, p: Payload, at: UpdateAt, ok: bool)
    requires CanMove(w, Update(p, at), ok)
    ensures var m := UpdateNext(c, w, h, p, at, ok); Civil(w, m.w, h, Update(p, at), m.pc)
  {
    UpdateTouches(c, w, h, p, at, ok);
    UpdateLocks(c, w, h, p, at, ok);
  }

  lemma UpdateTouches(c: Config, w: World, h: HandlerId, p: Payload, at: UpdateAt, ok: bool)
    ensures var w' := UpdateNext(c, w, h, p, at, ok).w;
            w'.(pointer := w.pointer, number := w.number, requests := w.requests, surfaced := w.surfaced,
                responses := w.responses, locked := w.locked, execs := w.execs, owner := w.owner, acks := w.acks,
                enqueues := w.enqueues, failed := w.failed, late := w.late) == w
  {}

  // Where the update goes, and what it does to the lock.
  lemma UpdateLocks(c: Config, w: World, h: HandlerId, p: Payload, at: UpdateAt, ok: bool)
    requires CanMove(w, Update(p, at), ok)
    ensures var m := UpdateNext(c, w, h, p, at, ok);
            && (m.pc == Idle || (m.pc.Update? && m.pc.payload == p))
            && m.w.locked == (if at.Looked? && ok then true else if at.Releasing? then false else w.locked)
            && m.w.owner == (if at.Looked? && ok then Some(h) else if at.Releasing? then None else w.owner)
            && (at.Looked? && ok ==> !w.locked)
            && (InSection(m.pc) <==> (at.Looked? && ok) || (InSection(Update(p, at)) && !at.Releasing?))
  {}

  lemma CancelIsCivil(w: World, h: HandlerId, at: CancelAt, ok: bool)
    requires CanMove(w, Cancel(at), ok)
    ensures var m := CancelNext(w, h, at, ok);
            Civil(w, m.w, h, Cancel(at), m.pc) && (MarkedFirst(w, Cancel(at)) ==> MarkedFirst(m.w, m.pc))
  {}

  /* --------------------------------------------------------- tasks/cancel */

  lemma DecideMove(c: Config, w: World, h: HandlerId, at: CancelAt, ok: bool, m: Moved)
    requires CoreInv(c, w, Cancel(at)) && at.CDeciding? && m == CancelNext(w, h, at, ok)
    ensures CoreInv(c, m.w, m.pc)
  {
    var pc := Cancel(at);
    if AlreadyTerminal(w, at.pointer, at.leg) { Settle(c, w, pc, m.pc); }
    else { QuietFrame(c, w, m.w, pc); MoveAt(c, m.w, pc, m.pc); }
  }

  lemma CancelClearMove(c: Config, w: World, h: HandlerId, at: CancelAt, ok: bool, m: Moved)
    requires CoreInv(c, w, Cancel(at)) && (at.CClearing? || at.CClearingMap?) && w.cancelled
    requires m == CancelNext(w, h, at, ok)
    ensures CoreInv(c, m.w, m.pc)
  {
    CancelClears(c, w, m.w, Cancel(at), at.leg);
    MoveAt(c, m.w, Cancel(at), m.pc);
  }

  // A step of a cancel that holds the lock.
  lemma LockedCancelMove(c: Config, w: World, h: HandlerId, at: CancelAt, ok: bool, m: Moved)
    requires CoreInv(c, w, Cancel(at)) && InSection(Cancel(at)) && m == CancelNext(w, h, at, ok)
    requires at.CClearing? || at.CClearingMap? || at.CStopping? ==> w.cancelled
    ensures CoreInv(c, m.w, m.pc)
  {
    if at.CDeciding? { DecideMove(c, w, h, at, ok, m); }
    else if at.CClearing? || at.CClearingMap? { CancelClearMove(c, w, h, at, ok, m); }
    else if at.CStopping? { QuietFrame(c, w, m.w, Cancel(at)); Settle(c, m.w, Cancel(at), m.pc); }
    else if at.CReleasing? { ReleaseMove(c, w, Cancel(at)); }
    else { ResolveMove(c, w, h, at, ok, m); }
  }

  lemma ResolveMove(c: Config, w: World, h: HandlerId, at: CancelAt, ok: bool, m: Moved)
    requires CoreInv(c, w, Cancel(at)) && at.CResolving? && m == CancelNext(w, h, at, ok)
    ensures CoreInv(c, m.w, m.pc)
  {
    MoveAt(c, w, Cancel(at), m.pc);
  }

  // A step of a cancel that gave up on the lock, whatever its holder is doing.
  lemma UnlockedClearMove(c: Config, w: World, h: HandlerId, cat: CancelAt, ok: bool, at: Pc, m: Moved)
    requires CoreInv(c, w, at) && (cat.CClearing? || cat.CClearingMap?) && w.cancelled && m == CancelNext(w, h, cat, ok)
    ensures CoreInv(c, m.w, at)
  {
    CancelClears(c, w, m.w, at, cat.leg);
  }

  lemma UnlockedCancelMove(c: Config, w: World, h: HandlerId, cat: CancelAt, ok: bool, at: Pc, m: Moved)
    requires CoreInv(c, w, at) && !InSection(Cancel(cat)) && !(cat.CLooked? && ok) && m == CancelNext(w, h, cat, ok)
    requires cat.CClearing? || cat.CClearingMap? || cat.CStopping? ==> w.cancelled
    ensures CoreInv(c, m.w, at)
  {
    if cat.CClearing? || cat.CClearingMap? { UnlockedClearMove(c, w, h, cat, ok, at, m); }
    else { UnlockedMarkMove(c, w, h, cat, ok, at, m); }
  }

  lemma UnlockedQuiet(w: World, h: HandlerId, cat: CancelAt, ok: bool)
    requires LegsInv(w) && !InSection(Cancel(cat)) && !(cat.CLooked? && ok)
    requires !cat.CClearing? && !cat.CClearingMap? && (cat.CStopping? ==> w.cancelled)
    ensures var w' := CancelNext(w, h, cat, ok).w;
            w'.(cancelled := w.cancelled, stops := w.stops) == w && (w.cancelled || w'.stops != {} ==> w'.cancelled)
  {}

  lemma UnlockedMarkMove(c: Config, w: World, h: HandlerId, cat: CancelAt, ok: bool, at: Pc, m: Moved)
    requires CoreInv(c, w, at) && !InSection(Cancel(cat)) && !(cat.CLooked? && ok) && m == CancelNext(w, h, cat, ok)
    requires !cat.CClearing? && !cat.CClearingMap? && (cat.CStopping? ==> w.cancelled)
    ensures CoreInv(c, m.w, at)
  {
    UnlockedQuiet(w, h, cat, ok);
    QuietFrame(c, w, m.w, at);
  }

  ghost predicate MarkedFirst(w: World, pc: Pc) {
    pc.Cancel? && (pc.cat.CClearing? || pc.cat.CClearingMap? || pc.cat.CStopping?) ==> w.cancelled
  }

  /* ------------------------------------------------------------- any step */

  lemma HandlersMove(s: Sys, h: HandlerId, w': World, pc': Pc)
    requires HandlersInv(s) && Civil(s.w, w', h, PcOf(s, h), pc') && PcOf(s, h) != Idle
    requires MarkedFirst(w', pc')
    ensures HandlersInv(Sys(w', SetPc(s, h, pc')))
  {
    var s' := Sys(w', SetPc(s, h, pc'));
    assert HandlerInv(s.w, h, PcOf(s, h));
    if !InSection(PcOf(s, h)) { assert s.w.owner != Some(h); }
    forall g | g in s'.pcs ensures s'.pcs[g] != Idle && HandlerInv(w', g, s'.pcs[g]) {
      if g != h { assert HandlerInv(s.w, g, s.pcs[g]); }
    }
  }

  // A handler outside the section that takes the lock.
  lemma EnterMove(c: Config, w: World, h: HandlerId, pc': Pc)
    requires CoreInv(c, w, Idle)
    requires pc' == Cancel(CResolving(true)) || (pc'.Update? && pc'.at.Locked?)
    ensures CoreInv(c, Acquire(w, h), pc')
  {
    QuietFrame(c, w, Acquire(w, h), Idle);
    Settle(c, Acquire(w, h), Idle, pc');
  }

  // The step of a handler that holds the lock, that takes it, and that does neither.
  lemma InsideCore(c: Config, s: Sys, h: HandlerId, m: Moved)
    requires HandlersInv(s) && InSection(PcOf(s, h)) && Civil(s.w, m.w, h, PcOf(s, h), m.pc)
    ensures At(s) == PcOf(s, h) && At(Sys(m.w, SetPc(s, h, m.pc))) == (if InSection(m.pc) then m.pc else Idle)
  {
    assert HandlerInv(s.w, h, PcOf(s, h));
  }

  lemma UpdateInside(c: Config, s: Sys, h: HandlerId, p: Payload, at: UpdateAt, ok: bool, m: Moved)
    requires Inv(c, s) && PcOf(s, h) == Update(p, at) && CanMove(s.w, Update(p, at), ok) && InSection(Update(p, at))
    requires m == UpdateNext(c, s.w, h, p, at, ok)
    ensures CoreInv(c, m.w, At(Sys(m.w, SetPc(s, h, m.pc))))
  {
    assert HandlerInv(s.w, h, Update(p, at));
    UpdateIsCivil(c, s.w, h, p, at, ok);
    InsideCore(c, s, h, m);
    LockedUpdateMove(c, s.w, h, p, at, ok, m);
  }

  lemma CancelInside(c: Config, s: Sys, h: HandlerId, at: CancelAt, ok: bool, m: Moved)
    requires Inv(c, s) && PcOf(s, h) == Cancel(at) && CanMove(s.w, Cancel(at), ok) && InSection(Cancel(at))
    requires m == CancelNext(s.w, h, at, ok)
    ensures CoreInv(c, m.w, At(Sys(m.w, SetPc(s, h, m.pc))))
  {
    assert HandlerInv(s.w, h, Cancel(at));
    CancelIsCivil(s.w, h, at, ok);
    InsideCore(c, s, h, m);
    LockedCancelMove(c, s.w, h, at, ok, m);
  }

  lemma EnterCore(c: Config, s: Sys, h: HandlerId, pc: Pc)
    requires Inv(c, s) && !s.w.locked && (pc == Cancel(CResolving(true)) || (pc.Update? && pc.at.Locked?))
    ensures CoreInv(c, Acquire(s.w, h), At(Sys(Acquire(s.w, h), SetPc(s, h, pc))))
  {
    EnterMove(c, s.w, h, pc);
  }

  lemma UpdateOutside(c: Config, s: Sys, h: HandlerId, p: Payload, at: UpdateAt, ok: bool, m: Moved)
    requires Inv(c, s) && PcOf(s, h) == Update(p, at) && CanMove(s.w, Update(p, at), ok) && !InSection(Update(p, at))
    requires m == UpdateNext(c, s.w, h, p, at, ok)
    ensures CoreInv(c, m.w, At(Sys(m.w, SetPc(s, h, m.pc))))
  {
    assert HandlerInv(s.w, h, Update(p, at));
    if InSection(m.pc) { EnterCore(c, s, h, m.pc); }
    else { assert m.w == s.w && At(Sys(m.w, SetPc(s, h, m.pc))) == At(s); }
  }

  lemma CancelOutside(c: Config, s: Sys, h: HandlerId, at: CancelAt, ok: bool, m: Moved)
    requires Inv(c, s) && PcOf(s, h) == Cancel(at) && CanMove(s.w, Cancel(at), ok) && !InSection(Cancel(at))
    requires m == CancelNext(s.w, h, at, ok)
    ensures CoreInv(c, m.w, At(Sys(m.w, SetPc(s, h, m.pc))))
  {
    assert HandlerInv(s.w, h, Cancel(at));
    CancelIsCivil(s.w, h, at, ok);
    if InSection(m.pc) {
      EnterCore(c, s, h, m.pc);
    } else {
      UnlockedCancelMove(c, s.w, h, at, ok, At(s), m);
      assert At(Sys(m.w, SetPc(s, h, m.pc))) == At(s);
    }
  }

  lemma UpdateInv(c: Config, s: Sys, h: HandlerId, p: Payload, at: UpdateAt, ok: bool, m: Moved)
    requires Inv(c, s) && PcOf(s, h) == Update(p, at) && CanMove(s.w, Update(p, at), ok)
    requires m == UpdateNext(c, s.w, h, p, at, ok)
    ensures Inv(c, Sys(m.w, SetPc(s, h, m.pc)))
  {
    UpdateIsCivil(c, s.w, h, p, at, ok);
    if InSection(Update(p, at)) { UpdateInside(c, s, h, p, at, ok, m); } else { UpdateOutside(c, s, h, p, at, ok, m); }
    HandlersMove(s, h, m.w, m.pc);
  }

  lemma CancelInv(c: Config, s: Sys, h: HandlerId, at: CancelAt, ok: bool, m: Moved)
    requires Inv(c, s) && PcOf(s, h) == Cancel(at) && CanMove(s.w, Cancel(at), ok)
    requires m == CancelNext(s.w, h, at, ok)
    ensures Inv(c, Sys(m.w, SetPc(s, h, m.pc)))
  {
    CancelIsCivil(s.w, h, at, ok);
    if InSection(Cancel(at)) { CancelInside(c, s, h, at, ok, m); } else { CancelOutside(c, s, h, at, ok, m); }
    HandlersMove(s, h, m.w, m.pc);
  }

  lemma MoveInv(c: Config, s: Sys, h: HandlerId, ok: bool)
    requires Inv(c, s) && CanMove(s.w, PcOf(s, h), ok)
    ensures Inv(c, Apply(c, s, Move(h, ok)))
  {
    var m := HandlerNext(c, s.w, h, PcOf(s, h), ok);
    assert Apply(c, s, Move(h, ok)) == Sys(m.w, SetPc(s, h, m.pc));
    match PcOf(s, h)
    case Update(p, at) => UpdateInv(c, s, h, p, at, ok, m);
    case Cancel(at) => CancelInv(c, s, h, at, ok, m);
  }

  lemma HandlersStart(s: Sys, h: HandlerId, named: set<SurfacedKey>, pc: Pc)
    requires HandlersInv(s) && PcOf(s, h) == Idle && (pc == Cancel(CArrived) || (pc.Update? && pc.at.Arrived?))
    requires pc.Update? ==> KeysOf(pc.payload) <= named && KeysOf(pc.payload) * s.w.minted <= s.w.shown
    ensures var s' := Sys(s.w.(named := s.w.named + named), SetPc(s, h, pc)); HandlersInv(s') && At(s') == At(s)
  {
    assert s.w.owner != Some(h);
    var s' := Sys(s.w.(named := s.w.named + named), SetPc(s, h, pc));
    forall g | g in s'.pcs ensures s'.pcs[g] != Idle && HandlerInv(s'.w, g, s'.pcs[g]) {
      if g != h { assert HandlerInv(s.w, g, s.pcs[g]); }
    }
  }

  lemma StartInv(c: Config, s: Sys, l: Label)
    requires Inv(c, s) && Enabled(s, l) && (l.StartUpdate? || l.StartCancel?)
    ensures Inv(c, Apply(c, s, l))
  {
    match l
    case StartUpdate(h, p) =>
      HandlersStart(s, h, KeysOf(p), Update(p, Arrived));
      QuietFrame(c, s.w, s.w.(named := s.w.named + KeysOf(p)), At(s));
    case StartCancel(h) =>
      HandlersStart(s, h, {}, Cancel(CArrived));
      assert s.w.(named := s.w.named + {}) == s.w;
  }

  // A step of the world outside the handlers.
  lemma HandlersWatch(s: Sys, w': World)
    requires HandlersInv(s)
    requires w'.owner == s.w.owner && w'.locked == s.w.locked && w'.named == s.w.named
    requires w'.cancelled == s.w.cancelled && s.w.shown <= w'.shown
    requires forall k :: k in w'.minted && k !in s.w.minted ==> k !in s.w.named
    ensures HandlersInv(s.(w := w'))
  {}

  lemma GetInv(c: Config, s: Sys)
    requires Inv(c, s)
    ensures Inv(c, Apply(c, s, Get))
  {
    ShowStep(c, s.w, Show(s.w), At(s));
    HandlersWatch(s, Show(s.w));
  }

  lemma PropagateInv(c: Config, s: Sys, leg: nat)
    requires Inv(c, s) && leg in s.w.execs
    ensures Inv(c, Apply(c, s, Propagate(leg)))
  {
    var w' := s.w.(visible := s.w.visible + {leg});
    QuietFrame(c, s.w, w', At(s));
    HandlersWatch(s, w');
  }

  lemma WorkerInvKept(c: Config, s: Sys, leg: nat, act: Act, w': World)
    requires Inv(c, s) && CanAct(s.w, leg, act) && w' == ActNext(c, s.w, leg, act)
    ensures Inv(c, s.(w := w'))
  {
    WorkStep(c, s.w, At(s), leg, act);
    WorkIsCivil(c, s.w, leg, act, w');
    HandlersWatch(s, w');
  }

  lemma WorkIsCivil(c: Config, w: World, leg: nat, act: Act, w': World)
    requires CanAct(w, leg, act) && w' == ActNext(c, w, leg, act)
    ensures w'.owner == w.owner && w'.locked == w.locked && w'.named == w.named
    ensures w'.cancelled == w.cancelled && w.shown == w'.shown && w'.late == w.late
    ensures w'.enqueues == w.enqueues
    ensures forall k :: k in w'.minted && k !in w.minted ==> k !in w.named
  {
    WorkTouches(c, w, leg, act, w');
  }

  lemma WorkTouches(c: Config, w: World, leg: nat, act: Act, w': World)
    requires CanAct(w, leg, act) && w' == ActNext(c, w, leg, act)
    ensures w'.(requests := w.requests, surfaced := w.surfaced, responses := w.responses, carried := w.carried,
                execs := w.execs, minted := w.minted, log := w.log) == w
    ensures w'.minted == if act.MintRequest? then w.minted + {act.key} else w.minted
  {}

  lemma ApplyInv(c: Config, s: Sys, l: Label)
    requires Inv(c, s) && Enabled(s, l)
    ensures Inv(c, Apply(c, s, l))
  {
    match l
    case StartUpdate(h, p) => StartInv(c, s, l);
    case StartCancel(h) => StartInv(c, s, l);
    case Move(h, ok) => MoveInv(c, s, h, ok);
    case Get => GetInv(c, s);
    case Propagate(leg) => PropagateInv(c, s, leg);
    case Work(leg, act) => WorkerInvKept(c, s, leg, act, ActNext(c, s.w, leg, act));
  }

  lemma {:induction false} RunInv(c: Config, a: Sys, ls: seq<Label>, b: Sys)
    requires Inv(c, a) && Runs(c, a, ls, b)
    ensures Inv(c, b)
    decreases |ls|
  {
    if ls != [] {
      ApplyInv(c, a, ls[0]);
      RunInv(c, Apply(c, a, ls[0]), ls[1..], b);
    }
  }

  /** A state some run of the protocol reaches. */
  ghost predicate Reachable(c: Config, s: Sys) {
    exists ls :: Runs(c, Init(c), ls, s)
  }

  lemma ReachableInv(c: Config, s: Sys)
    requires Reachable(c, s)
    ensures Inv(c, s)
  {
    var ls :| Runs(c, Init(c), ls, s);
    InitInv(c);
    RunInv(c, Init(c), ls, s);
  }

  // The two halves of the invariant, for those who need only one.
  lemma ReachableHandlers(c: Config, s: Sys)
    requires Reachable(c, s)
    ensures HandlersInv(s)
  {
    ReachableInv(c, s);
  }

  lemma ReachableCore(c: Config, s: Sys)
    requires Reachable(c, s)
    ensures CoreInv(c, s.w, At(s))
  {
    ReachableInv(c, s);
  }

  lemma ReachableNext(c: Config, s: Sys, l: Label)
    requires Reachable(c, s) && Enabled(s, l)
    ensures Reachable(c, Apply(c, s, l))
  {
    var ls :| Runs(c, Init(c), ls, s);
    var b := Apply(c, s, l);
    assert [l][1..] == [] && Runs(c, b, [], b);
    RunsConcat(c, Init(c), ls, s, [l], b);
  }

  lemma ReachableRun(c: Config, a: Sys, ls: seq<Label>, b: Sys)
    requires Reachable(c, a) && Runs(c, a, ls, b)
    ensures Reachable(c, b)
  {
    var before :| Runs(c, Init(c), before, a);
    RunsConcat(c, Init(c), before, a, ls, b);
  }
}
