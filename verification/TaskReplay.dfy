/** Surfaced keys are single-use: an acknowledged update retires every key it named, for good, and sending
    the same payload again changes nothing. */
module TaskReplay {
  import opened TaskTypes
  import opened TaskProtocol
  import opened TaskInvariant
  import opened TaskUpdateSteps
  import opened TaskRuns
  import opened TaskFinality

  /** No leg has any of `keys` outstanding, and none of them is left to be minted. */
  ghost predicate Spent(w: World, keys: set<SurfacedKey>) {
    && keys <= w.minted + w.named
    && forall m: nat, k :: k in Req(w, m) ==> k !in keys
  }

  /** `w'` has gained no outstanding key but such as are new to the store and to every client. */
  ghost predicate OnlyFresh(w: World, w': World) {
    && w.minted <= w'.minted && w.named <= w'.named
    && forall m: nat, k :: k in Req(w', m) ==> k in Req(w, m) || (k !in w.minted && k !in w.named)
  }

  lemma SameRequests(w: World, w': World)
    requires w'.requests == w.requests && w.minted <= w'.minted && w.named <= w'.named
    ensures OnlyFresh(w, w')
  {}

  lemma UpdateOnlyFresh(c: Config, w: World, h: HandlerId, p: Payload, at: UpdateAt, ok: bool)
    ensures OnlyFresh(w, UpdateNext(c, w, h, p, at, ok).w)
  {}

  lemma CancelOnlyFresh(w: World, h: HandlerId, at: CancelAt, ok: bool)
    ensures OnlyFresh(w, CancelNext(w, h, at, ok).w)
  {}

  lemma WorkOnlyFresh(c: Config, w: World, leg: nat, act: Act)
    requires CanAct(w, leg, act)
    ensures OnlyFresh(w, ActNext(c, w, leg, act))
  {}

  lemma StepOnlyFresh(c: Config, s: Sys, l: Label)
    requires Enabled(s, l)
    ensures OnlyFresh(s.w, Apply(c, s, l).w)
  {
    match l
    case Move(h, ok) =>
      match PcOf(s, h) {
        case Update(p, at) => UpdateOnlyFresh(c, s.w, h, p, at, ok);
        case Cancel(at) => CancelOnlyFresh(s.w, h, at, ok);
      }
    case Work(leg, act) => WorkOnlyFresh(c, s.w, leg, act);
    case _ => SameRequests(s.w, Apply(c, s, l).w);
  }

  /** A retired key is never outstanding again. */
  lemma {:induction false} SpentForever(c: Config, a: Sys, ls: seq<Label>, b: Sys, keys: set<SurfacedKey>)
    requires Runs(c, a, ls, b) && Spent(a.w, keys)
    ensures Spent(b.w, keys)
    decreases |ls|
  {
    if ls != [] {
      StepOnlyFresh(c, a, ls[0]);
      SpentForever(c, Apply(c, a, ls[0]), ls[1..], b, keys);
    }
  }

  /* ------------------------------------------------- what an update knows */

  function LegAt(at: UpdateAt): Option<nat> {
    match at
    case Arrived => None
    case Releasing => None
    case Looked(leg) => Some(leg)
    case Locked(leg) => Some(leg)
    case Checked(leg) => Some(leg)
    case Reading(leg, _) => Some(leg)
    case Matched(leg, _, _) => Some(leg)
    case Stored(leg, _) => Some(leg)
    case Discarding(leg, _) => Some(leg)
    case DiscardingMap(leg, _) => Some(leg)
    case Enqueuing(leg) => Some(leg)
    case Awaiting(leg) => Some(leg)
    case Swapping(leg) => Some(leg)
    case SwappingNumber(leg) => Some(leg)
    case Clearing(leg) => Some(leg)
    case ClearingMap(leg) => Some(leg)
  }

  // Keys of the payload that are still outstanding once the update is past `at`.
  ghost predicate Covers(w: World, p: Payload, at: UpdateAt) {
    match at
    case Reading(leg, outstanding) => KeysOf(p) * Req(w, leg).Keys <= outstanding.Keys
    case Matched(leg, _, answered) => w.cancelled || KeysOf(p) * Req(w, leg).Keys <= answered
    case Stored(leg, answered) => w.cancelled || KeysOf(p) * Req(w, leg).Keys <= answered
    case Discarding(leg, answered) => w.cancelled || KeysOf(p) * Req(w, leg).Keys <= answered
    case DiscardingMap(leg, _) => w.cancelled || KeysOf(p) * Req(w, leg).Keys == {}
    case _ => true
  }

  /** No update names an outstanding key of a leg newer than the one it looked up. */
  ghost predicate Aware(w: World, pc: Pc) {
    pc.Update? ==>
      && KeysOf(pc.payload) <= w.named
      && (LegAt(pc.at).Some? ==> LegAt(pc.at).value <= w.number)
      && (LegAt(pc.at).Some? ==>
            forall m: nat, k :: k in Req(w, m) && k in KeysOf(pc.payload) ==> m <= LegAt(pc.at).value)
      && Covers(w, pc.payload, pc.at)
  }

  ghost predicate ShownInTime(w: World) {
    forall m: nat, k :: k in Req(w, m) && k in w.shown ==> m <= w.number
  }

  ghost predicate AllAware(s: Sys) {
    ShownInTime(s.w) && forall h :: h in s.pcs ==> Aware(s.w, s.pcs[h])
  }

  // Another actor's step takes nothing from what an update knows.
  lemma StaysAware(w: World, w': World, pc: Pc)
    requires Aware(w, pc) && OnlyFresh(w, w') && w.number <= w'.number && (w.cancelled ==> w'.cancelled)
    ensures Aware(w', pc)
  {}

  lemma LookIsAware(w: World, p: Payload)
    requires ShownInTime(w) && KeysInv(w) && KeysOf(p) * w.minted <= w.shown && KeysOf(p) <= w.named
    ensures Aware(w, Update(p, Looked(w.number)))
  {
    forall m: nat, k | k in Req(w, m) && k in KeysOf(p) ensures m <= w.number {
      assert k in w.minted && k in KeysOf(p) * w.minted;
    }
  }

  // A key the payload names and some leg has outstanding is one the update has read.
  lemma NamedKeyIsRead(c: Config, w: World, p: Payload, leg: nat, outstanding: map<SurfacedKey, Request>,
                       m: nat, k: SurfacedKey)
    requires WindowInv(w, Update(p, Reading(leg, outstanding))) && SectionInv(c, w, Update(p, Reading(leg, outstanding)))
    requires CurrentInv(c, w, Update(p, Reading(leg, outstanding)))
    requires Aware(w, Update(p, Reading(leg, outstanding)))
    requires !w.cancelled && k in Req(w, m) && k in KeysOf(p)
    ensures m == leg && k in outstanding && k in Smap(w, leg)
  {
    assert m <= leg <= w.number == Top(w) && Req(w, m) != map[];
    assert k in KeysOf(p) * Req(w, leg).Keys;
    assert k in KeysOf(p) * outstanding.Keys;
    assert Hits(p, outstanding);
    assert ParkedInv(c, w, Update(p, Reading(leg, outstanding)));
    assert Conserved(c, w, Update(p, Reading(leg, outstanding)));
  }

  // From the match to the discard.
  lemma MatchCovers(c: Config, w: World, p: Payload, leg: nat, outstanding: map<SurfacedKey, Request>, t: Translation)
    requires CoreInv(c, w, Update(p, Reading(leg, outstanding))) && Aware(w, Update(p, Reading(leg, outstanding)))
    requires t == Translate(c, outstanding, Smap(w, leg), p) && t.Translated?
    ensures Covers(w, p, Matched(leg, t.answers, t.answered))
    ensures t.answers == map[] && !w.cancelled ==> Spent(w, KeysOf(p))
  {
    TranslateFacts(c, outstanding, Smap(w, leg), p);
    if !w.cancelled {
      forall m: nat, k | k in Req(w, m) && k in KeysOf(p) ensures k in t.answered && m == leg {
        NamedKeyIsRead(c, w, p, leg, outstanding, m, k);
      }
      if t.answers == map[] { NothingMatched(Smap(w, leg), t.answered); }
    }
  }

  lemma NothingMatched(mapping: map<SurfacedKey, ToolKey>, keys: set<SurfacedKey>)
    requires keys <= mapping.Keys
    ensures keys != {} ==> Tools(mapping, keys) != {}
  {
    if keys != {} {
      var k :| k in keys;
      assert mapping[k] in Tools(mapping, keys);
    }
  }

  lemma ReadIsAware(c: Config, w: World, p: Payload, leg: nat, outstanding: map<SurfacedKey, Request>, t: Translation)
    requires CoreInv(c, w, Update(p, Reading(leg, outstanding))) && Aware(w, Update(p, Reading(leg, outstanding)))
    requires t == Translate(c, outstanding, Smap(w, leg), p) && t.Translated?
    ensures Aware(w, Update(p, Matched(leg, t.answers, t.answered)))
  {
    MatchCovers(c, w, p, leg, outstanding, t);
  }

  lemma DiscardIsAware(w: World, p: Payload, leg: nat, answered: set<SurfacedKey>, w': World)
    requires Aware(w, Update(p, Discarding(leg, answered))) && w' == DropRequests(w, leg, answered)
    ensures Aware(w', Update(p, DiscardingMap(leg, answered)))
  {
    DropRequestsOnly(w, leg, answered);
    assert !w.cancelled ==> KeysOf(p) * Req(w', leg).Keys == {};
  }

  // Steps after which the update covers what it covered before.
  lemma PlainIsAware(c: Config, w: World, h: HandlerId, p: Payload, at: UpdateAt, ok: bool, m: Moved)
    requires Aware(w, Update(p, at)) && m == UpdateNext(c, w, h, p, at, ok)
    requires OnlyFresh(w, m.w) && w.number <= m.w.number && m.w.cancelled == w.cancelled
    requires !at.Arrived? && !at.Reading? && !at.Discarding?
    ensures Aware(m.w, m.pc)
  {
    StaysAware(w, m.w, Update(p, at));
  }

  lemma MoveIsAware(c: Config, s: Sys, h: HandlerId, p: Payload, at: UpdateAt, ok: bool, m: Moved)
    requires Reachable(c, s) && AllAware(s) && PcOf(s, h) == Update(p, at) && CanMove(s.w, Update(p, at), ok)
    requires m == UpdateNext(c, s.w, h, p, at, ok)
    ensures Aware(m.w, m.pc)
  {
    assert Aware(s.w, Update(p, at));
    if at.Arrived? { ArrivedKnows(c, s, h, p); LookIsAware(s.w, p); }
    else if at.Reading? { ReadingAware(c, s, h, p, at.leg, at.outstanding, ok, m); }
    else if at.Discarding? { DiscardIsAware(s.w, p, at.leg, at.answered, m.w); }
    else {
      UpdateOnlyFresh(c, s.w, h, p, at, ok);
      NumberGrows(c, s, h, p, at, ok, m);
      PlainIsAware(c, s.w, h, p, at, ok, m);
    }
  }

  lemma ReadingAware(c: Config, s: Sys, h: HandlerId, p: Payload, leg: nat, outstanding: map<SurfacedKey, Request>, ok: bool, m: Moved)
    requires Reachable(c, s) && PcOf(s, h) == Update(p, Reading(leg, outstanding)) && Aware(s.w, PcOf(s, h))
    requires m == UpdateNext(c, s.w, h, p, Reading(leg, outstanding), ok)
    ensures Aware(m.w, m.pc)
  {
    var t := Translate(c, outstanding, Smap(s.w, leg), p);
    if t.Translated? {
      HolderCore(c, s, h);
      ReadIsAware(c, s.w, p, leg, outstanding, t);
    }
  }

  lemma ArrivedKnows(c: Config, s: Sys, h: HandlerId, p: Payload)
    requires Reachable(c, s) && PcOf(s, h) == Update(p, Arrived)
    ensures KeysInv(s.w) && KeysOf(p) * s.w.minted <= s.w.shown && KeysOf(p) <= s.w.named
  {
    ReachableHandlers(c, s);
    ReachableCore(c, s);
    assert HandlerInv(s.w, h, PcOf(s, h));
  }

  lemma HolderCore(c: Config, s: Sys, h: HandlerId)
    requires Reachable(c, s) && InSection(PcOf(s, h))
    ensures CoreInv(c, s.w, PcOf(s, h))
  {
    ReachableHandlers(c, s);
    ReachableCore(c, s);
    assert HandlerInv(s.w, h, PcOf(s, h));
  }

  lemma NumberGrows(c: Config, s: Sys, h: HandlerId, p: Payload, at: UpdateAt, ok: bool, m: Moved)
    requires Reachable(c, s) && PcOf(s, h) == Update(p, at) && m == UpdateNext(c, s.w, h, p, at, ok)
    ensures s.w.number <= m.w.number && m.w.cancelled == s.w.cancelled && m.w.shown == s.w.shown
  {
    NumberMoves(c, s.w, h, p, at, ok);
    if at.SwappingNumber? { SwappingNumberFacts(c, s, h, p, at.leg); }
  }

  lemma NumberMoves(c: Config, w: World, h: HandlerId, p: Payload, at: UpdateAt, ok: bool)
    ensures var m := UpdateNext(c, w, h, p, at, ok);
            && m.w.cancelled == w.cancelled && m.w.shown == w.shown
            && m.w.number == if at.SwappingNumber? then at.leg + 1 else w.number
  {}

  lemma SwappingNumberFacts(c: Config, s: Sys, h: HandlerId, p: Payload, leg: nat)
    requires Reachable(c, s) && PcOf(s, h) == Update(p, SwappingNumber(leg))
    ensures s.w.number == leg
  {
    HolderCore(c, s, h);
  }

  // Keys are shown for the leg the number points at, and the number only grows.
  lemma ShownStays(w: World, w': World)
    requires ShownInTime(w) && KeysInv(w) && OnlyFresh(w, w') && w.number <= w'.number && w'.shown == w.shown
    ensures ShownInTime(w')
  {}

  lemma ShownKept(c: Config, s: Sys, w': World)
    requires Reachable(c, s) && ShownInTime(s.w) && OnlyFresh(s.w, w') && s.w.number <= w'.number && w'.shown == s.w.shown
    ensures ShownInTime(w')
  {
    ReachableCore(c, s);
    ShownStays(s.w, w');
  }

  lemma ShowIsTimely(c: Config, s: Sys)
    requires Reachable(c, s) && ShownInTime(s.w)
    ensures ShownInTime(Show(s.w))
  {
    var w, w' := s.w, Show(s.w);
    ReachableCore(c, s);
    assert forall m: nat :: Req(w', m) == Req(w, m);
    if w.number + 1 == Top(w) {
      assert forall k :: k in Req(w, w.number) ==> k !in Req(w, Top(w));
    }
  }

  lemma AwareStep(c: Config, s: Sys, l: Label)
    requires Reachable(c, s) && AllAware(s) && Enabled(s, l)
    ensures AllAware(Apply(c, s, l))
  {
    var s' := Apply(c, s, l);
    StepOnlyFresh(c, s, l);
    match l
    case Move(h, ok) => AwareMove(c, s, h, ok);
    case Get => ShowIsTimely(c, s); OthersAware(s, s');
    case Work(leg, act) =>
      WorkIsCivil(c, s.w, leg, act, s'.w);
      assert s'.w.number == s.w.number;
      ShownKept(c, s, s'.w);
      OthersAware(s, s');
    case StartUpdate(h, p) => ShownKept(c, s, s'.w); OthersAware(s, s');
    case _ => ShownKept(c, s, s'.w); OthersAware(s, s');
  }

  lemma OthersAware(s: Sys, s': Sys)
    requires AllAware(s) && ShownInTime(s'.w) && OnlyFresh(s.w, s'.w) && s.w.number <= s'.w.number
    requires s.w.cancelled ==> s'.w.cancelled
    requires forall h :: h in s'.pcs && h !in s.pcs ==>
               s'.pcs[h].Cancel? || (s'.pcs[h].Update? && s'.pcs[h].at.Arrived? && KeysOf(s'.pcs[h].payload) <= s'.w.named)
    requires forall h :: h in s'.pcs && h in s.pcs ==> s'.pcs[h] == s.pcs[h] || Aware(s'.w, s'.pcs[h])
    ensures AllAware(s')
  {
    forall h | h in s'.pcs ensures Aware(s'.w, s'.pcs[h]) {
      if h in s.pcs { StaysAware(s.w, s'.w, s.pcs[h]); }
    }
  }

  lemma AwareMove(c: Config, s: Sys, h: HandlerId, ok: bool)
    requires Reachable(c, s) && AllAware(s) && CanMove(s.w, PcOf(s, h), ok)
    requires OnlyFresh(s.w, Apply(c, s, Move(h, ok)).w)
    ensures AllAware(Apply(c, s, Move(h, ok)))
  {
    var s' := Apply(c, s, Move(h, ok));
    match PcOf(s, h) {
      case Update(p, at) =>
        var m := UpdateNext(c, s.w, h, p, at, ok);
        NumberGrows(c, s, h, p, at, ok, m);
        MoveIsAware(c, s, h, p, at, ok, m);
      case Cancel(at) =>
        CancelIsCivil(s.w, h, at, ok);
        assert s'.w.number == s.w.number;
    }
    ShownKept(c, s, s'.w);
    OthersAware(s, s');
  }

  lemma {:induction false} AwareRun(c: Config, a: Sys, ls: seq<Label>, b: Sys)
    requires Reachable(c, a) && AllAware(a) && Runs(c, a, ls, b)
    ensures AllAware(b)
    decreases |ls|
  {
    if ls != [] {
      AwareStep(c, a, ls[0]);
      ReachableNext(c, a, ls[0]);
      AwareRun(c, Apply(c, a, ls[0]), ls[1..], b);
    }
  }

  lemma ReachableAware(c: Config, s: Sys)
    requires Reachable(c, s)
    ensures AllAware(s)
  {
    var ls :| Runs(c, Init(c), ls, s);
    assert Runs(c, Init(c), [], Init(c));
    AwareRun(c, Init(c), ls, s);
  }

  /* ------------------------------------------------------- acknowledgement */

  /** Update `h` goes on to release the lock without having raised: it will be acknowledged. */
  ghost predicate Acknowledges(c: Config, s: Sys, h: HandlerId, p: Payload, at: UpdateAt, ok: bool) {
    && PcOf(s, h) == Update(p, at) && UpdateNext(c, s.w, h, p, at, ok).pc == Update(p, Releasing)
    && !at.Enqueuing?
    && !(at.Reading? && Translate(c, at.outstanding, Smap(s.w, at.leg), p).Invalid?)
  }

  // The looked-up leg has nothing outstanding, and no newer leg's keys were known when the update arrived.
  lemma StaleIsSpent(w: World, p: Payload, leg: nat)
    requires Aware(w, Update(p, Checked(leg))) && WindowInv(w, Update(p, Checked(leg))) && Req(w, leg) == map[]
    ensures Spent(w, KeysOf(p))
  {}

  lemma DiscardedIsSpent(c: Config, w: World, p: Payload, leg: nat, answered: set<SurfacedKey>)
    requires Aware(w, Update(p, DiscardingMap(leg, answered))) && WindowInv(w, Update(p, DiscardingMap(leg, answered)))
    requires leg == Top(w) && !w.cancelled
    ensures Spent(DropSurfaced(w, leg, answered), KeysOf(p))
  {
    DropSurfacedOnly(w, leg, answered);
    assert KeysOf(p) * Req(w, leg).Keys == {};
    forall m: nat, k | k in Req(w, m) ensures k !in KeysOf(p) {
      assert Req(w, m) != map[] && m == leg;
      assert k !in KeysOf(p) * Req(w, leg).Keys;
    }
  }

  lemma ClearedIsSpent(w: World, p: Payload, leg: nat)
    requires Aware(w, Update(p, ClearingMap(leg))) && WindowInv(w, Update(p, ClearingMap(leg)))
    ensures Spent(ClearSurfaced(w, leg), KeysOf(p))
  {
    ClearSurfacedOnly(w, leg);
    forall m: nat, k | k in Req(w, m) ensures k !in KeysOf(p) {
      assert Req(w, m) != map[] && m == leg + 1;
    }
  }

  /** When an update is acknowledged, the task is cancelled or every key its payload named is retired. */
  lemma AcknowledgedIsSpent(c: Config, s: Sys, h: HandlerId, p: Payload, at: UpdateAt, ok: bool)
    requires Reachable(c, s) && Acknowledges(c, s, h, p, at, ok)
    ensures var w' := UpdateNext(c, s.w, h, p, at, ok).w; w'.cancelled || Spent(w', KeysOf(p))
  {
    ReachableInv(c, s);
    ReachableAware(c, s);
    assert HandlerInv(s.w, h, Update(p, at)) && Aware(s.w, Update(p, at)) && At(s) == Update(p, at);
    if at.Checked? { StaleIsSpent(s.w, p, at.leg); }
    else if at.Reading? { MatchCovers(c, s.w, p, at.leg, at.outstanding, Translate(c, at.outstanding, Smap(s.w, at.leg), p)); }
    else if at.DiscardingMap? { if !s.w.cancelled { DiscardedIsSpent(c, s.w, p, at.leg, at.answered); } }
    else if at.ClearingMap? { ClearedIsSpent(s.w, p, at.leg); }
  }

  /* ----------------------------------------------------------------- replay */

  /** Request `g` has nothing it could still do: all it will ever change is who holds the lock. */
  ghost predicate Inert(s: Sys, g: HandlerId) {
    match PcOf(s, g)
    case Idle => true
    case Cancel(_) => false
    case Update(q, at) =>
      && (s.w.cancelled || Spent(s.w, KeysOf(q)))
      && match at
         case Arrived => true
         case Looked(_) => true
         case Locked(_) => true
         case Releasing => true
         case Checked(_) => Spent(s.w, KeysOf(q))
         case Reading(_, outstanding) => !Hits(q, outstanding)
         case _ => false
  }

  lemma InertMove(c: Config, s: Sys, g: HandlerId, ok: bool)
    requires Inert(s, g) && CanMove(s.w, PcOf(s, g), ok)
    ensures var s' := Apply(c, s, Move(g, ok));
            Inert(s', g) && s'.w.(locked := s.w.locked, owner := s.w.owner) == s.w
  {
    var q, at := PcOf(s, g).payload, PcOf(s, g).at;
    var s' := Apply(c, s, Move(g, ok));
    assert forall m: nat :: Req(s'.w, m) == Req(s.w, m);
    match at
    case Checked(leg) => assert !Hits(q, Req(s.w, leg));
    case Reading(leg, outstanding) => TranslateFacts(c, outstanding, Smap(s.w, leg), q);
    case _ =>
  }

  lemma InertWatches(c: Config, s: Sys, g: HandlerId, l: Label)
    requires Inert(s, g) && Enabled(s, l) && !(l.Move? && l.h == g)
    requires !((l.StartUpdate? || l.StartCancel?) && l.h == g)
    ensures Inert(Apply(c, s, l), g)
  {
    var s' := Apply(c, s, l);
    StepOnlyFresh(c, s, l);
    assert PcOf(s', g) == PcOf(s, g);
    if s.w.cancelled { MarkerStays(c, s, l); }
  }

  ghost predicate StartsNothing(ls: seq<Label>, g: HandlerId) {
    forall i :: 0 <= i < |ls| ==> !((ls[i].StartUpdate? || ls[i].StartCancel?) && ls[i].h == g)
  }

  // Every move request `g` makes along the run leaves all but the lock as it was.
  ghost predicate NoEffect(c: Config, a: Sys, ls: seq<Label>, g: HandlerId)
    decreases |ls|
  {
    ls != [] && Enabled(a, ls[0]) ==>
      && (ls[0].Move? && ls[0].h == g ==>
            Apply(c, a, ls[0]).w.(locked := a.w.locked, owner := a.w.owner) == a.w)
      && NoEffect(c, Apply(c, a, ls[0]), ls[1..], g)
  }

  lemma {:induction false} InertForever(c: Config, a: Sys, ls: seq<Label>, b: Sys, g: HandlerId)
    requires Runs(c, a, ls, b) && Inert(a, g) && StartsNothing(ls, g)
    ensures Inert(b, g) && NoEffect(c, a, ls, g)
    decreases |ls|
  {
    if ls != [] {
      if ls[0].Move? && ls[0].h == g { InertMove(c, a, g, ls[0].ok); } else { InertWatches(c, a, g, ls[0]); }
      InertForever(c, Apply(c, a, ls[0]), ls[1..], b, g);
    }
  }

  /** Replaying the payload of an acknowledged update, at any later point of any run and under any
      interleaving, leaves the state of the task unchanged. */
  lemma ReplayChangesNothing(c: Config, s: Sys, h: HandlerId, p: Payload, at: UpdateAt, ok: bool,
                             ls: seq<Label>, a: Sys, g: HandlerId, more: seq<Label>, b: Sys)
    requires Reachable(c, s) && Acknowledges(c, s, h, p, at, ok) && CanMove(s.w, Update(p, at), ok)
    requires Runs(c, Apply(c, s, Move(h, ok)), ls, a)
    requires Enabled(a, StartUpdate(g, p))
    requires Runs(c, Apply(c, a, StartUpdate(g, p)), more, b) && StartsNothing(more, g)
    ensures NoEffect(c, Apply(c, a, StartUpdate(g, p)), more, g)
  {
    AcknowledgedIsSpent(c, s, h, p, at, ok);
    var s1, r := Apply(c, s, Move(h, ok)), Apply(c, a, StartUpdate(g, p));
    if s1.w.cancelled { MarkerStaysForever(c, s1, ls, a); } else { SpentForever(c, s1, ls, a, KeysOf(p)); }
    assert forall m: nat :: Req(r.w, m) == Req(a.w, m);
    assert Inert(r, g);
    InertForever(c, r, more, b, g);
  }

  /* -------------------------------------------------------------- rejection */

  // An update that has written nothing yet, or is only left to give the lock back.
  predicate Watching(at: UpdateAt) {
    at.Arrived? || at.Looked? || at.Locked? || at.Checked? || at.Reading? || at.Releasing?
  }

  /** Whenever request `g` reads its answers along the run, one of them does not validate. */
  ghost predicate Refuses(c: Config, a: Sys, ls: seq<Label>, g: HandlerId)
    decreases |ls|
  {
    ls != [] && Enabled(a, ls[0]) ==>
      && (ls[0].Move? && ls[0].h == g && PcOf(a, g).Update? && PcOf(a, g).at.Reading? ==>
            Translate(c, PcOf(a, g).at.outstanding, Smap(a.w, PcOf(a, g).at.leg), PcOf(a, g).payload).Invalid?)
      && Refuses(c, Apply(c, a, ls[0]), ls[1..], g)
  }

  ghost predicate OnlyWatches(pc: Pc) {
    pc == Idle || (pc.Update? && Watching(pc.at))
  }

  lemma WatchingMove(c: Config, w: World, g: HandlerId, p: Payload, at: UpdateAt, ok: bool)
    requires Watching(at)
    requires at.Reading? ==> Translate(c, at.outstanding, Smap(w, at.leg), p).Invalid?
    ensures var m := UpdateNext(c, w, g, p, at, ok);
            m.w.(locked := w.locked, owner := w.owner) == w && OnlyWatches(m.pc)
  {}

  /** A request with an answer that does not validate leaves no trace but the lock it takes and gives back, whatever
      else it answers and whatever runs beside it. */
  lemma {:induction false} RejectedChangesNothing(c: Config, a: Sys, ls: seq<Label>, b: Sys, g: HandlerId)
    requires Runs(c, a, ls, b) && OnlyWatches(PcOf(a, g)) && StartsNothing(ls, g) && Refuses(c, a, ls, g)
    ensures NoEffect(c, a, ls, g) && OnlyWatches(PcOf(b, g))
    decreases |ls|
  {
    if ls != [] {
      RefusesStep(c, a, ls[0], g);
      RejectedChangesNothing(c, Apply(c, a, ls[0]), ls[1..], b, g);
    }
  }

  lemma RefusesStep(c: Config, a: Sys, l: Label, g: HandlerId)
    requires Enabled(a, l) && OnlyWatches(PcOf(a, g)) && !((l.StartUpdate? || l.StartCancel?) && l.h == g)
    requires l.Move? && l.h == g && PcOf(a, g).Update? && PcOf(a, g).at.Reading? ==>
               Translate(c, PcOf(a, g).at.outstanding, Smap(a.w, PcOf(a, g).at.leg), PcOf(a, g).payload).Invalid?
    ensures var s := Apply(c, a, l);
            && OnlyWatches(PcOf(s, g))
            && (l.Move? && l.h == g ==> s.w.(locked := a.w.locked, owner := a.w.owner) == a.w)
  {
    if l.Move? && l.h == g {
      WatchingMove(c, a.w, g, PcOf(a, g).payload, PcOf(a, g).at, l.ok);
    }
  }
}
