/** When exactly an update that enqueues the next leg hands it a complete set of answers, whatever anybody else,
    a cancel without the lock included, does in between. */
module TaskCoverage {
  import opened TaskTypes
  import opened TaskProtocol
  import opened TaskInvariant
  import opened TaskUpdateSteps
  import opened TaskRuns
  import opened TaskTheorems
  import opened TaskReplay
  import opened TaskRely

  /* ------------------------------------------ what a read of the requests is */

  ghost predicate ShownKey(w: World, leg: nat) {
    exists k :: k in Req(w, leg) && k in w.shown
  }

  /** A cancel clears a leg's mapping only after its requests, and what is stored for it later is never shown. */
  ghost predicate ClearedFirst(s: Sys) {
    forall g :: g in s.pcs && s.pcs[g].Cancel? && s.pcs[g].cat.CClearingMap? ==> !ShownKey(s.w, s.pcs[g].cat.leg)
  }

  // Conservation over the requests `o` and the mapping that is there now.
  ghost predicate Whole(c: Config, w: World, o: map<SurfacedKey, Request>) {
    Balanced(o, Smap(w, Top(w)), Responses(w), AskNow(c, w), {}, {}, Top(w) in w.failed)
  }

  // The requests of `leg` are as they were read, or a cancel has cleared them.
  ghost predicate StillOrGone(w: World, leg: nat, o: map<SurfacedKey, Request>) {
    Req(w, leg) == o || Req(w, leg) == map[]
  }

  /** What an update reads of a parked leg is conserved, also if the task has been marked under it. */
  ghost predicate ReadsWhole(c: Config, w: World, at: Pc) {
    match at
    case Update(p, Checked(leg)) => w.cancelled && ShownKey(w, Top(w)) ==> Whole(c, w, Req(w, Top(w)))
    case Update(p, Reading(leg, o)) => Hits(p, o) ==> StillOrGone(w, leg, o) && (Smap(w, leg) != map[] ==> Whole(c, w, o))
    case _ => true
  }

  // While the task is marked nothing new is shown.
  lemma MarkedShowsNothing(c: Config, s: Sys, l: Label)
    requires Enabled(s, l) && (s.w.cancelled || Apply(c, s, l).w.cancelled)
    ensures Apply(c, s, l).w.shown == s.w.shown
  {
    match l
    case Move(h, ok) =>
      match PcOf(s, h) {
        case Update(p, at) => UpdateIsCivil(c, s.w, h, p, at, ok);
        case Cancel(at) => CancelIsCivil(s.w, h, at, ok);
      }
    case Work(leg, act) => WorkIsCivil(c, s.w, leg, act, ActNext(c, s.w, leg, act));
    case _ =>
  }

  // A shown key is never added to a leg's requests.
  lemma ShownIsOld(w: World, w': World, leg: nat)
    requires OnlyFresh(w, w') && w'.shown == w.shown && w.shown <= w.minted
    ensures ShownKey(w', leg) ==> ShownKey(w, leg)
  {}

  // A cancel that goes on to the mapping has just cleared the requests.
  lemma ClearsRequests(w: World, g: HandlerId, at: CancelAt, ok: bool)
    requires CancelNext(w, g, at, ok).pc.Cancel? && CancelNext(w, g, at, ok).pc.cat.CClearingMap?
    ensures var m := CancelNext(w, g, at, ok); !ShownKey(m.w, m.pc.cat.leg)
  {}

  lemma ClearedStays(c: Config, s: Sys, l: Label, g: HandlerId, at: CancelAt)
    requires Reachable(c, s) && ClearedFirst(s) && Enabled(s, l) && !Mine(Handler(g), l)
    requires PcOf(s, g) == Cancel(at) && at.CClearingMap?
    ensures !ShownKey(Apply(c, s, l).w, at.leg)
  {
    ReachableInv(c, s);
    assert HandlerInv(s.w, g, PcOf(s, g));
    MarkedShowsNothing(c, s, l);
    StepOnlyFresh(c, s, l);
    ShownIsOld(s.w, Apply(c, s, l).w, at.leg);
  }

  lemma ClearedStep(c: Config, s: Sys, l: Label)
    requires Reachable(c, s) && ClearedFirst(s) && Enabled(s, l)
    ensures ClearedFirst(Apply(c, s, l))
  {
    var s' := Apply(c, s, l);
    forall g | g in s'.pcs && s'.pcs[g].Cancel? && s'.pcs[g].cat.CClearingMap?
      ensures !ShownKey(s'.w, s'.pcs[g].cat.leg)
    {
      if Mine(Handler(g), l) {
        MovedToClear(c, s, l, g);
      } else {
        HandlerStep(c, s, l, g);
        ClearedStays(c, s, l, g, s'.pcs[g].cat);
      }
    }
  }

  lemma MovedToClear(c: Config, s: Sys, l: Label, g: HandlerId)
    requires Enabled(s, l) && Mine(Handler(g), l)
    requires var pc := PcOf(Apply(c, s, l), g); pc.Cancel? && pc.cat.CClearingMap?
    ensures var s' := Apply(c, s, l); !ShownKey(s'.w, PcOf(s', g).cat.leg)
  {
    if PcOf(s, g).Update? {
      UpdateIsCivil(c, s.w, g, PcOf(s, g).payload, PcOf(s, g).at, l.ok);
    } else {
      ClearsRequests(s.w, g, PcOf(s, g).cat, l.ok);
    }
  }

  /* ------------------------------------------------ others, during the read */

  // What others can do to a leg's hashes under the lock: nothing, or clear them.
  ghost predicate KeptOrCleared(w: World, w': World, leg: nat) {
    && (Req(w', leg) == Req(w, leg) || Req(w', leg) == map[])
    && (Smap(w', leg) == Smap(w, leg) || Smap(w', leg) == map[])
  }

  lemma CancelKeepsOrClears(w: World, g: HandlerId, at: CancelAt, ok: bool, leg: nat)
    ensures KeptOrCleared(w, CancelNext(w, g, at, ok).w, leg)
    ensures Smap(CancelNext(w, g, at, ok).w, leg) != Smap(w, leg) ==> at.CClearingMap? && at.leg == leg
  {}

  /** Under the lock of a parked task another's step keeps a leg's hashes or clears them; it clears a mapping only
      once the requests hold nothing that was ever shown. */
  lemma OthersKeepOrClear(c: Config, s: Sys, h: HandlerId, l: Label, leg: nat)
    requires Reachable(c, s) && ClearedFirst(s) && HoldsParked(s, h) && Enabled(s, l) && !Mine(Handler(h), l)
    ensures var w' := Apply(c, s, l).w;
            KeptOrCleared(s.w, w', leg) && (Smap(w', leg) != Smap(s.w, leg) ==> !ShownKey(s.w, leg))
  {
    match l
    case Work(n, act) => NobodyWorks(c, s, n, act);
    case Move(g, ok) =>
      match PcOf(s, g) {
        case Update(p, at) => ReachableHandlers(c, s); ForeignUpdate(c, s, h, g, p, at, ok);
        case Cancel(at) => CancelClearsLate(s, g, at, ok, leg);
      }
    case _ =>
  }

  lemma CancelClearsLate(s: Sys, g: HandlerId, at: CancelAt, ok: bool, leg: nat)
    requires ClearedFirst(s) && PcOf(s, g) == Cancel(at)
    ensures var w' := CancelNext(s.w, g, at, ok).w;
            KeptOrCleared(s.w, w', leg) && (Smap(w', leg) != Smap(s.w, leg) ==> !ShownKey(s.w, leg))
  {
    CancelKeepsOrClears(s.w, g, at, ok, leg);
    if at.CClearingMap? { assert g in s.pcs && s.pcs[g].cat.CClearingMap?; }
  }

  // Conservation carries over as long as the mapping is there.
  lemma WholeStays(c: Config, w: World, w': World, o: map<SurfacedKey, Request>)
    requires Whole(c, w, o) && SameAnswers(w, w') && Smap(w', Top(w)) == Smap(w, Top(w))
    ensures Whole(c, w', o)
  {}

  // A leg whose keys have been shown is parked, and if the task is not marked it is conserved.
  lemma ShownIsWhole(c: Config, s: Sys, h: HandlerId, p: Payload, leg: nat)
    requires Reachable(c, s) && PcOf(s, h) == Update(p, Checked(leg)) && ShownKey(s.w, Top(s.w))
    ensures HoldsParked(s, h)
    ensures !s.w.cancelled ==> Whole(c, s.w, Req(s.w, Top(s.w)))
  {
    ReachableInv(c, s);
    assert HandlerInv(s.w, h, PcOf(s, h)) && At(s) == PcOf(s, h);
    if !s.w.cancelled { assert ParkedInv(c, s.w, At(s)) && Conserved(c, s.w, At(s)); }
  }

  lemma OtherAtChecked(c: Config, s: Sys, h: HandlerId, p: Payload, leg: nat, l: Label)
    requires Reachable(c, s) && ClearedFirst(s) && PcOf(s, h) == Update(p, Checked(leg))
    requires ReadsWhole(c, s.w, PcOf(s, h)) && Enabled(s, l) && !Mine(Handler(h), l)
    ensures ReadsWhole(c, Apply(c, s, l).w, Update(p, Checked(leg)))
  {
    var w' := Apply(c, s, l).w;
    if w'.cancelled && ShownKey(w', Top(w')) {
      TopStays(c, s, h, l);
      MarkedShowsNothing(c, s, l);
      StepOnlyFresh(c, s, l);
      ShownMinted(c, s);
      ShownIsOld(s.w, w', Top(w'));
      ShownIsWhole(c, s, h, p, leg);
      OthersLeave(c, s, h, l);
      OthersKeepOrClear(c, s, h, l, Top(s.w));
      WholeStays(c, s.w, w', Req(s.w, Top(s.w)));
    }
  }

  lemma ShownMinted(c: Config, s: Sys)
    requires Reachable(c, s)
    ensures s.w.shown <= s.w.minted
  {
    ReachableInv(c, s);
  }

  // Only the holder of the lock enqueues.
  lemma TopStays(c: Config, s: Sys, h: HandlerId, l: Label)
    requires Reachable(c, s) && PcOf(s, h).Update? && InSection(PcOf(s, h)) && Enabled(s, l) && !Mine(Handler(h), l)
    ensures Top(Apply(c, s, l).w) == Top(s.w)
  {
    ReachableHandlers(c, s);
    match l
    case Move(g, ok) =>
      match PcOf(s, g) {
        case Update(p, at) => ForeignUpdate(c, s, h, g, p, at, ok);
        case Cancel(at) => ForeignCancel(s, h, g, at, ok);
      }
    case Work(leg, act) => WorkIsCivil(c, s.w, leg, act, ActNext(c, s.w, leg, act));
    case _ =>
  }

  lemma OtherAtReading(c: Config, s: Sys, h: HandlerId, p: Payload, leg: nat, o: map<SurfacedKey, Request>, l: Label)
    requires Reachable(c, s) && ClearedFirst(s) && PcOf(s, h) == Update(p, Reading(leg, o))
    requires ReadsWhole(c, s.w, PcOf(s, h)) && Enabled(s, l) && !Mine(Handler(h), l)
    ensures ReadsWhole(c, Apply(c, s, l).w, Update(p, Reading(leg, o)))
  {
    if Hits(p, o) {
      HitsParked(c, s, h, p, leg, o);
      OthersLeave(c, s, h, l);
      OthersKeepOrClear(c, s, h, l, leg);
      if Smap(Apply(c, s, l).w, leg) == Smap(s.w, leg) != map[] { WholeStays(c, s.w, Apply(c, s, l).w, o); }
    }
  }

  // An update whose payload names a key it has read has read the parked leg.
  lemma HitsParked(c: Config, s: Sys, h: HandlerId, p: Payload, leg: nat, o: map<SurfacedKey, Request>)
    requires Reachable(c, s) && PcOf(s, h) == Update(p, Reading(leg, o)) && Hits(p, o)
    ensures HoldsParked(s, h) && leg == Top(s.w)
  {
    ReachableInv(c, s);
    assert HandlerInv(s.w, h, PcOf(s, h)) && At(s) == PcOf(s, h);
  }

  /* ------------------------------------------------------------- every run */

  // The look at the marker, and the read itself.
  lemma OwnRead(c: Config, s: Sys, h: HandlerId, p: Payload, at: UpdateAt, ok: bool, m: Moved)
    requires Reachable(c, s) && PcOf(s, h) == Update(p, at) && m == UpdateNext(c, s.w, h, p, at, ok)
    requires ReadsWhole(c, s.w, Update(p, at))
    ensures ReadsWhole(c, m.w, m.pc)
  {
    if at.Checked? && m.pc.Update? && m.pc.at.Reading? && Hits(p, Req(s.w, at.leg)) {
      HitIsShown(c, s, h, p, at.leg);
      ShownIsWhole(c, s, h, p, at.leg);
    }
  }

  lemma HitIsShown(c: Config, s: Sys, h: HandlerId, p: Payload, leg: nat)
    requires Reachable(c, s) && PcOf(s, h) == Update(p, Checked(leg)) && Hits(p, Req(s.w, leg))
    ensures leg == Top(s.w) && ShownKey(s.w, leg)
  {
    ReachableInv(c, s);
    assert HandlerInv(s.w, h, PcOf(s, h)) && At(s) == PcOf(s, h);
    var k :| k in KeysOf(p) * Req(s.w, leg).Keys;
    assert k in s.w.minted && k in KeysOf(p) * s.w.minted;
  }

  lemma OtherRead(c: Config, s: Sys, h: HandlerId, l: Label)
    requires Reachable(c, s) && ClearedFirst(s) && ReadsWhole(c, s.w, PcOf(s, h))
    requires Enabled(s, l) && !Mine(Handler(h), l)
    ensures ReadsWhole(c, Apply(c, s, l).w, PcOf(s, h))
  {
    match PcOf(s, h)
    case Update(p, Checked(leg)) => OtherAtChecked(c, s, h, p, leg, l);
    case Update(p, Reading(leg, o)) => OtherAtReading(c, s, h, p, leg, o, l);
    case _ =>
  }

  ghost predicate AllReadWhole(c: Config, s: Sys) {
    ClearedFirst(s) && forall h :: h in s.pcs ==> ReadsWhole(c, s.w, s.pcs[h])
  }

  lemma ReadStepOf(c: Config, s: Sys, l: Label, h: HandlerId)
    requires Reachable(c, s) && AllReadWhole(c, s) && Enabled(s, l)
    ensures ReadsWhole(c, Apply(c, s, l).w, PcOf(Apply(c, s, l), h))
  {
    if !Mine(Handler(h), l) {
      HandlerStep(c, s, l, h);
      OtherRead(c, s, h, l);
    } else if l.Move? && PcOf(s, h).Update? {
      var p, at := PcOf(s, h).payload, PcOf(s, h).at;
      OwnRead(c, s, h, p, at, l.ok, UpdateNext(c, s.w, h, p, at, l.ok));
    }
  }

  lemma {:induction false} AllReadRun(c: Config, a: Sys, ls: seq<Label>, b: Sys)
    requires Reachable(c, a) && AllReadWhole(c, a) && Runs(c, a, ls, b)
    ensures AllReadWhole(c, b)
    decreases |ls|
  {
    if ls != [] {
      var m := Apply(c, a, ls[0]);
      ClearedStep(c, a, ls[0]);
      forall h | h in m.pcs ensures ReadsWhole(c, m.w, m.pcs[h]) { ReadStepOf(c, a, ls[0], h); }
      ReachableNext(c, a, ls[0]);
      AllReadRun(c, m, ls[1..], b);
    }
  }

  /** In every state of every run: the requests an update has read are conserved, marked task or not. */
  lemma ReadIsWhole(c: Config, s: Sys, h: HandlerId, p: Payload, leg: nat, o: map<SurfacedKey, Request>)
    requires Reachable(c, s) && PcOf(s, h) == Update(p, Reading(leg, o)) && Hits(p, o) && Smap(s.w, leg) != map[]
    ensures leg == Top(s.w) && HoldsParked(s, h) && Whole(c, s.w, o) && StillOrGone(s.w, leg, o)
  {
    HitsParked(c, s, h, p, leg, o);
    AlwaysReadWhole(c, s);
  }

  lemma AlwaysReadWhole(c: Config, s: Sys)
    requires Reachable(c, s)
    ensures AllReadWhole(c, s)
  {
    var ls :| Runs(c, Init(c), ls, s);
    assert Runs(c, Init(c), [], Init(c));
    AllReadRun(c, Init(c), ls, s);
  }

  /* ------------------------------------------- from the read to the re-entry */

  // A complete set of answers for leg `leg` is stored, and whether the payload named all that was read.
  ghost predicate Exact(c: Config, w: World, answers: Answers, p: Payload, leg: nat, o: map<SurfacedKey, Request>) {
    answers.Keys == AskNow(c, w).Keys <==> o.Keys <= KeysOf(p) || leg in w.failed
  }

  /** Where an update stands that has read `o` of `leg`, until it is past the re-entry. */
  ghost predicate Tracks(c: Config, w: World, pc: Pc, p: Payload, leg: nat, o: map<SurfacedKey, Request>) {
    match pc
    case Idle => true
    case Cancel(_) => false
    case Update(q, at) =>
      match at
      case Arrived => false
      case Looked(_) => false
      case Locked(_) => false
      case Checked(_) => false
      case Reading(l, oo) => q == p && l == leg && oo == o
      case Matched(l, tr, answered) =>
        l == leg && Exact(c, w, Responses(w) + tr, p, leg, o) && StillOrGone(w, leg, o) && answered == KeysOf(p) * o.Keys
      case Stored(l, answered) =>
        l == leg && Exact(c, w, Responses(w), p, leg, o) && StillOrGone(w, leg, o) && answered == KeysOf(p) * o.Keys
      case Discarding(l, _) => l == leg && Exact(c, w, Responses(w), p, leg, o)
      case Enqueuing(l) => l == leg && Exact(c, w, Responses(w), p, leg, o)
      case _ => true
  }

  /** The match: the answers taken complete the ask exactly if the payload names everything that was read. */
  lemma MatchIsExact(c: Config, s: Sys, h: HandlerId, p: Payload, leg: nat, o: map<SurfacedKey, Request>, t: Translation)
    requires Reachable(c, s) && PcOf(s, h) == Update(p, Reading(leg, o))
    requires t == Translate(c, o, Smap(s.w, leg), p) && t.Translated? && t.answers != map[]
    ensures Exact(c, s.w, Responses(s.w) + t.answers, p, leg, o)
    ensures StillOrGone(s.w, leg, o) && t.answered == KeysOf(p) * o.Keys
  {
    var m := Smap(s.w, leg);
    TranslateFacts(c, o, m, p);
    var tool :| tool in t.answers;
    assert tool in Tools(m, t.answered);
    var k :| k in t.answered && k in m && m[k] == tool;
    assert k in KeysOf(p) * o.Keys && m != map[];
    ReadIsWhole(c, s, h, p, leg, o);
    MatchBalances(o, m, Responses(s.w), t.answers, AskNow(c, s.w), KeysOf(p), t.answered, leg in s.w.failed);
  }

  lemma MatchBalances(o: map<SurfacedKey, Request>, m: map<SurfacedKey, ToolKey>, answers: Answers, tr: Answers,
                      asked: Requests, keys: set<SurfacedKey>, answered: set<SurfacedKey>, all: bool)
    requires Balanced(o, m, answers, asked, {}, {}, all)
    requires answered == keys * o.Keys * m.Keys && tr.Keys == Tools(m, answered)
    ensures (answers + tr).Keys == asked.Keys <==> o.Keys <= keys || all
    ensures answered == keys * o.Keys
  {
    assert answered == keys * o.Keys;
    assert Tools(m, answered) <= asked.Keys;
    StoreBalances(o, m, answers, tr, asked, answered, all);
    StoredIsBalanced(o, m, answers + tr, asked, answered, all);
    assert o.Keys - answered == {} <==> o.Keys <= keys by {
      forall k | k in o.Keys && o.Keys - answered == {} ensures k in keys { assert k !in o.Keys - answered; }
    }
  }

  lemma TrackOwn(c: Config, s: Sys, h: HandlerId, q: Payload, at: UpdateAt, ok: bool, m: Moved,
                 p: Payload, leg: nat, o: map<SurfacedKey, Request>)
    requires Reachable(c, s) && PcOf(s, h) == Update(q, at) && m == UpdateNext(c, s.w, h, q, at, ok)
    requires Tracks(c, s.w, Update(q, at), p, leg, o)
    ensures Tracks(c, m.w, m.pc, p, leg, o)
  {
    if at.Reading? {
      var t := Translate(c, o, Smap(s.w, leg), p);
      if t.Translated? && t.answers != map[] { MatchIsExact(c, s, h, p, leg, o, t); }
    }
  }

  lemma ExactStays(c: Config, w: World, w': World, answers: Answers, p: Payload, leg: nat, o: map<SurfacedKey, Request>)
    requires Exact(c, w, answers, p, leg, o) && SameAnswers(w, w')
    ensures Exact(c, w', answers, p, leg, o)
  {}

  lemma TrackOther(c: Config, s: Sys, h: HandlerId, l: Label, p: Payload, leg: nat, o: map<SurfacedKey, Request>)
    requires Reachable(c, s) && Tracks(c, s.w, PcOf(s, h), p, leg, o) && Enabled(s, l) && !Mine(Handler(h), l)
    ensures Tracks(c, Apply(c, s, l).w, PcOf(s, h), p, leg, o)
  {
    if PcOf(s, h).Update? && PastMatch(PcOf(s, h).at) {
      var at, answers := PcOf(s, h).at, Responses(s.w);
      MatchedHoldsParked(c, s, h);
      OthersLeave(c, s, h, l);
      ExactStays(c, s.w, Apply(c, s, l).w, if at.Matched? then answers + at.translated else answers, p, leg, o);
      OthersLeaveOrClear(c, s, h, l, leg);
    }
  }

  lemma OthersLeaveOrClear(c: Config, s: Sys, h: HandlerId, l: Label, leg: nat)
    requires Reachable(c, s) && HoldsParked(s, h) && Enabled(s, l) && !Mine(Handler(h), l)
    ensures Req(Apply(c, s, l).w, leg) == Req(s.w, leg) || Req(Apply(c, s, l).w, leg) == map[]
  {
    AlwaysReadWhole(c, s);
    OthersKeepOrClear(c, s, h, l, leg);
  }

  lemma TrackStep(c: Config, s: Sys, h: HandlerId, l: Label, p: Payload, leg: nat, o: map<SurfacedKey, Request>)
    requires Reachable(c, s) && Tracks(c, s.w, PcOf(s, h), p, leg, o) && Enabled(s, l)
    requires !((l.StartUpdate? || l.StartCancel?) && l.h == h)
    ensures Tracks(c, Apply(c, s, l).w, PcOf(Apply(c, s, l), h), p, leg, o)
  {
    if Mine(Handler(h), l) {
      var q, at := PcOf(s, h).payload, PcOf(s, h).at;
      TrackOwn(c, s, h, q, at, l.ok, UpdateNext(c, s.w, h, q, at, l.ok), p, leg, o);
    } else {
      HandlerStep(c, s, l, h);
      TrackOther(c, s, h, l, p, leg, o);
    }
  }

  lemma {:induction false} TrackRun(c: Config, a: Sys, ls: seq<Label>, b: Sys, h: HandlerId,
                                    p: Payload, leg: nat, o: map<SurfacedKey, Request>)
    requires Reachable(c, a) && Tracks(c, a.w, PcOf(a, h), p, leg, o) && Runs(c, a, ls, b) && StartsNothing(ls, h)
    ensures Tracks(c, b.w, PcOf(b, h), p, leg, o)
    decreases |ls|
  {
    if ls != [] {
      TrackStep(c, a, h, ls[0], p, leg, o);
      ReachableNext(c, a, ls[0]);
      TrackRun(c, Apply(c, a, ls[0]), ls[1..], b, h, p, leg, o);
    }
  }

  /** From the read of the requests `o` of a leg to the store and on to the re-entry, under any interleaving, with
      the task marked or not: the answers stored for the leg are complete if and only if the payload named every
      key that was read, or an earlier complete set of answers has failed to re-enter. */
  lemma CompleteIffNamed(c: Config, a: Sys, ls: seq<Label>, b: Sys, h: HandlerId, p: Payload, leg: nat,
                         o: map<SurfacedKey, Request>)
    requires Reachable(c, a) && PcOf(a, h) == Update(p, Reading(leg, o)) && Runs(c, a, ls, b) && StartsNothing(ls, h)
    requires PcOf(b, h).Update? && PastMatch(PcOf(b, h).at) && !PcOf(b, h).at.Matched?
    ensures Responses(b.w).Keys == AskNow(c, b.w).Keys <==> o.Keys <= KeysOf(p) || leg in b.w.failed
    ensures leg == PcOf(b, h).at.leg == Top(b.w)
  {
    TrackRun(c, a, ls, b, h, p, leg, o);
    ReachableRun(c, a, ls, b);
    MatchedHoldsParked(c, b, h);
  }

  /** Once an update has stored its answers they are complete if and only if its payload named all it had read, or
      an earlier complete set failed to re-enter. It goes on to enqueue the next leg if and only if its payload named
      all it had read, failed re-entries before or not, or a cancel has cleared the requests under it. */
  lemma CoveredIffReenters(c: Config, a: Sys, ls: seq<Label>, b: Sys, h: HandlerId, p: Payload, leg: nat,
                           o: map<SurfacedKey, Request>, q: Payload, answered: set<SurfacedKey>, ok: bool)
    requires Reachable(c, a) && PcOf(a, h) == Update(p, Reading(leg, o)) && Runs(c, a, ls, b) && StartsNothing(ls, h)
    requires PcOf(b, h) == Update(q, Stored(leg, answered))
    ensures Responses(b.w).Keys == AskNow(c, b.w).Keys <==> o.Keys <= KeysOf(p) || leg in b.w.failed
    ensures UpdateNext(c, b.w, h, q, Stored(leg, answered), ok).pc == Update(q, Enqueuing(leg))
            <==> o.Keys <= KeysOf(p) || Req(b.w, leg) == map[]
    ensures Req(b.w, leg) == map[] ==> b.w.cancelled
  {
    CompleteIffNamed(c, a, ls, b, h, p, leg, o);
    TrackRun(c, a, ls, b, h, p, leg, o);
    ReachableRun(c, a, ls, b);
    UnmarkedIsAsked(c, b, h, q, leg, answered);
    AllNamed(Req(b.w, leg).Keys, o.Keys, KeysOf(p));
  }

  lemma AllNamed(reqs: set<SurfacedKey>, o: set<SurfacedKey>, keys: set<SurfacedKey>)
    requires reqs == o || reqs == {}
    ensures reqs - keys * o == {} <==> o <= keys || reqs == {}
  {
    forall k | k in o && reqs - keys * o == {} && reqs == o ensures k in keys { assert k !in reqs - keys * o; }
  }

  // An update about to look at the requests a second time finds some, unless the task is marked.
  lemma UnmarkedIsAsked(c: Config, s: Sys, h: HandlerId, q: Payload, leg: nat, answered: set<SurfacedKey>)
    requires Reachable(c, s) && PcOf(s, h) == Update(q, Stored(leg, answered))
    ensures Req(s.w, leg) == map[] ==> s.w.cancelled
  {
    ReachableHandlers(c, s);
    ReachableCore(c, s);
    assert HandlerInv(s.w, h, PcOf(s, h)) && At(s) == PcOf(s, h);
  }

  /* ------------------------------------------------------ what the leg sees */

  // The log and the enqueues only grow, and the answers accepted for an earlier leg are settled.
  ghost predicate Grown(w: World, w': World, leg: nat) {
    w.log <= w'.log && Top(w) <= Top(w') && Collected(w'.acks, leg) == Collected(w.acks, leg)
  }

  lemma UpdateGrows(c: Config, w: World, h: HandlerId, p: Payload, at: UpdateAt, ok: bool, leg: nat, w': World)
    requires w' == UpdateNext(c, w, h, p, at, ok).w && (at.Matched? ==> at.leg != leg)
    ensures Grown(w, w', leg)
  {
    if at.Matched? { CollectedAppend(w.acks, Ack(at.leg, at.translated)); }
  }

  lemma CancelGrows(w: World, h: HandlerId, at: CancelAt, ok: bool, leg: nat)
    ensures Grown(w, CancelNext(w, h, at, ok).w, leg)
  {}

  lemma WorkGrows(c: Config, w: World, n: nat, act: Act, leg: nat)
    requires CanAct(w, n, act)
    ensures Grown(w, ActNext(c, w, n, act), leg)
  {}

  lemma GrowsStep(c: Config, s: Sys, l: Label, leg: nat)
    requires Reachable(c, s) && Enabled(s, l) && leg < Top(s.w)
    ensures Grown(s.w, Apply(c, s, l).w, leg)
  {
    match l
    case Move(h, ok) =>
      match PcOf(s, h) {
        case Update(p, at) =>
          if at.Matched? { MatchedHoldsParked(c, s, h); }
          UpdateGrows(c, s.w, h, p, at, ok, leg, UpdateNext(c, s.w, h, p, at, ok).w);
        case Cancel(at) => CancelGrows(s.w, h, at, ok, leg);
      }
    case Work(n, act) => WorkGrows(c, s.w, n, act, leg);
    case _ =>
  }

  lemma {:induction false} GrowsRun(c: Config, a: Sys, ls: seq<Label>, b: Sys, leg: nat)
    requires Reachable(c, a) && Runs(c, a, ls, b) && leg < Top(a.w)
    ensures Grown(a.w, b.w, leg)
    decreases |ls|
  {
    if ls != [] {
      GrowsStep(c, a, ls[0], leg);
      ReachableNext(c, a, ls[0]);
      GrowsRun(c, Apply(c, a, ls[0]), ls[1..], b, leg);
    }
  }

  // A leg that has run: what it saw, and that the legs before it are the foreground loop's.
  lemma LegSaw(c: Config, d: Sys, leg: nat)
    requires Reachable(c, d) && 1 <= leg < |d.w.log|
    ensures var calls := d.w.log[..leg];
            && Foreground(c, AnswersSeen(calls)) == Some(calls) && DidPark(c, calls[leg - 1])
            && d.w.log[leg] == Call(leg + 1, c.args, CarriedBy(c, calls[leg - 1]), Some(Collected(d.w.acks, leg)))
  {
    ReachableCore(c, d);
    LogIsForeground(c, d.w, leg);
    assert Linked(c, d.w, leg);
  }

  // What a parked leg has been answered and asked, by the log.
  lemma ParkedAnswers(c: Config, b: Sys)
    requires Reachable(c, b) && WaitsParked(b.w)
    ensures |b.w.log| == Top(b.w) > 0 && Responses(b.w) == Collected(b.w.acks, Top(b.w))
    ensures AskNow(c, b.w) == AskedBy(c, b.w.log[Top(b.w) - 1])
  {
    ReachableCore(c, b);
    assert ParkedInv(c, b.w, At(b));
  }

  /** The exact condition for a leg to see what the foreground loop would hand it. Under any interleaving, marked or
      not: a leg enqueued by an update that had read the requests `o` is a call of the foreground loop if and only if
      the payload named every key in `o`, or a complete set of answers had already been stored and failed to re-enter. */
  lemma LegIsForegroundIff(c: Config, a: Sys, ls: seq<Label>, b: Sys, more: seq<Label>, d: Sys, h: HandlerId, p: Payload,
                           q: Payload, leg: nat, o: map<SurfacedKey, Request>)
    requires Reachable(c, a) && PcOf(a, h) == Update(p, Reading(leg, o)) && Runs(c, a, ls, b) && StartsNothing(ls, h)
    requires PcOf(b, h) == Update(q, Enqueuing(leg)) && Runs(c, Apply(c, b, Move(h, true)), more, d) && |d.w.log| > leg
    ensures Foreground(c, AnswersSeen(d.w.log[..leg + 1])) == Some(d.w.log[..leg + 1])
            <==> o.Keys <= KeysOf(p) || leg in b.w.failed
  {
    ReachableRun(c, a, ls, b);
    CompleteIffNamed(c, a, ls, b, h, p, leg, o);
    LegSeesStored(c, b, more, d, h, q, leg);
  }

  /** Such a leg is a call of the foreground loop if and only if the answers stored when it was enqueued are to exactly
      the keys asked for. */
  lemma LegSeesStored(c: Config, b: Sys, more: seq<Label>, d: Sys, h: HandlerId, q: Payload, leg: nat)
    requires Reachable(c, b) && PcOf(b, h) == Update(q, Enqueuing(leg))
    requires Runs(c, Apply(c, b, Move(h, true)), more, d) && |d.w.log| > leg
    ensures Foreground(c, AnswersSeen(d.w.log[..leg + 1])) == Some(d.w.log[..leg + 1])
            <==> Responses(b.w).Keys == AskNow(c, b.w).Keys
  {
    MatchedHoldsParked(c, b, h);
    ParkedAnswers(c, b);
    EnqueuedGrows(c, b, more, d, h, q, leg);
    LegSaw(c, d, leg);
    assert d.w.log[leg - 1] == b.w.log[leg - 1];
    LegTakes(c, d.w.log, leg, Responses(b.w));
  }

  lemma LegTakes(c: Config, log: seq<Call>, leg: nat, given: Answers)
    requires 1 <= leg < |log| && Foreground(c, AnswersSeen(log[..leg])) == Some(log[..leg]) && DidPark(c, log[leg - 1])
    requires log[leg] == Call(leg + 1, c.args, CarriedBy(c, log[leg - 1]), Some(given))
    ensures Foreground(c, AnswersSeen(log[..leg + 1])) == Some(log[..leg + 1])
            <==> given.Keys == AskedBy(c, log[leg - 1]).Keys
  {
    assert log[..leg + 1] == log[..leg] + [log[leg]];
    ForegroundTakes(c, log[..leg], log[leg], given);
  }

  lemma EnqueuedGrows(c: Config, b: Sys, more: seq<Label>, d: Sys, h: HandlerId, q: Payload, leg: nat)
    requires Reachable(c, b) && PcOf(b, h) == Update(q, Enqueuing(leg)) && leg == Top(b.w)
    requires Runs(c, Apply(c, b, Move(h, true)), more, d)
    ensures Reachable(c, d) && b.w.log <= d.w.log && Collected(d.w.acks, leg) == Collected(b.w.acks, leg)
  {
    var e := Apply(c, b, Move(h, true));
    assert e.w == EnqueueLeg(b.w, leg + 1);
    ReachableNext(c, b, Move(h, true));
    ReachableRun(c, e, more, d);
    GrowsRun(c, e, more, d, leg);
  }

  /* --------------------------------------------- a cancelled task's questions */

  // How far a cancel that holds the lock of a parked task has got with the hashes of `leg`.
  ghost predicate Clears(s: Sys, h: HandlerId, leg: nat) {
    match PcOf(s, h)
    case Cancel(CClearing(got, _, l)) => got && l == leg && WaitsParked(s.w)
    case Cancel(CClearingMap(got, _, l)) => got && l == leg && WaitsParked(s.w) && Req(s.w, leg) == map[]
    case Cancel(CStopping(got, _)) => got && WaitsParked(s.w) && Req(s.w, leg) == map[] && Smap(s.w, leg) == map[]
    case Cancel(CReleasing(got)) => got && WaitsParked(s.w) && Req(s.w, leg) == map[] && Smap(s.w, leg) == map[]
    case _ => PcOf(s, h) == Idle
  }

  lemma ClearsOwn(s: Sys, h: HandlerId, leg: nat, at: CancelAt, ok: bool)
    requires PcOf(s, h) == Cancel(at) && Clears(s, h, leg)
    ensures var m := CancelNext(s.w, h, at, ok); Clears(Sys(m.w, SetPc(s, h, m.pc)), h, leg)
  {}

  lemma ClearsOther(c: Config, s: Sys, h: HandlerId, leg: nat, l: Label)
    requires Reachable(c, s) && Clears(s, h, leg) && PcOf(s, h).Cancel? && Enabled(s, l) && !Mine(Handler(h), l)
    ensures Clears(Apply(c, s, l), h, leg)
  {
    HandlerStep(c, s, l, h);
    ReachableHandlers(c, s);
    match l
    case Move(g, ok) =>
      match PcOf(s, g) {
        case Update(p, at) => ForeignUpdate(c, s, h, g, p, at, ok);
        case Cancel(at) => ForeignCancel(s, h, g, at, ok); CancelKeepsOrClears(s.w, g, at, ok, leg);
      }
    case Work(n, act) => NobodyWorks(c, s, n, act);
    case _ =>
  }

  lemma {:induction false} ClearsRun(c: Config, a: Sys, ls: seq<Label>, b: Sys, h: HandlerId, leg: nat)
    requires Reachable(c, a) && Clears(a, h, leg) && Runs(c, a, ls, b) && StartsNothing(ls, h)
    ensures Clears(b, h, leg)
    decreases |ls|
  {
    if ls != [] {
      if Mine(Handler(h), ls[0]) {
        ClearsOwn(a, h, leg, PcOf(a, h).cat, ls[0].ok);
      } else if PcOf(a, h) == Idle {
        HandlerStep(c, a, ls[0], h);
      } else {
        ClearsOther(c, a, h, leg, ls[0]);
      }
      ReachableNext(c, a, ls[0]);
      ClearsRun(c, Apply(c, a, ls[0]), ls[1..], b, h, leg);
    }
  }

  /** A cancel that has marked a parked task under the lock leaves no question of it and no mapping, under any
      interleaving: a later update finds nothing to answer. */
  lemma CancelledIsCleared(c: Config, a: Sys, ls: seq<Label>, b: Sys, h: HandlerId, p: nat, leg: nat)
    requires Reachable(c, a) && PcOf(a, h) == Cancel(CClearing(true, p, leg)) && WaitsParked(a.w)
    requires Runs(c, a, ls, b) && StartsNothing(ls, h)
    requires PcOf(b, h) == Cancel(CStopping(true, p)) || PcOf(b, h) == Cancel(CReleasing(true))
    ensures Req(b.w, leg) == map[] && Smap(b.w, leg) == map[]
  {
    ClearsRun(c, a, ls, b, h, leg);
  }
}
