/** Every step of the handler that holds the lock keeps the invariant of the world. */
module TaskUpdateSteps {
  import opened TaskTypes
  import opened TaskProtocol
  import opened TaskInvariant

  /* ------------------------------------------------ conjuncts a step cannot touch */

  lemma LegsFrame(w: World, w': World)
    requires LegsInv(w)
    requires w'.enqueues == w.enqueues && w'.execs == w.execs && w'.visible == w.visible && w'.stops == w.stops
    requires w'.failed == w.failed && w'.acks == w.acks && w'.late == w.late && (w.cancelled ==> w'.cancelled)
    ensures LegsInv(w')
  {}

  // The log and the legs say nothing about the input hashes.
  lemma LogFrame(c: Config, w: World, w': World)
    requires LogInv(c, w)
    requires w'.log == w.log && w'.acks == w.acks && w'.enqueues == w.enqueues && w'.args == w.args
    requires w'.late == w.late
    ensures LogInv(c, w')
  {
    forall i | 0 <= i < |w'.log| ensures Linked(c, w', i) {
      assert Linked(c, w, i);
    }
  }

  lemma KeysFrame(w: World, w': World)
    requires KeysInv(w)
    requires w'.minted == w.minted && w'.shown == w.shown && Top(w') == Top(w)
    requires WaitsParked(w) ==> WaitsParked(w')
    requires forall m: nat, k :: k in Req(w', m) ==> k in Req(w, m)
    ensures KeysInv(w')
  {}

  // A step in an ordinary position of the section that can only remove requests of the current leg.
  lemma WindowFrame(w: World, w': World, at: Pc, at': Pc)
    requires WindowInv(w, at) && !InWindow(at) && !InWindow(at')
    requires w'.pointer == w.pointer && w'.number == w.number && w'.visible == w.visible && Top(w') == Top(w)
    requires w'.late == w.late && (PastCheck(at') ==> PastCheck(at))
    requires forall m: nat, k :: k in Req(w', m) ==> k in Req(w, m)
    requires forall m: nat, k :: k in Smap(w', m) ==> k in Smap(w, m)
    ensures WindowInv(w', at')
  {
    forall m: nat | m != Top(w) ensures Req(w', m) == map[] {
      assert Req(w, m) == map[];
    }
    forall m: nat | m > Top(w) ensures Smap(w', m) == map[] {
      assert Smap(w, m) == map[];
    }
  }

  /* ------------------------------------------------------------------ the steps */

  lemma CheckStep(c: Config, w: World, p: Payload, leg: nat)
    requires CoreInv(c, w, Update(p, Locked(leg))) && !w.cancelled
    ensures CoreInv(c, w, Update(p, Checked(leg)))
  {}

  lemma ReadStep(c: Config, w: World, p: Payload, leg: nat)
    requires CoreInv(c, w, Update(p, Checked(leg)))
    requires KeysOf(p) * w.minted <= w.shown
    ensures CoreInv(c, w, Update(p, Reading(leg, Req(w, leg))))
  {}

  lemma KeysOfLast(p: Payload)
    requires p != []
    ensures KeysOf(p) == KeysOf(p[..|p| - 1]) + {p[|p| - 1].0}
  {
    var q, key := p[..|p| - 1], p[|p| - 1].0;
    forall k | k in KeysOf(p) ensures k in KeysOf(q) + {key} {
      var i :| 0 <= i < |p| && p[i].0 == k;
      if i < |q| { assert q[i].0 == k; }
    }
    forall k | k in KeysOf(q) + {key} ensures k in KeysOf(p) {
      if k == key { assert p[|p| - 1].0 == k; }
      else { var i :| 0 <= i < |q| && q[i].0 == k; assert p[i].0 == k; }
    }
  }

  lemma {:induction false} TranslateFacts(c: Config, outstanding: map<SurfacedKey, Request>,
                                          mapping: map<SurfacedKey, ToolKey>, p: Payload)
    ensures var t := Translate(c, outstanding, mapping, p);
            t.Translated? ==>
              && t.answered == KeysOf(p) * outstanding.Keys * mapping.Keys
              && t.answers.Keys == Tools(mapping, t.answered)
  {
    if p != [] {
      var q := p[..|p| - 1];
      TranslateFacts(c, outstanding, mapping, q);
      var key := p[|p| - 1].0;
      KeysOfLast(p);
      var t := Translate(c, outstanding, mapping, p);
      var u := Translate(c, outstanding, mapping, q);
      if t.Translated? && key in outstanding && key in mapping {
        assert t.answered == u.answered + {key};
        ToolsSplit(mapping, t.answered, u.answered);
        assert Tools(mapping, t.answered) == Tools(mapping, u.answered) + {mapping[key]} by {
          assert mapping[key] in Tools(mapping, t.answered);
        }
      }
    }
  }

  lemma MatchIsCurrent(c: Config, w: World, p: Payload, leg: nat, outstanding: map<SurfacedKey, Request>, t: Translation)
    requires SectionInv(c, w, Update(p, Reading(leg, outstanding)))
    requires t == Translate(c, outstanding, Smap(w, leg), p) && t.Translated? && t.answers != map[]
    ensures leg == Top(w) && WaitsParked(w) && t.answered != {} && t.answered <= outstanding.Keys
    ensures t.answers.Keys == Tools(Smap(w, leg), t.answered)
    ensures !w.cancelled ==> outstanding == Req(w, leg)
  {
    TranslateFacts(c, outstanding, Smap(w, leg), p);
    var tool :| tool in t.answers;
    assert tool in Tools(Smap(w, leg), t.answered);
    var k :| k in t.answered;
    assert k in KeysOf(p) * outstanding.Keys;
  }

  lemma TranslateStep(c: Config, w: World, p: Payload, leg: nat, outstanding: map<SurfacedKey, Request>, t: Translation)
    requires CoreInv(c, w, Update(p, Reading(leg, outstanding)))
    requires t == Translate(c, outstanding, Smap(w, leg), p) && t.Translated? && t.answers != map[]
    ensures CoreInv(c, w, Update(p, Matched(leg, t.answers, t.answered)))
  {
    var at, next := Update(p, Reading(leg, outstanding)), Update(p, Matched(leg, t.answers, t.answered));
    MatchIsCurrent(c, w, p, leg, outstanding, t);
    StillParked(c, w, at, next);
    MatchedSection(c, w, p, leg, t);
    WindowFrame(w, w, at, next);
  }

  lemma MatchedSection(c: Config, w: World, p: Payload, leg: nat, t: Translation)
    requires MapsIntoAsk(c, w) && leg == Top(w) && WaitsParked(w) && t.Translated? && t.answered != {}
    requires t.answers.Keys == Tools(Smap(w, leg), t.answered) && (!w.cancelled ==> t.answered <= Req(w, leg).Keys)
    ensures SectionInv(c, w, Update(p, Matched(leg, t.answers, t.answered)))
  {}

  // The parked leg does not care which ordinary position the section is in.
  lemma StillParked(c: Config, w: World, at: Pc, at': Pc)
    requires WaitsParked(w) && CurrentInv(c, w, at)
    requires Going(at) == Going(at') && Gone(at) == Gone(at')
    requires (at.Update? && at.at.Enqueuing?) == (at'.Update? && at'.at.Enqueuing?)
    ensures CurrentInv(c, w, at') && MapsIntoAsk(c, w)
  {}

  /* -------------------------------------------------- storing the answers */

  lemma StoreBalances(r: map<SurfacedKey, Request>, s: map<SurfacedKey, ToolKey>, answers: Answers, tr: Answers,
                      asked: Requests, answered: set<SurfacedKey>, all: bool)
    requires Balanced(r, s, answers, asked, {}, {}, all)
    requires answered <= r.Keys && tr.Keys == Tools(s, answered) <= asked.Keys
    ensures Balanced(r, s, answers + tr, asked, answered, {}, all)
  {
    ToolsSplit(s, r.Keys, answered);
    assert r.Keys - {} == r.Keys;
    assert (answers + tr).Keys == answers.Keys + tr.Keys;
  }

  lemma StoreLegs(w: World, w': World, leg: nat, tr: Answers)
    requires LegsInv(w) && WaitsParked(w) && leg == Top(w)
    requires w' == StoreAnswers(w, leg, tr)
    ensures LegsInv(w')
  {}

  lemma StoreLog(c: Config, w: World, w': World, leg: nat, tr: Answers)
    requires LogInv(c, w) && leg == Top(w)
    requires w' == StoreAnswers(w, leg, tr)
    ensures LogInv(c, w')
    ensures Collected(w'.acks, leg) == Collected(w.acks, leg) + tr
  {
    CollectedAppend(w.acks, Ack(leg, tr));
    forall i | 0 <= i < |w'.log| ensures Linked(c, w', i) {
      assert Linked(c, w, i);
      assert Collected(w'.acks, i) == Collected(w.acks, i);
    }
  }

  lemma StoreParked(c: Config, w: World, w': World, p: Payload, leg: nat, tr: Answers, answered: set<SurfacedKey>)
    requires ParkedInv(c, w, Update(p, Matched(leg, tr, answered))) && WaitsParked(w)
    requires leg == Top(w) && tr.Keys <= AskNow(c, w).Keys
    requires !w.cancelled ==> answered <= Req(w, leg).Keys && tr.Keys == Tools(Smap(w, leg), answered)
    requires w' == StoreAnswers(w, leg, tr)
    requires Collected(w'.acks, leg) == Collected(w.acks, leg) + tr
    ensures CurrentInv(c, w', Update(p, Stored(leg, answered))) && WaitsParked(w')
    ensures !w.cancelled ==> Tools(Smap(w', leg), answered) <= Responses(w').Keys
  {
    assert AskNow(c, w') == AskNow(c, w) && Smap(w', leg) == Smap(w, leg);
    if !w.cancelled { StoreConserves(c, w, w', p, leg, tr, answered); }
    assert Responses(w') == Responses(w) + tr;
  }

  lemma StoreConserves(c: Config, w: World, w': World, p: Payload, leg: nat, tr: Answers, answered: set<SurfacedKey>)
    requires Conserved(c, w, Update(p, Matched(leg, tr, answered))) && leg == Top(w) && tr.Keys <= AskNow(c, w).Keys
    requires answered <= Req(w, leg).Keys && tr.Keys == Tools(Smap(w, leg), answered)
    requires w' == StoreAnswers(w, leg, tr)
    ensures Conserved(c, w', Update(p, Stored(leg, answered)))
  {
    assert AskNow(c, w') == AskNow(c, w) && Smap(w', leg) == Smap(w, leg) && Req(w', leg) == Req(w, leg);
    StoreBalances(Req(w, leg), Smap(w, leg), Responses(w), tr, AskNow(c, w), answered, Top(w) in w.failed);
  }

  lemma StoreFrame(w: World, w': World, p: Payload, leg: nat, tr: Answers, answered: set<SurfacedKey>)
    requires WindowInv(w, Update(p, Matched(leg, tr, answered))) && KeysInv(w) && w' == StoreAnswers(w, leg, tr)
    ensures WindowInv(w', Update(p, Stored(leg, answered))) && KeysInv(w')
  {
    WindowFrame(w, w', Update(p, Matched(leg, tr, answered)), Update(p, Stored(leg, answered)));
    KeysFrame(w, w');
  }

  lemma StoreStep(c: Config, w: World, w': World, p: Payload, leg: nat, tr: Answers, answered: set<SurfacedKey>)
    requires CoreInv(c, w, Update(p, Matched(leg, tr, answered)))
    requires w' == StoreAnswers(w, leg, tr)
    ensures CoreInv(c, w', Update(p, Stored(leg, answered)))
  {
    StoreLegs(w, w', leg, tr);
    StoreLog(c, w, w', leg, tr);
    StoreParked(c, w, w', p, leg, tr, answered);
    StoreFrame(w, w', p, leg, tr, answered);
  }

  /* --------------------------------------------------- partial fulfilment */

  lemma PartialStep(c: Config, w: World, p: Payload, leg: nat, answered: set<SurfacedKey>)
    requires CoreInv(c, w, Update(p, Stored(leg, answered)))
    requires Req(w, leg).Keys - answered != {}
    ensures CoreInv(c, w, Update(p, Discarding(leg, answered)))
  {}

  lemma CompleteBalances(r: map<SurfacedKey, Request>, s: map<SurfacedKey, ToolKey>, answers: Answers,
                         asked: Requests, answered: set<SurfacedKey>, all: bool)
    requires Balanced(r, s, answers, asked, answered, {}, all)
    requires r.Keys == answered && Tools(s, answered) <= answers.Keys
    ensures Balanced(r, s, answers, asked, {}, {}, true) && answers.Keys == asked.Keys
  {}

  lemma CompleteParked(c: Config, w: World, p: Payload, leg: nat, answered: set<SurfacedKey>)
    requires CurrentInv(c, w, Update(p, Stored(leg, answered))) && WaitsParked(w) && leg == Top(w)
    requires Req(w, leg).Keys - answered == {}
    requires !w.cancelled ==> answered <= Req(w, leg).Keys && Tools(Smap(w, leg), answered) <= Responses(w).Keys
    ensures CurrentInv(c, w, Update(p, Enqueuing(leg))) && (!w.cancelled ==> Responses(w).Keys == AskNow(c, w).Keys)
  {
    assert ParkedInv(c, w, Update(p, Stored(leg, answered)));
    if !w.cancelled {
      assert Req(w, leg).Keys == answered;
      CompleteBalances(Req(w, leg), Smap(w, leg), Responses(w), AskNow(c, w), answered, Top(w) in w.failed);
    }
    assert ParkedInv(c, w, Update(p, Enqueuing(leg)));
  }

  lemma CompleteStep(c: Config, w: World, p: Payload, leg: nat, answered: set<SurfacedKey>)
    requires CoreInv(c, w, Update(p, Stored(leg, answered)))
    requires Req(w, leg).Keys - answered == {}
    ensures CoreInv(c, w, Update(p, Enqueuing(leg)))
  {
    CompleteParked(c, w, p, leg, answered);
    WindowFrame(w, w, Update(p, Stored(leg, answered)), Update(p, Enqueuing(leg)));
  }

  lemma DiscardBalances(r: map<SurfacedKey, Request>, s: map<SurfacedKey, ToolKey>, answers: Answers,
                        asked: Requests, answered: set<SurfacedKey>, all: bool)
    requires Balanced(r, s, answers, asked, answered, {}, all)
    requires answered < r.Keys && Tools(s, answered) <= answers.Keys
    ensures Balanced(r - answered, s, answers, asked, {}, answered, all)
  {}

  lemma DiscardConserves(c: Config, w: World, w': World, p: Payload, leg: nat, answered: set<SurfacedKey>)
    requires Conserved(c, w, Update(p, Discarding(leg, answered))) && leg == Top(w)
    requires answered < Req(w, leg).Keys && Tools(Smap(w, leg), answered) <= Responses(w).Keys
    requires w' == DropRequests(w, leg, answered)
    ensures Conserved(c, w', Update(p, DiscardingMap(leg, answered)))
  {
    assert Req(w', leg) == Req(w, leg) - answered && Smap(w', leg) == Smap(w, leg) && AskNow(c, w') == AskNow(c, w);
    DiscardBalances(Req(w, leg), Smap(w, leg), Responses(w), AskNow(c, w), answered, Top(w) in w.failed);
  }

  lemma DiscardParked(c: Config, w: World, w': World, p: Payload, leg: nat, answered: set<SurfacedKey>)
    requires ParkedInv(c, w, Update(p, Discarding(leg, answered))) && WaitsParked(w) && leg == Top(w)
    requires !w.cancelled ==> answered < Req(w, leg).Keys && Tools(Smap(w, leg), answered) <= Responses(w).Keys
    requires w' == DropRequests(w, leg, answered) && DropsOnly(w, w', leg)
    ensures CurrentInv(c, w', Update(p, DiscardingMap(leg, answered))) && WaitsParked(w')
  {
    if !w.cancelled { DiscardConserves(c, w, w', p, leg, answered); }
    MapsShrink(c, w, w');
    KeepsParked(c, w, w', Update(p, Discarding(leg, answered)), Update(p, DiscardingMap(leg, answered)));
  }

  lemma DiscardStep(c: Config, w: World, w': World, p: Payload, leg: nat, answered: set<SurfacedKey>)
    requires CoreInv(c, w, Update(p, Discarding(leg, answered)))
    requires w' == DropRequests(w, leg, answered)
    ensures CoreInv(c, w', Update(p, DiscardingMap(leg, answered)))
  {
    DropRequestsOnly(w, leg, answered);
    DropWindow(w, w', leg, Update(p, Discarding(leg, answered)), Update(p, DiscardingMap(leg, answered)));
    DropFrame(c, w, w', leg);
    DiscardParked(c, w, w', p, leg, answered);
  }

  lemma DropWindow(w: World, w': World, leg: nat, at: Pc, at': Pc)
    requires WindowInv(w, at) && !InWindow(at) && !InWindow(at') && !PastCheck(at')
    requires DropsOnly(w, w', leg) && w'.(requests := w.requests, surfaced := w.surfaced) == w
    ensures WindowInv(w', at')
  {
    WindowFrame(w, w', at, at');
  }

  lemma DropFrame(c: Config, w: World, w': World, leg: nat)
    requires LegsInv(w) && LogInv(c, w) && KeysInv(w) && DropsOnly(w, w', leg)
    requires w'.(requests := w.requests, surfaced := w.surfaced) == w
    ensures LegsInv(w') && LogInv(c, w') && KeysInv(w')
  {
    LegsFrame(w, w');
    LogFrame(c, w, w');
    KeysFrame(w, w');
  }

  /** `w'` holds no input hash entry that `w` does not, and the same as `w` for every leg but `leg`. */
  ghost predicate DropsOnly(w: World, w': World, leg: nat) {
    && (forall m: nat, k :: k in Req(w', m) ==> k in Req(w, m) && Req(w', m)[k] == Req(w, m)[k])
    && (forall m: nat, k :: k in Smap(w', m) ==> k in Smap(w, m) && Smap(w', m)[k] == Smap(w, m)[k])
    && (forall m: nat :: m != leg ==> Req(w', m) == Req(w, m) && Smap(w', m) == Smap(w, m))
  }

  lemma DropRequestsOnly(w: World, leg: nat, keys: set<SurfacedKey>)
    ensures DropsOnly(w, DropRequests(w, leg, keys), leg)
    ensures Req(DropRequests(w, leg, keys), leg) == Req(w, leg) - keys
  {
    var w' := DropRequests(w, leg, keys);
    assert forall m: nat :: Smap(w', m) == Smap(w, m);
    assert forall m: nat :: Req(w', m) == if m == leg then Req(w, leg) - keys else Req(w, m);
  }

  lemma DropSurfacedOnly(w: World, leg: nat, keys: set<SurfacedKey>)
    ensures DropsOnly(w, DropSurfaced(w, leg, keys), leg)
    ensures Smap(DropSurfaced(w, leg, keys), leg) == Smap(w, leg) - keys
  {
    var w' := DropSurfaced(w, leg, keys);
    assert forall m: nat :: Req(w', m) == Req(w, m);
    assert forall m: nat :: Smap(w', m) == if m == leg then Smap(w, leg) - keys else Smap(w, m);
  }

  lemma ClearRequestsOnly(w: World, leg: nat)
    ensures DropsOnly(w, ClearRequests(w, leg), leg) && Req(ClearRequests(w, leg), leg) == map[]
  {}

  lemma ClearSurfacedOnly(w: World, leg: nat)
    ensures DropsOnly(w, ClearSurfaced(w, leg), leg) && Smap(ClearSurfaced(w, leg), leg) == map[]
  {}

  lemma MapsShrink(c: Config, w: World, w': World)
    requires MapsIntoAsk(c, w) && DropsOnly(w, w', Top(w)) && Top(w') == Top(w) && w'.log == w.log
    ensures MapsIntoAsk(c, w')
  {}

  // Removing input hashes leaves the rest of what a parked leg claims.
  lemma KeepsParked(c: Config, w: World, w': World, at: Pc, at': Pc)
    requires ParkedInv(c, w, at) && WaitsParked(w)
    requires w'.(requests := w.requests, surfaced := w.surfaced) == w
    requires MapsIntoAsk(c, w')
    requires !w.cancelled ==> Conserved(c, w', at')
    ensures ParkedInv(c, w', at') && CurrentInv(c, w', at') && WaitsParked(w')
  {}

  lemma DiscardMapBalances(r: map<SurfacedKey, Request>, s: map<SurfacedKey, ToolKey>, answers: Answers,
                           asked: Requests, answered: set<SurfacedKey>, all: bool)
    requires Balanced(r, s, answers, asked, {}, answered, all)
    ensures Balanced(r, s - answered, answers, asked, {}, {}, all)
  {}

  lemma DiscardMapConserves(c: Config, w: World, w': World, p: Payload, leg: nat, answered: set<SurfacedKey>)
    requires Conserved(c, w, Update(p, DiscardingMap(leg, answered))) && leg == Top(w)
    requires w' == DropSurfaced(w, leg, answered)
    ensures Conserved(c, w', Update(p, Releasing))
  {
    assert Req(w', leg) == Req(w, leg) && Smap(w', leg) == Smap(w, leg) - answered && AskNow(c, w') == AskNow(c, w);
    DiscardMapBalances(Req(w, leg), Smap(w, leg), Responses(w), AskNow(c, w), answered, Top(w) in w.failed);
  }

  lemma DiscardMapParked(c: Config, w: World, w': World, p: Payload, leg: nat, answered: set<SurfacedKey>)
    requires ParkedInv(c, w, Update(p, DiscardingMap(leg, answered))) && WaitsParked(w) && leg == Top(w)
    requires w' == DropSurfaced(w, leg, answered) && DropsOnly(w, w', leg)
    requires Smap(w', leg) == Smap(w, leg) - answered
    ensures CurrentInv(c, w', Update(p, Releasing)) && WaitsParked(w')
  {
    if !w.cancelled { DiscardMapConserves(c, w, w', p, leg, answered); }
    MapsShrink(c, w, w');
    KeepsParked(c, w, w', Update(p, DiscardingMap(leg, answered)), Update(p, Releasing));
  }

  lemma DiscardMapStep(c: Config, w: World, w': World, p: Payload, leg: nat, answered: set<SurfacedKey>)
    requires CoreInv(c, w, Update(p, DiscardingMap(leg, answered)))
    requires w' == DropSurfaced(w, leg, answered)
    ensures CoreInv(c, w', Update(p, Releasing))
  {
    DropSurfacedOnly(w, leg, answered);
    DropWindow(w, w', leg, Update(p, DiscardingMap(leg, answered)), Update(p, Releasing));
    DropFrame(c, w, w', leg);
    DiscardMapParked(c, w, w', p, leg, answered);
  }

  /* ------------------------------------------------------------ re-entry */

  lemma EnqueueLegs(w: World, w': World, leg: nat)
    requires LegsInv(w) && WaitsParked(w) && leg == Top(w)
    requires w' == EnqueueLeg(w, leg + 1)
    ensures LegsInv(w') && Top(w') == leg + 1 && leg + 1 !in w.execs && w'.execs[leg + 1] == Queued(w.args)
  {}

  lemma EnqueueLog(c: Config, w: World, w': World, leg: nat)
    requires LogInv(c, w) && leg == Top(w) && RanTo(c, w, Parks(AskNow(c, w), w.carried))
    requires !w.late && w' == EnqueueLeg(w, leg + 1)
    ensures LogInv(c, w')
  {
    forall i | 0 <= i < |w'.log| ensures Linked(c, w', i) {
      assert Linked(c, w, i);
    }
  }

  lemma EnqueueLoaded(c: Config, w: World, w': World, p: Payload, leg: nat)
    requires ParkedInv(c, w, Update(p, Enqueuing(leg))) && leg == Top(w)
    requires WindowInv(w, Update(p, Enqueuing(leg)))
    requires w.responses.Some? && (!w.cancelled ==> Responses(w).Keys == AskNow(c, w).Keys)
    requires w' == EnqueueLeg(w, leg + 1)
    ensures Loaded(c, w')
  {
    assert Req(w, leg + 1) == map[] && Smap(w, leg + 1) == map[];
    assert w'.log == w.log && w.log != [] && Top(w') == leg + 1;
    assert w.responses == Some(Responses(w));
  }

  lemma EnqueueWindow(c: Config, w: World, w': World, p: Payload, leg: nat)
    requires WindowInv(w, Update(p, Enqueuing(leg))) && leg == Top(w)
    requires !w.cancelled ==> Req(w, leg) != map[]
    requires w' == EnqueueLeg(w, leg + 1)
    ensures WindowInv(w', Update(p, Awaiting(leg)))
  {
    assert forall m: nat :: Req(w', m) == Req(w, m) && Smap(w', m) == Smap(w, m);
    assert Top(w') == leg + 1;
  }

  lemma EnqueueKeys(w: World, w': World, leg: nat)
    requires KeysInv(w) && leg == Top(w) && Req(w, leg + 1) == map[]
    requires w' == EnqueueLeg(w, leg + 1)
    ensures KeysInv(w')
  {
    assert forall m: nat :: Req(w', m) == Req(w, m);
  }

  lemma EnqueueStep(c: Config, w: World, w': World, p: Payload, leg: nat)
    requires CoreInv(c, w, Update(p, Enqueuing(leg)))
    requires w' == EnqueueLeg(w, leg + 1)
    ensures leg + 1 !in w.execs && leg == Top(w)
    ensures CoreInv(c, w', Update(p, Awaiting(leg)))
  {
    var at, next := Update(p, Enqueuing(leg)), Update(p, Awaiting(leg));
    assert ParkedInv(c, w, at);
    assert !w.late;
    EnqueueLegs(w, w', leg);
    EnqueueLog(c, w, w', leg);
    EnqueueLoaded(c, w, w', p, leg);
    EnqueueWindow(c, w, w', p, leg);
    EnqueueKeys(w, w', leg);
    assert CurrentInv(c, w', next);
  }

  lemma FailParked(c: Config, w: World, w': World, p: Payload, leg: nat)
    requires ParkedInv(c, w, Update(p, Enqueuing(leg))) && leg == Top(w)
    requires w' == w.(failed := w.failed + {leg})
    ensures ParkedInv(c, w', Update(p, Releasing))
  {
    assert AskNow(c, w') == AskNow(c, w) && Smap(w', leg) == Smap(w, leg) && Req(w', leg) == Req(w, leg);
  }

  lemma EnqueueFails(c: Config, w: World, w': World, p: Payload, leg: nat)
    requires CoreInv(c, w, Update(p, Enqueuing(leg)))
    requires w' == w.(failed := w.failed + {leg})
    ensures CoreInv(c, w', Update(p, Releasing))
  {
    FailParked(c, w, w', p, leg);
    FailLegs(w, w', leg);
    LogFrame(c, w, w');
    FailFrame(w, w', p, leg);
  }

  lemma FailFrame(w: World, w': World, p: Payload, leg: nat)
    requires WindowInv(w, Update(p, Enqueuing(leg))) && KeysInv(w) && w' == w.(failed := w.failed + {leg})
    ensures WindowInv(w', Update(p, Releasing)) && KeysInv(w')
  {
    WindowFrame(w, w', Update(p, Enqueuing(leg)), Update(p, Releasing));
    KeysFrame(w, w');
  }

  lemma FailLegs(w: World, w': World, leg: nat)
    requires LegsInv(w) && leg == Top(w) && WaitsParked(w)
    requires w' == w.(failed := w.failed + {leg})
    ensures LegsInv(w')
  {}

  /* --------------------------------------- from the enqueue to the release */

  // The current leg after a change to fields it does not mention, or after cancellation weakened it.
  lemma CurrentSame(c: Config, w: World, w': World, at: Pc, at': Pc)
    requires CurrentInv(c, w, at)
    requires Going(at) == Going(at') && Gone(at) == Gone(at') && AllAnswered(w, at) == AllAnswered(w', at')
    requires w'.log == w.log && w'.enqueues == w.enqueues && w'.acks == w.acks && w'.late == w.late
    requires w'.carried == w.carried && w'.responses == w.responses && w'.execs == w.execs
    requires w.cancelled ==> w'.cancelled
    requires forall k :: k in Req(w', Top(w)) ==> k in Req(w, Top(w))
    requires forall k :: k in Smap(w', Top(w)) ==> k in Smap(w, Top(w)) && Smap(w', Top(w))[k] == Smap(w, Top(w))[k]
    requires w'.cancelled || (Req(w', Top(w)) == Req(w, Top(w)) && Smap(w', Top(w)) == Smap(w, Top(w)))
    ensures CurrentInv(c, w', at')
  {
    assert AskNow(c, w') == AskNow(c, w) && Responses(w') == Responses(w);
    match w.execs[Top(w)]
    case Queued(a) => LoadedSame(c, w, w');
    case Running(a, worker) => WorkerSame(c, w, w', worker);
    case Completed(e) =>
      if e == ParkedAsk {
        ParkedSame(c, w, w', at, at');
      } else {
        assert NothingAsked(w');
      }
    case Failed(_) => assert NothingAsked(w');
    case Stopped =>
  }

  lemma ParkedSame(c: Config, w: World, w': World, at: Pc, at': Pc)
    requires ParkedInv(c, w, at)
    requires Going(at) == Going(at') && Gone(at) == Gone(at') && AllAnswered(w, at) == AllAnswered(w', at')
    requires w'.log == w.log && w'.enqueues == w.enqueues && w'.acks == w.acks
    requires w'.carried == w.carried && w'.responses == w.responses && (w.cancelled ==> w'.cancelled)
    requires forall k :: k in Smap(w', Top(w)) ==> k in Smap(w, Top(w)) && Smap(w', Top(w))[k] == Smap(w, Top(w))[k]
    requires w'.cancelled || (Req(w', Top(w)) == Req(w, Top(w)) && Smap(w', Top(w)) == Smap(w, Top(w)))
    ensures ParkedInv(c, w', at')
  {
    assert AskNow(c, w') == AskNow(c, w);
  }

  lemma LoadedSame(c: Config, w: World, w': World)
    requires Loaded(c, w)
    requires w'.log == w.log && w'.enqueues == w.enqueues && w'.acks == w.acks && w'.late == w.late
    requires w'.carried == w.carried && w'.responses == w.responses
    requires forall k :: k in Req(w', Top(w)) ==> k in Req(w, Top(w))
    requires forall k :: k in Smap(w', Top(w)) ==> k in Smap(w, Top(w))
    ensures Loaded(c, w')
  {}

  lemma WorkerSame(c: Config, w: World, w': World, worker: Worker)
    requires WorkerInv(c, w, worker)
    requires w'.log == w.log && w'.enqueues == w.enqueues && w'.acks == w.acks && w'.late == w.late
    requires w'.carried == w.carried && w'.responses == w.responses && (w.cancelled ==> w'.cancelled)
    requires forall k :: k in Req(w', Top(w)) ==> k in Req(w, Top(w))
    requires forall k :: k in Smap(w', Top(w)) ==> k in Smap(w, Top(w)) && Smap(w', Top(w))[k] == Smap(w, Top(w))[k]
    requires w'.cancelled || (Req(w', Top(w)) == Req(w, Top(w)) && Smap(w', Top(w)) == Smap(w, Top(w)))
    ensures WorkerInv(c, w', worker)
  {}

  lemma AwaitStep(c: Config, w: World, p: Payload, leg: nat)
    requires CoreInv(c, w, Update(p, Awaiting(leg))) && leg + 1 in w.visible
    ensures CoreInv(c, w, Update(p, Swapping(leg)))
  {}

  lemma SwapStep(c: Config, w: World, w': World, p: Payload, leg: nat)
    requires CoreInv(c, w, Update(p, Swapping(leg)))
    requires w' == w.(pointer := leg + 1)
    ensures CoreInv(c, w', Update(p, SwappingNumber(leg)))
  {
    LegsFrame(w, w');
    LogFrame(c, w, w');
    CurrentSame(c, w, w', Update(p, Swapping(leg)), Update(p, SwappingNumber(leg)));
    KeysFrame(w, w');
    SwapWindow(w, w', p, leg);
  }

  lemma SwapWindow(w: World, w': World, p: Payload, leg: nat)
    requires WindowInv(w, Update(p, Swapping(leg))) && w' == w.(pointer := leg + 1)
    ensures WindowInv(w', Update(p, SwappingNumber(leg)))
  {
    assert forall m: nat :: Req(w', m) == Req(w, m) && Smap(w', m) == Smap(w, m);
  }

  lemma SwapNumberWindow(w: World, w': World, p: Payload, leg: nat)
    requires WindowInv(w, Update(p, SwappingNumber(leg))) && w' == w.(number := leg + 1)
    ensures WindowInv(w', Update(p, Clearing(leg)))
  {
    assert forall m: nat :: Req(w', m) == Req(w, m) && Smap(w', m) == Smap(w, m);
  }

  lemma SwapNumberStep(c: Config, w: World, w': World, p: Payload, leg: nat)
    requires CoreInv(c, w, Update(p, SwappingNumber(leg)))
    requires w' == w.(number := leg + 1)
    ensures CoreInv(c, w', Update(p, Clearing(leg)))
  {
    LegsFrame(w, w');
    LogFrame(c, w, w');
    CurrentSame(c, w, w', Update(p, SwappingNumber(leg)), Update(p, Clearing(leg)));
    KeysFrame(w, w');
    SwapNumberWindow(w, w', p, leg);
  }

  lemma ClearWindow(w: World, w': World, p: Payload, leg: nat)
    requires WindowInv(w, Update(p, Clearing(leg))) && DropsOnly(w, w', leg) && Req(w', leg) == map[]
    requires w'.(requests := w.requests) == w
    ensures WindowInv(w', Update(p, ClearingMap(leg)))
  {}

  lemma ClearMapWindow(w: World, w': World, p: Payload, leg: nat)
    requires WindowInv(w, Update(p, ClearingMap(leg))) && DropsOnly(w, w', leg)
    requires w'.(surfaced := w.surfaced) == w
    ensures WindowInv(w', Update(p, Releasing))
  {}

  lemma ClearStep(c: Config, w: World, w': World, p: Payload, leg: nat)
    requires CoreInv(c, w, Update(p, Clearing(leg)))
    requires w' == ClearRequests(w, leg)
    ensures CoreInv(c, w', Update(p, ClearingMap(leg)))
  {
    ClearRequestsOnly(w, leg);
    DropFrame(c, w, w', leg);
    CurrentSame(c, w, w', Update(p, Clearing(leg)), Update(p, ClearingMap(leg)));
    ClearWindow(w, w', p, leg);
  }

  lemma ClearMapStep(c: Config, w: World, w': World, p: Payload, leg: nat)
    requires CoreInv(c, w, Update(p, ClearingMap(leg)))
    requires w' == ClearSurfaced(w, leg)
    ensures CoreInv(c, w', Update(p, Releasing))
  {
    ClearSurfacedOnly(w, leg);
    DropFrame(c, w, w', leg);
    CurrentSame(c, w, w', Update(p, ClearingMap(leg)), Update(p, Releasing));
    ClearMapWindow(w, w', p, leg);
  }
}
