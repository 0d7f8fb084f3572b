/** What every reachable state of the protocol satisfies.

    The invariant is a conjunction over the world and the program counter of the one handler inside the
    locked section (`at`); handlers outside it only carry the local facts of `HandlersInv`. */
module TaskInvariant {
  import opened TaskTypes
  import opened TaskProtocol

  /* --------------------------------------------------- vocabulary of a leg */

  ghost predicate DidPark(c: Config, call: Call) { VerdictOf(c, call).Parks? }

  ghost function AskedBy(c: Config, call: Call): Requests {
    match VerdictOf(c, call) case Parks(reqs, _) => reqs case _ => map[]
  }

  ghost function CarriedBy(c: Config, call: Call): Option<string> {
    match VerdictOf(c, call) case Parks(_, st) => st case _ => None
  }

  /** The answers accepted for a leg: key-wise union over its updates in order, later ones winning. */
  ghost function Collected(acks: seq<Ack>, leg: nat): Answers {
    if acks == [] then map[]
    else
      var before := Collected(acks[..|acks| - 1], leg);
      if acks[|acks| - 1].leg == leg then before + acks[|acks| - 1].answers else before
  }

  lemma CollectedAppend(acks: seq<Ack>, a: Ack)
    ensures Collected(acks + [a], a.leg) == Collected(acks, a.leg) + a.answers
    ensures forall m: nat :: m != a.leg ==> Collected(acks + [a], m) == Collected(acks, m)
  {}

  /** For each key the answer of the last update that had one. */
  lemma {:induction false} CollectedLast(acks: seq<Ack>, leg: nat, tool: ToolKey) returns (i: nat)
    requires tool in Collected(acks, leg)
    ensures i < |acks| && acks[i].leg == leg && tool in acks[i].answers && acks[i].answers[tool] == Collected(acks, leg)[tool]
    ensures forall j :: i < j < |acks| && acks[j].leg == leg ==> tool !in acks[j].answers
  {
    var n := |acks| - 1;
    if acks[n].leg == leg && tool in acks[n].answers {
      i := n;
    } else {
      i := CollectedLast(acks[..n], leg, tool);
    }
  }

  lemma {:induction false} CollectedNone(acks: seq<Ack>, leg: nat)
    requires forall a :: a in acks ==> a.leg != leg
    ensures Collected(acks, leg) == map[]
  {
    if acks != [] { CollectedNone(acks[..|acks| - 1], leg); }
  }

  ghost function Tools(mapping: map<SurfacedKey, ToolKey>, keys: set<SurfacedKey>): set<ToolKey> {
    set k | k in keys && k in mapping :: mapping[k]
  }

  ghost predicate OneToOne(mapping: map<SurfacedKey, ToolKey>) {
    forall k1, k2 :: k1 in mapping && k2 in mapping && mapping[k1] == mapping[k2] ==> k1 == k2
  }

  lemma ToolsSplit(mapping: map<SurfacedKey, ToolKey>, all: set<SurfacedKey>, part: set<SurfacedKey>)
    requires part <= all
    ensures Tools(mapping, all) == Tools(mapping, part) + Tools(mapping, all - part)
    ensures OneToOne(mapping) ==> Tools(mapping, part) !! Tools(mapping, all - part)
  {}

  ghost predicate WaitsParked(w: World) {
    Top(w) in w.execs && w.execs[Top(w)] == Completed(ParkedAsk)
  }

  ghost function LastCall(w: World): Call
    requires w.log != []
  {
    w.log[|w.log| - 1]
  }

  /** The tool keys the current leg asked for. */
  ghost function AskNow(c: Config, w: World): Requests {
    if w.log == [] then map[] else AskedBy(c, LastCall(w))
  }

  /* ----------------------------------------------------------- legs and log */

  ghost predicate LegsInv(w: World) {
    && Top(w) >= 1
    && (forall i :: 0 <= i < Top(w) ==> w.enqueues[i] == i + 1)
    && (forall n :: n in w.execs <==> 1 <= n <= Top(w))
    && (forall n :: 1 <= n < Top(w) ==> w.execs[n] == Completed(ParkedAsk))
    && w.visible <= w.execs.Keys
    && (w.stops != {} ==> w.cancelled)
    && (w.late ==> w.cancelled)
    && (forall n :: n in w.failed ==> n <= Top(w) && (n == Top(w) ==> WaitsParked(w)))
    && (forall a :: a in w.acks ==> a.leg <= Top(w) && (a.leg == Top(w) ==> WaitsParked(w)))
  }

  /** Leg i+1 saw exactly what the foreground loop would have handed it. A leg that was enqueued after
      the cancellation marker may have been handed a part of its answers only. */
  ghost predicate Linked(c: Config, w: World, i: nat)
    requires i < |w.log|
  {
    && w.log[i].leg == i + 1
    && w.log[i].args == c.args
    && if i == 0 then w.log[i].state == None && w.log[i].responses == None
       else
         && DidPark(c, w.log[i - 1])
         && w.log[i].state == CarriedBy(c, w.log[i - 1])
         && w.log[i].responses == Some(Collected(w.acks, i))
         && Collected(w.acks, i).Keys <= AskedBy(c, w.log[i - 1]).Keys
         && (i + 1 < Top(w) || !w.late ==> Collected(w.acks, i).Keys == AskedBy(c, w.log[i - 1]).Keys)
  }

  ghost predicate LogInv(c: Config, w: World) {
    && w.args == c.args
    && |w.log| <= Top(w) <= |w.log| + 1
    && (forall i :: 0 <= i < |w.log| ==> Linked(c, w, i))
    && (Top(w) > |w.log| > 0 ==> DidPark(c, LastCall(w)))
  }

  /* ------------------------------------------------------------ current leg */

  ghost predicate NothingAsked(w: World) {
    Req(w, Top(w)) == map[] && Smap(w, Top(w)) == map[]
  }

  /** What a leg that has not run its body yet is going to load. */
  ghost predicate Loaded(c: Config, w: World) {
    && |w.log| == Top(w) - 1
    && NothingAsked(w)
    && if w.log == [] then w.carried == None && w.responses == None
       else
         && w.carried == CarriedBy(c, LastCall(w))
         && w.responses == Some(Collected(w.acks, |w.log|))
         && Collected(w.acks, |w.log|).Keys <= AskedBy(c, LastCall(w)).Keys
         && (!w.late ==> Collected(w.acks, |w.log|).Keys == AskedBy(c, LastCall(w)).Keys)
  }

  ghost predicate RanTo(c: Config, w: World, v: AnyVerdict) {
    w.log != [] && |w.log| == Top(w) && VerdictOf(c, LastCall(w)) == v
  }

  // What a parking worker has still to store, and the entry it has half stored: requests but not mapping.
  ghost function Left(worker: Worker): Requests {
    match worker case Parking(todo, _) => todo case ParkingMap(_, _, todo, _) => todo case _ => map[]
  }

  ghost function Half(worker: Worker): map<SurfacedKey, ToolKey> {
    match worker case ParkingMap(key, tool, _, _) => map[key := tool] case _ => map[]
  }

  /** The current ask, less what is left to store, is in the store under distinct surfaced keys. */
  ghost predicate Placed(w: World, reqs: Requests, left: Requests, half: map<SurfacedKey, ToolKey>) {
    var r, s := Req(w, Top(w)), Smap(w, Top(w)) + half;
    && r.Keys == s.Keys
    && Smap(w, Top(w)).Keys !! half.Keys
    && OneToOne(s)
    && Tools(s, s.Keys) == reqs.Keys - left.Keys
    && (forall k :: k in s ==> s[k] in reqs && r[k] == reqs[s[k]])
  }

  ghost predicate MapsIntoAsk(c: Config, w: World) {
    forall k :: k in Smap(w, Top(w)) ==> Smap(w, Top(w))[k] in AskNow(c, w)
  }

  ghost function StateOf(w: World, worker: Worker): Option<string> {
    match worker
    case Parking(_, st) => st
    case ParkingMap(_, _, _, st) => st
    case Consumed(st) => st
    case _ => w.carried
  }

  ghost predicate ParkingInv(c: Config, w: World, worker: Worker) {
    && MapsIntoAsk(c, w)
    && RanTo(c, w, Parks(AskNow(c, w), StateOf(w, worker)))
    && (worker.Consumed? || worker.Parked? ==> w.responses == None)
    && Left(worker).Keys <= AskNow(c, w).Keys
    && (forall t :: t in Left(worker) ==> Left(worker)[t] == AskNow(c, w)[t])
    && (worker.ParkingMap? ==> worker.tool in AskNow(c, w))
    && (!w.cancelled ==> Placed(w, AskNow(c, w), Left(worker), Half(worker)))
  }

  ghost predicate WorkerInv(c: Config, w: World, worker: Worker) {
    match worker
    case Begun => Loaded(c, w)
    case GotState(st) => Loaded(c, w) && st == w.carried
    case Finishing(e) => RanTo(c, w, Ends(e)) && NothingAsked(w)
    case Failing(e) => RanTo(c, w, Fails(e)) && NothingAsked(w)
    case _ => ParkingInv(c, w, worker)
  }

  /* ----------------------------------------------------- the parked leg */

  // Surfaced keys an update has answered in the responses but not yet removed from the requests.
  ghost function Going(at: Pc): set<SurfacedKey> {
    match at
    case Update(_, Stored(_, answered)) => answered
    case Update(_, Discarding(_, answered)) => answered
    case _ => {}
  }

  // Surfaced keys an update has removed from the requests but not yet from the mapping.
  ghost function Gone(at: Pc): set<SurfacedKey> {
    match at
    case Update(_, DiscardingMap(_, answered)) => answered
    case _ => {}
  }

  /** Conservation, over the outstanding requests `r`, the mapping `s`, the answers so far and the ask:
      every tool key asked for is answered or still outstanding under a surfaced key. The two parts are
      disjoint, once the keys in `going` are out, unless `all` says every key has been answered. */
  ghost predicate Balanced(r: map<SurfacedKey, Request>, s: map<SurfacedKey, ToolKey>, answers: Answers,
                           asked: Requests, going: set<SurfacedKey>, gone: set<SurfacedKey>, all: bool) {
    && OneToOne(s)
    && r != map[]
    && r.Keys !! gone
    && r.Keys <= s.Keys <= r.Keys + gone
    && (forall k :: k in r ==> s[k] in asked && r[k] == asked[s[k]])
    && asked.Keys == answers.Keys + Tools(s, r.Keys)
    && (if all then Tools(s, r.Keys) <= answers.Keys else Tools(s, r.Keys - going) !! answers.Keys)
  }

  // A complete set of answers failed to re-enter, or is just about to.
  ghost predicate AllAnswered(w: World, at: Pc) {
    Top(w) in w.failed || (at.Update? && at.at.Enqueuing?)
  }

  ghost predicate Conserved(c: Config, w: World, at: Pc) {
    Balanced(Req(w, Top(w)), Smap(w, Top(w)), Responses(w), AskNow(c, w), Going(at), Gone(at), AllAnswered(w, at))
  }

  ghost predicate ParkedInv(c: Config, w: World, at: Pc) {
    && RanTo(c, w, Parks(AskNow(c, w), w.carried))
    && Responses(w) == Collected(w.acks, Top(w))
    && Responses(w).Keys <= AskNow(c, w).Keys
    && MapsIntoAsk(c, w)
    && (!w.cancelled ==> Conserved(c, w, at))
  }

  ghost predicate CurrentInv(c: Config, w: World, at: Pc) {
    Top(w) in w.execs &&
    match w.execs[Top(w)]
    case Queued(a) => a == c.args && Loaded(c, w)
    case Running(a, worker) => a == c.args && WorkerInv(c, w, worker)
    case Completed(ParkedAsk) => ParkedInv(c, w, at)
    case Completed(e) => RanTo(c, w, Ends(e)) && NothingAsked(w)
    case Failed(e) => RanTo(c, w, Fails(e)) && NothingAsked(w)
    case Stopped => w.cancelled
  }

  /* ------------------------------------------------------ the locked section */

  ghost predicate InWindow(at: Pc) {
    at.Update? && (at.at.Awaiting? || at.at.Swapping? || at.at.SwappingNumber? || at.at.Clearing?
                   || at.at.ClearingMap?)
  }

  // An update that has got past its look at the cancellation marker and may still enqueue.
  predicate PastCheck(at: Pc) {
    at.Update? && (at.at.Checked? || at.at.Reading? || at.at.Matched? || at.at.Stored? || at.at.Enqueuing?)
  }

  /** Where the leg pointer and number stand, and which legs can have outstanding requests. */
  ghost predicate WindowInv(w: World, at: Pc) {
    && (match at
        case Update(_, Awaiting(leg)) => leg + 1 == Top(w) && w.pointer == w.number == leg
        case Update(_, Swapping(leg)) => leg + 1 == Top(w) && w.pointer == w.number == leg && Top(w) in w.visible
        case Update(_, SwappingNumber(leg)) => leg + 1 == Top(w) == w.pointer && w.number == leg
        case Update(_, Clearing(leg)) => leg + 1 == Top(w) == w.pointer == w.number
        case Update(_, ClearingMap(leg)) => leg + 1 == Top(w) == w.pointer == w.number && Req(w, leg) == map[]
        case _ => w.pointer == w.number == Top(w))
    && w.pointer in w.visible && w.number in w.visible
    && (forall m: nat :: m != Top(w) && !(InWindow(at) && m + 1 == Top(w)) ==> Req(w, m) == map[])
    && (forall m: nat :: m > Top(w) ==> Smap(w, m) == map[])
    && (InWindow(at) && !at.at.ClearingMap? && !w.cancelled ==> Req(w, Top(w) - 1) != map[])
    && (w.late ==> !PastCheck(at))
  }

  ghost predicate Hits(p: Payload, outstanding: map<SurfacedKey, Request>) {
    KeysOf(p) * outstanding.Keys != {}
  }

  ghost predicate SectionInv(c: Config, w: World, at: Pc) {
    match at
    case Update(p, Reading(leg, outstanding)) =>
      Hits(p, outstanding) ==> leg == Top(w) && WaitsParked(w) && (!w.cancelled ==> outstanding == Req(w, leg))
    case Update(p, Matched(leg, tr, answered)) =>
      && leg == Top(w) && WaitsParked(w) && answered != {} && tr.Keys <= AskNow(c, w).Keys
      && (!w.cancelled ==> answered <= Req(w, leg).Keys && tr.Keys == Tools(Smap(w, leg), answered))
    case Update(p, Stored(leg, answered)) =>
      && leg == Top(w) && WaitsParked(w) && answered != {} && w.responses.Some?
      && (!w.cancelled ==> answered <= Req(w, leg).Keys && Tools(Smap(w, leg), answered) <= Responses(w).Keys)
    case Update(p, Discarding(leg, answered)) =>
      && leg == Top(w) && WaitsParked(w)
      && (!w.cancelled ==> answered < Req(w, leg).Keys && Tools(Smap(w, leg), answered) <= Responses(w).Keys)
    case Update(p, DiscardingMap(leg, answered)) =>
      leg == Top(w) && WaitsParked(w)
    case Update(p, Enqueuing(leg)) =>
      && leg == Top(w) && WaitsParked(w) && w.responses.Some?
      && (!w.cancelled ==> Responses(w).Keys == AskNow(c, w).Keys)
    case Cancel(CDeciding(_, p, leg)) => p == leg == Top(w)
    case Cancel(CClearing(_, p, leg)) => p == leg == Top(w)
    case Cancel(CClearingMap(_, p, leg)) => p == leg == Top(w)
    case Cancel(CStopping(_, p)) => p == Top(w)
    case _ => true
  }

  /** Surfaced keys are minted once, and shown only after their leg has ended. */
  ghost predicate KeysInv(w: World) {
    && w.shown <= w.minted
    && (forall m: nat, k :: k in Req(w, m) ==> k in w.minted)
    && (forall k :: k in Req(w, Top(w)) && k in w.shown ==> WaitsParked(w))
    && (forall m: nat, k :: m + 1 == Top(w) && k in Req(w, m) ==> k !in Req(w, Top(w)))
  }

  /* ---------------------------------------------------------------- handlers */

  predicate InSection(pc: Pc) {
    match pc
    case Idle => false
    case Update(_, at) => !at.Arrived? && !at.Looked?
    case Cancel(CArrived) => false
    case Cancel(CLooked) => false
    case Cancel(CResolving(got)) => got
    case Cancel(CDeciding(got, _, _)) => got
    case Cancel(CClearing(got, _, _)) => got
    case Cancel(CClearingMap(got, _, _)) => got
    case Cancel(CStopping(got, _)) => got
    case Cancel(CReleasing(got)) => got
  }

  ghost predicate HandlerInv(w: World, h: HandlerId, pc: Pc) {
    && (InSection(pc) <==> w.owner == Some(h))
    && (pc.Update? ==> KeysOf(pc.payload) <= w.named && KeysOf(pc.payload) * w.minted <= w.shown)
    && (pc.Cancel? && (pc.cat.CClearing? || pc.cat.CClearingMap? || pc.cat.CStopping?) ==> w.cancelled)
  }

  ghost predicate HandlersInv(s: Sys) {
    && (s.w.locked <==> s.w.owner.Some?)
    && (s.w.owner.Some? ==> InSection(PcOf(s, s.w.owner.value)))
    && (forall h :: h in s.pcs ==> s.pcs[h] != Idle && HandlerInv(s.w, h, s.pcs[h]))
  }

  /** The program counter of the handler that holds the lock; `Idle` when it is free. */
  ghost function At(s: Sys): Pc {
    if s.w.owner.Some? then PcOf(s, s.w.owner.value) else Idle
  }

  ghost predicate CoreInv(c: Config, w: World, at: Pc) {
    && LegsInv(w)
    && LogInv(c, w)
    && CurrentInv(c, w, at)
    && WindowInv(w, at)
    && SectionInv(c, w, at)
    && KeysInv(w)
  }

  ghost predicate Inv(c: Config, s: Sys) {
    HandlersInv(s) && CoreInv(c, s.w, At(s))
  }

  lemma InitInv(c: Config)
    ensures Inv(c, Init(c))
  {}
}
