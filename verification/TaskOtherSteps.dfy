/** Steps of workers, of cancels (with or without the lock) and of the environment keep the invariant. */
module TaskOtherSteps {
  import opened TaskTypes
  import opened TaskProtocol
  import opened TaskInvariant
  import opened TaskUpdateSteps

  /* ------------------------------------------------------- moving a counter */

  ghost predicate SameClaims(at: Pc, at': Pc) {
    && !InWindow(at) && !InWindow(at')
    && Going(at) == Going(at') && Gone(at) == Gone(at')
    && (at.Update? && at.at.Enqueuing?) == (at'.Update? && at'.at.Enqueuing?)
    && (PastCheck(at') ==> PastCheck(at))
  }

  // The section moves between positions that make the same claims, the world standing still.
  lemma MoveAt(c: Config, w: World, at: Pc, at': Pc)
    requires CoreInv(c, w, at) && SameClaims(at, at') && SectionInv(c, w, at')
    ensures CoreInv(c, w, at')
  {
    if WaitsParked(w) { StillParked(c, w, at, at'); }
    WindowFrame(w, w, at, at');
  }

  lemma WindowSame(w: World, w': World, at: Pc)
    requires WindowInv(w, at)
    requires w'.pointer == w.pointer && w'.number == w.number && w.visible <= w'.visible && Top(w') == Top(w)
    requires w'.late == w.late && (w.cancelled ==> w'.cancelled)
    requires forall m: nat, k :: k in Req(w', m) ==> k in Req(w, m)
    requires forall m: nat, k :: k in Smap(w', m) ==> k in Smap(w, m)
    requires w'.cancelled || forall m: nat :: Req(w', m) == Req(w, m)
    ensures WindowInv(w', at)
  {
    forall m: nat | Req(w, m) == map[] ensures Req(w', m) == map[] {}
    forall m: nat | m > Top(w) ensures Smap(w', m) == map[] {
      assert Smap(w, m) == map[];
    }
  }

  lemma SectionSame(c: Config, w: World, w': World, at: Pc)
    requires SectionInv(c, w, at)
    requires Top(w') == Top(w) && w'.log == w.log && w'.responses == w.responses && w'.execs == w.execs
    requires w.cancelled ==> w'.cancelled
    requires w'.cancelled || forall m: nat :: Req(w', m) == Req(w, m) && Smap(w', m) == Smap(w, m)
    ensures SectionInv(c, w', at)
  {}

  /** `w'` agrees with `w` on all a worker or an update owns; input hashes may have lost entries, but only
      once the cancellation marker is there. */
  ghost predicate Alike(w: World, w': World) {
    && w'.pointer == w.pointer && w'.number == w.number && w'.args == w.args && w.visible <= w'.visible
    && w'.execs == w.execs && w'.enqueues == w.enqueues && w'.failed == w.failed && w'.late == w.late
    && w'.log == w.log && w'.acks == w.acks && w'.carried == w.carried && w'.responses == w.responses
    && w'.minted == w.minted && (w.cancelled ==> w'.cancelled)
    && (forall m: nat, k :: k in Req(w', m) ==> k in Req(w, m) && Req(w', m)[k] == Req(w, m)[k])
    && (forall m: nat, k :: k in Smap(w', m) ==> k in Smap(w, m) && Smap(w', m)[k] == Smap(w, m)[k])
    && (w'.cancelled || forall m: nat :: Req(w', m) == Req(w, m) && Smap(w', m) == Smap(w, m))
  }

  lemma AlikeLegs(w: World, w': World)
    requires LegsInv(w) && Alike(w, w') && w'.visible <= w'.execs.Keys && (w'.stops != {} ==> w'.cancelled)
    ensures LegsInv(w')
  {}

  lemma AlikeFrame(c: Config, w: World, w': World, at: Pc)
    requires CoreInv(c, w, at) && KeysInv(w') && Alike(w, w')
    requires w'.visible <= w'.execs.Keys && (w'.stops != {} ==> w'.cancelled)
    ensures CoreInv(c, w', at)
  {
    AlikeLegs(w, w');
    LogFrame(c, w, w');
    CurrentSame(c, w, w', at, at);
    WindowSame(w, w', at);
    SectionSame(c, w, w', at);
  }

  // Fields no other predicate mentions, or that only weaken what it says.
  lemma QuietFrame(c: Config, w: World, w': World, at: Pc)
    requires CoreInv(c, w, at)
    requires w'.(owner := w.owner, locked := w.locked, named := w.named, cancelled := w.cancelled,
                 stops := w.stops, visible := w.visible) == w
    requires w.cancelled ==> w'.cancelled
    requires w.visible <= w'.visible <= w'.execs.Keys && (w'.stops != {} ==> w'.cancelled)
    ensures CoreInv(c, w', at)
  {
    QuietAlike(w, w');
    KeysFrame(w, w');
    AlikeFrame(c, w, w', at);
  }

  lemma QuietAlike(w: World, w': World)
    requires w'.(owner := w.owner, locked := w.locked, named := w.named, cancelled := w.cancelled,
                 stops := w.stops, visible := w.visible) == w
    requires (w.cancelled ==> w'.cancelled) && w.visible <= w'.visible
    ensures Alike(w, w')
  {
    assert forall m: nat :: Req(w', m) == Req(w, m) && Smap(w', m) == Smap(w, m);
  }

  /* ----------------------------------------------------------------- cancels */

  // Clearing input hashes of a cancelled task, whoever holds the lock.
  lemma CancelClears(c: Config, w: World, w': World, at: Pc, leg: nat)
    requires CoreInv(c, w, at) && w.cancelled
    requires w' == ClearRequests(w, leg) || w' == ClearSurfaced(w, leg)
    ensures CoreInv(c, w', at)
  {
    ClearRequestsOnly(w, leg);
    ClearSurfacedOnly(w, leg);
    KeysFrame(w, w');
    AlikeFrame(c, w, w', at);
  }

  /* --------------------------------------------------------------- tasks/get */

  // Only a leg that waits has outstanding requests once its execution has completed.
  lemma CompletedWithRequests(c: Config, w: World, at: Pc)
    requires CurrentInv(c, w, at)
    ensures w.execs[Top(w)].Completed? && Req(w, Top(w)) != map[] ==> WaitsParked(w)
  {}

  lemma ShowKeys(w: World, w': World, at: Pc)
    requires KeysInv(w) && WindowInv(w, at) && LegsInv(w)
    requires w.execs[Top(w)].Completed? && Req(w, Top(w)) != map[] ==> WaitsParked(w)
    requires w' == Show(w)
    ensures KeysInv(w')
  {
    assert forall m: nat :: Req(w', m) == Req(w, m);
    if Observe(w).InputRequired? && w.number != Top(w) {
      assert w.number + 1 == Top(w);
      assert forall k :: k in Observe(w).asked ==> k in Req(w, w.number) && k !in Req(w, Top(w));
    }
  }

  lemma ShowStep(c: Config, w: World, w': World, at: Pc)
    requires CoreInv(c, w, at)
    requires w' == Show(w)
    ensures CoreInv(c, w', at)
  {
    CompletedWithRequests(c, w, at);
    ShowKeys(w, w', at);
    ShownAlike(w, w');
    AlikeFrame(c, w, w', at);
  }

  lemma ShownAlike(w: World, w': World)
    requires LegsInv(w) && w' == Show(w)
    ensures Alike(w, w') && w'.visible == w.visible && w'.stops == w.stops
  {}
}
