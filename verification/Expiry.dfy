/** The lifetimes of a task's Redis keys on a logical clock in seconds: the writes of `create_task` and the refresh of
    `_lookup_task`, at one instant or spread over time. `TaskLifetime` says what becomes of a task under them. */
module Expiry {

  /* ------------------------------------------------------------- durations */

  // `int(a / b)`: Python truncates toward zero.
  function TruncDiv(a: int, b: int): int
    requires b > 0
  {
    if a >= 0 then a / b else -((-a) / b)
  }

  const BUFFER := 900

  // `create_task`: to milliseconds, back to seconds, plus the buffer; the duration is in microseconds.
  function CreationTtl(micros: int): int {
    TruncDiv(TruncDiv(micros, 1000), 1000) + BUFFER
  }

  // `_task_key_ttl_seconds`: whole seconds, plus the buffer.
  function RefreshTtl(micros: int): int {
    TruncDiv(micros, 1_000_000) + BUFFER
  }

  // How long Docket keeps an execution that has ended: whole seconds.
  function RetentionTtl(micros: int): int {
    TruncDiv(micros, 1_000_000)
  }

  // `mark_cancelled`: whole seconds, at least one, and no buffer.
  function MarkerTtl(micros: int): int {
    var s := TruncDiv(micros, 1_000_000);
    if s < 1 then 1 else s
  }

  /** A task's keys are refreshed with the lifetime they were created with, whatever the execution TTL. */
  lemma TtlsAgree(micros: int)
    ensures CreationTtl(micros) == RefreshTtl(micros)
  {}

  /** What the three lifetimes come to, for a duration of `micros` microseconds: its whole seconds, which a marker has for
      at least one, and 900 more for the keys. */
  lemma Lifetimes(micros: int)
    requires micros >= 0
    ensures var s := RetentionTtl(micros);
            && s * 1_000_000 <= micros < (s + 1) * 1_000_000
            && RefreshTtl(micros) == CreationTtl(micros) == s + 900
            && MarkerTtl(micros) >= 1 && (s >= 1 ==> MarkerTtl(micros) == s) && (s == 0 ==> MarkerTtl(micros) == 1)
  {
    TtlsAgree(micros);
  }

  /* ------------------------------------------------------------------ keys */

  datatype Key = Meta | CreatedAt | PollInterval | Args | CurrentLeg | LegNumber | Snapshot | Marker

  // The keys of a task in the order create_task writes them.
  const CREATION_ORDER := [Meta, CreatedAt, PollInterval, Args, CurrentLeg, LegNumber, Snapshot]
  // The order _lookup_task refreshes them in.
  const REFRESH_ORDER := [Meta, CreatedAt, PollInterval, CurrentLeg, LegNumber, Args, Snapshot]

  // When each key expires, if nothing is done.
  datatype Keys = Keys(now: real, exp: map<Key, real>)

  predicate Live(k: Keys, key: Key) {
    key in k.exp && k.now < k.exp[key]
  }

  // SET with EX
  function Set(k: Keys, key: Key, ttl: int): Keys {
    k.(exp := k.exp[key := k.now + ttl as real])
  }

  // EXPIRE: nothing to extend if the key is gone.
  function Expire(k: Keys, key: Key, ttl: int): Keys {
    if Live(k, key) then Set(k, key, ttl) else k
  }

  function Wait(k: Keys, d: real): Keys
    requires d >= 0.0
  {
    k.(now := k.now + d)
  }

  // One command per key, each after a wait.
  function SetAll(k: Keys, order: seq<Key>, waits: seq<real>, ttl: int): Keys
    requires |waits| == |order| && forall i :: 0 <= i < |waits| ==> waits[i] >= 0.0
    decreases |order|
  {
    if order == [] then k else SetAll(Set(Wait(k, waits[0]), order[0], ttl), order[1..], waits[1..], ttl)
  }

  function ExpireAll(k: Keys, order: seq<Key>, waits: seq<real>, ttl: int): Keys
    requires |waits| == |order| && forall i :: 0 <= i < |waits| ==> waits[i] >= 0.0
    decreases |order|
  {
    if order == [] then k else ExpireAll(Expire(Wait(k, waits[0]), order[0], ttl), order[1..], waits[1..], ttl)
  }

  function NoWaits(n: nat): (w: seq<real>)
    ensures |w| == n && forall i :: 0 <= i < n ==> w[i] >= 0.0
  {
    seq(n, i => 0.0)
  }

  // A lookup's refresh as one timed step, of every key still there but the marker. `ExpireAllNow` compares it with the
  // commands of `_lookup_task`.
  function Refresh(k: Keys, ttl: int): Keys {
    Refreshed(k, Named(REFRESH_ORDER), ttl)
  }

  function Named(order: seq<Key>): set<Key> { set key | key in order }

  function Refreshed(k: Keys, keys: set<Key>, ttl: int): Keys {
    k.(exp := map key | key in k.exp :: if key in keys && k.now < k.exp[key] then k.now + ttl as real else k.exp[key])
  }

  /* ------------------------------------------------------- the task is whole */

  ghost predicate Routes(key: Key) { key != Marker }

  /** The metadata key never outlives another key of the task, and none has more than a full lifetime left. */
  ghost predicate Kept(k: Keys, ttl: int) {
    Meta in k.exp && forall key :: Routes(key) ==> key in k.exp && k.exp[Meta] <= k.exp[key] <= k.now + ttl as real
  }

  // Keys a run of commands does not name keep their expiry; the clock does not go back.
  lemma {:induction false} SetAllOthers(k: Keys, order: seq<Key>, waits: seq<real>, ttl: int, key: Key)
    requires |waits| == |order| && (forall i :: 0 <= i < |waits| ==> waits[i] >= 0.0) && key !in order
    ensures var r := SetAll(k, order, waits, ttl);
            r.now >= k.now && (key in r.exp <==> key in k.exp) && (key in k.exp ==> r.exp[key] == k.exp[key])
    decreases |order|
  {
    if order != [] { SetAllOthers(Set(Wait(k, waits[0]), order[0], ttl), order[1..], waits[1..], ttl, key); }
  }

  // Later writes last at least as long as earlier ones.
  lemma {:induction false} SetAllLater(k: Keys, order: seq<Key>, waits: seq<real>, ttl: int, key: Key)
    requires |waits| == |order| && (forall i :: 0 <= i < |waits| ==> waits[i] >= 0.0) && key in order
    ensures var r := SetAll(k, order, waits, ttl); key in r.exp && k.now + ttl as real <= r.exp[key] <= r.now + ttl as real
    decreases |order|
  {
    var k' := Set(Wait(k, waits[0]), order[0], ttl);
    if key in order[1..] {
      SetAllLater(k', order[1..], waits[1..], ttl, key);
    } else {
      assert key == order[0];
      SetAllOthers(k', order[1..], waits[1..], ttl, key);
    }
  }

  /** However long its writes take, create_task leaves a whole task, because the metadata key is written first. */
  lemma CreationIsWhole(k: Keys, waits: seq<real>, ttl: int)
    requires |waits| == 7 && forall i :: 0 <= i < |waits| ==> waits[i] >= 0.0
    ensures Kept(SetAll(k, CREATION_ORDER, waits, ttl), ttl)
  {
    var r := SetAll(k, CREATION_ORDER, waits, ttl);
    var k1 := Set(Wait(k, waits[0]), Meta, ttl);
    var rest := CREATION_ORDER[1..];
    assert r == SetAll(k1, rest, waits[1..], ttl);
    SetAllOthers(k1, rest, waits[1..], ttl, Meta);
    forall key | Routes(key) && key != Meta ensures key in r.exp && r.exp[Meta] <= r.exp[key] <= r.now + ttl as real {
      assert key in rest by { assert rest == [CreatedAt, PollInterval, Args, CurrentLeg, LegNumber, Snapshot]; }
      SetAllLater(k1, rest, waits[1..], ttl, key);
    }
  }

  /** What a run of EXPIREs does to one of its keys: extended if it was still there at its turn, else untouched. */
  lemma {:induction false} ExpireAllEffect(k: Keys, order: seq<Key>, waits: seq<real>, ttl: int, i: nat)
    requires |waits| == |order| && (forall j :: 0 <= j < |waits| ==> waits[j] >= 0.0)
    requires i < |order| && forall j, l :: 0 <= j < l < |order| ==> order[j] != order[l]
    ensures var r, turn := ExpireAll(k, order, waits, ttl), k.now + Sum(waits[..i + 1]);
            && r.now == k.now + Sum(waits)
            && (order[i] in r.exp <==> order[i] in k.exp)
            && (order[i] in k.exp ==> r.exp[order[i]] == if turn < k.exp[order[i]] then turn + ttl as real else k.exp[order[i]])
    decreases |order|
  {
    var k' := Expire(Wait(k, waits[0]), order[0], ttl);
    SumFirst(waits, i);
    if i == 0 {
      ExpireAllOthers(k', order[1..], waits[1..], ttl, order[0]);
    } else {
      assert order[1..][i - 1] == order[i] && order[i] != order[0];
      ExpireAllEffect(k', order[1..], waits[1..], ttl, i - 1);
    }
  }

  function Sum(waits: seq<real>): real {
    if waits == [] then 0.0 else waits[0] + Sum(waits[1..])
  }

  lemma SumFirst(waits: seq<real>, i: nat)
    requires i < |waits|
    ensures Sum(waits[..i + 1]) == waits[0] + Sum(waits[1..][..i])
  {
    assert waits[..i + 1][1..] == waits[1..][..i];
  }

  lemma {:induction false} ExpireAllOthers(k: Keys, order: seq<Key>, waits: seq<real>, ttl: int, key: Key)
    requires |waits| == |order| && (forall i :: 0 <= i < |waits| ==> waits[i] >= 0.0) && key !in order
    ensures var r := ExpireAll(k, order, waits, ttl);
            r.now == k.now + Sum(waits) && (key in r.exp <==> key in k.exp) && (key in k.exp ==> r.exp[key] == k.exp[key])
    decreases |order|
  {
    if order != [] { ExpireAllOthers(Expire(Wait(k, waits[0]), order[0], ttl), order[1..], waits[1..], ttl, key); }
  }

  lemma {:induction false} NoWaitsSum(n: nat)
    ensures Sum(NoWaits(n)) == 0.0
  {
    if n > 0 {
      assert NoWaits(n)[1..] == NoWaits(n - 1);
      NoWaitsSum(n - 1);
    }
  }

  lemma RefreshedTwice(k: Keys, a: set<Key>, b: set<Key>, ttl: int)
    ensures Refreshed(Refreshed(k, a, ttl), b, ttl) == Refreshed(k, a + b, ttl)
  {}

  lemma ExpireIsRefreshed(k: Keys, key: Key, ttl: int)
    ensures Expire(Wait(k, 0.0), key, ttl) == Refreshed(k, {key}, ttl)
  {}

  /** Commands sent at one instant refresh exactly the keys they name that are still there. */
  lemma {:induction false} ExpireAllNow(k: Keys, order: seq<Key>, ttl: int)
    ensures ExpireAll(k, order, NoWaits(|order|), ttl) == Refreshed(k, Named(order), ttl)
    decreases |order|
  {
    if order == [] {
      assert Refreshed(k, {}, ttl).exp == k.exp && Named(order) == {};
    } else {
      assert NoWaits(|order|)[1..] == NoWaits(|order[1..]|);
      ExpireIsRefreshed(k, order[0], ttl);
      ExpireAllNow(Refreshed(k, {order[0]}, ttl), order[1..], ttl);
      RefreshedTwice(k, {order[0]}, Named(order[1..]), ttl);
      assert Named(order) == {order[0]} + Named(order[1..]);
    }
  }

  /** A successful lookup gives every key of the task a full lifetime, and leaves the marker alone. */
  lemma LookupRefreshes(k: Keys, ttl: int, key: Key)
    requires Kept(k, ttl) && Live(k, Meta)
    ensures var r := Refresh(k, ttl);
            && r.now == k.now
            && (Routes(key) ==> key in r.exp && r.exp[key] == k.now + ttl as real)
            && (key == Marker ==> (key in r.exp <==> key in k.exp) && (key in k.exp ==> r.exp[key] == k.exp[key]))
  {}

  /* ------------------------------------------- where the one-step view matters */

  lemma TurnDecides(k: Keys, order: seq<Key>, waits: seq<real>, ttl: int, i: nat)
    requires |waits| == |order| && (forall j :: 0 <= j < |waits| ==> waits[j] >= 0.0) && Sum(waits) < ttl as real
    requires i < |order| && forall j, l :: 0 <= j < l < |order| ==> order[j] != order[l]
    ensures Live(ExpireAll(k, order, waits, ttl), order[i]) <==>
            order[i] in k.exp && k.now + Sum(waits[..i + 1]) < k.exp[order[i]]
  {
    ExpireAllEffect(k, order, waits, ttl, i);
    PrefixSum(waits, i + 1);
  }

  /** A refresh whose commands are spread over time leaves all its keys if and only if each was still there at the
      turn of its own command. */
  lemma SplitRefresh(k: Keys, order: seq<Key>, waits: seq<real>, ttl: int)
    requires |waits| == |order| && (forall i :: 0 <= i < |waits| ==> waits[i] >= 0.0) && Sum(waits) < ttl as real
    requires forall j, l :: 0 <= j < l < |order| ==> order[j] != order[l]
    ensures (forall i :: 0 <= i < |order| ==> Live(ExpireAll(k, order, waits, ttl), order[i])) <==>
            (forall i :: 0 <= i < |order| ==> order[i] in k.exp && k.now + Sum(waits[..i + 1]) < k.exp[order[i]])
  {
    forall i: nat | i < |order|
      ensures Live(ExpireAll(k, order, waits, ttl), order[i]) <==>
              order[i] in k.exp && k.now + Sum(waits[..i + 1]) < k.exp[order[i]]
    {
      TurnDecides(k, order, waits, ttl, i);
    }
  }

  // A single wait, before the i-th command.
  function OneWait(n: nat, i: nat, d: real): (w: seq<real>)
    requires d >= 0.0
    ensures |w| == n && forall j :: 0 <= j < n ==> w[j] >= 0.0
  {
    seq(n, j => if j == i then d else 0.0)
  }

  lemma {:induction false} OneWaitSums(n: nat, i: nat, d: real)
    requires i < n && d >= 0.0
    ensures Sum(OneWait(n, i, d)) == d == Sum(OneWait(n, i, d)[..i + 1])
  {
    var w := OneWait(n, i, d);
    SumFirst(w, i);
    if i == 0 {
      assert w[1..] == NoWaits(n - 1);
      NoWaitsSum(n - 1);
      assert w[1..][..0] == [];
    } else {
      assert w[1..] == OneWait(n - 1, i - 1, d);
      OneWaitSums(n - 1, i - 1, d);
    }
  }

  /** Such a refresh can strand a task: from every task about to expire, if the clock passes the expiry of a later
      key, such as the leg pointer, after the metadata key has been extended, that key is gone and metadata is not. */
  lemma SplitRefreshStrands(k: Keys, order: seq<Key>, ttl: int, i: nat, d: real)
    requires 0 < i < |order| && 0.0 <= d < ttl as real
    requires forall j, l :: 0 <= j < l < |order| ==> order[j] != order[l]
    requires Live(k, order[0]) && Live(k, order[i]) && k.exp[order[i]] <= k.now + d
    ensures var r := ExpireAll(k, order, OneWait(|order|, i, d), ttl); Live(r, order[0]) && !Live(r, order[i])
  {
    var w := OneWait(|order|, i, d);
    OneWaitSums(|order|, i, d);
    assert Sum(w[..1]) == 0.0 by { SumFirst(w, 0); assert w[1..][..0] == []; }
    TurnDecides(k, order, w, ttl, 0);
    TurnDecides(k, order, w, ttl, i);
  }

  lemma {:induction false} PrefixSum(waits: seq<real>, n: nat)
    requires n <= |waits| && forall i :: 0 <= i < |waits| ==> waits[i] >= 0.0
    ensures 0.0 <= Sum(waits[..n]) <= Sum(waits)
  {
    if waits != [] {
      PrefixSum(waits[1..], if n == 0 then 0 else n - 1);
      if n > 0 { SumFirst(waits, n - 1); }
    }
  }

  /* ------------------------------------------------------------ the commands */

  const METADATA := [Meta, CreatedAt, PollInterval]

  lemma CreationInParts(k: Keys, waits: seq<real>, ttl: int)
    requires |waits| == 7 && forall i :: 0 <= i < |waits| ==> waits[i] >= 0.0
    ensures SetAll(k, CREATION_ORDER, waits, ttl) ==
            SetAll(SetAll(SetAll(k, METADATA, waits[..3], ttl), [Args, CurrentLeg, LegNumber], waits[3..6], ttl),
                   [Snapshot], waits[6..], ttl)
  {}

  lemma RefreshInParts(k: Keys, ttl: int)
    ensures Refresh(k, ttl) ==
            ExpireAll(ExpireAll(k, METADATA, NoWaits(3), ttl), [CurrentLeg, LegNumber, Args, Snapshot], NoWaits(4), ttl)
  {
    var rest := [CurrentLeg, LegNumber, Args, Snapshot];
    ExpireAllNow(k, METADATA, ttl);
    ExpireAllNow(Refreshed(k, Named(METADATA), ttl), rest, ttl);
    RefreshedTwice(k, Named(METADATA), Named(rest), ttl);
    assert Named(REFRESH_ORDER) == Named(METADATA) + Named(rest);
  }
}
