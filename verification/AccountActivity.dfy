/** Recent account activity, kept in a bounded deque or in an SQL table (`account_activity.py`). */
module AccountActivity {
  import opened TaskTypes
  import opened PyText

  const MAX_ITEMS := 200
  const ANONYMOUS := "unknown"

  // A stored row; `metadata` is its JSON text.
  datatype Event = Event(id: nat, createdAt: real, username: string, kind: string, title: string, detail: string,
                         metadata: Json)

  // `username.strip() or "unknown"`
  function StoredName(username: string): (name: string)
    ensures name != ""
  {
    if Strip(username) == "" then ANONYMOUS else Strip(username)
  }

  /** A stored name is the given one without the whitespace around it; one that is nothing but whitespace is unknown. */
  lemma StoredNameMeans(username: string) returns (before: string, name: string, after: string)
    ensures username == before + name + after && AllSpace(before) && AllSpace(after) && Stripped(name)
    ensures StoredName(username) == if name == "" then "unknown" else name
  {
    before, after := StripCutsEnds(username);
    name := Strip(username);
  }

  function Cap(limit: int): (cap: nat)
    ensures 1 <= limit <= 200 ==> cap == limit
    ensures limit < 1 ==> cap == 1
    ensures limit > 200 ==> cap == 200
  {
    var low := if limit < 1 then 1 else limit;
    if low > MAX_ITEMS then MAX_ITEMS else low
  }

  function Take<T>(s: seq<T>, n: nat): seq<T> {
    if |s| <= n then s else s[..n]
  }

  // The rows of one user, in their order.
  function OfUser(rows: seq<Event>, name: string): seq<Event> {
    if rows == [] then []
    else
      var n := |rows| - 1;
      OfUser(rows[..n], name) + if rows[n].username == name then [rows[n]] else []
  }

  /** The SQL query over the whole table, given newest first: the user's rows by descending id, at most `cap`. */
  function Query(log: seq<Event>, name: string, cap: nat): seq<Event> {
    Take(OfUser(log, name), cap)
  }

  ghost predicate Descending(rows: seq<Event>) {
    forall i, j :: 0 <= i < j < |rows| ==> rows[i].id > rows[j].id
  }

  lemma {:induction false} OfUserMeans(rows: seq<Event>, name: string)
    ensures forall e :: e in OfUser(rows, name) <==> e in rows && e.username == name
  {
    if rows != [] {
      var n := |rows| - 1;
      OfUserMeans(rows[..n], name);
      assert rows == rows[..n] + [rows[n]];
    }
  }

  lemma {:induction false} OfUserDescends(rows: seq<Event>, name: string)
    requires Descending(rows)
    ensures Descending(OfUser(rows, name))
  {
    if rows != [] {
      var n := |rows| - 1;
      var front := OfUser(rows[..n], name);
      OfUserDescends(rows[..n], name);
      OfUserMeans(rows[..n], name);
      forall k | 0 <= k < |front| ensures front[k].id > rows[n].id { assert front[k] in rows[..n]; }
    }
  }

  lemma {:induction false} OfUserConcat(a: seq<Event>, b: seq<Event>, name: string)
    ensures OfUser(a + b, name) == OfUser(a, name) + OfUser(b, name)
    decreases |b|
  {
    if b == [] {
      assert a + b == a;
    } else {
      var m := |b| - 1;
      assert (a + b)[..|a| + m] == a + b[..m] && (a + b)[|a| + m] == b[m];
      OfUserConcat(a, b[..m], name);
    }
  }

  /** The deque answers a prefix of what the table answers, and the same if and only if the last 200 events hold
      `cap` rows of the user, or all there are. */
  lemma RecentIsPrefix(log: seq<Event>, name: string, cap: nat)
    ensures var kept := Take(log, MAX_ITEMS);
            && Query(kept, name, cap) <= Query(log, name, cap)
            && (Query(kept, name, cap) == Query(log, name, cap)
                <==> |OfUser(kept, name)| >= cap || |OfUser(kept, name)| == |OfUser(log, name)|)
  {
    var kept := Take(log, MAX_ITEMS);
    if |log| > MAX_ITEMS {
      assert log == kept + log[MAX_ITEMS..];
      OfUserConcat(kept, log[MAX_ITEMS..], name);
    }
  }

  /** In particular the two agree while at most 200 events exist. */
  lemma RecentIsQuery(log: seq<Event>, name: string, cap: nat)
    requires |log| <= 200 || |OfUser(Take(log, 200), name)| >= cap
    ensures Query(Take(log, MAX_ITEMS), name, cap) == Query(log, name, cap)
  {
    RecentIsPrefix(log, name, cap);
  }

  // Whether a prefix of the user's rows is all that is wanted can be told from its rows.
  lemma PrefixIsAll(log: seq<Event>, name: string, cap: nat, out: seq<Event>)
    requires Descending(log) && out <= OfUser(log, name) && |out| <= cap
    ensures out == Query(log, name, cap) <==> |out| == cap || forall e :: e in log && e.username == name ==> e in out
  {
    var all := OfUser(log, name);
    OfUserMeans(log, name);
    OfUserDescends(log, name);
    if |out| < cap && |out| < |all| {
      assert all[|out|] in all;
      assert all[|out|] !in out;
    }
  }

  class ActivityStore {
    // `deque(maxlen=200)`, newest first, and the id counter.
    var memory: seq<Event>
    var memSeq: nat
    // Everything ever appended, newest first: the rows the table would hold.
    ghost var log: seq<Event>

    ghost predicate Valid()
      reads this
    {
      && memory == Take(log, MAX_ITEMS) && memSeq == |log|
      && (forall i :: 0 <= i < |log| ==> log[i].id == |log| - i && log[i].username != "")
    }

    constructor ()
      ensures Valid() && log == []
    {
      memory, memSeq, log := [], 0, [];
    }

    method Append(username: string, kind: string, title: string, detail: string, metadata: Json, now: real)
      requires Valid()
      modifies this
      ensures Valid()
      ensures log == [Event(|old(log)| + 1, now, StoredName(username), kind, title, detail, metadata)] + old(log)
    {
      memSeq := memSeq + 1;
      var row := Event(memSeq, now, StoredName(username), kind, title, detail, metadata);
      // `appendleft` on a full deque drops the row at the other end
      memory := [row] + (if |memory| == MAX_ITEMS then memory[..MAX_ITEMS - 1] else memory);
      log := [row] + log;
    }

    /** What the deque reports is a prefix of what the table would report over the whole history, with strictly
        decreasing ids; it is all of it exactly when the last 200 events hold `cap` rows of the user or all of
        them. A blank user name gets nothing. */
    method ListRecent(username: string, limit: int) returns (out: seq<Event>)
      requires Valid()
      ensures Strip(username) == "" ==> out == []
      ensures Strip(username) != "" ==>
                var name, cap := Strip(username), Cap(limit);
                && out == Query(memory, name, cap) <= Query(log, name, cap)
                && (out == Query(log, name, cap) <==> |out| == cap || forall e :: e in log && e.username == name ==> e in out)
                && (forall e :: e in out ==> e in memory && e.username == name)
      ensures Descending(out) && |out| <= Cap(limit)
    {
      var name := Strip(username);
      if name == "" { return []; }
      var cap := Cap(limit);
      var rows := [];
      for i := 0 to |memory|
        invariant rows == OfUser(memory[..i], name)
      {
        assert memory[..i + 1][..i] == memory[..i];
        if memory[i].username == name { rows := rows + [memory[i]]; }
      }
      assert memory[..|memory|] == memory;
      out := Take(rows, cap);
      Recent(name, cap, out);
    }

    lemma Recent(name: string, cap: nat, out: seq<Event>)
      requires Valid() && out == Query(memory, name, cap)
      ensures out <= Query(log, name, cap) && Descending(out) && |out| <= cap
      ensures out == Query(log, name, cap) <==> |out| == cap || forall e :: e in log && e.username == name ==> e in out
      ensures forall e :: e in out ==> e in memory && e.username == name
    {
      RecentIsPrefix(log, name, cap);
      PrefixIsAll(log, name, cap, out);
      OfUserMeans(memory, name);
      OfUserDescends(memory, name);
    }
  }
}
