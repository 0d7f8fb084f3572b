/** Docket execution keys and Redis keys of a task (`keys.py`, and the key builders of `input_store.py`,
    `creation.py` and `context.py`). The prefix Docket puts before every Redis key is constant and left off. */
module TaskKeys {
  import opened TaskTypes
  import opened PyText
  import opened PercentCodec

  /* --------------------------------------------------------- execution keys */

  datatype Parts = Parts(scope: Option<string>, id: string, taskType: string, component: string)

  function LegExecutionKey(base: string, leg: int): string {
    if leg <= 1 then base else base + "#leg" + Decimal(leg)
  }

  function BaseTaskKey(key: string): string {
    key[..Find(key, '#')]
  }

  function LegNumberFromKey(key: string): int {
    var i := Find(key, '#');
    if i == |key| then 1
    else
      var suffix := key[i + 1..];
      PyInt(if "leg" <= suffix then suffix[3..] else suffix).GetOr(1)
  }

  const AUTH_TAG := "auth"
  const ANON_TAG := "anon"

  function Colon(a: string, b: string): (s: string)
    ensures s == a + ":" + b
  {
    a + [':'] + b
  }

  // The segments after the tag and the scope.
  function Tail(p: Parts): string {
    Colon(p.id, Colon(p.taskType, Quote(p.component)))
  }

  // The segments after the tag.
  function Body(p: Parts): string {
    match p.scope
    case None => Tail(p)
    case Some(s) => Colon(Quote(s), Tail(p))
  }

  function Tag(p: Parts): string {
    if p.scope.None? then ANON_TAG else AUTH_TAG
  }

  function BuildTaskKey(p: Parts): string {
    Colon(Tag(p), Body(p))
  }

  // Delimiters between the segments after the tag.
  const ANON_CUTS: nat := 2
  const AUTH_CUTS: nat := 3

  function ParseAnon(rest: string): Option<Parts> {
    var parts := Split(rest, ':', ANON_CUTS);
    if |parts| != 3 then None else Some(Parts(None, parts[0], parts[1], Unquote(parts[2])))
  }

  function ParseAuth(rest: string): Option<Parts> {
    var parts := Split(rest, ':', AUTH_CUTS);
    if |parts| != 4 then None else Some(Parts(Some(Unquote(parts[0])), parts[1], parts[2], Unquote(parts[3])))
  }

  function ParseTagged(tag: string, rest: string): Option<Parts> {
    if rest == "" then None
    else if tag == ANON_TAG then ParseAnon(rest)
    else if tag == AUTH_TAG then ParseAuth(rest)
    else None
  }

  /** `None` is the `ValueError` of a key that is not a task's. */
  function ParseTaskKey(key: string): Option<Parts> {
    var base := BaseTaskKey(key);
    var cut := Partition(base);
    ParseTagged(cut.0, cut.1)
  }

  // `s.partition(":")`, without the delimiter.
  function Partition(s: string): (string, string) {
    var i := Find(s, ':');
    if i < |s| then (s[..i], s[i + 1..]) else (s, "")
  }

  predicate Clean(s: string) {
    ':' !in s && '#' !in s
  }

  lemma QuotedIsClean(s: string)
    ensures Clean(Quote(s))
  {
    QuotedIsSafe(Utf8(s));
  }

  // Up to the first `#`, and what a leg suffix leaves of it.
  lemma LegKeepsBase(base: string, leg: int)
    requires '#' !in base
    ensures BaseTaskKey(LegExecutionKey(base, leg)) == base
    ensures LegNumberFromKey(LegExecutionKey(base, leg)) == if leg <= 1 then 1 else leg
  {
    var key := LegExecutionKey(base, leg);
    if leg <= 1 {
      FindIn(base, '#');
    } else {
      var suffix := "leg" + Decimal(leg);
      assert key == base + (['#'] + suffix);
      FindAfter(base, ['#'] + suffix, '#');
      assert key[|base| + 1..] == suffix && suffix[3..] == Decimal(leg);
      assert suffix[..3] == "leg";
      IntOfDecimal(leg);
    }
  }

  lemma SplitPieces(a: string, b: string, most: nat, parts: seq<string>)
    requires ':' !in a && most > 0 && Split(b, ':', most - 1) == parts
    ensures Split(Colon(a, b), ':', most) == [a] + parts
  {
    SplitPiece(a, b, ':', most);
  }

  lemma PartitionOfColon(a: string, b: string)
    requires ':' !in a
    ensures Partition(Colon(a, b)) == (a, b)
  {
    assert Colon(a, b) == a + ([':'] + b);
    FindAfter(a, [':'] + b, ':');
    assert Colon(a, b)[..|a|] == a && Colon(a, b)[|a| + 1..] == b;
  }

  lemma SplitTail(p: Parts, most: nat)
    requires ':' !in p.id && ':' !in p.taskType && most == 2
    ensures Split(Tail(p), ':', most) == [p.id, p.taskType, Quote(p.component)]
  {
    QuotedIsClean(p.component);
    var q := Quote(p.component);
    SplitLast(q, ':', most - 2);
    SplitPieces(p.taskType, q, most - 1, [q]);
    SplitPieces(p.id, Colon(p.taskType, q), most, [p.taskType] + [q]);
  }

  lemma SplitBody(scope: string, tail: string, a: string, b: string, d: string, most: nat)
    requires ':' !in scope && most > 0 && Split(tail, ':', most - 1) == [a, b, d]
    ensures Split(Colon(scope, tail), ':', most) == [scope, a, b, d]
  {
    SplitPieces(scope, tail, most, [a, b, d]);
  }

  lemma ParsesAnon(p: Parts)
    requires ':' !in p.id && ':' !in p.taskType && p.scope.None?
    ensures ParseAnon(Tail(p)) == Some(p)
  {
    SplitTail(p, ANON_CUTS);
    QuoteRoundTrip(p.component);
  }

  lemma ParsesAuth(p: Parts)
    requires ':' !in p.id && ':' !in p.taskType && p.scope.Some?
    ensures ParseAuth(Colon(Quote(p.scope.value), Tail(p))) == Some(p)
  {
    SplitTail(p, ANON_CUTS);
    QuotedIsClean(p.scope.value);
    SplitBody(Quote(p.scope.value), Tail(p), p.id, p.taskType, Quote(p.component), AUTH_CUTS);
    QuoteRoundTrip(p.scope.value);
    QuoteRoundTrip(p.component);
  }

  lemma HasBody(p: Parts)
    ensures Body(p) != "" && ':' !in Tag(p)
  {}

  lemma ParsesTagged(p: Parts)
    requires ':' !in p.id && ':' !in p.taskType
    ensures ParseTagged(Tag(p), Body(p)) == Some(p)
  {
    HasBody(p);
    assert AUTH_TAG[1] != ANON_TAG[1];
    if p.scope.None? { ParsesAnon(p); } else { ParsesAuth(p); }
  }

  lemma BaseItself(key: string)
    requires '#' !in key
    ensures BaseTaskKey(key) == key
  {}

  lemma ParsesBack(p: Parts)
    requires Clean(p.id) && Clean(p.taskType)
    ensures ParseTaskKey(BuildTaskKey(p)) == Some(p)
  {
    NoHash(p);
    BaseItself(BuildTaskKey(p));
    HasBody(p);
    PartitionOfColon(Tag(p), Body(p));
    ParsesTagged(p);
  }

  lemma NoHashJoined(a: string, b: string)
    requires '#' !in a && '#' !in b
    ensures '#' !in Colon(a, b)
  {}

  lemma NoHash(p: Parts)
    requires Clean(p.id) && Clean(p.taskType)
    ensures '#' !in BuildTaskKey(p)
  {
    QuotedIsClean(p.component);
    NoHashJoined(p.taskType, Quote(p.component));
    NoHashJoined(p.id, Colon(p.taskType, Quote(p.component)));
    if p.scope.Some? {
      QuotedIsClean(p.scope.value);
      NoHashJoined(Quote(p.scope.value), Tail(p));
    }
    NoHashJoined(Tag(p), Body(p));
  }

  /** Exactly which keys are a task's: those with a known tag and at least three segments after it, or four if a scope is
      among them, whatever follows a `#`; and a scope is read exactly from the tag `auth`. */
  lemma ParsesIff(key: string)
    ensures var base, r := BaseTaskKey(key), ParseTaskKey(key);
            && (r.Some? <==> (Tagged(base, "anon") && Count(base, ':') >= 3)
                             || (Tagged(base, "auth") && Count(base, ':') >= 4))
            && (r.Some? ==> (r.value.scope.Some? <==> Tagged(base, "auth")))
  {
    var base := BaseTaskKey(key);
    var cut := Partition(base);
    CountCut(base, ':');
    TaggedIff(cut.0, cut.1);
    TagOf(base, "anon");
    TagOf(base, "auth");
  }

  lemma TaggedIff(tag: string, rest: string)
    ensures ParseTagged(tag, rest).Some? <==>
            (tag == "anon" && Count(rest, ':') >= 2) || (tag == "auth" && Count(rest, ':') >= 3)
    ensures ParseTagged(tag, rest).Some? ==> (ParseTagged(tag, rest).value.scope.Some? <==> tag == "auth")
  {
    assert "anon"[1] != "auth"[1];
    PiecesAreCounted(rest, ':', ANON_CUTS);
    PiecesAreCounted(rest, ':', AUTH_CUTS);
  }

  // `base` starts with `tag` and a colon.
  ghost predicate Tagged(base: string, tag: string) {
    |tag| < |base| && base[..|tag|] == tag && base[|tag|] == ':'
  }

  lemma TagOf(base: string, tag: string)
    requires ':' !in tag
    ensures Find(base, ':') < |base| && Partition(base).0 == tag <==> Tagged(base, tag)
  {
    if Tagged(base, tag) {
      forall i | 0 <= i < |tag| ensures base[i] != ':' { assert base[i] == tag[i] && tag[i] in tag; }
    }
  }

  /** How the keys look when scope and component have no reserved characters. */
  lemma KeyShape(p: Parts)
    requires forall i :: 0 <= i < |p.component| ==> Plain(p.component[i])
    requires p.scope.Some? ==> forall i :: 0 <= i < |p.scope.value| ==> Plain(p.scope.value[i])
    ensures var last := p.id + ":" + (p.taskType + ":" + p.component);
            BuildTaskKey(p) == if p.scope.None? then "anon" + ":" + last else "auth" + ":" + (p.scope.value + ":" + last)
  {
    PlainQuotesItself(p.component);
    if p.scope.Some? { PlainQuotesItself(p.scope.value); }
  }

  lemma LegKeyExamples()
    ensures LegExecutionKey("t", 1) == LegExecutionKey("t", 0) == "t"
    ensures LegExecutionKey("t", 2) == "t#leg2" && LegExecutionKey("t", 12) == "t#leg12"
  {
    assert Decimal(2) == "2" && Decimal(12) == "12";
  }

  lemma SuffixIsRead(base: string, suffix: string)
    requires '#' !in base
    ensures LegNumberFromKey(base + ("#" + suffix)) == PyInt(if "leg" <= suffix then suffix[3..] else suffix).GetOr(1)
  {
    var key := base + ("#" + suffix);
    FindAfter(base, "#" + suffix, '#');
    assert key[|base| + 1..] == suffix;
  }

  /** The leg number of any key: what follows the `#`, with or without `leg` before it, and 1 if there is no `#` or that
      is not a number. */
  lemma LegNumberOfAny(base: string, suffix: string)
    requires '#' !in base
    ensures LegNumberFromKey(base) == 1
    ensures var n := LegNumberFromKey(base + ("#" + ("leg" + suffix)));
            if PyInt(suffix).Some? then n == PyInt(suffix).value else n == 1
    ensures !("leg" <= suffix) ==>
              var n := LegNumberFromKey(base + ("#" + suffix)); if PyInt(suffix).Some? then n == PyInt(suffix).value else n == 1
  {
    FindIn(base, '#');
    SuffixIsRead(base, "leg" + suffix);
    SuffixIsRead(base, suffix);
    assert ("leg" + suffix)[3..] == suffix && "leg" <= "leg" + suffix;
  }

  // A parsed id and type are pieces of the key between its delimiters.
  lemma PieceIsClean(rest: string, most: nat, k: nat)
    requires '#' !in rest && k + 1 < |Split(rest, ':', most)|
    ensures Clean(Split(rest, ':', most)[k])
  {
    PiecesAreClean(rest, ':', most, k);
    PiecesAreParts(rest, ':', most, k, '#');
  }

  lemma ParsedIsClean(key: string)
    requires ParseTaskKey(key).Some?
    ensures Clean(ParseTaskKey(key).value.id) && Clean(ParseTaskKey(key).value.taskType)
  {
    var (tag, rest) := Partition(BaseTaskKey(key));
    assert '#' !in BaseTaskKey(key);
    assert '#' !in rest;
    if tag == ANON_TAG {
      PieceIsClean(rest, ANON_CUTS, 0);
      PieceIsClean(rest, ANON_CUTS, 1);
    } else {
      PieceIsClean(rest, AUTH_CUTS, 1);
      PieceIsClean(rest, AUTH_CUTS, 2);
    }
  }

  lemma {:induction false} PiecesAreParts(s: string, ch: char, most: nat, k: nat, other: char)
    requires k < |Split(s, ch, most)| && other !in s
    ensures other !in Split(s, ch, most)[k]
    decreases most
  {
    var i := Find(s, ch);
    if most > 0 && i < |s| {
      var rest := s[i + 1..];
      if k > 0 {
        assert Split(s, ch, most)[k] == Split(rest, ch, most - 1)[k - 1];
        PiecesAreParts(rest, ch, most - 1, k - 1, other);
      }
    }
  }

  lemma ParsesAnyLeg(p: Parts, leg: int)
    requires Clean(p.id) && Clean(p.taskType)
    ensures ParseTaskKey(LegExecutionKey(BuildTaskKey(p), leg)) == Some(p)
  {
    NoHash(p);
    LegKeepsBase(BuildTaskKey(p), leg);
    LegKeepsBase(BuildTaskKey(p), 1);
    ParsesBack(p);
    SameBaseSameParts(LegExecutionKey(BuildTaskKey(p), leg), BuildTaskKey(p));
  }

  lemma SameBaseSameParts(key: string, key': string)
    requires BaseTaskKey(key) == BaseTaskKey(key')
    ensures ParseTaskKey(key) == ParseTaskKey(key')
  {}

  /** The round trip: for every scope, component and leg, the execution key of the leg parses to the original
      parts if and only if id and type contain neither `:` nor `#`. */
  lemma RoundTripIffClean(p: Parts, leg: int)
    ensures ParseTaskKey(LegExecutionKey(BuildTaskKey(p), leg)) == Some(p) <==> Clean(p.id) && Clean(p.taskType)
  {
    var key := LegExecutionKey(BuildTaskKey(p), leg);
    if Clean(p.id) && Clean(p.taskType) { ParsesAnyLeg(p, leg); }
    if ParseTaskKey(key) == Some(p) { ParsedIsClean(key); }
  }

  /** The leg number is read back, any number below 2 standing for leg 1, and every leg parses to the same task. */
  lemma LegReadsBack(p: Parts, leg: int)
    requires Clean(p.id) && Clean(p.taskType)
    ensures LegNumberFromKey(LegExecutionKey(BuildTaskKey(p), leg)) == if leg <= 1 then 1 else leg
    ensures BaseTaskKey(LegExecutionKey(BuildTaskKey(p), leg)) == BuildTaskKey(p)
  {
    NoHash(p);
    LegKeepsBase(BuildTaskKey(p), leg);
  }

  /** Two legs share an execution key exactly when both are the same leg of the same task. */
  lemma ExecutionKeysApart(p: Parts, m: nat, q: Parts, n: nat)
    requires Clean(p.id) && Clean(p.taskType) && Clean(q.id) && Clean(q.taskType) && m > 0 && n > 0
    ensures LegExecutionKey(BuildTaskKey(p), m) == LegExecutionKey(BuildTaskKey(q), n) <==> p == q && m == n
  {
    if LegExecutionKey(BuildTaskKey(p), m) == LegExecutionKey(BuildTaskKey(q), n) {
      RoundTripIffClean(p, m);
      RoundTripIffClean(q, n);
      LegReadsBack(p, m);
      LegReadsBack(q, n);
    }
  }

  /* -------------------------------------------------------------- Redis keys */

  const ROOT := "fastmcp:task:"

  function RedisPrefix(scope: Option<string>): string {
    match scope
    case None => ROOT + "anon"
    case Some(s) => ROOT + "auth" + ":" + Quote(s)
  }

  // Everything the protocol keeps for one task.
  datatype Field =
    | Meta | CreatedAt | PollInterval | Args | CurrentLeg | LegNumber | RequestState | InputResponses
    | RequestsOf(leg: nat) | MapOf(leg: nat) | Cancelled | UpdateLock | Snapshot

  function Suffix(f: Field): string {
    match f
    case Meta => ""
    case CreatedAt => ":" + "created_at"
    case PollInterval => ":" + "poll_interval"
    case Args => ":" + "args"
    case CurrentLeg => ":" + "current_leg"
    case LegNumber => ":" + "leg"
    case RequestState => ":" + "request_state"
    case InputResponses => ":" + "input_responses"
    case RequestsOf(n) => ":" + "input" + ":" + Decimal(n) + ":" + "requests"
    case MapOf(n) => ":" + "input" + ":" + Decimal(n) + ":" + "map"
    case Cancelled => ":" + "cancelled"
    case UpdateLock => ":" + "update_lock"
    case Snapshot => ":" + "snapshot"
  }

  function RedisKey(scope: Option<string>, id: string, f: Field): string {
    RedisPrefix(scope) + ":" + id + Suffix(f)
  }

  // The same key, less its root, as a list of segments.
  function Join(parts: seq<string>): string {
    if parts == [] then "" else if |parts| == 1 then parts[0] else parts[0] + ":" + Join(parts[1..])
  }

  function FieldParts(f: Field): seq<string> {
    match f
    case Meta => []
    case CreatedAt => ["created_at"]
    case PollInterval => ["poll_interval"]
    case Args => ["args"]
    case CurrentLeg => ["current_leg"]
    case LegNumber => ["leg"]
    case RequestState => ["request_state"]
    case InputResponses => ["input_responses"]
    case RequestsOf(n) => ["input", Decimal(n), "requests"]
    case MapOf(n) => ["input", Decimal(n), "map"]
    case Cancelled => ["cancelled"]
    case UpdateLock => ["update_lock"]
    case Snapshot => ["snapshot"]
  }

  function ScopeParts(scope: Option<string>): seq<string> {
    match scope
    case None => ["anon"]
    case Some(s) => ["auth", Quote(s)]
  }

  ghost predicate ColonFree(parts: seq<string>) {
    forall i :: 0 <= i < |parts| ==> ':' !in parts[i]
  }

  lemma {:induction false} JoinConcat(a: seq<string>, b: seq<string>)
    requires a != []
    ensures Join(a + b) == Join(a) + if b == [] then "" else ":" + Join(b)
    decreases |a|
  {
    if |a| == 1 {
      assert a + b == [a[0]] + b && (a + b)[1..] == b;
    } else {
      assert (a + b)[0] == a[0] && (a + b)[1..] == a[1..] + b;
      JoinConcat(a[1..], b);
    }
  }

  lemma {:induction false} JoinIsInjective(a: seq<string>, b: seq<string>)
    requires ColonFree(a) && ColonFree(b) && a != [] && b != [] && Join(a) == Join(b)
    ensures a == b
    decreases |a|
  {
    FirstPiece(a);
    FirstPiece(b);
    if |a| > 1 && |b| > 1 {
      assert Join(a)[|a[0]| + 1..] == Join(a[1..]) && Join(b)[|b[0]| + 1..] == Join(b[1..]);
      JoinIsInjective(a[1..], b[1..]);
      assert a == [a[0]] + a[1..] && b == [b[0]] + b[1..];
    }
  }

  lemma FirstPiece(a: seq<string>)
    requires ColonFree(a) && a != []
    ensures Find(Join(a), ':') == |a[0]| && Join(a)[..|a[0]|] == a[0]
    ensures |Join(a)| == |a[0]| <==> |a| == 1
  {
    if |a| == 1 {
      FindIn(a[0], ':');
    } else {
      assert Join(a) == a[0] + ([':'] + Join(a[1..]));
      FindAfter(a[0], [':'] + Join(a[1..]), ':');
    }
  }

  lemma Join2(a: string, b: string)
    ensures Join([a, b]) == a + ":" + b
  {}

  lemma Join3(a: string, b: string, d: string)
    ensures Join([a, b, d]) == a + ":" + b + ":" + d
  {
    assert [a, b, d][1..] == [b, d];
    Join2(b, d);
  }

  lemma ScopeJoins(scope: Option<string>)
    ensures RedisPrefix(scope) == ROOT + Join(ScopeParts(scope))
  {}

  lemma FieldJoins(f: Field)
    ensures Suffix(f) == if FieldParts(f) == [] then "" else ":" + Join(FieldParts(f))
  {
    if f.RequestsOf? {
      Join3("input", Decimal(f.leg), "requests");
      Reassociate("input", Decimal(f.leg), "requests");
    }
    if f.MapOf? {
      Join3("input", Decimal(f.leg), "map");
      Reassociate("input", Decimal(f.leg), "map");
    }
  }

  lemma Reassociate(a: string, b: string, d: string)
    ensures ":" + a + ":" + b + ":" + d == ":" + (a + ":" + b + ":" + d)
  {}

  lemma Glue(root: string, scope: string, id: string, tail: string)
    ensures root + scope + ":" + id + tail == root + (scope + (":" + id) + tail)
  {}

  lemma JoinParts(a: seq<string>, id: string, b: seq<string>, tail: string)
    requires a != [] && tail == if b == [] then "" else ":" + Join(b)
    ensures Join(a + [id] + b) == Join(a) + (":" + id) + tail
  {
    JoinConcat(a + [id], b);
    JoinConcat(a, [id]);
  }

  lemma KeyIsJoined(scope: Option<string>, id: string, f: Field)
    ensures RedisKey(scope, id, f) == ROOT + Join(ScopeParts(scope) + [id] + FieldParts(f))
  {
    ScopeJoins(scope);
    FieldJoins(f);
    JoinParts(ScopeParts(scope), id, FieldParts(f), Suffix(f));
    Glue(ROOT, Join(ScopeParts(scope)), id, Suffix(f));
  }

  lemma PartsAreColonFree(scope: Option<string>, id: string, f: Field)
    requires ':' !in id
    ensures ColonFree(ScopeParts(scope) + [id] + FieldParts(f))
  {
    if scope.Some? { QuotedIsClean(scope.value); }
    assert ColonFree(FieldParts(f));
    assert ColonFree(ScopeParts(scope));
  }

  lemma FieldsApart(f: Field, g: Field)
    requires FieldParts(f) == FieldParts(g)
    ensures f == g
  {
    assert |FieldParts(f)| == |FieldParts(g)|;
    if |FieldParts(f)| == 3 {
      assert FieldParts(f)[1] == FieldParts(g)[1] && FieldParts(f)[2] == FieldParts(g)[2];
      IntOfDecimal(f.leg);
      IntOfDecimal(g.leg);
    } else if |FieldParts(f)| == 1 {
      assert FieldParts(f)[0] == FieldParts(g)[0];
    }
  }

  /** Every key names one scope, one task and one field: nothing is shared between tasks, between the
      authenticated and the anonymous keyspace, or between the fields and legs of one task. */
  lemma RedisKeysApart(scope: Option<string>, id: string, f: Field, scope': Option<string>, id': string, f': Field)
    requires ':' !in id && ':' !in id'
    requires RedisKey(scope, id, f) == RedisKey(scope', id', f')
    ensures scope == scope' && id == id' && f == f'
  {
    var a, b := ScopeParts(scope) + [id] + FieldParts(f), ScopeParts(scope') + [id'] + FieldParts(f');
    KeyIsJoined(scope, id, f);
    KeyIsJoined(scope', id', f');
    PartsAreColonFree(scope, id, f);
    PartsAreColonFree(scope', id', f');
    assert (ROOT + Join(a))[|ROOT|..] == Join(a) && (ROOT + Join(b))[|ROOT|..] == Join(b);
    JoinIsInjective(a, b);
    SegmentsAgree(scope, id, f, scope', id', f');
  }

  lemma SegmentsAgree(scope: Option<string>, id: string, f: Field, scope': Option<string>, id': string, f': Field)
    requires ScopeParts(scope) + [id] + FieldParts(f) == ScopeParts(scope') + [id'] + FieldParts(f')
    ensures scope == scope' && id == id' && f == f'
  {
    var a, b := ScopeParts(scope) + [id] + FieldParts(f), ScopeParts(scope') + [id'] + FieldParts(f');
    assert a[0] == b[0] && ("anon"[1] != "auth"[1]);
    var n := |ScopeParts(scope)|;
    assert a[n] == id && b[n] == id' && a[n + 1..] == FieldParts(f) && b[n + 1..] == FieldParts(f');
    if scope.Some? {
      assert a[1] == Quote(scope.value) && b[1] == Quote(scope'.value);
      QuoteIsInjective(scope.value, scope'.value);
    }
    FieldsApart(f, f');
  }

  /* ------------------------------------------------------- non-interference */

  type Redis<V> = map<string, V>

  ghost function Read<V>(r: Redis<V>, scope: Option<string>, id: string, f: Field): Option<V> {
    var k := RedisKey(scope, id, f);
    if k in r then Some(r[k]) else None
  }

  /** A Redis command of the server: it names one field of one task through the key builders, and turns what is
      stored there, or nothing, into something else, or nothing. Every read, write, deletion and expiry is one. */
  datatype Command<!V> = Command(scope: Option<string>, id: string, field: Field, change: Option<V> -> Option<V>)

  function Exec<V>(r: Redis<V>, cmd: Command<V>): Redis<V> {
    var k := RedisKey(cmd.scope, cmd.id, cmd.field);
    match cmd.change(if k in r then Some(r[k]) else None)
    case None => r - {k}
    case Some(v) => r[k := v]
  }

  function ExecAll<V>(r: Redis<V>, cmds: seq<Command<V>>): Redis<V> {
    if cmds == [] then r else Exec(ExecAll(r, cmds[..|cmds| - 1]), cmds[|cmds| - 1])
  }

  // The commands of one task among those of all.
  function Own<V>(cmds: seq<Command<V>>, scope: Option<string>, id: string): seq<Command<V>> {
    if cmds == [] then []
    else
      var n := |cmds| - 1;
      Own(cmds[..n], scope, id) + if cmds[n].scope == scope && cmds[n].id == id then [cmds[n]] else []
  }

  // One command, seen from one field of one task.
  lemma ExecSeen<V>(r: Redis<V>, cmd: Command<V>, scope: Option<string>, id: string, f: Field)
    requires ':' !in id && ':' !in cmd.id
    ensures Read(Exec(r, cmd), scope, id, f) ==
            if (cmd.scope, cmd.id, cmd.field) == (scope, id, f) then cmd.change(Read(r, scope, id, f))
            else Read(r, scope, id, f)
  {
    if RedisKey(cmd.scope, cmd.id, cmd.field) == RedisKey(scope, id, f) {
      RedisKeysApart(cmd.scope, cmd.id, cmd.field, scope, id, f);
    }
  }

  // One command keeps two stores alike for a field, the second leaving out what is not the task's own.
  lemma ExecAlike<V>(r: Redis<V>, own: Redis<V>, cmd: Command<V>, scope: Option<string>, id: string, f: Field)
    requires ':' !in id && ':' !in cmd.id && Read(r, scope, id, f) == Read(own, scope, id, f)
    ensures Read(Exec(r, cmd), scope, id, f) ==
            Read(if cmd.scope == scope && cmd.id == id then Exec(own, cmd) else own, scope, id, f)
  {
    ExecSeen(r, cmd, scope, id, f);
    if cmd.scope == scope && cmd.id == id { ExecSeen(own, cmd, scope, id, f); }
  }

  lemma OwnStep<V>(r: Redis<V>, cmds: seq<Command<V>>, scope: Option<string>, id: string)
    requires cmds != []
    ensures var n := |cmds| - 1;
            var own := ExecAll(r, Own(cmds[..n], scope, id));
            ExecAll(r, Own(cmds, scope, id)) ==
            if cmds[n].scope == scope && cmds[n].id == id then Exec(own, cmds[n]) else own
  {
    var n := |cmds| - 1;
    var own := Own(cmds[..n], scope, id);
    assert (own + [cmds[n]])[..|own|] == own && own + [] == own;
  }

  /** Tasks do not interfere: after any commands of any tasks in any order, every field of a task is what its own
      commands alone would have made of it, whichever tasks are anonymous and however alike their names are. */
  lemma {:induction false} NoInterference<V>(r: Redis<V>, cmds: seq<Command<V>>, scope: Option<string>, id: string, f: Field)
    requires ':' !in id && forall i :: 0 <= i < |cmds| ==> ':' !in cmds[i].id
    ensures Read(ExecAll(r, cmds), scope, id, f) == Read(ExecAll(r, Own(cmds, scope, id)), scope, id, f)
  {
    if cmds != [] {
      var n := |cmds| - 1;
      NoInterference(r, cmds[..n], scope, id, f);
      ExecAlike(ExecAll(r, cmds[..n]), ExecAll(r, Own(cmds[..n], scope, id)), cmds[n], scope, id, f);
      OwnStep(r, cmds, scope, id);
    }
  }

  // The alphabet of `secrets.token_urlsafe` (RFC 4648, section 5).
  predicate UrlSafe(s: string) {
    forall i :: 0 <= i < |s| ==>
      'a' <= s[i] <= 'z' || 'A' <= s[i] <= 'Z' || '0' <= s[i] <= '9' || s[i] == '-' || s[i] == '_'
  }

  /** Server-generated ids and the "tool" type are always clean, so the codec is exact for every task. */
  lemma TokensAreClean(id: string, scope: Option<string>, component: string, leg: int)
    requires UrlSafe(id)
    ensures var p := Parts(scope, id, "tool", component);
            ParseTaskKey(LegExecutionKey(BuildTaskKey(p), leg)) == Some(p) && ':' !in id
  {
    assert Clean("tool");
    ParsesAnyLeg(Parts(scope, id, "tool", component), leg);
  }
}
