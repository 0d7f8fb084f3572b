/** What a tool body sees of its submitting caller, on worker contexts that are reused from task to task
    (`restore_task_snapshot`, `_apply_snapshot_to_context`, `encryption.py`). The cipher is ideal: a token
    opens with its own key and with no other. */
module WorkerContext {
  import opened TaskTypes

  type Headers = map<string, string>

  datatype Token = Token(claims: Json, expiresAt: Option<int>)

  // `TaskContextSnapshot`; the owning tool's name and version ride along.
  datatype Snapshot = Snapshot(tokenJson: Option<Json>, headers: Option<Headers>, requestId: Option<string>,
                               session: Option<string>, tool: Option<string>, version: Option<string>)

  /** JSON and model validation, abstractly. */
  datatype Formats = Formats(text: Snapshot -> Json, parse: Json -> Option<Snapshot>, lower: string -> string,
                             lowered: Headers -> Headers, token: Json -> Option<Token>)

  const FERNET_PREFIX := "gAAAAA"

  /** Parsing inverts printing, a document opens with a brace, and lowercased names stay as they are. */
  ghost predicate Sound(f: Formats) {
    && (forall s :: f.parse(f.text(s)) == Some(s) && f.text(s) != "" && f.text(s)[0] == '{')
    && (forall h: Headers :: LowerCase(f, h) ==> f.lowered(h) == h)
  }

  ghost predicate LowerCase(f: Formats, h: Headers) {
    forall name :: name in h ==> f.lower(name) == name
  }

  /** What `capture` produces: lowercased header names, and no empty header map. */
  ghost predicate Captured(f: Formats, s: Snapshot) {
    s.headers.Some? ==> s.headers.value != map[] && LowerCase(f, s.headers.value)
  }

  function FromJson(f: Formats, text: Json): Option<Snapshot> {
    match f.parse(text)
    case None => None
    case Some(s) => Some(if s.headers.Some? then s.(headers := Some(f.lowered(s.headers.value))) else s)
  }

  /** Lowering a header map lowers all of its names. */
  ghost predicate Lowers(f: Formats) {
    forall h: Headers :: LowerCase(f, f.lowered(h))
  }

  // Whatever is read back has lower-case header names.
  lemma ReadBackIsLower(f: Formats, text: Json)
    requires Lowers(f) && FromJson(f, text).Some? && FromJson(f, text).value.headers.Some?
    ensures LowerCase(f, FromJson(f, text).value.headers.value)
  {}

  lemma SnapshotRoundTrip(f: Formats, s: Snapshot)
    requires Sound(f) && Captured(f, s)
    ensures FromJson(f, f.text(s)) == Some(s)
  {}

  /* ---------------------------------------------------------------- codecs */

  // What the backend stores under a snapshot key.
  datatype Cell = Plain(text: Json) | Sealed(key: string, text: Json)

  // No key: plaintext, which refuses anything that looks sealed. An empty key is refused before any use.
  datatype Codec = Plaintext | Encrypted(key: string) | Misconfigured

  function CodecFor(key: Option<string>): (c: Codec)
    ensures c.Plaintext? <==> key.None?
    ensures c.Misconfigured? <==> key == Some("")
    ensures c.Encrypted? ==> key == Some(c.key)
  {
    match key
    case None => Plaintext
    case Some(k) => if k == "" then Misconfigured else Encrypted(k)
  }

  function Encode(c: Codec, text: Json): Cell
    requires !c.Misconfigured?
  {
    match c case Plaintext => Plain(text) case Encrypted(k) => Sealed(k, text)
  }

  // `None` is `SnapshotDecryptionError`.
  function Decode(c: Codec, cell: Cell): Option<Json>
    requires !c.Misconfigured?
  {
    match c
    case Plaintext =>
      (match cell
       case Plain(t) => if FERNET_PREFIX <= t then None else Some(t)
       case Sealed(_, _) => None)
    case Encrypted(k) =>
      (match cell
       case Plain(_) => None
       case Sealed(k', t) => if k == k' then Some(t) else None)
  }

  /** A snapshot is readable exactly by a process with the key it was written with: neither a wrong key, nor a
      missing one, nor one set later reads it. */
  lemma ReadableBySameKey(f: Formats, writer: Codec, reader: Codec, s: Snapshot)
    requires Sound(f) && !writer.Misconfigured? && !reader.Misconfigured?
    ensures Decode(reader, Encode(writer, f.text(s))) == (if reader == writer then Some(f.text(s)) else None)
  {}

  /* ------------------------------------------------------- one task's restore */

  // What the worker finds when it looks for the snapshot.
  datatype Fetched = NoBackend | Unreachable | Missing | Got(cell: Cell)

  // One task run by a worker: its id, what was captured at its submission, what the worker finds, and the time.
  datatype Job = Job(id: string, saved: Snapshot, fetched: Fetched, now: int)

  // Everything a tool body can learn of its caller.
  datatype Ambient = Ambient(user: Option<Token>, headers: Option<Headers>, session: Option<string>)

  // `token.expires_at is None or token.expires_at >= int(time.time())`
  function Unexpired(t: Token, now: int): Option<Token> {
    if t.expiresAt.None? || t.expiresAt.value >= now then Some(t) else None
  }

  // An empty header map is installed as none.
  function HeadersOf(s: Snapshot): Option<Headers> {
    if s.headers.Some? && s.headers.value != map[] then s.headers else None
  }

  predicate TokenParses(f: Formats, s: Snapshot) {
    s.tokenJson.Some? ==> f.token(s.tokenJson.value).Some?
  }

  /** The caller of a task, as its submission recorded it and as of `now`. */
  function Caller(f: Formats, s: Snapshot, now: int): Ambient
    requires TokenParses(f, s)
  {
    Ambient(if s.tokenJson.None? then None else Unexpired(f.token(s.tokenJson.value).value, now),
            HeadersOf(s), s.session)
  }

  /** `a` shows exactly the caller recorded in `s`: the session, the headers unless there were none, and the user if a
      token was recorded that is still good at `now`, who is then this token's. */
  ghost predicate Shows(f: Formats, s: Snapshot, now: int, a: Ambient) {
    && a.session == s.session
    && a.headers.GetOr(map[]) == s.headers.GetOr(map[]) && a.headers != Some(map[])
    && (a.user.Some? ==> a.user.value.expiresAt.None? || a.user.value.expiresAt.value >= now)
    && (a.user.Some? ==> s.tokenJson.Some? && f.token(s.tokenJson.value) == a.user)
    && (s.tokenJson.Some? && f.token(s.tokenJson.value).Some? && a.user.None? ==>
          f.token(s.tokenJson.value).value.expiresAt.Some? && f.token(s.tokenJson.value).value.expiresAt.value < now)
  }

  lemma CallerShows(f: Formats, s: Snapshot, now: int)
    requires TokenParses(f, s)
    ensures Shows(f, s, now, Caller(f, s, now))
  {}

  /** Nobody else writes under this task's snapshot key with this key: what opens there is what was saved. */
  ghost predicate Genuine(f: Formats, job: Job, key: string) {
    job.fetched.Got? && job.fetched.cell.Sealed? && job.fetched.cell.key == key ==>
      job.fetched.cell.text == f.text(job.saved)
  }

  /* --------------------------------------------------------- without a key */

  // Whether a keyless worker gets to install the caller of a task, and whether it refuses to run its body.
  predicate Installs(f: Formats, job: Job) {
    job.fetched.Got? && job.fetched.cell.Plain? && !(FERNET_PREFIX <= job.fetched.cell.text)
    && FromJson(f, job.fetched.cell.text).Some? && TokenParses(f, FromJson(f, job.fetched.cell.text).value)
  }

  predicate Refused(job: Job) {
    job.fetched.Got? && (job.fetched.cell.Sealed? || FERNET_PREFIX <= job.fetched.cell.text)
  }

  function InstalledBy(f: Formats, job: Job): Ambient
    requires Installs(f, job)
  {
    Caller(f, FromJson(f, job.fetched.cell.text).value, job.now)
  }

  /** The caller the last of the first `n` tasks to install one has left, or what was there before them all. */
  function LastInstalled(f: Formats, jobs: seq<Job>, n: nat, before: Ambient): Ambient
    requires n <= |jobs|
  {
    if n == 0 then before
    else if Installs(f, jobs[n - 1]) then InstalledBy(f, jobs[n - 1])
    else LastInstalled(f, jobs, n - 1, before)
  }

  /** Without a key a body sees the caller of an earlier task, or one left over from before, if and only if its own
      snapshot could not be installed; it is then the latest earlier task whose snapshot could. */
  lemma {:induction false} InheritsIffNotInstalled(f: Formats, jobs: seq<Job>, n: nat, before: Ambient)
    returns (source: Option<nat>)
    requires n < |jobs|
    ensures source.Some? ==>
              && source.value <= n && Installs(f, jobs[source.value])
              && (forall j :: source.value < j <= n ==> !Installs(f, jobs[j]))
              && LastInstalled(f, jobs, n + 1, before) == InstalledBy(f, jobs[source.value])
              && Shows(f, FromJson(f, jobs[source.value].fetched.cell.text).value, jobs[source.value].now,
                       LastInstalled(f, jobs, n + 1, before))
    ensures source.None? ==>
              (forall j :: 0 <= j <= n ==> !Installs(f, jobs[j])) && LastInstalled(f, jobs, n + 1, before) == before
    ensures source == Some(n) <==> Installs(f, jobs[n])
  {
    if Installs(f, jobs[n]) {
      source := Some(n);
      CallerShows(f, FromJson(f, jobs[n].fetched.cell.text).value, jobs[n].now);
    } else if n == 0 {
      source := None;
      assert LastInstalled(f, jobs, 0, before) == before;
    } else {
      source := InheritsIffNotInstalled(f, jobs, n - 1, before);
    }
  }

  /** Two tasks for which that happens, whoever submitted them: the snapshot of the first is where it was put, that of
      the second is not, and the body of the second runs as the caller of the first. */
  lemma RunsAsAnother(f: Formats, first: Job, second: Job, before: Ambient)
    requires Sound(f) && Captured(f, first.saved) && TokenParses(f, first.saved)
    requires first.fetched == Got(Encode(Plaintext, f.text(first.saved))) && second.fetched == Missing
    ensures !Refused(first) && !Refused(second)
    ensures LastInstalled(f, [first, second], 2, before) == Caller(f, first.saved, first.now)
    ensures TokenParses(f, second.saved) && second.saved.session != first.saved.session ==>
              LastInstalled(f, [first, second], 2, before) != Caller(f, second.saved, second.now)
  {
    var jobs := [first, second];
    assert !Installs(f, jobs[1]);
    assert LastInstalled(f, jobs, 2, before) == LastInstalled(f, jobs, 1, before);
    SnapshotRoundTrip(f, first.saved);
    assert Installs(f, jobs[0]);
  }

  class Worker {
    const f: Formats
    const codec: Codec
    // ContextVars: the remembered snapshot, the SDK's user, the task headers and session
    var remembered: Option<(string, Snapshot)>
    var user: Option<Token>
    var headers: Option<Headers>
    var session: Option<string>

    constructor (f: Formats, key: Option<string>)
      ensures this.f == f && codec == CodecFor(key) && remembered == None && View() == Ambient(None, None, None)
    {
      this.f, codec := f, CodecFor(key);
      remembered, user, headers, session := None, None, None, None;
    }

    function View(): Ambient
      reads this
    {
      Ambient(user, headers, session)
    }

    // `_recall_snapshot`
    function Recall(id: string): Option<Snapshot>
      reads this
    {
      if remembered.Some? && remembered.value.0 == id then Some(remembered.value.1) else None
    }

    /** `_apply_snapshot_to_context`: all three variables, or none if the token does not validate. */
    method Apply(s: Snapshot, now: int) returns (ok: bool)
      modifies `user, `headers, `session
      ensures ok == TokenParses(f, s)
      ensures ok ==> View() == Caller(f, s, now) && Shows(f, s, now, View())
      ensures ok && user.Some? ==> user.value.expiresAt.None? || user.value.expiresAt.value >= now
      ensures !ok ==> View() == old(View())
    {
      if TokenParses(f, s) { CallerShows(f, s, now); }
      var who: Option<Token> := None;
      if s.tokenJson.Some? {
        var token := f.token(s.tokenJson.value);
        if token.None? { return false; }
        if token.value.expiresAt.None? || token.value.expiresAt.value >= now { who := token; }
      }
      user := who;
      headers := if s.headers.Some? && s.headers.value != map[] then s.headers else None;
      session := s.session;
      ok := true;
    }

    /** `restore_task_snapshot`. `started` is false when it raises and the body does not run. With a key configured
        the body starts exactly when everything can be recovered; without one it starts unless the snapshot turns
        out to be sealed, and the variables then hold the task's own caller or whatever they held before. */
    method Restore(job: Job) returns (started: bool)
      modifies this
      ensures codec.Misconfigured? ==> !started
      ensures codec.Encrypted? ==> (started <==> Recovered(job).Some? && TokenParses(f, Recovered(job).value))
      ensures codec.Plaintext? ==> (started <==> !(job.fetched.Got? && Decode(codec, job.fetched.cell).None?))
      ensures if Recovered(job).Some? && TokenParses(f, Recovered(job).value)
              then Shows(f, Recovered(job).value, job.now, View()) && View() == Caller(f, Recovered(job).value, job.now)
                   && Recall(job.id) == Recovered(job)
              else View() == old(View())
    {
      if codec.Misconfigured? { return false; }
      var protected := codec.Encrypted?;
      match job.fetched {
        case NoBackend => started := !protected;
        case Unreachable => started := !protected;
        case Missing => started := !protected;
        case Got(cell) =>
          var text := Decode(codec, cell);
          if text.None? { return false; }
          var s := FromJson(f, text.value);
          if s.None? { return !protected; }
          remembered := Some((job.id, s.value));
          var ok := Apply(s.value, job.now);
          started := ok || !protected;
      }
    }

    /** The snapshot the worker gets to parse, if it gets that far. */
    function Recovered(job: Job): Option<Snapshot> {
      if codec.Misconfigured? || !job.fetched.Got? then None
      else
        match Decode(codec, job.fetched.cell)
        case None => None
        case Some(text) => FromJson(f, text)
    }

    // With a key configured, what is recovered is what was saved.
    lemma RecoversSaved(job: Job)
      requires codec.Encrypted? && Sound(f) && Genuine(f, job, codec.key) && Captured(f, job.saved)
      ensures Recovered(job).Some? ==> Recovered(job).value == job.saved
      ensures Recovered(job).Some? <==> job.fetched == Got(Encode(codec, f.text(job.saved)))
    {}

    /** One worker context serving any tasks one after another. With a key configured, a body that starts sees its
        own caller and nothing of any task before it, and a body whose caller cannot be recovered in full does not
        start. Without one, a body sees the caller installed last, whoever's it is. */
    method Serve(jobs: seq<Job>) returns (seen: seq<Option<Ambient>>)
      requires codec.Encrypted? ==>
                 Sound(f) && forall i :: 0 <= i < |jobs| ==> Genuine(f, jobs[i], codec.key) && Captured(f, jobs[i].saved)
      modifies this
      ensures |seen| == |jobs|
      ensures codec.Encrypted? ==> forall i :: 0 <= i < |jobs| ==>
                (seen[i].Some? <==> jobs[i].fetched == Got(Sealed(codec.key, f.text(jobs[i].saved))) && TokenParses(f, jobs[i].saved))
      ensures codec.Encrypted? ==> forall i :: 0 <= i < |jobs| && seen[i].Some? ==>
                Shows(f, jobs[i].saved, jobs[i].now, seen[i].value)
      ensures codec.Plaintext? ==> forall i :: 0 <= i < |jobs| ==>
                seen[i] == if Refused(jobs[i]) then None else Some(LastInstalled(f, jobs, i + 1, old(View())))
      ensures codec.Misconfigured? ==> forall i :: 0 <= i < |jobs| ==> seen[i] == None
    {
      seen := [];
      for n := 0 to |jobs|
        invariant |seen| == n
        invariant codec.Encrypted? ==> forall i :: 0 <= i < n ==> seen[i] == Isolated(jobs[i])
        invariant codec.Plaintext? ==> View() == LastInstalled(f, jobs, n, old(View()))
        invariant codec.Plaintext? ==> forall i :: 0 <= i < n ==>
                    seen[i] == if Refused(jobs[i]) then None else Some(LastInstalled(f, jobs, i + 1, old(View())))
        invariant codec.Misconfigured? ==> forall i :: 0 <= i < n ==> seen[i] == None
      {
        if codec.Encrypted? { RecoversSaved(jobs[n]); }
        var started := Restore(jobs[n]);
        seen := seen + [if started then Some(View()) else None];
      }
      if codec.Encrypted? { AllShow(jobs, seen); }
    }

    lemma AllShow(jobs: seq<Job>, seen: seq<Option<Ambient>>)
      requires codec.Encrypted? && |seen| == |jobs| && forall i :: 0 <= i < |jobs| ==> seen[i] == Isolated(jobs[i])
      ensures forall i :: 0 <= i < |jobs| ==>
                (seen[i].Some? <==> jobs[i].fetched == Got(Sealed(codec.key, f.text(jobs[i].saved))) && TokenParses(f, jobs[i].saved))
      ensures forall i :: 0 <= i < |jobs| && seen[i].Some? ==> Shows(f, jobs[i].saved, jobs[i].now, seen[i].value)
    {
      forall i | 0 <= i < |jobs| && seen[i].Some? ensures Shows(f, jobs[i].saved, jobs[i].now, seen[i].value) {
        CallerShows(f, jobs[i].saved, jobs[i].now);
      }
    }

    /** What the body of a task may see, from that task alone. */
    function Isolated(job: Job): Option<Ambient>
      requires codec.Encrypted?
    {
      if job.fetched == Got(Encode(codec, f.text(job.saved))) && TokenParses(f, job.saved)
      then Some(Caller(f, job.saved, job.now)) else None
    }
  }
}
