/** The stored form of a client's answers and its way back (`store_input_responses`, `load_pending_input`). */
module AnswerStore {
  import opened TaskTypes

  // `{"type": name, "data": dump}`
  datatype Entry = Entry(typeName: string, data: Json)
  type Stored = map<ToolKey, Entry>

  // The class names that can be looked up again.
  function KindByName(name: string): Option<ResultKind> {
    if name == "ElicitResult" then Some(Elicit)
    else if name == "CreateMessageResult" then Some(CreateMessage)
    else if name == "CreateMessageResultWithTools" then Some(CreateMessageWithTools)
    else if name == "ListRootsResult" then Some(ListRoots)
    else None
  }

  function NameOf(kind: ResultKind): string {
    match kind
    case Elicit => "ElicitResult"
    case CreateMessage => "CreateMessageResult"
    case CreateMessageWithTools => "CreateMessageResultWithTools"
    case ListRoots => "ListRootsResult"
  }

  /** Pydantic, abstractly: validation into a result class and the dump of a validated result. */
  datatype Wire = Wire(validate: (ResultKind, Json) -> Option<Answer>, dump: Answer -> Json)

  ghost predicate Producible(wire: Wire, a: Answer) {
    exists kind, raw :: (wire.validate)(kind, raw) == Some(a)
  }

  /** Validation yields the class asked for, and a dumped result validates back to itself. */
  ghost predicate Faithful(wire: Wire) {
    && (forall kind, raw :: (wire.validate)(kind, raw).Some? ==> (wire.validate)(kind, raw).value.kind == kind)
    && (forall a :: Producible(wire, a) ==> (wire.validate)(a.kind, (wire.dump)(a)) == Some(a))
  }

  function Encode(wire: Wire, answers: Answers): Stored {
    map t | t in answers :: Entry(NameOf(answers[t].kind), (wire.dump)(answers[t]))
  }

  // An entry of an unknown class is skipped.
  function DecodeEntry(wire: Wire, e: Entry): Option<Answer> {
    match KindByName(e.typeName)
    case None => None
    case Some(kind) => (wire.validate)(kind, e.data)
  }

  function Decode(wire: Wire, stored: Stored): Answers {
    map t | t in stored && DecodeEntry(wire, stored[t]).Some? :: DecodeEntry(wire, stored[t]).value
  }

  ghost predicate AllProducible(wire: Wire, answers: Answers) {
    forall t :: t in answers ==> Producible(wire, answers[t])
  }

  lemma EntryRoundTrip(wire: Wire, a: Answer)
    requires Faithful(wire) && Producible(wire, a)
    ensures DecodeEntry(wire, Entry(NameOf(a.kind), (wire.dump)(a))) == Some(a)
  {}

  lemma MergeAt(wire: Wire, stored: Stored, answers: Answers, t: ToolKey)
    requires Faithful(wire) && AllProducible(wire, answers)
    ensures var l, r := Decode(wire, stored + Encode(wire, answers)), Decode(wire, stored) + answers;
            (t in l <==> t in r) && (t in l ==> l[t] == r[t])
  {
    if t in answers { EntryRoundTrip(wire, answers[t]); }
  }

  /** An answer is stored under the name of its class, and an entry of any other class is not loaded. */
  lemma StoredByClassName(wire: Wire, answers: Answers, t: ToolKey)
    requires t in answers
    ensures Encode(wire, answers)[t].data == (wire.dump)(answers[t])
    ensures var name := Encode(wire, answers)[t].typeName;
            match answers[t].kind
            case Elicit => name == "ElicitResult"
            case CreateMessage => name == "CreateMessageResult"
            case CreateMessageWithTools => name == "CreateMessageResultWithTools"
            case ListRoots => name == "ListRootsResult"
  {}

  lemma UnknownIsSkipped(wire: Wire, stored: Stored, t: ToolKey)
    requires t in Decode(wire, stored)
    ensures t in stored
    ensures stored[t].typeName in {"ElicitResult", "CreateMessageResult", "CreateMessageResultWithTools", "ListRootsResult"}
  {}

  /** Merging encoded answers into what is stored and loading it is the key-wise union, the new ones winning;
      no entry is dropped. */
  lemma MergeRoundTrip(wire: Wire, stored: Stored, answers: Answers)
    requires Faithful(wire) && AllProducible(wire, answers)
    ensures Decode(wire, stored + Encode(wire, answers)) == Decode(wire, stored) + answers
  {
    var l, r := Decode(wire, stored + Encode(wire, answers)), Decode(wire, stored) + answers;
    forall t ensures (t in l <==> t in r) && (t in l ==> l[t] == r[t]) { MergeAt(wire, stored, answers, t); }
  }

  // A leg's stored answers after a sequence of updates, from the state a park leaves.
  function StoreAll(wire: Wire, updates: seq<Answers>): Stored {
    if updates == [] then map[]
    else StoreAll(wire, updates[..|updates| - 1]) + Encode(wire, updates[|updates| - 1])
  }

  /** The answer an update sequence leaves for one tool key: that of the last update naming it. */
  ghost predicate LastWins(updates: seq<Answers>, t: ToolKey, a: Answer) {
    exists i :: 0 <= i < |updates| && t in updates[i] && updates[i][t] == a &&
                forall j :: i < j < |updates| ==> t !in updates[j]
  }

  ghost predicate Named(updates: seq<Answers>, t: ToolKey) {
    exists i :: 0 <= i < |updates| && t in updates[i]
  }

  lemma LastWinsAppend(before: seq<Answers>, last: Answers, t: ToolKey, a: Answer)
    requires if t in last then last[t] == a else LastWins(before, t, a)
    ensures LastWins(before + [last], t, a)
  {
    var all, n := before + [last], |before|;
    if t in last {
      assert all[n] == last;
    } else {
      var i :| 0 <= i < n && t in before[i] && before[i][t] == a && forall j :: i < j < n ==> t !in before[j];
      assert all[i] == before[i];
      assert forall j :: i < j < |all| ==> t !in all[j];
    }
  }

  lemma NamedAppend(before: seq<Answers>, last: Answers, t: ToolKey)
    ensures Named(before + [last], t) <==> Named(before, t) || t in last
  {
    var all, n := before + [last], |before|;
    assert all[n] == last && forall i :: 0 <= i < n ==> all[i] == before[i];
  }

  ghost predicate IsLastOf(updates: seq<Answers>, loaded: Answers) {
    && (forall t :: t in loaded <==> Named(updates, t))
    && (forall t :: t in loaded ==> LastWins(updates, t, loaded[t]))
  }

  lemma IsLastOfAppend(before: seq<Answers>, last: Answers, earlier: Answers)
    requires IsLastOf(before, earlier)
    ensures IsLastOf(before + [last], earlier + last)
  {
    var loaded := earlier + last;
    forall t ensures t in loaded <==> Named(before + [last], t) { NamedAppend(before, last, t); }
    forall t | t in loaded ensures LastWins(before + [last], t, loaded[t]) {
      LastWinsAppend(before, last, t, loaded[t]);
    }
  }

  /** What the next leg loads after any sequence of updates: for each tool key answered by some update the
      answer of the last one that did, and nothing else. */
  lemma {:induction false} LoadsLastAnswers(wire: Wire, updates: seq<Answers>)
    requires Faithful(wire) && forall i :: 0 <= i < |updates| ==> AllProducible(wire, updates[i])
    ensures IsLastOf(updates, Decode(wire, StoreAll(wire, updates)))
  {
    if updates == [] {
      assert Decode(wire, map[]) == map[];
    } else {
      var n := |updates| - 1;
      LoadsLastAnswers(wire, updates[..n]);
      MergeRoundTrip(wire, StoreAll(wire, updates[..n]), updates[n]);
      IsLastOfAppend(updates[..n], updates[n], Decode(wire, StoreAll(wire, updates[..n])));
      assert updates == updates[..n] + [updates[n]];
    }
  }

  /** `load_pending_input`, the response half: rebuild the typed answers entry by entry. */
  method LoadResponses(wire: Wire, stored: Stored) returns (answers: Answers)
    ensures answers == Decode(wire, stored)
  {
    answers := map[];
    var todo := stored.Keys;
    while todo != {}
      invariant todo <= stored.Keys
      invariant answers == map t | t in stored && t !in todo && DecodeEntry(wire, stored[t]).Some?
                             :: DecodeEntry(wire, stored[t]).value
      decreases todo
    {
      var t :| t in todo;
      match DecodeEntry(wire, stored[t]) {
        case None =>
        case Some(a) => answers := answers[t := a];
      }
      todo := todo - {t};
    }
  }
}
