/** What `translate_responses` makes of a payload: which answers it takes, and when it refuses all of them. */
module TaskAnswers {
  import opened TaskTypes
  import opened TaskProtocol

  // Entry `i` names an outstanding key.
  ghost predicate Recognized(outstanding: map<SurfacedKey, Request>, mapping: map<SurfacedKey, ToolKey>, p: Payload, i: int) {
    0 <= i < |p| && p[i].0 in outstanding && p[i].0 in mapping
  }

  // What entry `i` is validated into, by the wire method of the request it answers.
  ghost function Validated(c: Config, outstanding: map<SurfacedKey, Request>, p: Payload, i: int): Option<Answer>
    requires 0 <= i < |p| && p[i].0 in outstanding
  {
    var methodName, raw := outstanding[p[i].0].methodName, p[i].1;
    if methodName == Some("sampling/createMessage") then c.validate(CreateMessage, raw)
    else if methodName == Some("roots/list") then c.validate(ListRoots, raw)
    else c.validate(Elicit, raw)
  }

  ghost predicate FailsAt(c: Config, outstanding: map<SurfacedKey, Request>, mapping: map<SurfacedKey, ToolKey>,
                          p: Payload, i: int) {
    Recognized(outstanding, mapping, p, i) && Validated(c, outstanding, p, i).None?
  }

  /** The payload is refused as a whole if and only if the answer to some outstanding key does not validate. */
  lemma {:induction false} InvalidIffAnyFails(c: Config, outstanding: map<SurfacedKey, Request>,
                                              mapping: map<SurfacedKey, ToolKey>, p: Payload)
    ensures Translate(c, outstanding, mapping, p).Invalid? <==> exists i :: FailsAt(c, outstanding, mapping, p, i)
  {
    if p != [] {
      var n := |p| - 1;
      InvalidIffAnyFails(c, outstanding, mapping, p[..n]);
      forall i | 0 <= i < n
        ensures FailsAt(c, outstanding, mapping, p, i) <==> FailsAt(c, outstanding, mapping, p[..n], i) {}
      if FailsAt(c, outstanding, mapping, p, n) {
        assert Translate(c, outstanding, mapping, p).Invalid?;
      }
      if i :| FailsAt(c, outstanding, mapping, p[..n], i) {
        assert FailsAt(c, outstanding, mapping, p, i);
      }
    }
  }

  /** Entry `i` is the one that answers `tool`: the last to do so. */
  ghost predicate AnsweredBy(c: Config, outstanding: map<SurfacedKey, Request>, mapping: map<SurfacedKey, ToolKey>,
                             p: Payload, i: int, tool: ToolKey, a: Answer) {
    && Recognized(outstanding, mapping, p, i) && mapping[p[i].0] == tool && Validated(c, outstanding, p, i) == Some(a)
    && forall j :: i < j < |p| && Recognized(outstanding, mapping, p, j) ==> mapping[p[j].0] != tool
  }

  /** Every answer stored comes from the last entry for its tool key, validated into the result class its request
      asks for. */
  lemma {:induction false} AnswersComeFrom(c: Config, outstanding: map<SurfacedKey, Request>,
                                           mapping: map<SurfacedKey, ToolKey>, p: Payload, tool: ToolKey)
    returns (i: int)
    requires var t := Translate(c, outstanding, mapping, p); t.Translated? && tool in t.answers
    ensures AnsweredBy(c, outstanding, mapping, p, i, tool, Translate(c, outstanding, mapping, p).answers[tool])
  {
    var n := |p| - 1;
    if Recognized(outstanding, mapping, p, n) && mapping[p[n].0] == tool {
      i := n;
    } else {
      i := AnswersComeFrom(c, outstanding, mapping, p[..n], tool);
      forall j | i < j < |p| && Recognized(outstanding, mapping, p, j) ensures mapping[p[j].0] != tool {
        if j < n { assert Recognized(outstanding, mapping, p[..n], j); }
      }
    }
  }

  /** A payload whose answers to elicitations all validate as elicitation results, and that answers nothing else, is
      taken. */
  lemma ElicitationsAreTaken(c: Config, outstanding: map<SurfacedKey, Request>, mapping: map<SurfacedKey, ToolKey>, p: Payload)
    requires forall i :: Recognized(outstanding, mapping, p, i) ==>
               IsElicitation(outstanding[p[i].0]) && c.validate(Elicit, p[i].1).Some?
    ensures Translate(c, outstanding, mapping, p).Translated?
  {
    InvalidIffAnyFails(c, outstanding, mapping, p);
  }
}
