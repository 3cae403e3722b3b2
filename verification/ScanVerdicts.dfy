/** What a scanner callback's body means for a file. It is read as JSON of any shape, and fails closed. */
module ScanVerdicts {
  import opened Bytes
  import opened World

  datatype Json =
    JNull | JBool(b: bool) | JNumber(n: int) | JText(text: string) | JList(items: seq<Json>)
    | JObject(fields: map<string, Json>)

  /** dict.get, with None for a missing field and for what is not an object. */
  function Get(j: Json, field: string): Option<Json> {
    if j.JObject? && field in j.fields then Some(j.fields[field]) else None
  }

  /** _verdict_kind. */
  function VerdictKind(payload: Json): Option<string> {
    var verdicts := Get(payload, "verdicts");
    var verdict := if verdicts.Some? && verdicts.value.JObject? then Get(verdicts.value, "malware") else None;
    if verdict.None? || !verdict.value.JObject? then None
    else
      var kind := Get(verdict.value, "kind");
      if kind.Some? && kind.value.JText? then Some(kind.value.text) else None
  }

  /** _status_from_payload. */
  function Status(payload: Json): ScanStatus {
    if !payload.JObject? then ScanError
    else if Get(payload, "status") == Some(JText("error")) then ScanError
    else
      match VerdictKind(payload)
      case Some("clean") => Clean
      case Some("malware") => Infected
      case Some("partial") => Unscannable
      case _ => ScanError
  }

  /** _error_kind_from_payload. */
  function Kind(payload: Json): ErrorKind {
    if Status(payload) != ScanError || !payload.JObject? then NoKind
    else if VerdictKind(payload) == Some("flagged") then FileBound
    else if Get(payload, "error_kind") == Some(JText("file")) then FileBound
    else Transient
  }

  /** The value at the end of a path of field names. */
  function At(j: Json, path: seq<string>): Option<Json> {
    if path == [] then Some(j)
    else if Get(j, path[0]).None? then None
    else At(Get(j, path[0]).value, path[1..])
  }

  const VERDICT := ["verdicts", "malware", "kind"]

  lemma VerdictKindIsAPath(payload: Json)
    ensures var found := At(payload, VERDICT);
            VerdictKind(payload) == if found.Some? && found.value.JText? then Some(found.value.text) else None
  {
    var verdicts := Get(payload, "verdicts");
    if verdicts.Some? {
      assert VERDICT[1..] == ["malware", "kind"];
      assert At(payload, VERDICT) == At(verdicts.value, ["malware", "kind"]);
      var verdict := Get(verdicts.value, "malware");
      if verdict.Some? {
        assert ["malware", "kind"][1..] == ["kind"] && ["kind"][1..] == [];
        assert At(verdicts.value, ["malware", "kind"]) == At(verdict.value, ["kind"]);
        var kind := Get(verdict.value, "kind");
        assert ["kind"][0] == "kind";
        assert At(verdict.value, ["kind"]) == if kind.Some? then At(kind.value, []) else None;
      }
    }
  }

  /**
   A file is released as CLEAN by exactly one shape of body, and called INFECTED or UNSCANNABLE by exactly one
   each.
   */
  lemma ReleasedExactly(payload: Json, word: string)
    requires word == "clean" || word == "malware" || word == "partial"
    ensures Status(payload) == (if word == "clean" then Clean else if word == "malware" then Infected else Unscannable)
            <==> At(payload, ["status"]) != Some(JText("error")) && At(payload, VERDICT) == Some(JText(word))
  {
    VerdictKindIsAPath(payload);
    assert ["status"][1..] == [];
    assert VERDICT[0] == "verdicts";
  }

  /**
   An error is blamed on the file only when the body says so, is transient in any other object, and every body
   gives a verdict the webhook may write.
   */
  lemma FileIsBlamedExactly(payload: Json)
    ensures IsVerdict(Status(payload), Kind(payload))
    ensures Kind(payload) == FileBound
            <==> Status(payload) == ScanError
                 && (At(payload, VERDICT) == Some(JText("flagged"))
                     || At(payload, ["error_kind"]) == Some(JText("file")))
    ensures Kind(payload) == Transient
            <==> Status(payload) == ScanError && payload.JObject? && Kind(payload) != FileBound
  {
    VerdictKindIsAPath(payload);
    assert ["error_kind"][1..] == [];
  }
}
