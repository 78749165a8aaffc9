/**
 * The back-end chat agent's own logic: the interaction row it logs from the
 * fields the language model extracted, the follow-up suggestions it reads
 * out of the model's reply, the reply text it sends back, the edit tool
 * that patches a stored interaction, and the agent state its two graph
 * steps fill in. The language model's output is an arbitrary input string
 * and a database row is a map from column name to value.
 */
module Agent {
  import opened Wrappers
  import opened Json
  import Text
  import Py

  /** A stored interaction: column name to value. */
  type Row = map<string, Value>

  /** The columns of the `interactions` table, the attributes an interaction row has. */
  const InteractionColumns: set<string> := {
    "id", "hcp_id", "interaction_type", "sentiment", "topics", "outcomes",
    "follow_up_actions", "attendees", "materials", "samples", "created_at", "updated_at"
  }

  /** The eight fields the logging tool takes from the extraction. */
  const ExtractedFields: set<string> := {
    "interaction_type", "sentiment", "topics", "outcomes",
    "follow_up_actions", "attendees", "materials", "samples"
  }

  const NotFound := "Interaction not found"

  const ReplyPrefix := "Logged. Follow-ups: "

  /** The characters `strip("- ")` removes: dashes and spaces. */
  const BulletChars: set<char> := {'-', ' '}

  // ---------------------------------------------------------------------
  // Logging an interaction from the extraction
  // ---------------------------------------------------------------------

  /**
   * The interaction the logging tool inserts: `hcp_id` from the agent
   * state and each of the eight fields from the extraction, `null` where
   * the extraction lacks the key or where there is no extraction at all
   * (`state.get("extracted") or {}`). The database adds `id` and the
   * timestamps.
   */
  function NewInteraction(hcpId: int, extracted: Option<map<string, Value>>): (row: Row)
    ensures row.Keys == ExtractedFields + {"hcp_id"}
    ensures row.Keys <= InteractionColumns
    ensures row["hcp_id"] == Num(hcpId)
    ensures forall f :: f in ExtractedFields ==>
      row[f] == (if extracted.Some? && f in extracted.value then extracted.value[f] else Null)
  {
    var e := if extracted.Some? then extracted.value else map[];
    map f | f in ExtractedFields + {"hcp_id"} :: if f == "hcp_id" then Num(hcpId) else if f in e then e[f] else Null
  }

  /** Keys of the extraction other than the eight fields play no part in the logged row. */
  lemma NewInteractionIgnoresOtherKeys(hcpId: int, extracted: map<string, Value>)
    ensures NewInteraction(hcpId, Some(extracted))
         == NewInteraction(hcpId, Some(map f | f in extracted && f in ExtractedFields :: extracted[f]))
  {
  }

  /** Without an extraction every field is logged as `null`, as with an empty one. */
  lemma NewInteractionWithoutExtraction(hcpId: int)
    ensures NewInteraction(hcpId, None) == NewInteraction(hcpId, Some(map[]))
    ensures forall f :: f in ExtractedFields ==> NewInteraction(hcpId, None)[f] == Null
  {
  }

  // ---------------------------------------------------------------------
  // Follow-up suggestions and the reply
  // ---------------------------------------------------------------------

  /** `line.strip("- ").strip()`: one line of the model's reply as a suggestion. */
  function CleanSuggestion(line: string): (suggestion: string)
    ensures Text.IsStripped(suggestion, Py.Whitespace)
  {
    Py.Strip(Text.Strip(line, BulletChars))
  }

  /** A line that `line.strip()` leaves empty, which the comprehension skips. */
  predicate IsBlank(line: string)
  {
    Py.Strip(line) == ""
  }

  /**
   * The comprehension over the lines of the reply: one suggestion per
   * non-blank line, in line order.
   */
  function SuggestionsFromLines(lines: seq<string>): (suggestions: seq<string>)
    ensures |suggestions| <= |lines|
    ensures forall k :: 0 <= k < |suggestions| ==> Text.IsStripped(suggestions[k], Py.Whitespace)
  {
    if lines == [] then []
    else
      var rest := SuggestionsFromLines(lines[1..]);
      if IsBlank(lines[0]) then rest else [CleanSuggestion(lines[0])] + rest
  }

  /** A suggestion taken from a single line stays within that line. */
  lemma {:induction false} SuggestionsWithinLines(lines: seq<string>)
    requires forall k :: 0 <= k < |lines| ==> Py.NoLineBoundary(lines[k])
    ensures forall k :: 0 <= k < |SuggestionsFromLines(lines)| ==> Py.NoLineBoundary(SuggestionsFromLines(lines)[k])
  {
    if lines != [] {
      assert Py.NoLineBoundary(lines[0]);
      SuggestionsWithinLines(lines[1..]);
      if !IsBlank(lines[0]) {
        Py.StripKeepsNoLineBoundary(lines[0], BulletChars);
        Py.StripKeepsNoLineBoundary(Text.Strip(lines[0], BulletChars), Py.Whitespace);
      }
    }
  }

  /**
   * The suggestions the agent reads out of the model's reply: each one
   * lies within one line, has no surrounding whitespace, and there are at
   * most as many suggestions as lines.
   */
  function ParseSuggestions(reply: string): (suggestions: seq<string>)
    ensures |suggestions| <= |Py.SplitLines(reply)|
    ensures forall k :: 0 <= k < |suggestions| ==>
      Text.IsStripped(suggestions[k], Py.Whitespace) && Py.NoLineBoundary(suggestions[k])
  {
    SuggestionsWithinLines(Py.SplitLines(reply));
    SuggestionsFromLines(Py.SplitLines(reply))
  }

  /** The comprehension distributes over concatenation: suggestions keep the order of their lines. */
  lemma {:induction false} SuggestionsFromLinesAppend(xs: seq<string>, ys: seq<string>)
    ensures SuggestionsFromLines(xs + ys) == SuggestionsFromLines(xs) + SuggestionsFromLines(ys)
  {
    if xs == [] {
      assert xs + ys == ys;
    } else {
      assert (xs + ys)[0] == xs[0];
      assert (xs + ys)[1..] == xs[1..] + ys;
      SuggestionsFromLinesAppend(xs[1..], ys);
    }
  }

  /**
   * The first line of the reply contributes its cleaned text in front of
   * the rest's suggestions when it is not blank, and nothing when it is.
   */
  lemma {:induction false} ParseSuggestionsFirstLine(line: string, rest: string)
    requires Py.NoLineBoundary(line)
    ensures ParseSuggestions(line + "\n" + rest)
         == (if IsBlank(line) then [] else [CleanSuggestion(line)]) + ParseSuggestions(rest)
  {
    Py.SplitLinesCons(line, rest);
    SuggestionsFromLinesAppend([line], Py.SplitLines(rest));
  }

  /** For a reply made of line-feed-terminated lines, the suggestions are those of its lines. */
  lemma {:induction false} ParseSuggestionsOfLines(ls: seq<string>)
    requires forall k :: 0 <= k < |ls| ==> Py.NoLineBoundary(ls[k])
    ensures ParseSuggestions(Py.Terminated(ls)) == SuggestionsFromLines(ls)
  {
    Py.SplitLinesTerminated(ls);
  }

  /**
   * A line made only of dashes is not blank, so it is kept, and stripping
   * dashes and spaces leaves it empty: it becomes the suggestion `""`.
   */
  lemma {:induction false} DashLineGivesEmptySuggestion(line: string)
    requires line != [] && Text.AllIn(line, {'-'})
    ensures ParseSuggestions(line) == [""]
  {
    assert line[0] !in Py.Whitespace;
    assert !IsBlank(line);
    assert Py.NoLineBoundary(line);
    assert Py.LineEnd(line) == |line|;
    assert Py.SplitLines(line) == [line];
    assert Text.AllIn(line, BulletChars);
    assert Text.Strip(line, BulletChars) == "";
    assert Text.AllIn("", Py.Whitespace);
  }

  /**
   * The reply the agent returns: the fixed prefix, then the suggestions
   * joined with `"; "`; exactly the prefix when there are none.
   */
  function ReplyText(suggestions: seq<string>): (reply: string)
    ensures |ReplyPrefix| <= |reply| && reply[..|ReplyPrefix|] == ReplyPrefix
    ensures suggestions == [] ==> reply == ReplyPrefix
    ensures |suggestions| == 1 ==> reply == ReplyPrefix + suggestions[0]
  {
    ReplyPrefix + Py.Join("; ", suggestions)
  }

  /**
   * Every suggestion appears in the reply, after the prefix, at its place
   * in the list, followed by `"; "` unless it is the last one.
   */
  lemma {:induction false} ReplyListsSuggestions(suggestions: seq<string>, k: nat)
    requires k < |suggestions|
    ensures var o := |ReplyPrefix| + Py.Offset("; ", suggestions, k); var r := ReplyText(suggestions);
      o + |suggestions[k]| <= |r| && r[o..o + |suggestions[k]|] == suggestions[k]
      && (k + 1 < |suggestions| ==>
            o + |suggestions[k]| + 2 <= |r| && r[o + |suggestions[k]|..o + |suggestions[k]| + 2] == "; ")
  {
    var o := Py.Offset("; ", suggestions, k);
    var n := |suggestions[k]|;
    Py.JoinAt("; ", suggestions, k);
    Py.SliceShift(ReplyPrefix, Py.Join("; ", suggestions), o, o + n);
    if k + 1 < |suggestions| {
      Py.SliceShift(ReplyPrefix, Py.Join("; ", suggestions), o + n, o + n + 2);
    }
  }

  /** One more suggestion extends the reply by `"; "` and that suggestion. */
  lemma ReplyTextSnoc(suggestions: seq<string>, s: string)
    requires suggestions != []
    ensures ReplyText(suggestions + [s]) == ReplyText(suggestions) + "; " + s
  {
    Py.JoinSnoc("; ", suggestions, s);
  }

  // ---------------------------------------------------------------------
  // Editing a stored interaction
  // ---------------------------------------------------------------------

  /**
   * The edit tool's loop over the patch: every patch key the row has as an
   * attribute takes the patch's value; unknown keys are ignored and every
   * other attribute keeps its value.
   */
  method ApplyPatch(row: Row, patch: map<string, Value>) returns (updated: Row)
    ensures updated.Keys == row.Keys
    ensures forall c :: c in row && c in patch ==> updated[c] == patch[c]
    ensures forall c :: c in row && c !in patch ==> updated[c] == row[c]
  {
    updated := row;
    var todo := patch.Keys;
    while todo != {}
      invariant todo <= patch.Keys
      invariant updated.Keys == row.Keys
      invariant forall c :: c in row && c in patch && c !in todo ==> updated[c] == patch[c]
      invariant forall c :: c in row && (c !in patch || c in todo) ==> updated[c] == row[c]
      decreases todo
    {
      var k :| k in todo;
      if k in updated {
        updated := updated[k := patch[k]];
      }
      todo := todo - {k};
    }
  }

  /**
   * The edit tool: an id with no stored interaction fails with "Interaction
   * not found" and changes nothing; otherwise that interaction is patched
   * and every other one is left as it was.
   */
  method EditInteraction(rows: map<int, Row>, interactionId: int, patch: map<string, Value>)
    returns (result: Result<map<int, Row>, string>)
    ensures interactionId !in rows <==> result == Failure(NotFound)
    ensures result.Success? ==>
      result.value.Keys == rows.Keys && forall id :: id in rows && id != interactionId ==> result.value[id] == rows[id]
    ensures result.Success? ==> var before, after := rows[interactionId], result.value[interactionId];
      after.Keys == before.Keys
      && (forall c :: c in before && c in patch ==> after[c] == patch[c])
      && (forall c :: c in before && c !in patch ==> after[c] == before[c])
  {
    if interactionId !in rows {
      return Failure(NotFound);
    }
    var updated := ApplyPatch(rows[interactionId], patch);
    result := Success(rows[interactionId := updated]);
  }

  // ---------------------------------------------------------------------
  // Tool results: dictionaries from key to value
  // ---------------------------------------------------------------------

  /** The JSON array of the given strings. */
  function TextArray(xs: seq<string>): (v: Value)
    ensures v.Arr? && |v.items| == |xs|
    ensures forall k :: 0 <= k < |xs| ==> v.items[k] == Str(xs[k])
  {
    Arr(seq(|xs|, k requires 0 <= k < |xs| => Str(xs[k])))
  }

  /** The strings among the items of a JSON array, in order. */
  function TextsOf(items: seq<Value>): (xs: seq<string>)
    ensures |xs| <= |items|
  {
    if items == [] then []
    else (if items[0].Str? then [items[0].s] else []) + TextsOf(items[1..])
  }

  /** Reading back the array of some strings gives exactly those strings. */
  lemma {:induction false} TextsOfTextArray(xs: seq<string>)
    ensures TextsOf(TextArray(xs).items) == xs
  {
    if xs != [] {
      assert TextArray(xs).items[1..] == TextArray(xs[1..]).items;
      TextsOfTextArray(xs[1..]);
    }
  }

  /** `result.get(key, [])` read as a list of strings: empty when the key is absent. */
  function GetTexts(result: map<string, Value>, key: string): (xs: seq<string>)
    ensures key !in result ==> xs == []
  {
    if key in result && result[key].Arr? then TextsOf(result[key].items) else []
  }

  /** `result.get(key)` read as an interaction id: `None` exactly when the key holds no integer, in particular when it is absent. */
  function GetId(result: map<string, Value>, key: string): (id: Option<int>)
    ensures id.Some? <==> key in result && result[key].Num?
    ensures id.Some? ==> result[key] == Num(id.value)
  {
    if key in result && result[key].Num? then Some(result[key].n) else None
  }

  /** What the logging tool returns, as far as the graph could read it: the new id under `interaction_id`. */
  function LogToolResult(newId: int): (result: map<string, Value>)
    ensures GetId(result, "interaction_id") == Some(newId)
  {
    map["interaction_id" := Num(newId)]
  }

  /** What the suggestion tool returns: its suggestions under `suggested_followups`, and no other key. */
  function SuggestionToolResult(suggestions: seq<string>): (result: map<string, Value>)
    ensures result.Keys == {"suggested_followups"}
    ensures GetTexts(result, "suggested_followups") == suggestions
    ensures GetId(result, "interaction_id") == None
  {
    TextsOfTextArray(suggestions);
    map["suggested_followups" := TextArray(suggestions)]
  }

  // ---------------------------------------------------------------------
  // The agent state and its two graph steps
  // ---------------------------------------------------------------------

  /** The state dictionary the chat graph threads through its steps. */
  class AgentState {
    var message: string
    var hcpId: int
    var interactionId: Option<int>
    var extracted: Option<map<string, Value>>
    var reply: Option<string>
    var suggestedFollowups: seq<string>

    /** The state a chat turn starts from: only the message and the HCP id are set. */
    constructor (message: string, hcpId: int)
      ensures this.message == message && this.hcpId == hcpId
      ensures interactionId == None && extracted == None && reply == None && suggestedFollowups == []
    {
      this.message := message;
      this.hcpId := hcpId;
      interactionId := None;
      extracted := None;
      reply := None;
      suggestedFollowups := [];
    }

    /** The ingest step: stores what the model extracted from the message (`{}` when its output did not parse). */
    method Ingest(extraction: map<string, Value>)
      modifies this
      ensures extracted == Some(extraction)
      ensures message == old(message) && hcpId == old(hcpId) && interactionId == old(interactionId)
      ensures reply == old(reply) && suggestedFollowups == old(suggestedFollowups)
    {
      extracted := Some(extraction);
    }

    /**
     * The log-and-generate step as written: it logs the interaction (the
     * database gives it `newId`), reads the suggestions out of `llmReply`
     * and builds the reply. The logging tool's result, which holds the new
     * id, is discarded; `interaction_id` is looked up in the suggestion
     * tool's result, which has no such key, so it ends up `None`.
     */
    method LogAndGenerate(newId: int, llmReply: string) returns (logged: Row)
      modifies this
      ensures logged == NewInteraction(old(hcpId), old(extracted))["id" := Num(newId)]
      ensures logged["id"] == Num(newId) && interactionId == None
      ensures suggestedFollowups == ParseSuggestions(llmReply)
      ensures reply == Some(ReplyText(suggestedFollowups))
      ensures message == old(message) && hcpId == old(hcpId) && extracted == old(extracted)
    {
      logged := NewInteraction(hcpId, extracted)["id" := Num(newId)];
      var _ := LogToolResult(newId);
      var result := SuggestionToolResult(ParseSuggestions(llmReply));
      suggestedFollowups := GetTexts(result, "suggested_followups");
      interactionId := GetId(result, "interaction_id");
      reply := Some(ReplyText(suggestedFollowups));
    }

    /**
     * The log-and-generate step as evidently intended: `interaction_id` is
     * read from the logging tool's result, so the state reports the id of
     * the interaction just logged.
     */
    method LogAndGenerateIntended(newId: int, llmReply: string) returns (logged: Row)
      modifies this
      ensures logged == NewInteraction(old(hcpId), old(extracted))["id" := Num(newId)]
      ensures interactionId == Some(newId) && logged["id"] == Num(newId)
      ensures suggestedFollowups == ParseSuggestions(llmReply)
      ensures reply == Some(ReplyText(suggestedFollowups))
      ensures message == old(message) && hcpId == old(hcpId) && extracted == old(extracted)
    {
      logged := NewInteraction(hcpId, extracted)["id" := Num(newId)];
      var logResult := LogToolResult(newId);
      var result := SuggestionToolResult(ParseSuggestions(llmReply));
      suggestedFollowups := GetTexts(result, "suggested_followups");
      interactionId := GetId(logResult, "interaction_id");
      reply := Some(ReplyText(suggestedFollowups));
    }
  }
}
