# HCP interaction logging: store, page and chat agent

The system is a small CRM in which a field representative logs interactions
with healthcare professionals (HCPs). There are two ways in:

- a structured form;
- a chat message, which a language-model agent turns into a logged
  interaction plus follow-up suggestions.

A separate tool then patches a stored interaction.

The project models the logic of four parts of the system:

- **The interaction draft store** (`InteractionDraft`, file `draft_store.dfy`).
  - Its state record is a class, `DraftStore`. The fields hold the form, the
    chat transcript and draft, the tool trace, the AI suggestions, `saving`,
    the last interaction id and the error.
  - Each synchronous reducer is a method that updates those fields in place,
    and so is each pending, fulfilled and rejected transition of the form,
    chat and edit flows.
  - Every method states the whole new state through a `State()` snapshot.
    It also appends the action it performed to a ghost `history`.
  - The invariant `Valid()` states two things: a stored error is never the
    empty string, and the tool trace, which nothing in the store ever fills,
    stays empty.
  - The pure parts are functions with their own contracts:
    - the field update, with its commutation and last-write-wins laws;
    - the index filter used by the remove reducers;
    - the `||` fallback chains that produce the rejection message;
    - the `interaction_id || null` of the chat flow.
- **The HCP directory store** (`HcpDirectory`, file `hcp_store.dfy`). It is a
  class with `items`, `loading` and `error`, plus the three transitions of
  the fetch. `FetchHcps` runs one fetch to the end for a given outcome.
- **The logging page** (`LogInteractionPage`, file `page.dfy`).
  - The HCP lookup, the three buttons' enablement and the edit patch built
    from three text inputs.
  - The form, chat and edit handlers. Each is modelled as the sequence of
    store actions it dispatches, with the request's outcome given as a
    parameter.
- **The back-end chat agent** (`Agent`, file `agent.dfy`).
  - The row the logging tool inserts from the extracted fields.
  - The suggestions read out of the model's reply: `splitlines` of the raw
    reply, then drop the lines that are blank after `strip()`, then
    `strip("- ")` and `strip()` each remaining line.
  - The reply text `"Logged. Follow-ups: " + "; ".join(...)`.
  - The edit tool: the not-found error, and a patch loop that sets only the
    attributes the row has.
  - The tools' results as dictionaries from key to JSON value, read with
    `dict.get` semantics.
  - The agent state class, updated by the ingest step and the
    log-and-generate step.

Supporting modules model the language built-ins the code relies on:

- `Text` (file `text.dfy`): stripping a set of characters from both ends.
- `Js` (file `js.dfy`): ECMAScript `trim`, truthiness and the
  `a || b || fallback` chain.
- `Py` (file `py.dfy`): Python's `strip`, `splitlines` and `join`.
- `Wrappers`, `Json` and `Api` hold the shared datatypes. `Api.Outcome` is
  the fulfilled or rejected result of a request. `Api.RequestFailure`
  carries the server's `detail` and the error's `message`.

Network requests, the database and the language model are not executed.
What they return is passed in as parameters:

- the outcome of a request;
- the id the database assigns;
- the model's reply text;
- the extraction map.

The current date is a parameter as well.

## Model

| member | source | states |
|---|---|---|
| Js.FirstTruthy | frontend/src/store/logInteractionSlice.ts:85 | `a \|\| b \|\| fallback` yields the first truthy candidate, or the fallback when none is truthy; the result is never empty when the fallback is not |
| Js.Trim | frontend/src/pages/LogInteractionPage.tsx:76 | the trimmed text has no ECMAScript whitespace or line terminator at either end, and is empty exactly when the input consists of such characters only |
| Text.Strip | backend/app/agent/graph.py:82 | stripping leaves no character of the set at either end, and gives the empty string exactly when every character is in the set |
| Text.StripRemovesOnlyEnds | backend/app/agent/graph.py:82 | the strip is a contiguous part of the string preceded and followed only by characters of the set |
| Text.StrippedIsFixed | backend/app/agent/graph.py:82 | a string with no character of the set at either end is its own strip |
| Text.StripIdempotent | backend/app/agent/graph.py:82 | stripping twice is the same as stripping once |
| Py.Strip | backend/app/agent/graph.py:82 | `str.strip()` leaves no Python whitespace at either end, and is empty exactly for all-whitespace input |
| Py.SplitLines | backend/app/agent/graph.py:82 | `str.splitlines()` gives lines that contain no line boundary, and no lines exactly for the empty string |
| Py.SplitLinesCons | backend/app/agent/graph.py:82 | a boundary-free line followed by `"\n"` is split off as the first line, in front of the lines of the rest |
| Py.SplitLinesTerminated | backend/app/agent/graph.py:82 | splitting the `"\n"`-terminated concatenation of boundary-free lines gives back exactly those lines (round trip) |
| Py.Join | backend/app/agent/graph.py:110 | joining no strings gives `""`; joining one gives that string |
| Py.JoinSnoc | backend/app/agent/graph.py:110 | joining one more string appends the separator and that string |
| Py.JoinAt | backend/app/agent/graph.py:110 | each joined string sits at its offset in the result, followed by the separator unless it is the last |
| Py.StripKeepsNoLineBoundary | backend/app/agent/graph.py:82 | stripping a string without a line boundary leaves a string without a line boundary |
| InteractionDraft.WithField | frontend/src/store/logInteractionSlice.ts:108-111 | `setFormField` sets the named text field to the value and keeps every other field, the HCP id and both lists |
| InteractionDraft.FormExtensionality | frontend/src/store/logInteractionSlice.ts:108-111 | two forms that agree on every text field, the HCP id and the lists are the same form |
| InteractionDraft.WithFieldCommutes | frontend/src/store/logInteractionSlice.ts:108-111 | setting two different fields gives the same form in either order |
| InteractionDraft.WithFieldLastWins | frontend/src/store/logInteractionSlice.ts:108-111 | setting a field twice keeps only the second value |
| InteractionDraft.WithoutIndex | frontend/src/store/logInteractionSlice.ts:127-129 | the index filter removes exactly the element at a valid position, and returns the list unchanged for an out-of-range index |
| InteractionDraft.RejectReason | frontend/src/store/logInteractionSlice.ts:66-102 | the stored rejection message is `detail` when truthy, then (chat and edit only) the error's `message` when truthy, then "Submission failed", "Chat failed" or "Edit failed"; never empty |
| InteractionDraft.ChatInteractionId | frontend/src/store/logInteractionSlice.ts:157 | `interaction_id \|\| null` keeps the id exactly when it is present and nonzero |
| InteractionDraft.DraftStore.constructor | frontend/src/store/logInteractionSlice.ts:44-64 | the initial state: empty form dated today, empty chat, empty trace and suggestions, not saving, no id, no error |
| InteractionDraft.DraftStore.SetFormField | frontend/src/store/logInteractionSlice.ts:108-111 | only the named form field changes |
| InteractionDraft.DraftStore.SetHcpId | frontend/src/store/logInteractionSlice.ts:112-114 | only the form's HCP id changes |
| InteractionDraft.DraftStore.SetChatDraft | frontend/src/store/logInteractionSlice.ts:115-117 | only the chat draft changes |
| InteractionDraft.DraftStore.AppendChatMessage | frontend/src/store/logInteractionSlice.ts:118-120 | the message is appended to the transcript and nothing else changes |
| InteractionDraft.DraftStore.ClearToolTrace | frontend/src/store/logInteractionSlice.ts:121-123 | the tool trace becomes empty and nothing else changes |
| InteractionDraft.DraftStore.AddMaterial | frontend/src/store/logInteractionSlice.ts:124-126 | the material is appended to the form's materials and nothing else changes |
| InteractionDraft.DraftStore.RemoveMaterial | frontend/src/store/logInteractionSlice.ts:127-129 | the materials lose the element at the index (if any) and nothing else changes |
| InteractionDraft.DraftStore.AddSample | frontend/src/store/logInteractionSlice.ts:130-132 | the sample is appended to the form's samples and nothing else changes |
| InteractionDraft.DraftStore.RemoveSample | frontend/src/store/logInteractionSlice.ts:133-135 | the samples lose the element at the index (if any) and nothing else changes |
| InteractionDraft.DraftStore.Pending | frontend/src/store/logInteractionSlice.ts:139-142 | any flow's pending transition sets `saving` and clears the error, and nothing else changes |
| InteractionDraft.DraftStore.FormFulfilled | frontend/src/store/logInteractionSlice.ts:143-146 | a successful form submission clears `saving` and records the new id; nothing else changes |
| InteractionDraft.DraftStore.ChatFulfilled | frontend/src/store/logInteractionSlice.ts:155-159 | a successful chat turn clears `saving`, overwrites the last id with the response's id or none, and stores its suggestions or `[]` |
| InteractionDraft.DraftStore.EditFulfilled | frontend/src/store/logInteractionSlice.ts:168-170 | a successful edit only clears `saving` |
| InteractionDraft.DraftStore.Rejected | frontend/src/store/logInteractionSlice.ts:147-150 | any flow's rejection clears `saving` and stores the non-empty rejection message of that flow |
| HcpDirectory.FetchErrorText | frontend/src/store/hcpsSlice.ts:44 | the stored fetch error is the failure's message when truthy, otherwise "Failed to fetch HCPs"; never empty |
| HcpDirectory.HcpStore.constructor | frontend/src/store/hcpsSlice.ts:17-21 | no HCPs, not loading, no error |
| HcpDirectory.HcpStore.Pending | frontend/src/store/hcpsSlice.ts:34-37 | loading starts, the error is cleared, the list is kept |
| HcpDirectory.HcpStore.Fulfilled | frontend/src/store/hcpsSlice.ts:38-41 | loading stops and the list is replaced by the payload; the error is left as it is |
| HcpDirectory.HcpStore.Rejected | frontend/src/store/hcpsSlice.ts:42-45 | loading stops, the list is kept, and the non-empty fetch error is stored |
| HcpDirectory.FetchHcps | frontend/src/store/hcpsSlice.ts:23-45 | after one fetch, loading is over; a success leaves the fetched list and no error, a failure the old list and an error |
| LogInteractionPage.SelectedHcp | frontend/src/pages/LogInteractionPage.tsx:54-57 | the selected HCP is one of the list with the form's HCP id, and there is none exactly when no HCP has that id |
| LogInteractionPage.SelectedHcpIsFirstMatch | frontend/src/pages/LogInteractionPage.tsx:55 | among HCPs sharing the id, the first one is selected |
| LogInteractionPage.IdButtonEnabled | frontend/src/pages/LogInteractionPage.tsx:242 | the form's Log button (with the HCP id), like the Run Edit Tool button at line 384 (with the last interaction id), is enabled exactly when a nonzero id is set and nothing is saving |
| LogInteractionPage.ChatLogEnabled | frontend/src/pages/LogInteractionPage.tsx:310 | the chat's Log button is enabled exactly when nothing is saving |
| LogInteractionPage.BuildEditPatch | frontend/src/pages/LogInteractionPage.tsx:387-390 | the patch has a key for each input whose trimmed text is non-empty, holding that trimmed text, and no other key; every key is an interaction column |
| LogInteractionPage.OnSubmitForm | frontend/src/pages/LogInteractionPage.tsx:69-73 | run only while the Log button is enabled (an HCP chosen, nothing saving): the trace is cleared, the form is submitted as it stands, so it always names an HCP, and the store ends in the fulfilled or rejected state of the form flow, with the three actions in order |
| LogInteractionPage.OnSubmitChat | frontend/src/pages/LogInteractionPage.tsx:75-81 | run only while the chat's Log button is enabled (nothing saving): a draft that trims to nothing changes nothing; otherwise the trimmed message is appended, the draft emptied, that message sent with the form's HCP id, and the chat flow settled, in this order |
| LogInteractionPage.OnRunEdit | frontend/src/pages/LogInteractionPage.tsx:384-392 | run only while nothing is saving: without a truthy last id nothing is sent; otherwise the built patch is sent for that id and the edit flow settled |
| LogInteractionPage.ChatForgetsFormId | frontend/src/store/logInteractionSlice.ts:157 | after a form submission stored an id, a chat turn whose response has no id leaves the Run Edit Tool button disabled |
| Agent.NewInteraction | backend/app/agent/graph.py:57-69 | the logged row has `hcp_id` and the eight extracted fields, each from the extraction or `null`; every key is an interaction column |
| Agent.NewInteractionIgnoresOtherKeys | backend/app/agent/graph.py:59-69 | keys of the extraction other than the eight fields do not affect the row |
| Agent.NewInteractionWithoutExtraction | backend/app/agent/graph.py:58 | a missing extraction logs the same row as an empty one, with every field `null` |
| Agent.CleanSuggestion | backend/app/agent/graph.py:82 | a cleaned line has no Python whitespace at either end |
| Agent.SuggestionsFromLines | backend/app/agent/graph.py:82 | at most one suggestion per line, each without surrounding whitespace |
| Agent.SuggestionsWithinLines | backend/app/agent/graph.py:82 | suggestions taken from boundary-free lines contain no line boundary |
| Agent.ParseSuggestions | backend/app/agent/graph.py:82 | no more suggestions than reply lines; each suggestion lies within one line and has no surrounding whitespace |
| Agent.SuggestionsFromLinesAppend | backend/app/agent/graph.py:82 | the comprehension distributes over concatenation, so suggestions keep their lines' order |
| Agent.ParseSuggestionsFirstLine | backend/app/agent/graph.py:82 | a reply's first line contributes its cleaned text, unless blank, in front of the rest's suggestions |
| Agent.ParseSuggestionsOfLines | backend/app/agent/graph.py:82 | a reply of `"\n"`-terminated lines yields the suggestions of exactly those lines |
| Agent.DashLineGivesEmptySuggestion | backend/app/agent/graph.py:82 | a reply that is a line of dashes yields the single suggestion `""` |
| Agent.ReplyText | backend/app/agent/graph.py:110 | the reply starts with "Logged. Follow-ups: ", is exactly that with no suggestions, and that plus the suggestion with one |
| Agent.ReplyListsSuggestions | backend/app/agent/graph.py:110 | every suggestion occurs in the reply at its place after the prefix, followed by `"; "` unless it is the last |
| Agent.ReplyTextSnoc | backend/app/agent/graph.py:110 | one more suggestion extends the reply by `"; "` and that suggestion |
| Agent.ApplyPatch | backend/app/agent/graph.py:90-92 | the patched row has the same attributes; attributes in the patch take its values, the others keep theirs, unknown patch keys are ignored |
| Agent.EditInteraction | backend/app/agent/graph.py:86-92 | fails with "Interaction not found" exactly when the id is not stored; otherwise only that interaction changes, patched as above |
| Agent.TextArray | backend/app/agent/graph.py:84 | the suggestion list as a JSON array: one string item per suggestion, in order |
| Agent.TextsOf | backend/app/agent/graph.py:108 | reading the strings out of an array gives at most one per item |
| Agent.TextsOfTextArray | backend/app/agent/graph.py:84-108 | reading back the array of some strings gives exactly those strings (round trip) |
| Agent.GetTexts | backend/app/agent/graph.py:108 | `result.get("suggested_followups", [])` gives `[]` when the key is absent |
| Agent.GetId | backend/app/agent/graph.py:109 | `result.get("interaction_id")` gives an id exactly when the key is present and holds an integer, and that integer |
| Agent.LogToolResult | backend/app/agent/graph.py:74 | the logging tool's result holds the new interaction's id under `interaction_id` |
| Agent.SuggestionToolResult | backend/app/agent/graph.py:84 | the suggestion tool's result has only the key `suggested_followups`, which reads back as the suggestions, so `interaction_id` is absent |
| Agent.AgentState.constructor | backend/app/agent/graph.py:136 | a chat turn starts with only the message and the HCP id set |
| Agent.AgentState.Ingest | backend/app/agent/graph.py:98-103 | the extraction is stored and nothing else changes |
| Agent.AgentState.LogAndGenerate | backend/app/agent/graph.py:105-111 | as written: the logged row carries the new id, the suggestions and the reply are derived from the model's reply, and `interaction_id`, looked up in the suggestion tool's result, ends up empty |
| Agent.AgentState.LogAndGenerateIntended | backend/app/agent/graph.py:105-111 | as intended: the same, except that `interaction_id` is looked up in the logging tool's result and is the id of the interaction just logged |

## Left out

- Network requests, the async thunk machinery and overlapping requests. A handler runs its flow to the end with the outcome as a parameter, so interleavings of two flows on the shared `saving` and `error` fields are not modelled.
- The clock. The initial form's date is a parameter.
- InteractionDraft.DraftStore.SetFormField: it is modelled only for the eight free-text keys. The source's untyped `(state.form as any)[key] = value` can also overwrite `hcpId`, `materials` or `samples` with a value of any type; `SetHcpId` covers the HCP id.
- The JSON wire format between page and server: key names, camelCase against snake_case, and extra response fields such as `reply` are not modelled.
- Api.RequestFailure: `detail` and `message` are modelled as optional strings. A non-string `detail`, such as a validation error list, is not modelled.
- The database: commits, refreshes, timestamps and tool-run persistence (`_persist_tool_run`) are left out, as are the read-only lookups `tool_get_hcp_profile` and `tool_list_recent_interactions`, whose results the graph discards. The database-assigned id is a parameter.
- The language-model calls and `json.loads` of the extraction. The extraction map (`{}` on a parse failure) and the suggestion reply are parameters.
- The LangGraph wiring in `run_chat_agent` and `run_edit_agent`. The two steps are methods of `Agent.AgentState`, called in order by the caller.
- Agent.ApplyPatch: `hasattr` is modelled as "is a column of the row". Python attributes of the ORM object that are not columns, and a patch that rewrites `id`, are not modelled.
- Json.Value: numbers are integers only. Floating-point JSON numbers are not modelled; no modelled field holds one.
- Agent.GetId: a non-integer value under `interaction_id` is read as no id, whereas Python would store that value. Neither tool result holds one.
- Unicode character classes: the whitespace sets of `trim` and `str.strip` and the `splitlines` boundaries are listed explicitly. Category-based membership beyond those lists is not modelled.
- Routers, schemas, settings, the application entry points and the root Redux store (`main.py`, `config.py`, `schemas.py`, `routers/`, `App.tsx`, `store.ts`) are not part of this model.

## Findings

| source | as written | input that shows it | evidently intended | confidence | as-written member | corrected member |
|---|---|---|---|---|---|---|
| backend/app/agent/graph.py:105-111 | `log_and_generate` reads `interaction_id` from the suggestion tool's result, which only has `suggested_followups`; the logging tool's id is discarded and the chat response carries no interaction id | any chat turn: the interaction is logged with some id, yet `interaction_id` is left `None` | the state's `interaction_id` is the id of the interaction just logged, so the page can edit it | not executed | Agent.AgentState.LogAndGenerate | Agent.AgentState.LogAndGenerateIntended |
