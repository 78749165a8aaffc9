/**
 * The non-visual logic of the interaction logging page: which HCP the form
 * shows as selected, when its three buttons are enabled, the edit patch it
 * builds, and the order in which its form, chat and edit handlers dispatch
 * to the draft store. Each handler runs its flow to the end: the pending
 * transition, then the one the request's outcome selects.
 */
module LogInteractionPage {
  import opened Wrappers
  import opened Api
  import Js
  import Agent
  import opened HcpDirectory
  import opened InteractionDraft

  /** What the chat handler posts: the trimmed message and the form's HCP id. */
  datatype ChatRequest = ChatRequest(message: string, hcpId: Option<int>)

  /** What the edit handler posts: the last interaction id and the patch. */
  datatype EditRequest = EditRequest(interactionId: int, patch: map<string, string>)

  /**
   * `hcps.find((h) => h.id === form.hcpId) || null`: an HCP of the list
   * whose id is the form's HCP id, absent exactly when no HCP has that id
   * (in particular when no HCP is chosen).
   */
  function SelectedHcp(hcps: seq<Hcp>, hcpId: Option<int>): (selected: Option<Hcp>)
    ensures selected.Some? ==> selected.value in hcps && hcpId == Some(selected.value.id)
    ensures selected.None? <==> forall k :: 0 <= k < |hcps| ==> hcpId != Some(hcps[k].id)
  {
    if hcps == [] then None
    else if hcpId == Some(hcps[0].id) then Some(hcps[0])
    else
      var rest := SelectedHcp(hcps[1..], hcpId);
      assert forall k :: 1 <= k < |hcps| ==> hcps[k] == hcps[1..][k - 1];
      rest
  }

  /** When several HCPs share the id, the first of them is the one selected. */
  lemma {:induction false} SelectedHcpIsFirstMatch(hcps: seq<Hcp>, hcpId: Option<int>, k: nat)
    requires k < |hcps| && hcpId == Some(hcps[k].id)
    requires forall j :: 0 <= j < k ==> hcpId != Some(hcps[j].id)
    ensures SelectedHcp(hcps, hcpId) == Some(hcps[k])
  {
    if k > 0 {
      assert hcpId != Some(hcps[0].id);
      SelectedHcpIsFirstMatch(hcps[1..], hcpId, k - 1);
    }
  }

  /**
   * The `disabled={!id || saving}` of the form's Log button (with the form's
   * HCP id) and of the Run Edit Tool button (with the last interaction id):
   * enabled only for a truthy id while nothing is saving.
   */
  function IdButtonEnabled(id: Option<int>, saving: bool): (enabled: bool)
    ensures enabled <==> id.Some? && id.value != 0 && !saving
  {
    !(!Js.TruthyId(id) || saving)
  }

  /** The chat's Log button (`disabled={saving}`) is enabled exactly while nothing is saving. */
  function ChatLogEnabled(saving: bool): (enabled: bool)
    ensures enabled ==> !saving
    ensures !saving ==> enabled
  {
    !saving
  }

  /**
   * The patch the edit handler builds from its three inputs: a key for each
   * input whose trimmed text is not empty, holding that trimmed text, and
   * no other key.
   */
  ghost predicate IsEditPatch(patch: map<string, string>, topics: string, outcomes: string, followUps: string)
  {
    patch.Keys <= {"topics", "outcomes", "follow_up_actions"}
    && ("topics" in patch <==> Js.Trim(topics) != "")
    && ("topics" in patch ==> patch["topics"] == Js.Trim(topics))
    && ("outcomes" in patch <==> Js.Trim(outcomes) != "")
    && ("outcomes" in patch ==> patch["outcomes"] == Js.Trim(outcomes))
    && ("follow_up_actions" in patch <==> Js.Trim(followUps) != "")
    && ("follow_up_actions" in patch ==> patch["follow_up_actions"] == Js.Trim(followUps))
  }

  /**
   * Builds the edit patch by adding the non-empty trimmed inputs one by
   * one. Every key it can hold is a column of a stored interaction, so the
   * back end's edit tool applies all of them.
   */
  method BuildEditPatch(topics: string, outcomes: string, followUps: string) returns (patch: map<string, string>)
    ensures IsEditPatch(patch, topics, outcomes, followUps)
    ensures patch.Keys <= Agent.InteractionColumns
  {
    patch := map[];
    if Js.Trim(topics) != "" {
      patch := patch["topics" := Js.Trim(topics)];
    }
    if Js.Trim(outcomes) != "" {
      patch := patch["outcomes" := Js.Trim(outcomes)];
    }
    if Js.Trim(followUps) != "" {
      patch := patch["follow_up_actions" := Js.Trim(followUps)];
    }
  }

  /**
   * The form's submit handler: it clears the tool trace, then submits the
   * form as it stands. The form and the chat are kept whatever the outcome.
   * It runs only from the form's Log button, which is disabled until an
   * HCP is chosen and while a request is saving, so the submitted form
   * always names an HCP.
   */
  method OnSubmitForm(s: DraftStore, outcome: Outcome<int>) returns (sent: Form)
    requires s.Valid()
    requires IdButtonEnabled(s.form.hcpId, s.saving)
    modifies s
    ensures s.Valid()
    ensures sent == old(s.form)
    ensures Js.TruthyId(sent.hcpId)
    ensures outcome.Fulfilled? ==>
      s.State() == old(s.State()).(toolTrace := [], saving := false, error := None,
                                   lastInteractionId := Some(outcome.payload))
      && s.history == old(s.history) + [ClearToolTrace, Pending(FormFlow), FormFulfilled(outcome.payload)]
    ensures outcome.Rejected? ==>
      var reason := RejectReason(FormFlow, outcome.failure);
      s.State() == old(s.State()).(toolTrace := [], saving := false, error := Some(reason))
      && s.history == old(s.history) + [ClearToolTrace, Pending(FormFlow), Action.Rejected(FormFlow, reason)]
  {
    s.ClearToolTrace();
    sent := s.form;
    s.Pending(FormFlow);
    match outcome
    case Fulfilled(id) => s.FormFulfilled(id);
    case Rejected(failure) => s.Rejected(FormFlow, failure);
  }

  /**
   * The chat's submit handler. A draft that trims to nothing dispatches
   * nothing. Otherwise it appends the trimmed draft as a user message,
   * empties the draft, and submits that same message with the form's HCP
   * id, in this order. It runs only from the chat's Log button, which is
   * disabled while a request is saving.
   */
  method OnSubmitChat(s: DraftStore, outcome: Outcome<ChatResponse>) returns (sent: Option<ChatRequest>)
    requires s.Valid()
    requires ChatLogEnabled(s.saving)
    modifies s
    ensures s.Valid()
    ensures Js.Trim(old(s.chat.draft)) == "" ==> sent == None && unchanged(s)
    ensures var msg := Js.Trim(old(s.chat.draft));
      msg != "" ==>
        sent == Some(ChatRequest(msg, old(s.form.hcpId)))
        && s.chat == Chat(old(s.chat.messages) + [ChatMessage(User, msg)], "")
        && s.form == old(s.form) && s.toolTrace == old(s.toolTrace) && !s.saving
    ensures Js.Trim(old(s.chat.draft)) != "" && outcome.Fulfilled? ==>
      var response := outcome.payload;
      s.lastInteractionId == ChatInteractionId(response)
      && s.aiSuggestedFollowups == (if response.suggestedFollowups.Some? then response.suggestedFollowups.value else [])
      && s.error == None
      && s.history == old(s.history) + [AppendChatMessage(ChatMessage(User, Js.Trim(old(s.chat.draft)))),
                                        SetChatDraft(""), Pending(ChatFlow), ChatFulfilled(response)]
    ensures Js.Trim(old(s.chat.draft)) != "" && outcome.Rejected? ==>
      var reason := RejectReason(ChatFlow, outcome.failure);
      s.lastInteractionId == old(s.lastInteractionId)
      && s.aiSuggestedFollowups == old(s.aiSuggestedFollowups)
      && s.error == Some(reason)
      && s.history == old(s.history) + [AppendChatMessage(ChatMessage(User, Js.Trim(old(s.chat.draft)))),
                                        SetChatDraft(""), Pending(ChatFlow), Action.Rejected(ChatFlow, reason)]
  {
    var msg := Js.Trim(s.chat.draft);
    if msg == "" {
      return None;
    }
    s.AppendChatMessage(ChatMessage(User, msg));
    s.SetChatDraft("");
    sent := Some(ChatRequest(msg, s.form.hcpId));
    s.Pending(ChatFlow);
    match outcome
    case Fulfilled(response) => s.ChatFulfilled(response);
    case Rejected(failure) => s.Rejected(ChatFlow, failure);
  }

  /**
   * The Run Edit Tool handler. Without a truthy last interaction id it
   * dispatches nothing. Otherwise it submits the patch built from its
   * inputs for that id; a success changes only `saving`. It runs only from
   * the Run Edit Tool button, which is disabled while a request is saving;
   * the handler keeps its own guard against a missing id.
   */
  method OnRunEdit(s: DraftStore, topics: string, outcomes: string, followUps: string, outcome: Outcome<()>)
    returns (sent: Option<EditRequest>)
    requires s.Valid()
    requires !s.saving
    modifies s
    ensures s.Valid()
    ensures !Js.TruthyId(old(s.lastInteractionId)) ==> sent == None && unchanged(s)
    ensures Js.TruthyId(old(s.lastInteractionId)) ==>
      sent.Some? && sent.value.interactionId == old(s.lastInteractionId).value
      && IsEditPatch(sent.value.patch, topics, outcomes, followUps)
    ensures Js.TruthyId(old(s.lastInteractionId)) && outcome.Fulfilled? ==>
      s.State() == old(s.State()).(saving := false, error := None)
      && s.history == old(s.history) + [Pending(EditFlow), EditFulfilled]
    ensures Js.TruthyId(old(s.lastInteractionId)) && outcome.Rejected? ==>
      var reason := RejectReason(EditFlow, outcome.failure);
      s.State() == old(s.State()).(saving := false, error := Some(reason))
      && s.history == old(s.history) + [Pending(EditFlow), Action.Rejected(EditFlow, reason)]
  {
    if !Js.TruthyId(s.lastInteractionId) {
      return None;
    }
    var patch := BuildEditPatch(topics, outcomes, followUps);
    sent := Some(EditRequest(s.lastInteractionId.value, patch));
    s.Pending(EditFlow);
    match outcome
    case Fulfilled(_) => s.EditFulfilled();
    case Rejected(failure) => s.Rejected(EditFlow, failure);
  }

  /**
   * A chat turn whose response carries no interaction id, after a form
   * submission that stored one, leaves no id behind: the Run Edit Tool
   * button is disabled afterwards.
   */
  method ChatForgetsFormId(today: string, hcpId: int, formId: int, message: string, suggestions: seq<string>)
    returns (editEnabled: bool)
    requires hcpId != 0 && formId != 0 && Js.Trim(message) != ""
    ensures !editEnabled
  {
    var s := new DraftStore(today);
    s.SetHcpId(Some(hcpId));
    var _ := OnSubmitForm(s, Fulfilled(formId));
    assert IdButtonEnabled(s.lastInteractionId, s.saving);
    s.SetChatDraft(message);
    var _ := OnSubmitChat(s, Fulfilled(ChatResponse(None, Some(suggestions))));
    editEnabled := IdButtonEnabled(s.lastInteractionId, s.saving);
  }
}
