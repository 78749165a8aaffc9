/**
 * The interaction draft store: one state record holding the interaction
 * form, the chat transcript and its unsent draft, the tool trace, the AI
 * follow-up suggestions and the submission status, changed by nine
 * synchronous reducers and by the pending, fulfilled and rejected
 * transitions of three asynchronous flows (form, chat, edit).
 */
module InteractionDraft {
  import opened Wrappers
  import opened Json
  import opened Api
  import Js

  // ---------------------------------------------------------------------
  // The state's parts
  // ---------------------------------------------------------------------

  datatype Form = Form(
    hcpId: Option<int>,
    date: string,
    time: string,
    interactionType: string,
    sentiment: string,
    topics: string,
    outcomes: string,
    followUpActions: string,
    attendees: string,
    materials: seq<string>,
    samples: seq<string>)

  /** The form's free-text fields, the keys `setFormField` is used with. */
  datatype TextField = Date | Time | InteractionType | Sentiment | Topics | Outcomes | FollowUpActions | Attendees

  datatype Role = User | Assistant

  datatype ChatMessage = ChatMessage(role: Role, content: string)

  datatype Chat = Chat(messages: seq<ChatMessage>, draft: string)

  datatype ToolRun = ToolRun(tool: string, output: Value, createdAt: Option<string>)

  /** The chat endpoint's response, as far as the store reads it. */
  datatype ChatResponse = ChatResponse(interactionId: Option<int>, suggestedFollowups: Option<seq<string>>)

  /** The three asynchronous flows that share the `saving` flag and the `error` field. */
  datatype Flow = FormFlow | ChatFlow | EditFlow

  /** The whole state record at one moment. */
  datatype Draft = Draft(
    form: Form,
    chat: Chat,
    toolTrace: seq<ToolRun>,
    aiSuggestedFollowups: seq<string>,
    saving: bool,
    lastInteractionId: Option<int>,
    error: Option<string>)

  /** The actions the store has processed, in order. */
  datatype Action =
    | SetFormField(key: TextField, value: string)
    | SetHcpId(hcpId: Option<int>)
    | SetChatDraft(draft: string)
    | AppendChatMessage(message: ChatMessage)
    | ClearToolTrace
    | AddMaterial(material: string)
    | RemoveMaterial(index: int)
    | AddSample(sample: string)
    | RemoveSample(index: int)
    | Pending(flow: Flow)
    | FormFulfilled(id: int)
    | ChatFulfilled(response: ChatResponse)
    | EditFulfilled
    | Rejected(flow: Flow, reason: string)

  /** The form a session starts with; `today` is the current date, which the source reads from the clock. */
  function InitialForm(today: string): Form
  {
    Form(None, today, "", "", "", "", "", "", "", [], [])
  }

  // ---------------------------------------------------------------------
  // Pure parts of the reducers
  // ---------------------------------------------------------------------

  function FieldOf(f: Form, key: TextField): string
  {
    match key
    case Date => f.date
    case Time => f.time
    case InteractionType => f.interactionType
    case Sentiment => f.sentiment
    case Topics => f.topics
    case Outcomes => f.outcomes
    case FollowUpActions => f.followUpActions
    case Attendees => f.attendees
  }

  /** `form[key] = value`: the named field takes the value and every other part of the form is kept. */
  function WithField(f: Form, key: TextField, value: string): (g: Form)
    ensures FieldOf(g, key) == value
    ensures forall other :: other != key ==> FieldOf(g, other) == FieldOf(f, other)
    ensures g.hcpId == f.hcpId && g.materials == f.materials && g.samples == f.samples
  {
    match key
    case Date => f.(date := value)
    case Time => f.(time := value)
    case InteractionType => f.(interactionType := value)
    case Sentiment => f.(sentiment := value)
    case Topics => f.(topics := value)
    case Outcomes => f.(outcomes := value)
    case FollowUpActions => f.(followUpActions := value)
    case Attendees => f.(attendees := value)
  }

  /** Two forms that agree on every text field, the HCP id and both lists are equal. */
  lemma FormExtensionality(f: Form, g: Form)
    requires forall key :: FieldOf(f, key) == FieldOf(g, key)
    requires f.hcpId == g.hcpId && f.materials == g.materials && f.samples == g.samples
    ensures f == g
  {
    assert FieldOf(f, Date) == FieldOf(g, Date);
    assert FieldOf(f, Time) == FieldOf(g, Time);
    assert FieldOf(f, InteractionType) == FieldOf(g, InteractionType);
    assert FieldOf(f, Sentiment) == FieldOf(g, Sentiment);
    assert FieldOf(f, Topics) == FieldOf(g, Topics);
    assert FieldOf(f, Outcomes) == FieldOf(g, Outcomes);
    assert FieldOf(f, FollowUpActions) == FieldOf(g, FollowUpActions);
    assert FieldOf(f, Attendees) == FieldOf(g, Attendees);
  }

  /** Setting two different fields gives the same form in either order. */
  lemma WithFieldCommutes(f: Form, a: TextField, x: string, b: TextField, y: string)
    requires a != b
    ensures WithField(WithField(f, a, x), b, y) == WithField(WithField(f, b, y), a, x)
  {
    FormExtensionality(WithField(WithField(f, a, x), b, y), WithField(WithField(f, b, y), a, x));
  }

  /** Setting a field twice keeps only the last value. */
  lemma WithFieldLastWins(f: Form, a: TextField, x: string, y: string)
    ensures WithField(WithField(f, a, x), a, y) == WithField(f, a, y)
  {
    FormExtensionality(WithField(WithField(f, a, x), a, y), WithField(f, a, y));
  }

  /**
   * `xs.filter((_, j) => j !== i)`: removing position `i` when it is a
   * position of `xs`, and keeping the list as it is otherwise.
   */
  function WithoutIndex<T>(xs: seq<T>, i: int): (r: seq<T>)
    ensures 0 <= i < |xs| ==> r == xs[..i] + xs[i + 1..]
    ensures !(0 <= i < |xs|) ==> r == xs
  {
    if xs == [] then []
    else
      var rest := WithoutIndex(xs[1..], i - 1);
      if i == 0 then rest
      else
        assert 0 < i < |xs| ==> xs[..i] + xs[i + 1..] == [xs[0]] + (xs[1..][..i - 1] + xs[1..][i..]);
        [xs[0]] + rest
  }

  /**
   * The string a rejected flow stores in `error`: the server's `detail`
   * when it is truthy; otherwise, for the form flow, "Submission failed";
   * for the chat and edit flows, the error's `message` when it is truthy,
   * and "Chat failed" or "Edit failed" when it is not. Never empty.
   */
  function RejectReason(flow: Flow, failure: RequestFailure): (reason: string)
    ensures reason != ""
    ensures Js.TruthyText(failure.detail) ==> reason == failure.detail.value
    ensures !Js.TruthyText(failure.detail) && flow == FormFlow ==> reason == "Submission failed"
    ensures !Js.TruthyText(failure.detail) && flow != FormFlow && Js.TruthyText(failure.message)
        ==> reason == failure.message.value
    ensures !Js.TruthyText(failure.detail) && !Js.TruthyText(failure.message) && flow == ChatFlow
        ==> reason == "Chat failed"
    ensures !Js.TruthyText(failure.detail) && !Js.TruthyText(failure.message) && flow == EditFlow
        ==> reason == "Edit failed"
  {
    var chain := [failure.detail, failure.message];
    assert chain[0] == failure.detail && chain[1] == failure.message;
    match flow
    case FormFlow => Js.FirstTruthy([failure.detail], "Submission failed")
    case ChatFlow => Js.FirstTruthy(chain, "Chat failed")
    case EditFlow => Js.FirstTruthy(chain, "Edit failed")
  }

  /** `interaction_id || null`: the id the chat flow stores, absent when the response's id is absent or 0. */
  function ChatInteractionId(response: ChatResponse): (id: Option<int>)
    ensures id.Some? <==> Js.TruthyId(response.interactionId)
    ensures id.Some? ==> id == response.interactionId
  {
    if Js.TruthyId(response.interactionId) then response.interactionId else None
  }

  // ---------------------------------------------------------------------
  // The store
  // ---------------------------------------------------------------------

  class DraftStore {
    var form: Form
    var chat: Chat
    var toolTrace: seq<ToolRun>
    var aiSuggestedFollowups: seq<string>
    var saving: bool
    var lastInteractionId: Option<int>
    var error: Option<string>

    /** Every action processed so far, oldest first. */
    ghost var history: seq<Action>

    ghost function State(): Draft
      reads this
    {
      Draft(form, chat, toolTrace, aiSuggestedFollowups, saving, lastInteractionId, error)
    }

    /**
     * What holds in every reachable state: nothing ever adds to the tool
     * trace, so it stays empty, and a stored error is never the empty string.
     */
    ghost predicate Valid()
      reads this
    {
      toolTrace == [] && (error.Some? ==> error.value != "")
    }

    /** The initial state of a session started on `today`. */
    constructor (today: string)
      ensures Valid()
      ensures State() == Draft(InitialForm(today), Chat([], ""), [], [], false, None, None)
      ensures history == []
    {
      form := InitialForm(today);
      chat := Chat([], "");
      toolTrace := [];
      aiSuggestedFollowups := [];
      saving := false;
      lastInteractionId := None;
      error := None;
      history := [];
    }

    method SetFormField(key: TextField, value: string)
      requires Valid()
      modifies this
      ensures Valid()
      ensures State() == old(State()).(form := WithField(old(form), key, value))
      ensures history == old(history) + [Action.SetFormField(key, value)]
    {
      form := WithField(form, key, value);
      history := history + [Action.SetFormField(key, value)];
    }

    method SetHcpId(hcpId: Option<int>)
      requires Valid()
      modifies this
      ensures Valid()
      ensures State() == old(State()).(form := old(form).(hcpId := hcpId))
      ensures history == old(history) + [Action.SetHcpId(hcpId)]
    {
      form := form.(hcpId := hcpId);
      history := history + [Action.SetHcpId(hcpId)];
    }

    method SetChatDraft(draft: string)
      requires Valid()
      modifies this
      ensures Valid()
      ensures State() == old(State()).(chat := old(chat).(draft := draft))
      ensures history == old(history) + [Action.SetChatDraft(draft)]
    {
      chat := chat.(draft := draft);
      history := history + [Action.SetChatDraft(draft)];
    }

    method AppendChatMessage(message: ChatMessage)
      requires Valid()
      modifies this
      ensures Valid()
      ensures State() == old(State()).(chat := old(chat).(messages := old(chat.messages) + [message]))
      ensures history == old(history) + [Action.AppendChatMessage(message)]
    {
      chat := chat.(messages := chat.messages + [message]);
      history := history + [Action.AppendChatMessage(message)];
    }

    method ClearToolTrace()
      requires Valid()
      modifies this
      ensures Valid()
      ensures State() == old(State()).(toolTrace := [])
      ensures history == old(history) + [Action.ClearToolTrace]
    {
      toolTrace := [];
      history := history + [Action.ClearToolTrace];
    }

    method AddMaterial(material: string)
      requires Valid()
      modifies this
      ensures Valid()
      ensures State() == old(State()).(form := old(form).(materials := old(form.materials) + [material]))
      ensures history == old(history) + [Action.AddMaterial(material)]
    {
      form := form.(materials := form.materials + [material]);
      history := history + [Action.AddMaterial(material)];
    }

    method RemoveMaterial(index: int)
      requires Valid()
      modifies this
      ensures Valid()
      ensures State() == old(State()).(form := old(form).(materials := WithoutIndex(old(form.materials), index)))
      ensures history == old(history) + [Action.RemoveMaterial(index)]
    {
      form := form.(materials := WithoutIndex(form.materials, index));
      history := history + [Action.RemoveMaterial(index)];
    }

    method AddSample(sample: string)
      requires Valid()
      modifies this
      ensures Valid()
      ensures State() == old(State()).(form := old(form).(samples := old(form.samples) + [sample]))
      ensures history == old(history) + [Action.AddSample(sample)]
    {
      form := form.(samples := form.samples + [sample]);
      history := history + [Action.AddSample(sample)];
    }

    method RemoveSample(index: int)
      requires Valid()
      modifies this
      ensures Valid()
      ensures State() == old(State()).(form := old(form).(samples := WithoutIndex(old(form.samples), index)))
      ensures history == old(history) + [Action.RemoveSample(index)]
    {
      form := form.(samples := WithoutIndex(form.samples, index));
      history := history + [Action.RemoveSample(index)];
    }

    /** The pending transition, the same for all three flows. */
    method Pending(flow: Flow)
      requires Valid()
      modifies this
      ensures Valid()
      ensures State() == old(State()).(saving := true, error := None)
      ensures history == old(history) + [Action.Pending(flow)]
    {
      saving := true;
      error := None;
      history := history + [Action.Pending(flow)];
    }

    /** The form flow succeeded: the response's id becomes the last interaction id. */
    method FormFulfilled(id: int)
      requires Valid()
      modifies this
      ensures Valid()
      ensures State() == old(State()).(saving := false, lastInteractionId := Some(id))
      ensures history == old(history) + [Action.FormFulfilled(id)]
    {
      saving := false;
      lastInteractionId := Some(id);
      history := history + [Action.FormFulfilled(id)];
    }

    /**
     * The chat flow succeeded: the last interaction id is overwritten, with
     * `None` when the response carries no truthy id, and the suggestions
     * are replaced wholesale, by `[]` when the response has none.
     */
    method ChatFulfilled(response: ChatResponse)
      requires Valid()
      modifies this
      ensures Valid()
      ensures State() == old(State()).(
        saving := false,
        lastInteractionId := ChatInteractionId(response),
        aiSuggestedFollowups := if response.suggestedFollowups.Some? then response.suggestedFollowups.value else [])
      ensures history == old(history) + [Action.ChatFulfilled(response)]
    {
      saving := false;
      lastInteractionId := ChatInteractionId(response);
      aiSuggestedFollowups := if response.suggestedFollowups.Some? then response.suggestedFollowups.value else [];
      history := history + [Action.ChatFulfilled(response)];
    }

    /** The edit flow succeeded: only `saving` changes; the edited values are not merged back. */
    method EditFulfilled()
      requires Valid()
      modifies this
      ensures Valid()
      ensures State() == old(State()).(saving := false)
      ensures history == old(history) + [Action.EditFulfilled]
    {
      saving := false;
      history := history + [Action.EditFulfilled];
    }

    /** A flow was rejected: the reject value of its fallback chain becomes the error. */
    method Rejected(flow: Flow, failure: RequestFailure)
      requires Valid()
      modifies this
      ensures Valid()
      ensures State() == old(State()).(saving := false, error := Some(RejectReason(flow, failure)))
      ensures history == old(history) + [Action.Rejected(flow, RejectReason(flow, failure))]
    {
      var reason := RejectReason(flow, failure);
      saving := false;
      error := Some(reason);
      history := history + [Action.Rejected(flow, reason)];
    }
  }
}
