/**
 * The `Endpoint` panel of the sidebar: the committed backend address (held in
 * the shared store), the editable draft, edit mode, and the reset of every piece
 * of state that depends on the backend when a new address is committed.
 *
 * `Editor` is the whole state the panel reads and writes, as a value; the step
 * functions say what each handler does to it; `EndpointEditor` is the same
 * state as an object whose handler methods update its fields in the order the
 * component's setters run.
 */
module Endpoint {
  import opened Wrappers
  import opened Text

  /** Shown when the committed endpoint truncates to nothing. */
  const EndpointPlaceholder: string := "NO ENDPOINT ADDED"
  /** Shown before the panel's mount effect has run. */
  const DefaultEndpointLabel: string := "http://localhost:7777"
  /** `truncateText(selectedEndpoint, 21)`. */
  const LabelWidth: nat := 21

  /** The notification a handler raises. */
  datatype Toast = NoToast | InvalidUrlToast

  /** The dot beside the endpoint label. */
  datatype StatusColor = Positive | Destructive

  /**
   * Store fields (`selectedEndpoint`, `isEndpointActive`, the agent, session and
   * message collections), the `agent` and `session` query-string ids, and the
   * panel's own state. `syncedFor` is the value of `selectedEndpoint` for which
   * the draft-sync effect last ran (None before the first run): the effect runs
   * again only when `selectedEndpoint` differs from it.
   */
  datatype Editor<A, S, M> = Editor(
    selectedEndpoint: string,
    isEndpointActive: bool,
    agents: seq<A>,
    sessionsData: seq<S>,
    messages: seq<M>,
    agentId: Option<string>,
    sessionId: Option<string>,
    isEditing: bool,
    endpointValue: string,
    isMounted: bool,
    isHovering: bool,
    syncedFor: Option<string>)

  /** The store and query state the panel does not own: everything a cancel must leave alone. */
  ghost predicate SameStore<A, S, M>(e: Editor<A, S, M>, f: Editor<A, S, M>) {
    && e.selectedEndpoint == f.selectedEndpoint
    && e.isEndpointActive == f.isEndpointActive
    && e.agents == f.agents
    && e.sessionsData == f.sessionsData
    && e.messages == f.messages
    && e.agentId == f.agentId
    && e.sessionId == f.sessionId
  }

  /** Every piece of backend-dependent state is empty. */
  ghost predicate DependentsReset<A, S, M>(e: Editor<A, S, M>) {
    && e.agents == []
    && e.sessionsData == []
    && e.messages == []
    && e.agentId == None
    && e.sessionId == None
  }

  /** The state after the panel's first render: `useState(false)`, `useState('')`. */
  function Initial<A, S, M>(endpoint: string, active: bool, agents: seq<A>, sessions: seq<S>,
                            messages: seq<M>, agentId: Option<string>, sessionId: Option<string>): (e: Editor<A, S, M>)
    ensures e.selectedEndpoint == endpoint && e.isEndpointActive == active
    ensures e.agents == agents && e.sessionsData == sessions && e.messages == messages
    ensures e.agentId == agentId && e.sessionId == sessionId
    ensures !e.isEditing && !e.isMounted && !e.isHovering
    ensures e.endpointValue == "" && e.syncedFor == None
  {
    Editor(endpoint, active, agents, sessions, messages, agentId, sessionId, false, "", false, false, None)
  }

  /** Clicking the endpoint label enters edit mode; the draft is not reseeded. */
  function BeginEdit<A, S, M>(e: Editor<A, S, M>): (r: Editor<A, S, M>)
    ensures r.isEditing
    ensures r.(isEditing := e.isEditing) == e
  {
    e.(isEditing := true)
  }

  /** Typing into the input replaces the draft. */
  function SetDraft<A, S, M>(e: Editor<A, S, M>, text: string): (r: Editor<A, S, M>)
    ensures r.endpointValue == text
    ensures r.(endpointValue := e.endpointValue) == e
  {
    e.(endpointValue := text)
  }

  /** Mouse enter / leave on the label. */
  function SetHovering<A, S, M>(e: Editor<A, S, M>, hovering: bool): (r: Editor<A, S, M>)
    ensures r.isHovering == hovering
    ensures r.(isHovering := e.isHovering) == e
  {
    e.(isHovering := hovering)
  }

  /**
   * `handleSave`. An invalid raw draft changes nothing. A valid one commits
   * the cleaned draft and resets every dependent piece of state, whether or
   * not the cleaned value differs from the endpoint already committed.
   */
  function Save<A, S, M>(e: Editor<A, S, M>, validUrl: string -> bool): (r: Editor<A, S, M>)
    ensures !validUrl(e.endpointValue) ==> r == e
    ensures validUrl(e.endpointValue) ==>
      && r.selectedEndpoint == CleanEndpoint(e.endpointValue)
      && DependentsReset(r)
      && !r.isEditing && !r.isHovering
      && r.isEndpointActive == e.isEndpointActive
      && r.endpointValue == e.endpointValue
      && r.isMounted == e.isMounted
      && r.syncedFor == e.syncedFor
  {
    if !validUrl(e.endpointValue) then e
    else
      e.(selectedEndpoint := CleanEndpoint(e.endpointValue),
         agentId := None, sessionId := None,
         isEditing := false, isHovering := false,
         agents := [], sessionsData := [], messages := [])
  }

  /** The toast `handleSave` raises. */
  function SaveToast<A, S, M>(e: Editor<A, S, M>, validUrl: string -> bool): (t: Toast)
    ensures t == InvalidUrlToast <==> !validUrl(e.endpointValue)
  {
    if validUrl(e.endpointValue) then NoToast else InvalidUrlToast
  }

  /** `handleCancel`: the draft goes back to the committed endpoint and edit mode
      ends; the store and the query ids are untouched. */
  function Cancel<A, S, M>(e: Editor<A, S, M>): (r: Editor<A, S, M>)
    ensures r.endpointValue == e.selectedEndpoint
    ensures !r.isEditing && !r.isHovering
    ensures SameStore(r, e)
    ensures r.isMounted == e.isMounted && r.syncedFor == e.syncedFor
  {
    e.(endpointValue := e.selectedEndpoint, isEditing := false, isHovering := false)
  }

  /** `handleKeyDown`: Enter saves, Escape cancels, any other key does nothing. */
  function KeyDown<A, S, M>(e: Editor<A, S, M>, key: string, validUrl: string -> bool): (r: Editor<A, S, M>)
    ensures key == "Enter" ==> r == Save(e, validUrl)
    ensures key == "Escape" ==> r == Cancel(e)
    ensures key != "Enter" && key != "Escape" ==> r == e
  {
    if key == "Enter" then Save(e, validUrl)
    else if key == "Escape" then Cancel(e)
    else e
  }

  /** The toast `handleKeyDown` raises. */
  function KeyDownToast<A, S, M>(e: Editor<A, S, M>, key: string, validUrl: string -> bool): (t: Toast)
    ensures t == InvalidUrlToast <==> key == "Enter" && !validUrl(e.endpointValue)
  {
    if key == "Enter" then SaveToast(e, validUrl) else NoToast
  }

  /**
   * The effect keyed on `selectedEndpoint`: when it runs (first render, and
   * whenever the committed endpoint has changed since its last run) it copies
   * the committed endpoint into the draft and marks the panel mounted.
   */
  function SyncDraft<A, S, M>(e: Editor<A, S, M>): (r: Editor<A, S, M>)
    ensures r.syncedFor == Some(e.selectedEndpoint)
    ensures e.syncedFor != Some(e.selectedEndpoint) ==> r.isMounted && r.endpointValue == e.selectedEndpoint
    ensures e.syncedFor == Some(e.selectedEndpoint) ==> r == e
    ensures SameStore(r, e) && r.isEditing == e.isEditing && r.isHovering == e.isHovering
  {
    if e.syncedFor == Some(e.selectedEndpoint) then e
    else e.(endpointValue := e.selectedEndpoint, isMounted := true, syncedFor := Some(e.selectedEndpoint))
  }

  /** Pressing Enter (or the save button) twice in a row is the same as once. */
  lemma SaveIdempotent<A, S, M>(e: Editor<A, S, M>, validUrl: string -> bool)
    ensures Save(Save(e, validUrl), validUrl) == Save(e, validUrl)
  {
  }

  /**
   * After a valid save and the effect run that follows it, the draft holds the
   * cleaned value only if the committed endpoint actually changed; when the
   * cleaned value equals the old endpoint the effect does not run again and the
   * raw draft stays in the input.
   */
  lemma SaveThenSync<A, S, M>(e: Editor<A, S, M>, validUrl: string -> bool)
    requires validUrl(e.endpointValue)
    requires e.syncedFor == Some(e.selectedEndpoint)
    ensures var r := SyncDraft(Save(e, validUrl));
      && r.selectedEndpoint == CleanEndpoint(e.endpointValue)
      && r.endpointValue == if CleanEndpoint(e.endpointValue) == e.selectedEndpoint then e.endpointValue
                            else CleanEndpoint(e.endpointValue)
  {
  }

  /** The dot colour: `isActive ? 'bg-positive' : 'bg-destructive'`. */
  function StatusColorOf(isActive: bool): (c: StatusColor)
    ensures c == Positive <==> isActive
  {
    if isActive then Positive else Destructive
  }

  /**
   * The label shown while not editing: the default address before the mount
   * effect, else the truncated committed endpoint, or the placeholder when that
   * is empty. `truncate` stands for `truncateText`, whose body is not part of
   * this model.
   */
  function EndpointLabel(isMounted: bool, selectedEndpoint: string, truncate: (string, nat) -> string): (l: string)
    ensures l != ""
    ensures !isMounted ==> l == DefaultEndpointLabel
    ensures isMounted && truncate(selectedEndpoint, LabelWidth) != "" ==> l == truncate(selectedEndpoint, LabelWidth)
    ensures isMounted && truncate(selectedEndpoint, LabelWidth) == "" ==> l == EndpointPlaceholder
  {
    if !isMounted then DefaultEndpointLabel
    else
      var t := truncate(selectedEndpoint, LabelWidth);
      if t != "" then t else EndpointPlaceholder
  }

  /** What the panel shows: the input with the draft and a save button while
      editing, else the "EDIT AGENTOS" prompt while hovered, else the label and
      the status dot. */
  datatype EndpointView = EditInput(draft: string) | EditPrompt | LabelView(text: string, dot: StatusColor)

  function View<A, S, M>(e: Editor<A, S, M>, truncate: (string, nat) -> string): (v: EndpointView)
    ensures v.EditInput? <==> e.isEditing
    ensures v.EditInput? ==> v.draft == e.endpointValue
    ensures v == EditPrompt <==> !e.isEditing && e.isHovering
    ensures v.LabelView? ==> v.text == EndpointLabel(e.isMounted, e.selectedEndpoint, truncate)
                             && (v.dot == Positive <==> e.isEndpointActive)
  {
    if e.isEditing then EditInput(e.endpointValue)
    else if e.isHovering then EditPrompt
    else LabelView(EndpointLabel(e.isMounted, e.selectedEndpoint, truncate), StatusColorOf(e.isEndpointActive))
  }

  /** A valid save closes the input and shows the label of the cleaned draft,
      not the hover prompt, even though the mouse may still be over it. */
  lemma SaveShowsCommittedLabel<A, S, M>(e: Editor<A, S, M>, validUrl: string -> bool, truncate: (string, nat) -> string)
    requires validUrl(e.endpointValue)
    ensures View(Save(e, validUrl), truncate)
         == LabelView(EndpointLabel(e.isMounted, CleanEndpoint(e.endpointValue), truncate), StatusColorOf(e.isEndpointActive))
  {
  }

  /** An invalid save leaves the input open with the draft as typed. */
  lemma InvalidSaveKeepsInput<A, S, M>(e: Editor<A, S, M>, validUrl: string -> bool, truncate: (string, nat) -> string)
    requires e.isEditing && !validUrl(e.endpointValue)
    ensures View(Save(e, validUrl), truncate) == EditInput(e.endpointValue)
  {
  }

  /** Escape closes the input and shows the label of the endpoint already committed. */
  lemma CancelShowsCommittedLabel<A, S, M>(e: Editor<A, S, M>, truncate: (string, nat) -> string)
    ensures View(Cancel(e), truncate)
         == LabelView(EndpointLabel(e.isMounted, e.selectedEndpoint, truncate), StatusColorOf(e.isEndpointActive))
  {
  }

  /** The user actions and the effect that drive the panel. */
  datatype Event =
    | ClickLabel
    | Type(text: string)
    | MouseEnter
    | MouseLeave
    | SaveButton
    | Key(key: string)
    | Effect

  function Apply<A, S, M>(e: Editor<A, S, M>, ev: Event, validUrl: string -> bool): (r: Editor<A, S, M>)
    ensures !IsSaveAttempt(ev) ==> SameStore(r, e)
    ensures SameStore(r, e) || (DependentsReset(r) && r.selectedEndpoint == CleanEndpoint(e.endpointValue))
  {
    match ev
    case ClickLabel => BeginEdit(e)
    case Type(text) => SetDraft(e, text)
    case MouseEnter => SetHovering(e, true)
    case MouseLeave => SetHovering(e, false)
    case SaveButton => Save(e, validUrl)
    case Key(k) => KeyDown(e, k, validUrl)
    case Effect => SyncDraft(e)
  }

  /** Apply the events in order. */
  function Run<A, S, M>(e: Editor<A, S, M>, evs: seq<Event>, validUrl: string -> bool): Editor<A, S, M>
    decreases |evs|
  {
    if evs == [] then e else Apply(Run(e, evs[..|evs| - 1], validUrl), evs[|evs| - 1], validUrl)
  }

  /** The two events that run `handleSave`. */
  predicate IsSaveAttempt(ev: Event) {
    ev == SaveButton || ev == Key("Enter")
  }

  /** Without a save attempt, no sequence of clicks, typing, hovering, Escape
      presses and effect runs touches the store or the query ids. */
  lemma {:induction false} RunWithoutSaveKeepsStore<A, S, M>(e: Editor<A, S, M>, evs: seq<Event>, validUrl: string -> bool)
    requires forall i :: 0 <= i < |evs| ==> !IsSaveAttempt(evs[i])
    ensures SameStore(Run(e, evs, validUrl), e)
  {
    if evs != [] {
      RunWithoutSaveKeepsStore(e, evs[..|evs| - 1], validUrl);
      var prev := Run(e, evs[..|evs| - 1], validUrl);
      assert !IsSaveAttempt(evs[|evs| - 1]);
      assert SameStore(Apply(prev, evs[|evs| - 1], validUrl), prev);
    }
  }

  /** Whatever happens, the dependent state is either exactly what it was
      (along with the endpoint) or has been reset as a whole. */
  lemma {:induction false} RunResetsOrKeepsDependents<A, S, M>(e: Editor<A, S, M>, evs: seq<Event>, validUrl: string -> bool)
    ensures var r := Run(e, evs, validUrl); SameStore(r, e) || DependentsReset(r)
  {
    if evs != [] {
      RunResetsOrKeepsDependents(e, evs[..|evs| - 1], validUrl);
      var prev := Run(e, evs[..|evs| - 1], validUrl);
      var ev := evs[|evs| - 1];
      if !IsSaveAttempt(ev) {
        assert SameStore(Apply(prev, ev, validUrl), prev);
      }
    }
  }

  /** The committed endpoint never changes without the agents, sessions,
      messages and both ids being emptied. */
  lemma EndpointChangeResetsDependents<A, S, M>(e: Editor<A, S, M>, evs: seq<Event>, validUrl: string -> bool)
    requires Run(e, evs, validUrl).selectedEndpoint != e.selectedEndpoint
    ensures DependentsReset(Run(e, evs, validUrl))
  {
  }

  /** Once the committed endpoint has no white space at either end it keeps
      that shape through every later commit. */
  lemma {:induction false} RunKeepsEndpointTrimmed<A, S, M>(e: Editor<A, S, M>, evs: seq<Event>, validUrl: string -> bool)
    requires IsTrimmed(e.selectedEndpoint)
    ensures IsTrimmed(Run(e, evs, validUrl).selectedEndpoint)
  {
    if evs != [] {
      var prev := Run(e, evs[..|evs| - 1], validUrl);
      RunKeepsEndpointTrimmed(e, evs[..|evs| - 1], validUrl);
      CleanEndpointIsTrimmed(prev.endpointValue);
    }
  }

  /** Any amount of editing followed by Escape leaves the store as it was and
      puts the committed endpoint back into the draft. */
  lemma EditThenEscape<A, S, M>(e: Editor<A, S, M>, typed: seq<string>, validUrl: string -> bool)
    ensures var evs := [ClickLabel] + seq(|typed|, i requires 0 <= i < |typed| => Type(typed[i])) + [Key("Escape")];
      var r := Run(e, evs, validUrl);
      && SameStore(r, e)
      && r.endpointValue == e.selectedEndpoint
      && !r.isEditing
  {
    var evs := [ClickLabel] + seq(|typed|, i requires 0 <= i < |typed| => Type(typed[i])) + [Key("Escape")];
    assert forall i :: 0 <= i < |evs| ==> !IsSaveAttempt(evs[i]);
    RunWithoutSaveKeepsStore(e, evs, validUrl);
    assert evs[..|evs| - 1] + [Key("Escape")] == evs;
  }

  /**
   * The panel as an object. Methods mirror the component's handlers; each states
   * its new state as the step function of the old one.
   */
  class EndpointEditor<A, S, M> {
    var selectedEndpoint: string
    var isEndpointActive: bool
    var agents: seq<A>
    var sessionsData: seq<S>
    var messages: seq<M>
    var agentId: Option<string>
    var sessionId: Option<string>
    var isEditing: bool
    var endpointValue: string
    var isMounted: bool
    var isHovering: bool
    var syncedFor: Option<string>
    /** `isValidUrl`, whose body is not part of this model. */
    const validUrl: string -> bool

    function State(): Editor<A, S, M>
      reads this
    {
      Editor(selectedEndpoint, isEndpointActive, agents, sessionsData, messages,
             agentId, sessionId, isEditing, endpointValue, isMounted, isHovering, syncedFor)
    }

    constructor (endpoint: string, active: bool, agents0: seq<A>, sessions0: seq<S>, messages0: seq<M>,
                 agentId0: Option<string>, sessionId0: Option<string>, validUrl: string -> bool)
      ensures State() == Initial(endpoint, active, agents0, sessions0, messages0, agentId0, sessionId0)
      ensures this.validUrl == validUrl
    {
      selectedEndpoint, isEndpointActive := endpoint, active;
      agents, sessionsData, messages := agents0, sessions0, messages0;
      agentId, sessionId := agentId0, sessionId0;
      isEditing, endpointValue, isMounted, isHovering := false, "", false, false;
      syncedFor := None;
      this.validUrl := validUrl;
    }

    method ClickLabel()
      modifies this
      ensures State() == BeginEdit(old(State()))
    {
      isEditing := true;
    }

    method OnChange(text: string)
      modifies this
      ensures State() == SetDraft(old(State()), text)
    {
      endpointValue := text;
    }

    method OnHover(hovering: bool)
      modifies this
      ensures State() == SetHovering(old(State()), hovering)
    {
      isHovering := hovering;
    }

    method HandleSave() returns (toast: Toast)
      modifies this
      ensures State() == Save(old(State()), validUrl)
      ensures toast == SaveToast(old(State()), validUrl)
    {
      if !validUrl(endpointValue) {
        return InvalidUrlToast;
      }
      var cleanEndpoint := CleanEndpoint(endpointValue);
      Commit(cleanEndpoint);
      return NoToast;
    }

    /** The setters `handleSave` runs once the draft has passed validation. */
    method Commit(cleanEndpoint: string)
      modifies this
      ensures State() == old(State()).(selectedEndpoint := cleanEndpoint, agentId := None, sessionId := None,
                                       isEditing := false, isHovering := false,
                                       agents := [], sessionsData := [], messages := [])
    {
      selectedEndpoint, agentId, sessionId := cleanEndpoint, None, None;
      isEditing, isHovering := false, false;
      agents, sessionsData, messages := [], [], [];
    }

    method HandleCancel()
      modifies this
      ensures State() == Cancel(old(State()))
    {
      endpointValue := selectedEndpoint;
      isEditing := false;
      isHovering := false;
    }

    method HandleKeyDown(key: string) returns (toast: Toast)
      modifies this
      ensures State() == KeyDown(old(State()), key, validUrl)
      ensures toast == KeyDownToast(old(State()), key, validUrl)
    {
      toast := NoToast;
      if key == "Enter" {
        toast := HandleSave();
      } else if key == "Escape" {
        HandleCancel();
      }
    }

    method SyncDraftEffect()
      modifies this
      ensures State() == SyncDraft(old(State()))
    {
      if syncedFor != Some(selectedEndpoint) {
        endpointValue := selectedEndpoint;
        isMounted := true;
        syncedFor := Some(selectedEndpoint);
      }
    }
  }
}
