/**
  The request lifecycle of Bavarder's main window as a state machine over
  values: each function below is one handler of the window (or one event of the
  worker thread it starts), mapping the state before it to the state after it.
  The class in window.dfy is proved to follow these functions step by step.
 */
module Controller {
  import opened Wrappers
  import opened Text
  import opened Transcript

  /**
    What `self.t` refers to. NoThread: `self.t` was never assigned. Running: the
    worker is waiting for the backend. Returned: the backend answered and the
    worker queued `cleanup` on the main loop (GLib.idle_add). Finished: the worker
    was joined or killed, or died, and nothing more will arrive from it.
   */
  datatype Worker = NoThread | Running(prompt: string) | Returned(response: string) | Finished

  /**
    The window's state: the application's chats, the chat whose row is selected,
    the next identity the application hands to a new chat, the worker, whether the
    "Generating response" toast that `self.toast` names is on screen, how many
    such toasts are still on screen although `self.toast` no longer names them
    (so neither `cleanup` nor `cancel` can dismiss them), and the application
    settings the window reads.
   */
  datatype State = State(
    chats: map<ChatId, Chat>,
    selected: Option<ChatId>,
    nextId: ChatId,
    worker: Worker,
    toastShown: bool,
    strandedToasts: nat,
    app: AppState)

  /** Chat identities are below `nextId`, and a selected row holds an existing chat. */
  ghost predicate Valid(s: State) {
    && (forall id :: id in s.chats ==> id < s.nextId)
    && (s.selected.Some? ==> s.selected.value in s.chats)
  }

  /** The messages chat `id` shows (none for a chat that does not exist). */
  function History(s: State, id: ChatId): seq<Message> {
    if id in s.chats then Messages(s.chats[id]) else []
  }

  /** A request is outstanding: the worker runs, or its `cleanup` is queued. */
  predicate Busy(s: State) {
    s.worker.Running? || s.worker.Returned?
  }

  /** A chat other than `id` shows the same messages in `r` as in `s`. */
  ghost predicate OthersUnchanged(s: State, r: State, id: ChatId) {
    forall other :: other != id ==> History(r, other) == History(s, other)
  }

  /**
    The window after `load_threads`: the application's chats, numbered in list
    order, no row selected, no worker ever started and no toast.
   */
  function Init(loaded: seq<Chat>, app: AppState): (s: State)
    ensures Valid(s) && s.selected.None? && s.worker == NoThread && !s.toastShown && s.strandedToasts == 0 && s.app == app
    ensures forall i: nat :: i in s.chats <==> i < |loaded|
    ensures forall i :: 0 <= i < |loaded| ==> History(s, i) == Messages(loaded[i])
  {
    State(map i: nat | i < |loaded| :: loaded[i], None, |loaded|, NoThread, false, 0, app)
  }

  /**
    `on_new_chat_action`, which the application handles: a new chat with a fresh
    identity is added and its row selected. The new chat shows no message and
    no other chat changes.
   */
  function NewChat(s: State): (r: State)
    requires Valid(s)
    ensures Valid(r) && r.selected == Some(s.nextId) && s.nextId !in s.chats
    ensures r.chats.Keys == s.chats.Keys + {s.nextId}
    ensures forall id :: History(r, id) == History(s, id)
    ensures r.worker == s.worker && r.toastShown == s.toastShown && r.strandedToasts == s.strandedToasts && r.app == s.app
  {
    s.(chats := s.chats[s.nextId := Chat(None)], selected := Some(s.nextId), nextId := s.nextId + 1)
  }

  /**
    The `chat` accessor: the chat of the selected row; when no row is selected
    the accessor asks the application for a new chat, which is then selected.
    Either way no chat's messages change.
   */
  function SelectChat(s: State): (r: (State, ChatId))
    requires Valid(s)
    ensures Valid(r.0) && r.0.selected == Some(r.1) && r.1 in r.0.chats
    ensures forall id :: History(r.0, id) == History(s, id)
    ensures r.0.worker == s.worker && r.0.toastShown == s.toastShown && r.0.strandedToasts == s.strandedToasts && r.0.app == s.app
    ensures s.selected.Some? ==> r == (s, s.selected.value)
    ensures s.selected.None? ==> r.1 !in s.chats && r.0.chats.Keys == s.chats.Keys + {r.1}
  {
    if s.selected.Some? then (s, s.selected.value) else (NewChat(s), s.nextId)
  }

  /**
    The `content` accessor: the message list of the current chat. A chat without
    a "content" key gets an empty list stored under it, and that list is the
    one returned; no chat's messages change.
   */
  function ReadContent(s: State): (r: (State, ChatId))
    requires Valid(s)
    ensures Valid(r.0) && r.0.selected == Some(r.1) && r.1 in r.0.chats
    ensures r.0.chats[r.1].content == Some(History(s, r.1))
    ensures forall id :: History(r.0, id) == History(s, id)
    ensures r.0.chats.Keys == s.chats.Keys + {r.1}
    ensures r.0.worker == s.worker && r.0.toastShown == s.toastShown && r.0.strandedToasts == s.strandedToasts && r.0.app == s.app
    ensures s.selected.Some? ==> r.1 == s.selected.value
    ensures s.selected.None? ==> r.1 == s.nextId
  {
    var (t, id) := SelectChat(s);
    if t.chats[id].content.Some? then (t, id)
    else (t.(chats := t.chats[id := Chat(Some([]))]), id)
  }

  /**
    `self.content.append(m)`: `m` goes to the tail of the current chat (the
    selected one, or a new one when no row is selected); every other chat keeps
    its messages.
   */
  function Append(s: State, m: Message): (r: State)
    requires Valid(s)
    ensures Valid(r) && r.selected.Some?
    ensures History(r, r.selected.value) == History(s, r.selected.value) + [m]
    ensures OthersUnchanged(s, r, r.selected.value)
    ensures s.selected.Some? ==> r.selected == s.selected
    ensures s.selected.None? ==> r.selected == Some(s.nextId)
    ensures r.worker == s.worker && r.toastShown == s.toastShown && r.strandedToasts == s.strandedToasts && r.app == s.app
  {
    var (t, id) := ReadContent(s);
    t.(chats := t.chats[id := Chat(Some(t.chats[id].content.value + [m]))])
  }

  /**
    `on_ask` with the text of the message entry. A window without any chat first
    gets a new, selected chat. A prompt that strips to nothing then changes no
    transcript and starts no worker; any other prompt is stripped, appended as a
    user message at the tail of the current chat, and only then is a worker
    started and the toast shown. The new worker points `self.toast` at a new
    toast, so a toast still on screen from an earlier request whose backend call
    raised can no longer be dismissed. A second prompt while a request is
    outstanding is outside this model.
   */
  function Ask(s: State, input: string): (r: State)
    requires Valid(s)
    requires Strip(input) != [] ==> !Busy(s)
    ensures Valid(r) && r.app == s.app
    ensures s.selected.Some? ==> r.selected == s.selected
    ensures Strip(input) == [] ==>
      && r.worker == s.worker && r.toastShown == s.toastShown
      && r.strandedToasts == s.strandedToasts
      && (forall id :: History(r, id) == History(s, id))
      && (s.chats != map[] ==> r == s)
    ensures Strip(input) != [] ==>
      && r.selected.Some?
      && History(r, r.selected.value) == History(s, r.selected.value) + [UserMessage(Strip(input))]
      && OthersUnchanged(s, r, r.selected.value)
      && r.worker == Running(Strip(input)) && r.toastShown
      && r.strandedToasts == s.strandedToasts + (if s.toastShown then 1 else 0)
  {
    var t := if s.chats == map[] then NewChat(s) else s;
    var prompt := Strip(input);
    if prompt == [] then t
    else
      var stranded := t.strandedToasts + (if t.toastShown then 1 else 0);
      Append(t, UserMessage(prompt)).(worker := Running(prompt), toastShown := true, strandedToasts := stranded)
  }

  /**
    The worker's backend call returns `response` and the worker queues
    `cleanup`; nothing on screen changes yet.
   */
  function Respond(s: State, response: string): (r: State)
    requires s.worker.Running?
    ensures r.worker == Returned(response)
    ensures r.chats == s.chats && r.selected == s.selected && r.nextId == s.nextId
    ensures r.toastShown == s.toastShown && r.strandedToasts == s.strandedToasts && r.app == s.app
  {
    s.(worker := Returned(response))
  }

  /**
    The backend call raises: the worker thread dies before it queues `cleanup`,
    so no reply is appended and the toast stays on screen. Only a `cancel`
    can still dismiss it, and only until the next prompt strands it.
   */
  function BackendFails(s: State): (r: State)
    requires s.worker.Running?
    ensures r.worker == Finished && !Busy(r)
    ensures r.chats == s.chats && r.selected == s.selected && r.nextId == s.nextId
    ensures r.toastShown == s.toastShown && r.strandedToasts == s.strandedToasts && r.app == s.app
  {
    s.(worker := Finished)
  }

  /**
    `cleanup` on the main loop: the worker is joined, the toast `self.toast`
    names is dismissed (stranded toasts stay on screen), and
    the reply is appended as one assistant message at the tail of the chat that
    is current NOW, tagged from the application settings as they are NOW.
   */
  function Complete(s: State): (r: State)
    requires Valid(s) && s.worker.Returned?
    ensures Valid(r) && r.selected.Some? && r.app == s.app
    ensures History(r, r.selected.value)
      == History(s, r.selected.value) + [AssistantMessage(s.worker.response, s.app)]
    ensures OthersUnchanged(s, r, r.selected.value)
    ensures s.selected.Some? ==> r.selected == s.selected
    ensures s.selected.None? ==> r.selected == Some(s.nextId)
    ensures r.worker == Finished && !r.toastShown && r.strandedToasts == s.strandedToasts
  {
    Append(s, AssistantMessage(s.worker.response, s.app)).(worker := Finished, toastShown := false)
  }

  /**
    `cancel`: without a worker ever started, `self.t` is missing and the
    AttributeError is swallowed, so nothing changes. Otherwise the worker is
    killed and joined and the toast `self.toast` names is dismissed; stranded
    toasts stay on screen. A running worker is stopped
    before it can queue `cleanup`; a `cleanup` that is already queued is not
    withdrawn by the kill and still runs later.
   */
  function Cancel(s: State): (r: State)
    requires Valid(s)
    ensures Valid(r)
    ensures r.chats == s.chats && r.selected == s.selected && r.nextId == s.nextId && r.app == s.app
    ensures r.strandedToasts == s.strandedToasts
    ensures s.worker.NoThread? ==> r == s
    ensures !s.worker.NoThread? ==> !r.toastShown
    ensures s.worker.Running? ==> r.worker == Finished
    ensures !s.worker.Running? ==> r.worker == s.worker
  {
    match s.worker
    case NoThread => s
    case Running(_) => s.(worker := Finished, toastShown := false)
    case _ => s.(toastShown := false)
  }

  /**
    `on_clear_all`: reads the current chat's content (creating the key if it
    was absent); a non-empty list has its "content" key deleted, an empty one is
    left as it is. Either way the current chat then shows no message, and no
    other chat changes.
   */
  function ClearAll(s: State): (r: State)
    requires Valid(s)
    ensures Valid(r) && r.selected.Some? && r.selected.value in r.chats
    ensures History(r, r.selected.value) == []
    ensures History(s, r.selected.value) != [] ==> r.chats[r.selected.value].content.None?
    ensures History(s, r.selected.value) == [] ==> r.chats[r.selected.value].content == Some([])
    ensures OthersUnchanged(s, r, r.selected.value)
    ensures s.selected.Some? ==> r.selected == s.selected
    ensures s.selected.None? ==> r.selected == Some(s.nextId)
    ensures r.worker == s.worker && r.toastShown == s.toastShown && r.strandedToasts == s.strandedToasts && r.app == s.app
  {
    var (t, id) := ReadContent(s);
    if History(t, id) != [] then t.(chats := t.chats[id := Chat(None)]) else t
  }

  /**
    The user activates the row of chat `id`: it becomes the selected chat, and
    the row callback reads its content, which creates the "content" key when it
    is absent. No chat's messages change.
   */
  function Select(s: State, id: ChatId): (r: State)
    requires Valid(s) && id in s.chats
    ensures Valid(r) && r.selected == Some(id) && r.chats[id].content.Some?
    ensures r.chats.Keys == s.chats.Keys
    ensures forall other :: History(r, other) == History(s, other)
    ensures r.worker == s.worker && r.toastShown == s.toastShown && r.strandedToasts == s.strandedToasts && r.app == s.app
  {
    ReadContent(s.(selected := Some(id))).0
  }

  /** `on_local_mode_toggled`: the application's local-mode flag follows the toggle. */
  function ToggleLocalMode(s: State, active: bool): (r: State)
    ensures r.app.localMode == active
    ensures r.app.modelName == s.app.modelName && r.app.currentProvider == s.app.currentProvider
    ensures r.chats == s.chats && r.selected == s.selected && r.nextId == s.nextId
    ensures r.worker == s.worker && r.toastShown == s.toastShown && r.strandedToasts == s.strandedToasts
  {
    s.(app := s.app.(localMode := active))
  }

  /** Reading `content` a second time changes nothing and returns the same list. */
  lemma ReadContentIdempotent(s: State)
    requires Valid(s)
    ensures ReadContent(ReadContent(s).0) == ReadContent(s)
  {
    var (t, id) := ReadContent(s);
    assert SelectChat(t) == (t, id);
  }

  /** A completion adds exactly one assistant message to the chat it lands in. */
  lemma CompleteAddsOneReply(s: State)
    requires Valid(s) && s.worker.Returned?
    ensures var r := Complete(s); var id := r.selected.value;
      AssistantCount(History(r, id)) == AssistantCount(History(s, id)) + 1
  {
    var r := Complete(s);
    AssistantCountAppend(History(s, r.selected.value), AssistantMessage(s.worker.response, s.app));
  }

  /** After `on_clear_all`, the next read of `content` yields an empty list. */
  lemma ClearAllThenReadIsEmpty(s: State)
    requires Valid(s)
    ensures var c := ClearAll(s); var (t, id) := ReadContent(c);
      id == c.selected.value && t.chats[id].content == Some([])
  {
  }
}
