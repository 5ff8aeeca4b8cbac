/**
  `BavarderWindow`: the window object whose handlers mutate the selected chat's
  message list in place and keep the worker thread and the toast in instance
  fields. Each handler is proved to take the window's state exactly as the
  matching function of controller.dfy does.
 */
module Window {
  import opened Wrappers
  import opened Text
  import opened Transcript
  import C = Controller

  class BavarderWindow {
    /** The application's chats (`self.app.data["chats"]`), by identity. */
    var chats: map<ChatId, Chat>
    /** The chat whose row is selected in the threads list, if any. */
    var selected: Option<ChatId>
    /** The identity the application gives the next chat it creates. */
    var nextId: ChatId
    /** `self.t`. */
    var worker: C.Worker
    /** Whether the toast `self.toast` names ("Generating response") is on screen. */
    var toastShown: bool
    /** How many earlier toasts are still on screen although `self.toast` no longer names them. */
    var strandedToasts: nat
    /** The application settings the window reads when it tags a reply. */
    var app: AppState

    function Snapshot(): C.State
      reads this
    {
      C.State(chats, selected, nextId, worker, toastShown, strandedToasts, app)
    }

    ghost predicate Valid()
      reads this
    {
      C.Valid(Snapshot())
    }

    /** The window after `load_threads` has loaded the application's chats. */
    constructor (loaded: seq<Chat>, settings: AppState)
      ensures Valid() && Snapshot() == C.Init(loaded, settings)
    {
      chats := map i: nat | i < |loaded| :: loaded[i];
      selected := None;
      nextId := |loaded|;
      worker := C.NoThread;
      toastShown := false;
      strandedToasts := 0;
      app := settings;
    }

    /** `on_new_chat_action`: the application adds a chat and selects its row. */
    method NewChat()
      requires Valid()
      modifies this
      ensures Valid() && Snapshot() == C.NewChat(old(Snapshot()))
    {
      chats := chats[nextId := Chat(None)];
      selected := Some(nextId);
      nextId := nextId + 1;
    }

    /** The `chat` property. */
    method CurrentChat() returns (id: ChatId)
      requires Valid()
      modifies this
      ensures Valid() && (Snapshot(), id) == C.SelectChat(old(Snapshot()))
    {
      if selected.None? {
        // no selected row: AttributeError, so a new chat is created
        NewChat();
      }
      id := selected.value;
    }

    /** The `content` property: returns the current chat's messages, storing an empty list when the key is absent. */
    method Content() returns (id: ChatId, msgs: seq<Message>)
      requires Valid()
      modifies this
      ensures Valid() && (Snapshot(), id) == C.ReadContent(old(Snapshot()))
      ensures msgs == C.History(old(Snapshot()), id) == C.History(Snapshot(), id)
    {
      id := CurrentChat();
      if chats[id].content.None? {
        // KeyError: the key is created with an empty list
        chats := chats[id := Chat(Some([]))];
      }
      msgs := chats[id].content.value;
    }

    /** `add_user_item`. */
    method AddUserItem(text: string)
      requires Valid()
      modifies this
      ensures Valid() && Snapshot() == C.Append(old(Snapshot()), UserMessage(text))
    {
      var id, msgs := Content();
      chats := chats[id := Chat(Some(msgs + [UserMessage(text)]))];
    }

    /** `add_assistant_item`: the tag is chosen from the settings as they are now. */
    method AddAssistantItem(text: string)
      requires Valid()
      modifies this
      ensures Valid() && Snapshot() == C.Append(old(Snapshot()), AssistantMessage(text, old(app)))
    {
      var tag := None;
      if app.localMode && app.modelName != "" {
        tag := Some(app.modelName);
      } else if app.currentProvider != "" {
        tag := Some(app.currentProvider);
      }
      var m := Message(Assistant, text, tag);
      var id, msgs := Content();
      chats := chats[id := Chat(Some(msgs + [m]))];
    }

    /** `on_ask`. */
    method OnAsk(input: string)
      requires Valid()
      requires Strip(input) != [] ==> !C.Busy(Snapshot())
      modifies this
      ensures Valid() && Snapshot() == C.Ask(old(Snapshot()), input)
    {
      if chats == map[] {
        // no chat yet: one is created and its row selected
        NewChat();
      }
      var prompt := Strip(input);
      if prompt != [] {
        AddUserItem(prompt);
        // the worker starts and points `self.toast` at a new toast; one still
        // on screen from a request whose backend call raised is stranded
        worker := C.Running(prompt);
        if toastShown {
          strandedToasts := strandedToasts + 1;
        }
        toastShown := true;
      }
    }

    /** The worker's backend call returns and the worker queues `cleanup`. */
    method WorkerReturns(response: string)
      requires Valid() && worker.Running?
      modifies this
      ensures Valid() && Snapshot() == C.Respond(old(Snapshot()), response)
    {
      worker := C.Returned(response);
    }

    /** The worker's backend call raises and the worker thread dies. */
    method WorkerFails()
      requires Valid() && worker.Running?
      modifies this
      ensures Valid() && Snapshot() == C.BackendFails(old(Snapshot()))
    {
      worker := C.Finished;
    }

    /** `cleanup`: join the worker, dismiss the toast, append the reply. */
    method Cleanup()
      requires Valid() && worker.Returned?
      modifies this
      ensures Valid() && Snapshot() == C.Complete(old(Snapshot()))
    {
      var response := worker.response;
      worker := C.Finished;
      toastShown := false;
      AddAssistantItem(response);
    }

    /** `cancel`: kill and join the worker and dismiss the toast; without a worker, nothing. */
    method Cancel()
      requires Valid()
      modifies this
      ensures Valid() && Snapshot() == C.Cancel(old(Snapshot()))
    {
      if worker.NoThread? {
        // `self.t` does not exist: the AttributeError is swallowed
        return;
      }
      if worker.Running? {
        worker := C.Finished;
      }
      toastShown := false;
    }

    /** `on_clear_all`. */
    method OnClearAll()
      requires Valid()
      modifies this
      ensures Valid() && Snapshot() == C.ClearAll(old(Snapshot()))
    {
      var id, msgs := Content();
      if msgs != [] {
        chats := chats[id := Chat(None)];
      }
    }

    /** The user activates the row of chat `id`; the row callback reads its content. */
    method RowActivated(id: ChatId)
      requires Valid() && id in chats
      modifies this
      ensures Valid() && Snapshot() == C.Select(old(Snapshot()), id)
    {
      selected := Some(id);
      var _, _ := Content();
    }

    /** `on_local_mode_toggled`. */
    method OnLocalModeToggled(active: bool)
      requires Valid()
      modifies this
      ensures Valid() && Snapshot() == C.ToggleLocalMode(old(Snapshot()), active)
    {
      app := app.(localMode := active);
    }
  }
}
