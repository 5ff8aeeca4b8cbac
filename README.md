# Bavarder main window: transcript store and request lifecycle

This project models the stateful core of `BavarderWindow` in Bavarder, a GTK
chat client for local models and remote providers. It proves properties of that
model in Dafny.

The core has two parts.

- **Transcript store.** The application keeps a list of chats. Each chat is a
  dictionary whose `"content"` key, when present, holds the chat's messages in
  order. Each message has a `role` (`user` or `assistant`), a `content` text and,
  on replies, an optional `model` tag. The `chat` accessor returns the chat of
  the selected row and asks the application for a new chat when no row is
  selected. The `content` accessor creates an empty list under `"content"` when
  the key is missing. `add_user_item` and `add_assistant_item` append to the
  tail of that list. `on_clear_all` deletes the key.
- **Request lifecycle.** `on_ask` strips the prompt and ignores it when nothing
  is left. Otherwise it appends the user message first and then starts a worker
  thread. The worker shows the "Generating response" toast, calls the backend
  and queues `cleanup` on the main loop. `cleanup` joins the worker, dismisses
  the toast and appends the reply. `cancel` kills and joins the worker and
  dismisses the toast. When no worker was ever started, `cancel` does nothing.
  Both dismiss only the toast that `self.toast` names at that moment.

Layout:

- `wrappers.dfy`: `Option`.
- `text.dfy`: Python's `str.strip()`, with the whitespace set of `str.isspace()`.
- `transcript.dfy`: messages, chats, the settings read for tagging, and the
  three-way tag rule `ModelTag`.
- `controller.dfy`: the window's state as a value. It has one function per
  handler or worker event (`Ask`, `Respond`, `BackendFails`, `Complete`,
  `Cancel`, `ClearAll`, `Select`, ...) and lemmas about single steps.
- `traces.dfy`: events, runs of events in any order, and lemmas over runs and
  over short event sequences.
- `window.dfy`: the class `BavarderWindow`. Its fields are updated in place by
  its handler methods. Each method is proved to change the window's state
  exactly as the matching `controller.dfy` function does.

The worker thread is reduced to events that arrive later, in any order the
caller chooses:

- `Respond(response)`: the backend answered and `cleanup` is queued.
- `BackendFails`: the backend raised and the thread died.
- `Complete`: the queued `cleanup` runs.

Nothing runs in parallel. The reply text is a parameter.

In these places the code's behaviour is easy to misread. The model follows the
code, and the lemmas named below state each case:

- The reply goes to whichever chat is selected when `cleanup` runs. It does not
  go to the chat the prompt was sent to (`ReplyFollowsSelection`).
- The `model` tag is read from the settings when `cleanup` runs, not when the
  prompt was sent (`ReplyTaggedAtMerge`).
- A `cancel` after the backend answered but before `cleanup` ran does not stop
  the reply. The kill cannot withdraw a `cleanup` that is already queued
  (`CancelAfterReplyStillMerges`).
- When the backend call raises, the worker dies before it queues `cleanup`, and
  its toast stays on screen (`BackendFailureLeavesToast`). Only a `cancel`
  before the next prompt can still dismiss it. The next prompt's worker points
  `self.toast` at a new toast, and from then on nothing dismisses the old one
  (`FailedRequestToastStranded`, `StrandedToastsStay`).
- `on_clear_all` deletes the `"content"` key of a non-empty chat rather than
  emptying the list. In both cases the chat then shows no message.
- When there is no chat at all, `on_ask` creates one before it looks at the
  prompt, so a blank prompt can still add an empty chat.

## Model

| member | source | states |
|---|---|---|
| `Text.IsSpace` | src/views/window.py:233 | Defines the characters `strip()` removes: those for which Python's `str.isspace()` holds. These are the ASCII tab, line feed, vertical tab, form feed, carriage return, the separators U+001C to U+001F and the space, plus U+0085, U+00A0, U+1680, U+2000 to U+200A, U+2028, U+2029, U+202F, U+205F and U+3000. |
| `Text.TrimStart` | src/views/window.py:233 | The result is a suffix of the input, everything cut off before it is whitespace, and it does not start with whitespace. |
| `Text.TrimEnd` | src/views/window.py:233 | The result is a prefix of the input, everything cut off after it is whitespace, and it does not end with whitespace. |
| `Text.Strip` | src/views/window.py:233 | The stripped prompt is no longer than the input, and a non-empty result neither starts nor ends with whitespace. |
| `Text.StripIsSlice` | src/views/window.py:233 | The stripped prompt is one contiguous slice of the input, with only whitespace before and after it. |
| `Text.StripEmptyIffBlank` | src/views/window.py:233-234 | The prompt is ignored exactly when every character of the input is whitespace. |
| `Text.StripIdempotent` | src/views/window.py:233 | Stripping an already stripped prompt changes nothing. |
| `Transcript.ModelTag` | src/views/window.py:294-297 | A tag is present exactly when local mode has a model name or a provider is set. The local model name wins in local mode. Otherwise the provider is used, also in local mode without a model name. A present tag is never empty. |
| `Transcript.UserMessage` | src/views/window.py:277-283 | Defines the message `add_user_item` appends: role `user`, the given text, and no `model` key. |
| `Transcript.AssistantMessage` | src/views/window.py:288-297 | Defines the message `add_assistant_item` appends: role `assistant`, the reply text, and the `model` key given by `ModelTag` of the settings at that moment. |
| `Controller.Init` | src/views/window.py:112-121 | After loading, the chats are those of the application list in list order, with their messages. No row is selected, no worker exists and no toast is shown. |
| `Controller.NewChat` | src/views/window.py:139-141 | A new chat under a fresh identity is added and selected. It shows no message and no other chat changes. |
| `Controller.SelectChat` | src/views/window.py:94-101 | The `chat` accessor returns the selected chat unchanged. With no selection it creates and selects a fresh chat. No chat's messages change. |
| `Controller.ReadContent` | src/views/window.py:103-110 | After `content` is read, the current chat's `"content"` key holds exactly the messages it showed before. No chat's messages change. |
| `Controller.Append` | src/views/window.py:276-283 | Appending puts the message at the tail of the current chat, which is the fresh chat when no row was selected. It leaves every other chat and the worker, toast and settings unchanged. |
| `Controller.Ask` | src/views/window.py:227-256 | A blank prompt changes no transcript, worker or toast, and with chats present it changes nothing at all. Any other prompt adds exactly one user message with the stripped text at the tail of the current chat, changes no other chat, marks the worker running with that prompt and shows the toast. If a toast from an earlier request whose backend call raised was still on screen, it is now stranded: the number of toasts `self.toast` no longer names rises by one. |
| `Controller.Respond` | src/views/window.py:246-247 | The worker moves to "cleanup queued" with the response. Chats, selection, the next chat identity, the toasts and the settings are unchanged. |
| `Controller.BackendFails` | src/views/window.py:239-247 | The request is no longer outstanding. Chats, selection, the next chat identity, the shown toast and the stranded toasts are unchanged. |
| `Controller.Complete` | src/views/window.py:249-253 | Exactly one assistant message with the response and the tag of the current settings goes to the tail of the current chat, and no other chat changes. The worker is finished and the toast `self.toast` names is dismissed. Stranded toasts stay. |
| `Controller.Cancel` | src/views/window.py:258-264 | With no worker ever started nothing changes. Otherwise the toast `self.toast` names is dismissed and a running worker becomes finished, while a queued `cleanup` stays queued. Chats, selection and stranded toasts never change. |
| `Controller.ClearAll` | src/views/window.py:147-154 | Afterwards the current chat shows no message. Its `"content"` key is deleted if it held messages and is left as an empty list otherwise. No other chat changes. |
| `Controller.Select` | src/views/window.py:123-137 | Activating a row selects that chat and creates its `"content"` key if missing. No chat's messages change. |
| `Controller.ToggleLocalMode` | src/views/window.py:198-200 | Local mode follows the toggle. Everything else is unchanged. |
| `Controller.ReadContentIdempotent` | src/views/window.py:103-110 | Reading `content` a second time changes nothing and yields the same chat and list. |
| `Controller.CompleteAddsOneReply` | src/views/window.py:249-253 | A completion raises the number of assistant messages in the receiving chat by exactly one. |
| `Controller.ClearAllThenReadIsEmpty` | src/views/window.py:148-154 | After `on_clear_all`, the next read of `content` yields an empty list for the same chat. |
| `Traces.Run` | src/views/window.py:227-264 | The window's invariant holds after any sequence of handlers and worker events. Chat identities stay below the next fresh one, and a selected row holds an existing chat. |
| `Traces.StepAppendOnly` | src/views/window.py:276-302 | Every event except `on_clear_all` keeps each chat's old transcript as a prefix of its new one. |
| `Traces.RunAppendOnly` | src/views/window.py:276-302 | Over any run without `on_clear_all`, every chat's transcript only grows at its tail. |
| `Traces.QuietStep` | src/views/window.py:249-264 | With no request outstanding, no event other than a prompt changes the worker or adds an assistant message to any chat. |
| `Traces.QuietRun` | src/views/window.py:249-264 | The same holds over any run of such events. |
| `Traces.CancelledRequestNeverMerges` | src/views/window.py:258-262 | After a request is cancelled while its worker runs, no later run of events without a new prompt adds an assistant message to any chat, and the worker stays finished. |
| `Traces.AskOnSelected` | src/views/window.py:233-237 | With a chat selected, a non-blank prompt goes to the tail of that chat and the selection stays. |
| `Traces.CompleteOnSelected` | src/views/window.py:249-253 | With a chat selected, the reply goes to the tail of that chat, the worker is finished and the toast dismissed. |
| `Traces.PromptThenReply` | src/views/window.py:233-253 | A prompt and its reply leave the chat with the user message followed by exactly one assistant message, tagged from the settings. The request is over and the toast dismissed. |
| `Traces.CancelBeforeReplyDropsIt` | src/views/window.py:258-262 | After a prompt and a cancel before the answer, the chat holds the prompt only. The worker is finished, the toast dismissed, and no reply, failure or `cleanup` can arrive any more. |
| `Traces.BackendFailureLeavesToast` | src/views/window.py:239-247 | When the backend raises, the chat holds the prompt only and no request is outstanding, but the toast is still shown. |
| `Traces.FailedRequestToastStranded` | src/views/window.py:239-253 | A prompt whose backend call raises, followed by a second prompt that completes, leaves the first toast on screen for good. The second `cleanup` dismisses only the second toast, and the stranded count rises by one. |
| `Traces.StrandedToastsStay` | src/views/window.py:240-262 | Over any run of events, the number of stranded toasts never falls: neither `cleanup` nor `cancel` reaches them. |
| `Traces.ReplyFollowsSelection` | src/views/window.py:249-253 | If the user switches chats before `cleanup`, the prompt stays in the first chat and the reply lands in the chat selected at merge time. |
| `Traces.ReplyTaggedAtMerge` | src/views/window.py:294-297 | If local mode is toggled before `cleanup`, the reply's tag follows the settings at merge time. |
| `Traces.CancelAfterReplyStillMerges` | src/views/window.py:249-262 | A cancel between the backend's answer and `cleanup` does not prevent the reply from being appended after the prompt. |
| `Window.BavarderWindow.constructor` | src/views/window.py:112-121 | The new window's state is the loaded state of `Controller.Init`. |
| `Window.BavarderWindow.NewChat` | src/views/window.py:139-141 | Updates the fields exactly as `Controller.NewChat`. |
| `Window.BavarderWindow.CurrentChat` | src/views/window.py:94-101 | Returns the chat and updates the fields exactly as `Controller.SelectChat`. |
| `Window.BavarderWindow.Content` | src/views/window.py:103-110 | Returns the list and updates the fields exactly as `Controller.ReadContent`. The returned messages are the ones the chat showed before. |
| `Window.BavarderWindow.AddUserItem` | src/views/window.py:276-283 | Appends a user message in place, as `Controller.Append`. |
| `Window.BavarderWindow.AddAssistantItem` | src/views/window.py:287-302 | Chooses the tag by the three-way test of the source and appends in place. The result equals `Controller.Append` with `AssistantMessage` under the settings of the moment. |
| `Window.BavarderWindow.OnAsk` | src/views/window.py:227-256 | Updates the fields exactly as `Controller.Ask`. |
| `Window.BavarderWindow.WorkerReturns` | src/views/window.py:246-247 | Updates the fields exactly as `Controller.Respond`. |
| `Window.BavarderWindow.WorkerFails` | src/views/window.py:239-247 | Updates the fields exactly as `Controller.BackendFails`. |
| `Window.BavarderWindow.Cleanup` | src/views/window.py:249-253 | Joins, dismisses and appends the reply, exactly as `Controller.Complete`. |
| `Window.BavarderWindow.Cancel` | src/views/window.py:258-264 | Updates the fields exactly as `Controller.Cancel`, including doing nothing when no worker exists. |
| `Window.BavarderWindow.OnClearAll` | src/views/window.py:147-154 | Updates the fields exactly as `Controller.ClearAll`. |
| `Window.BavarderWindow.RowActivated` | src/views/window.py:123-137 | Updates the fields exactly as `Controller.Select`. |
| `Window.BavarderWindow.OnLocalModeToggled` | src/views/window.py:198-200 | Updates the fields exactly as `Controller.ToggleLocalMode`. |

## Left out

- Controller.Ask: a non-blank prompt is only modelled while no request is outstanding. The source lets a second prompt through and overwrites `self.t` and `self.toast`, leaving the earlier worker running and unreachable by `cancel`. Modelling that needs a collection of orphaned workers. A prompt after a request whose backend call raised is modelled, including the toast it strands.
- Window.BavarderWindow.OnAsk: the same restriction as `Controller.Ask`.
- Thread mechanics are not modelled: `KillableThread`, `kill`, `join` and `GLib.idle_add` scheduling. They become the abstract events `Respond`, `BackendFails`, `Complete` and `Cancel`. `bavarder.threading` is not part of this model.
- The backend call `self.app.ask(prompt, self.chat)` is not modelled. It is a foreign call. Its answer is an arbitrary string parameter, and which chat it was given is not tracked.
- The toast is created inside the worker thread (lines 240-245). The model treats it as shown when the worker starts. A `cancel` that kills the worker before it assigned `self.toast` raises an `AttributeError` that the source swallows; the model does not distinguish that case.
- The `"time"` key of messages (`time.strftime("%X")`) is not modelled. It is wall-clock formatting.
- The chat's `"title"` key and all widget work are not modelled. This covers the stack, `main_list` rebuilding, the title, clearing the message entry (line 235) and the status pages. It is presentation only.
- `on_new_chat_action` is handled by the application, which is not part of this model. A new chat is modelled as a fresh identity with no `"content"` key whose row becomes selected. The class-level `self.threads` list is modelled as "the application has no chat".
- The provider and model menus, `check_network`, `create_action` and the `Gio.Settings` geometry bindings are not modelled. They are UI and I/O wrappers.
- `on_local_mode_toggled` is modelled only for the flag it writes to the application. Icons and button visibility are not modelled.
- The selected provider and local model name are not modelled as changing. They are set by application actions that are not part of this model, and in the model they come from the settings given at construction. Python's `None` and the empty string are both written as `""`, since the source only tests them for truthiness.
