/**
  The conversation transcript store of Bavarder's main window: a chat is a
  dictionary whose "content" key, when present, holds the ordered list of message
  dictionaries of that conversation; the message dictionaries are immutable once
  appended.
 */
module Transcript {
  import opened Wrappers

  /** Identity of a chat within the application's list of chats. */
  type ChatId = nat

  datatype Role = User | Assistant

  /**
    One message dictionary: its "role", its "content" and its optional "model"
    key (None when the key is absent). The "time" key is not modelled.
   */
  datatype Message = Message(role: Role, content: string, model: Option<string>)

  /**
    A chat dictionary, reduced to its "content" key: None when the key is absent
    (a chat that was never read through the `content` accessor, or one that was
    cleared), Some(list) when it is present.
   */
  datatype Chat = Chat(content: Option<seq<Message>>)

  /** The messages a chat shows: an absent "content" key shows as no message. */
  function Messages(c: Chat): seq<Message> {
    c.content.GetOr([])
  }

  /**
    The part of the application's state the window reads when it tags a reply:
    whether local mode is on, the selected local model and the selected remote
    provider. Python's `None` and `""` are both falsy; both are written "" here.
   */
  datatype AppState = AppState(localMode: bool, modelName: string, currentProvider: string)

  /**
    The "model" key of an assistant message: the local model name when local
    mode is on and a model is set, otherwise the current provider when one is
    set, otherwise no key at all. A tag, when present, is never empty.
   */
  function ModelTag(app: AppState): (tag: Option<string>)
    ensures tag.Some? <==> (app.localMode && app.modelName != "") || app.currentProvider != ""
    ensures tag.Some? ==> tag.value != "" && (tag.value == app.modelName || tag.value == app.currentProvider)
    ensures app.localMode && app.modelName != "" ==> tag == Some(app.modelName)
    ensures !app.localMode && app.currentProvider != "" ==> tag == Some(app.currentProvider)
    ensures app.localMode && app.modelName == "" && app.currentProvider != "" ==> tag == Some(app.currentProvider)
  {
    if app.localMode && app.modelName != "" then Some(app.modelName)
    else if app.currentProvider != "" then Some(app.currentProvider)
    else None
  }

  /** The dictionary `add_user_item` appends: role "user", the text, no model key. */
  function UserMessage(text: string): Message {
    Message(User, text, None)
  }

  /** The dictionary `add_assistant_item` appends: role "assistant", the reply, the tag. */
  function AssistantMessage(text: string, app: AppState): Message {
    Message(Assistant, text, ModelTag(app))
  }

  /** The number of assistant replies in a transcript. */
  function AssistantCount(ms: seq<Message>): (n: nat)
    ensures n <= |ms|
  {
    if ms == [] then 0
    else AssistantCount(ms[..|ms| - 1]) + (if ms[|ms| - 1].role == Assistant then 1 else 0)
  }

  /** Appending one message adds one to the count exactly when it is a reply. */
  lemma AssistantCountAppend(ms: seq<Message>, m: Message)
    ensures AssistantCount(ms + [m]) == AssistantCount(ms) + (if m.role == Assistant then 1 else 0)
  {
    assert (ms + [m])[..|ms|] == ms;
  }
}
