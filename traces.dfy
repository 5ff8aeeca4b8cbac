/**
  Runs of the window: any sequence of the handlers and worker events of
  controller.dfy, in any order the user and the worker thread produce them.
  The lemmas here state what holds of whole runs rather than of one step.
 */
module Traces {
  import opened Wrappers
  import opened Text
  import opened Transcript
  import C = Controller

  /** One thing that can happen to the window. */
  datatype Event =
    | Ask(input: string)          // on_ask with the entry's text
    | Respond(response: string)   // the worker's backend call returns
    | BackendFails                // the worker's backend call raises
    | Complete                    // the queued cleanup runs
    | Cancel                      // the "cancel" action
    | ClearAll                    // on_clear_all
    | Select(id: ChatId)          // the user activates a chat's row
    | ToggleLocalMode(active: bool)

  /**
    Whether `e` can happen in `s`: worker events need a worker in the right
    phase, a row can only be activated for an existing chat, and a non-blank
    prompt is only modelled when no request is outstanding.
   */
  predicate Enabled(s: C.State, e: Event) {
    match e
    case Ask(input) => Strip(input) != [] ==> !C.Busy(s)
    case Respond(_) => s.worker.Running?
    case BackendFails => s.worker.Running?
    case Complete => s.worker.Returned?
    case Select(id) => id in s.chats
    case _ => true
  }

  function Step(s: C.State, e: Event): (r: C.State)
    requires C.Valid(s) && Enabled(s, e)
    ensures C.Valid(r)
  {
    match e
    case Ask(input) => C.Ask(s, input)
    case Respond(response) => C.Respond(s, response)
    case BackendFails => C.BackendFails(s)
    case Complete => C.Complete(s)
    case Cancel => C.Cancel(s)
    case ClearAll => C.ClearAll(s)
    case Select(id) => C.Select(s, id)
    case ToggleLocalMode(active) => C.ToggleLocalMode(s, active)
  }

  /** The state after the events `es`; an event that cannot happen where it stands does not arrive. */
  function Run(s: C.State, es: seq<Event>): (r: C.State)
    requires C.Valid(s)
    ensures C.Valid(r)
    decreases |es|
  {
    if es == [] then s
    else Run(if Enabled(s, es[0]) then Step(s, es[0]) else s, es[1..])
  }

  /** Every event except `on_clear_all` only ever appends: old transcripts are prefixes of new ones. */
  lemma StepAppendOnly(s: C.State, e: Event)
    requires C.Valid(s) && Enabled(s, e) && !e.ClearAll?
    ensures forall id :: C.History(s, id) <= C.History(Step(s, e), id)
  {
    var r := Step(s, e);
    forall id ensures C.History(s, id) <= C.History(r, id) {
      if e.Ask? || e.Complete? {
        if r.selected.Some? && id == r.selected.value {
          assert C.History(s, id) <= C.History(s, id) + [if e.Ask? then UserMessage(Strip(e.input)) else AssistantMessage(s.worker.response, s.app)];
        }
      }
    }
  }

  /** Over any run without `on_clear_all`, every chat's transcript only grows at its tail. */
  lemma {:induction false} RunAppendOnly(s: C.State, es: seq<Event>)
    requires C.Valid(s)
    requires forall k :: 0 <= k < |es| ==> !es[k].ClearAll?
    ensures forall id :: C.History(s, id) <= C.History(Run(s, es), id)
    decreases |es|
  {
    if es != [] {
      var t := if Enabled(s, es[0]) then Step(s, es[0]) else s;
      if Enabled(s, es[0]) {
        StepAppendOnly(s, es[0]);
      }
      RunAppendOnly(t, es[1..]);
      assert Run(s, es) == Run(t, es[1..]);
    }
  }

  /**
    With no request outstanding, no event other than a prompt changes the
    worker or adds an assistant message to any chat.
   */
  lemma QuietStep(s: C.State, e: Event)
    requires C.Valid(s) && Enabled(s, e) && !C.Busy(s) && !e.Ask?
    ensures Step(s, e).worker == s.worker
    ensures forall id :: AssistantCount(C.History(Step(s, e), id)) <= AssistantCount(C.History(s, id))
  {
  }

  lemma {:induction false} QuietRun(s: C.State, es: seq<Event>)
    requires C.Valid(s) && !C.Busy(s)
    requires forall k :: 0 <= k < |es| ==> !es[k].Ask?
    ensures Run(s, es).worker == s.worker
    ensures forall id :: AssistantCount(C.History(Run(s, es), id)) <= AssistantCount(C.History(s, id))
    decreases |es|
  {
    if es != [] {
      var t := if Enabled(s, es[0]) then Step(s, es[0]) else s;
      if Enabled(s, es[0]) {
        QuietStep(s, es[0]);
      }
      QuietRun(t, es[1..]);
      assert Run(s, es) == Run(t, es[1..]);
    }
  }

  /**
    A request cancelled while its worker runs never reaches `cleanup`: whatever
    happens afterwards, short of a new prompt, no chat gains an assistant
    message and the worker stays finished.
   */
  lemma CancelledRequestNeverMerges(s: C.State, es: seq<Event>)
    requires C.Valid(s) && s.worker.Running?
    requires forall k :: 0 <= k < |es| ==> !es[k].Ask?
    ensures var r := Run(C.Cancel(s), es);
      && r.worker == C.Finished
      && forall id :: AssistantCount(C.History(r, id)) <= AssistantCount(C.History(s, id))
  {
    QuietRun(C.Cancel(s), es);
  }

  /** `on_ask` with a non-blank prompt while a chat is selected: the prompt goes to that chat. */
  lemma AskOnSelected(s: C.State, input: string)
    requires C.Valid(s) && !C.Busy(s) && Strip(input) != [] && s.selected.Some?
    ensures var r := C.Ask(s, input);
      && C.Valid(r) && r.selected == s.selected && r.app == s.app && r.worker == C.Running(Strip(input))
      && C.History(r, s.selected.value) == C.History(s, s.selected.value) + [UserMessage(Strip(input))]
  {
  }

  /** `cleanup` while a chat is selected: the reply goes to that chat. */
  lemma CompleteOnSelected(s: C.State)
    requires C.Valid(s) && s.worker.Returned? && s.selected.Some?
    ensures var r := C.Complete(s);
      && r.selected == s.selected && r.worker == C.Finished && !r.toastShown
      && C.History(r, s.selected.value) == C.History(s, s.selected.value) + [AssistantMessage(s.worker.response, s.app)]
  {
  }

  /**
    A prompt answered by the backend: the chat gains the user message and,
    after it, exactly one assistant message carrying the response and the tag
    of the current settings; the request is over and the toast dismissed.
   */
  lemma PromptThenReply(s: C.State, input: string, response: string)
    requires C.Valid(s) && !C.Busy(s) && Strip(input) != [] && s.selected.Some?
    ensures var a := s.selected.value; var r := C.Complete(C.Respond(C.Ask(s, input), response));
      && r.selected == s.selected
      && C.History(r, a) == C.History(s, a) + [UserMessage(Strip(input)), AssistantMessage(response, s.app)]
      && r.worker == C.Finished && !r.toastShown
  {
    var a := s.selected.value;
    AskOnSelected(s, input);
    CompleteOnSelected(C.Respond(C.Ask(s, input), response));
    assert C.History(s, a) + [UserMessage(Strip(input))] + [AssistantMessage(response, s.app)]
      == C.History(s, a) + [UserMessage(Strip(input)), AssistantMessage(response, s.app)];
  }

  /**
    A cancel before the backend answers: the prompt stays in the chat, the
    worker is finished so no reply and no failure can arrive any more, and the
    toast is dismissed.
   */
  lemma CancelBeforeReplyDropsIt(s: C.State, input: string)
    requires C.Valid(s) && !C.Busy(s) && Strip(input) != [] && s.selected.Some?
    ensures var a := s.selected.value; var r := C.Cancel(C.Ask(s, input));
      && C.History(r, a) == C.History(s, a) + [UserMessage(Strip(input))]
      && r.worker == C.Finished && !r.toastShown
      && forall e: Event :: (e.Respond? || e.BackendFails? || e.Complete?) ==> !Enabled(r, e)
  {
    AskOnSelected(s, input);
  }

  /**
    The backend call raises: the prompt stays, no reply is appended and no
    request is outstanding any more, but the toast stays on screen; only a
    later `cancel` can still dismiss it.
   */
  lemma BackendFailureLeavesToast(s: C.State, input: string)
    requires C.Valid(s) && !C.Busy(s) && Strip(input) != [] && s.selected.Some?
    ensures var a := s.selected.value; var r := C.BackendFails(C.Ask(s, input));
      && C.History(r, a) == C.History(s, a) + [UserMessage(Strip(input))]
      && !C.Busy(r) && r.toastShown
  {
    AskOnSelected(s, input);
  }

  /**
    A new prompt after a request whose backend call raised strands that
    request's toast: the new worker points `self.toast` at a new toast, so the
    new request's `cleanup` dismisses only its own, and the old one stays on
    screen.
   */
  lemma FailedRequestToastStranded(s: C.State, first: string, second: string, response: string)
    requires C.Valid(s) && !C.Busy(s) && Strip(first) != [] && Strip(second) != []
    ensures var r := C.Complete(C.Respond(C.Ask(C.BackendFails(C.Ask(s, first)), second), response));
      && !r.toastShown && !C.Busy(r)
      && r.strandedToasts == s.strandedToasts + (if s.toastShown then 1 else 0) + 1
  {
  }

  /** No event ever dismisses a stranded toast: their number never falls during a run. */
  lemma {:induction false} StrandedToastsStay(s: C.State, es: seq<Event>)
    requires C.Valid(s)
    ensures s.strandedToasts <= Run(s, es).strandedToasts
    decreases |es|
  {
    if es != [] {
      var t := if Enabled(s, es[0]) then Step(s, es[0]) else s;
      assert s.strandedToasts <= t.strandedToasts;
      StrandedToastsStay(t, es[1..]);
      assert Run(s, es) == Run(t, es[1..]);
    }
  }

  /**
    The reply lands in whichever chat is selected when `cleanup` runs: after a
    prompt in chat `a`, a switch to chat `b` and the reply, `a` holds the prompt
    and `b` the reply.
   */
  lemma ReplyFollowsSelection(s: C.State, input: string, response: string, b: ChatId)
    requires C.Valid(s) && !C.Busy(s) && Strip(input) != []
    requires s.selected.Some? && b in s.chats && b != s.selected.value
    ensures var a := s.selected.value;
      var r := C.Complete(C.Respond(C.Select(C.Ask(s, input), b), response));
      && C.History(r, a) == C.History(s, a) + [UserMessage(Strip(input))]
      && C.History(r, b) == C.History(s, b) + [AssistantMessage(response, s.app)]
  {
    var a := s.selected.value;
    AskOnSelected(s, input);
    var s2 := C.Select(C.Ask(s, input), b);
    assert C.History(s2, a) == C.History(C.Ask(s, input), a);
    assert C.History(s2, b) == C.History(s, b);
    var s3 := C.Respond(s2, response);
    CompleteOnSelected(s3);
    assert C.History(C.Complete(s3), a) == C.History(s3, a);
  }

  /**
    The reply's "model" tag is read from the settings as they are when
    `cleanup` runs, not as they were when the prompt was sent.
   */
  lemma ReplyTaggedAtMerge(s: C.State, input: string, response: string, active: bool)
    requires C.Valid(s) && !C.Busy(s) && Strip(input) != [] && s.selected.Some?
    ensures var a := s.selected.value;
      var r := C.Complete(C.Respond(C.ToggleLocalMode(C.Ask(s, input), active), response));
      C.History(r, a) == C.History(s, a)
        + [UserMessage(Strip(input)), AssistantMessage(response, s.app.(localMode := active))]
  {
    var a := s.selected.value;
    AskOnSelected(s, input);
    var s3 := C.Respond(C.ToggleLocalMode(C.Ask(s, input), active), response);
    CompleteOnSelected(s3);
    assert C.History(s, a) + [UserMessage(Strip(input))] + [AssistantMessage(response, s3.app)]
      == C.History(s, a) + [UserMessage(Strip(input)), AssistantMessage(response, s3.app)];
  }

  /**
    A cancel that comes after the backend answered but before `cleanup` ran
    does not stop the reply: the kill cannot withdraw the queued `cleanup`, and
    the reply is still appended after the prompt.
   */
  lemma CancelAfterReplyStillMerges(s: C.State, input: string, response: string)
    requires C.Valid(s) && !C.Busy(s) && Strip(input) != [] && s.selected.Some?
    ensures var a := s.selected.value;
      var r := C.Complete(C.Cancel(C.Respond(C.Ask(s, input), response)));
      && C.History(r, a) == C.History(s, a) + [UserMessage(Strip(input)), AssistantMessage(response, s.app)]
      && !r.toastShown && !C.Busy(r)
  {
    var a := s.selected.value;
    AskOnSelected(s, input);
    var s3 := C.Cancel(C.Respond(C.Ask(s, input), response));
    CompleteOnSelected(s3);
    assert C.History(s, a) + [UserMessage(Strip(input))] + [AssistantMessage(response, s.app)]
      == C.History(s, a) + [UserMessage(Strip(input)), AssistantMessage(response, s.app)];
  }
}
