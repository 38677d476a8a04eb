/** The chat front end: how a backend reply becomes the text shown, when it counts as an error,
    how the reasoning tags are removed, and how the chat history grows and is cleared. */
module FrontendApp {

  import opened Wrappers
  import opened PyValue
  import opened PyText

  const ErrorPrefix: string := "Error:"
  const StatusTail: string := " Backend returned status code "
  const StatusPrefix: string := ErrorPrefix + StatusTail
  const ConnectionTail: string := " Could not connect to backend service. Please make sure the backend is running."
  const TimeoutTail: string := " Request timed out. The backend might be processing a heavy task."
  const RequestFailedTail: string := " Request failed - "
  const UnexpectedTail: string := " Unexpected error - "
  const NoThinkPrefix: string := "nothink/ "
  const ThinkOpen: string := "<think>\n"
  const ThinkClose: string := "</think>\n"

  /** How the POST to `/ask` ends. `Delivered` carries the status, the raw body and the body
      parsed as JSON (None when it is not JSON). A connect timeout counts as a failed connection,
      which its exception class is checked as first. */
  datatype Transport =
    | Delivered(status: int, text: string, json: Option<Value>)
    | ConnectionFailed
    | TimedOut
    | RequestFailed(message: string)
    | Unexpected(message: string)

  /** `call_backend_api(prompt, model)` given how the request ended. `pyStr` is Python's `str()`
      of a JSON value. The reply is any JSON value: a `response` field is returned as it is. */
  function CallBackendApi(t: Transport, pyStr: Value -> string): (reply: Value)
    ensures !t.Delivered? || t.status != 200 ==> reply.Str? && StartsWith(reply.s, ErrorPrefix)
    ensures t.Delivered? && t.status != 200 ==> reply == Str(StatusPrefix + IntToString(t.status))
    ensures t.ConnectionFailed? ==> reply == Str(ErrorPrefix + ConnectionTail)
    ensures t.TimedOut? ==> reply == Str(ErrorPrefix + TimeoutTail)
    ensures t.RequestFailed? ==> reply == Str(ErrorPrefix + RequestFailedTail + t.message)
    ensures t.Unexpected? ==> reply == Str(ErrorPrefix + UnexpectedTail + t.message)
    ensures t.Delivered? && t.status == 200 && t.json.None? ==> reply == Str(t.text)
    ensures t.Delivered? && t.status == 200 && t.json.Some? && !t.json.value.Obj? ==> reply == Str(pyStr(t.json.value))
    ensures t.Delivered? && t.status == 200 && t.json.Some? && t.json.value.Obj? ==>
              var body := t.json.value.fields;
              reply == if "response" in body then body["response"]
                       else if "text" in body then body["text"]
                       else Str(pyStr(t.json.value))
  {
    match t
    case Delivered(status, text, json) =>
      if status == 200 then
        match json
        case None => Str(text)
        case Some(Obj(body)) =>
          if "response" in body then body["response"]
          else if "text" in body then body["text"]
          else Str(pyStr(Obj(body)))
        case Some(other) => Str(pyStr(other))
      else
        ErrorText(StatusTail + IntToString(status))
    case ConnectionFailed => ErrorText(ConnectionTail)
    case TimedOut => ErrorText(TimeoutTail)
    case RequestFailed(m) => ErrorText(RequestFailedTail + m)
    case Unexpected(m) => ErrorText(UnexpectedTail + m)
  }

  /** The text of an `except` branch: "Error:" followed by the branch's own message. */
  function ErrorText(tail: string): (reply: Value)
    ensures reply.Str? && StartsWith(reply.s, ErrorPrefix) && reply.s[|ErrorPrefix|..] == tail
  {
    Str(ErrorPrefix + tail)
  }

  /** The status code can be read back from the error text for a non-200 reply. */
  lemma StatusRecoverable(t: Transport, pyStr: Value -> string)
    requires t.Delivered? && t.status != 200 && t.status >= 0
    ensures var s := CallBackendApi(t, pyStr).s;
            && StartsWith(s, StatusPrefix) && AllDigits(s[|StatusPrefix|..])
            && ParseDigits(s[|StatusPrefix|..]) == t.status
  {
    var s := StatusPrefix + NatDigits(t.status);
    assert s[|StatusPrefix|..] == NatDigits(t.status);
    ParseNatDigits(t.status);
  }

  /** `isinstance(response, str) and response.startswith("Error:")` */
  predicate IsError(reply: Value) {
    reply.Str? && StartsWith(reply.s, ErrorPrefix)
  }

  /** A reply counts as an error exactly when the request did not come back with 200, or the
      backend itself answered with a string starting "Error:". */
  lemma ErrorClassification(t: Transport, pyStr: Value -> string)
    ensures !t.Delivered? || t.status != 200 ==> IsError(CallBackendApi(t, pyStr))
    ensures t.Delivered? && t.status == 200 && t.json.None? ==>
              (IsError(CallBackendApi(t, pyStr)) <==> StartsWith(t.text, ErrorPrefix))
  {
  }

  /** `.replace("</think>\n", "").replace("<think>\n", "")` */
  function StripThink(s: string): (r: string)
    ensures |r| <= |s|
  {
    ReplaceEmptyShrinks(s, ThinkClose);
    var once := ReplaceAll(s, ThinkClose, "");
    ReplaceEmptyShrinks(once, ThinkOpen);
    ReplaceAll(once, ThinkOpen, "")
  }

  /** Deleting every occurrence of a pattern never makes the text longer. */
  lemma {:induction false} ReplaceEmptyShrinks(s: string, p: string)
    requires p != []
    ensures |ReplaceAll(s, p, "")| <= |s|
    decreases |s|
  {
    if |s| >= |p| {
      if s[..|p|] == p {
        ReplaceEmptyShrinks(s[|p|..], p);
      } else {
        ReplaceEmptyShrinks(s[1..], p);
      }
    }
  }

  /** A reply with neither tag is stored exactly as it came. */
  lemma StripThinkWithoutTags(s: string)
    requires !Contains(s, ThinkClose) && !Contains(s, ThinkOpen)
    ensures StripThink(s) == s
  {
    ReplaceAbsent(s, ThinkClose, "");
    ReplaceAbsent(s, ThinkOpen, "");
  }

  // ---------------------------------------------------------------------------
  // The chat history

  datatype Role = User | Assistant

  /** One entry of `st.session_state.messages`. User entries have no `error` key. */
  datatype Message = Message(role: Role, content: Value, timestamp: string, error: Option<bool>)

  /** The JSON body posted to `/ask`. */
  datatype AskPayload = AskPayload(model: string, text: string)

  /** The entry stored for a string reply. */
  function AssistantMessage(reply: string, timestamp: string): (m: Message)
    ensures m.role == Assistant && m.content == Str(StripThink(reply)) && m.timestamp == timestamp
    ensures m.error == Some(StartsWith(reply, ErrorPrefix))
  {
    Message(Assistant, Str(StripThink(reply)), timestamp, Some(IsError(Str(reply))))
  }

  class ChatSession {
    var messages: seq<Message>

    /** `st.session_state.messages = []` on first load. */
    constructor ()
      ensures messages == []
    {
      messages := [];
    }

    /** The "Clear Chat" button. */
    method Clear()
      modifies this
      ensures messages == []
    {
      messages := [];
    }

    /** One chat input. An empty input does nothing. Otherwise the user's entry is appended, the
        prompt is sent with the "nothink/ " prefix, and the assistant's entry is appended. A reply
        that is not a string makes `.replace` raise after the user's entry was stored. */
    method Submit(prompt: string, model: string, t: Transport, pyStr: Value -> string,
                  userTime: string, replyTime: string)
      returns (sent: Option<AskPayload>, raised: Option<PyError>)
      modifies this
      ensures prompt == [] ==> sent.None? && raised.None? && messages == old(messages)
      ensures prompt != [] ==> sent == Some(AskPayload(model, NoThinkPrefix + prompt))
      ensures prompt != [] && CallBackendApi(t, pyStr).Str? ==>
                && raised.None?
                && messages == old(messages) + [Message(User, Str(prompt), userTime, None),
                                                AssistantMessage(CallBackendApi(t, pyStr).s, replyTime)]
      ensures prompt != [] && !CallBackendApi(t, pyStr).Str? ==>
                && raised == Some(AttributeError("'" + TypeName(CallBackendApi(t, pyStr)) + "' object has no attribute 'replace'"))
                && messages == old(messages) + [Message(User, Str(prompt), userTime, None)]
    {
      if prompt == [] {
        return None, None;
      }
      messages := messages + [Message(User, Str(prompt), userTime, None)];
      sent := Some(AskPayload(model, NoThinkPrefix + prompt));
      var response := CallBackendApi(t, pyStr);
      var isError := IsError(response);
      if !response.Str? {
        return sent, Some(AttributeError("'" + TypeName(response) + "' object has no attribute 'replace'"));
      }
      messages := messages + [Message(Assistant, Str(StripThink(response.s)), replyTime, Some(isError))];
      raised := None;
    }

    /** "Clear Chat" followed by one chat input per prompt, each non-empty and answered with a
        string: the history ends with one user and one assistant entry per prompt, alternating. */
    method ChatAfterClear(model: string, prompts: seq<string>, replies: seq<Transport>, pyStr: Value -> string,
                          userTimes: seq<string>, replyTimes: seq<string>)
      requires |replies| == |prompts| && |userTimes| == |prompts| && |replyTimes| == |prompts|
      requires forall i :: 0 <= i < |prompts| ==> prompts[i] != [] && CallBackendApi(replies[i], pyStr).Str?
      modifies this
      ensures |messages| == 2 * |prompts|
      ensures forall i :: 0 <= i < |messages| ==> messages[i].role == (if i % 2 == 0 then User else Assistant)
      ensures forall i :: 0 <= i < |prompts| ==> messages[2 * i].content == Str(prompts[i])
    {
      Clear();
      ghost var steps: seq<(Message, Message)> := [];
      for i := 0 to |prompts|
        invariant |steps| == i && messages == Flatten(steps)
        invariant forall j :: 0 <= j < i ==> steps[j].0 == Message(User, Str(prompts[j]), userTimes[j], None)
        invariant forall j :: 0 <= j < i ==> steps[j].1.role == Assistant
      {
        var _, _ := Submit(prompts[i], model, replies[i], pyStr, userTimes[i], replyTimes[i]);
        ghost var before := steps;
        steps := steps + [(Message(User, Str(prompts[i]), userTimes[i], None),
                           AssistantMessage(CallBackendApi(replies[i], pyStr).s, replyTimes[i]))];
        assert steps[..|steps| - 1] == before;
      }
      AlternatingHistory(messages, steps);
      FlattenShape(steps);
    }
  }

  /** A history made of (user, assistant) pairs has two entries per pair, alternating user and
      assistant; ChatAfterClear shows that Clear followed by chat inputs builds such a history. */
  lemma AlternatingHistory(history: seq<Message>, steps: seq<(Message, Message)>)
    requires history == Flatten(steps)
    requires forall i :: 0 <= i < |steps| ==> steps[i].0.role == User && steps[i].1.role == Assistant
    ensures |history| == 2 * |steps|
    ensures forall i :: 0 <= i < |history| ==> history[i].role == (if i % 2 == 0 then User else Assistant)
  {
    FlattenShape(steps);
  }

  /** The history built by a sequence of submissions, each adding a user and an assistant entry. */
  function Flatten(steps: seq<(Message, Message)>): seq<Message> {
    if steps == [] then [] else Flatten(steps[..|steps| - 1]) + [steps[|steps| - 1].0, steps[|steps| - 1].1]
  }

  lemma {:induction false} FlattenShape(steps: seq<(Message, Message)>)
    ensures |Flatten(steps)| == 2 * |steps|
    ensures forall i :: 0 <= i < |steps| ==> Flatten(steps)[2 * i] == steps[i].0 && Flatten(steps)[2 * i + 1] == steps[i].1
    decreases |steps|
  {
    if steps != [] {
      var init := steps[..|steps| - 1];
      FlattenShape(init);
      forall i | 0 <= i < |init| ensures Flatten(steps)[2 * i] == steps[i].0 && Flatten(steps)[2 * i + 1] == steps[i].1 {
        assert init[i] == steps[i];
      }
    }
  }
}
