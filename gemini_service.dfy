/**
  `ChatManager.sendMessage`: send the user's message, then, for as long as
  the model answers with function calls, run every call of the turn through
  `executeTool` and send all the function responses back in one message.
  The remote chat is an oracle: a `Chat` object that records what it is sent
  and hands out a scripted sequence of replies; once the script is used up
  every further send fails, like a dropped connection.
 */
module GeminiService {
  import opened Types
  import Tools
  import opened Seqs

  /** A function call the model asks for; `id` may be absent. */
  datatype FunctionCall = FunctionCall(name: string, id: Option<string>, args: Tools.Args)

  /** A part of a candidate's content; only function-call parts matter here. */
  datatype Part = TextPart(text: string) | CallPart(call: FunctionCall) | OtherPart

  /** A candidate; `parts` is `None` when its content or its parts are missing. */
  datatype Candidate = Candidate(parts: Option<seq<Part>>)

  /** A model response: its candidates (possibly absent) and its `text` (possibly absent). */
  datatype Response = Response(candidates: Option<seq<Candidate>>, text: Option<string>)

  /** What the chat answers to a send: a response, or a failure (network, key, quota). */
  datatype ChatReply = Answered(response: Response) | Failed

  /** `{result: value}` or `{error: message}`. */
  datatype ResponseBody = ResultBody(result: Tools.Payload) | ErrorBody(error: string)

  datatype FunctionResponse = FunctionResponse(name: string, id: Option<string>, response: ResponseBody)

  /** What `chat.sendMessage` is given: the user's text, or one batch of function responses. */
  datatype ChatMessage = UserText(text: string) | ToolResponses(responses: seq<FunctionResponse>)

  const Fallback: string := "I processed the request but received no text output."
  const ErrorText: string :=
    "I encountered an error while communicating with the inspection database. " +
    "Please ensure your API key is valid."

  /** The remote chat session, as an oracle with a log of what it was sent. */
  class Chat {
    var sent: seq<ChatMessage>
    var replies: seq<ChatReply>

    constructor(script: seq<ChatReply>)
      ensures sent == [] && replies == script
    {
      sent := [];
      replies := script;
    }

    /** `chat.sendMessage`: logs the message and hands out the next scripted reply. */
    method SendMessage(m: ChatMessage) returns (r: ChatReply)
      modifies this
      ensures sent == old(sent) + [m]
      ensures old(replies) == [] ==> r == Failed && replies == []
      ensures old(replies) != [] ==> r == old(replies)[0] && replies == old(replies)[1..]
    {
      sent := sent + [m];
      if replies == [] {
        r := Failed;
      } else {
        r := replies[0];
        replies := replies[1..];
      }
    }
  }

  /** The call a part carries; parts without one are filtered out before this is read. */
  function CallOf(p: Part): FunctionCall
  {
    if p.CallPart? then p.call else FunctionCall("", None, map[])
  }

  /** `parts.filter(p => !!p.functionCall)`, keeping the calls. */
  function FunctionCalls(parts: seq<Part>): (calls: seq<FunctionCall>)
    ensures |calls| <= |parts|
  {
    FilterMap((p: Part) => p.CallPart?, CallOf, parts)
  }

  /** A call is in the batch exactly when some part of the turn carries it. */
  lemma FunctionCallsMembership(parts: seq<Part>, call: FunctionCall)
    ensures call in FunctionCalls(parts) <==> CallPart(call) in parts
  {
    FilterMapMembership((p: Part) => p.CallPart?, CallOf, parts, call);
    if CallPart(call) in parts {
      var i :| 0 <= i < |parts| && parts[i] == CallPart(call);
      assert CallOf(parts[i]) == call;
    }
  }

  /** Parts that are not calls add nothing; a turn without call parts has no calls. */
  lemma NoCallParts(parts: seq<Part>)
    ensures |FunctionCalls(parts)| == 0 <==> forall i :: 0 <= i < |parts| ==> !parts[i].CallPart?
  {
    var calls := FunctionCalls(parts);
    if |calls| > 0 {
      FilterMapMembership((p: Part) => p.CallPart?, CallOf, parts, calls[0]);
    }
    if i :| 0 <= i < |parts| && parts[i].CallPart? {
      FilterMapMembership((p: Part) => p.CallPart?, CallOf, parts, CallOf(parts[i]));
    }
  }

  /** The function response for one call: its name and id, and the tool's result or error message. */
  function ResponseFor(db: seq<Equipment>, call: FunctionCall): (r: FunctionResponse)
    ensures r.name == call.name && r.id == call.id
    ensures r.response.ErrorBody? <==> Tools.ExecuteTool(db, call.name, call.args).Threw?
  {
    match Tools.ExecuteTool(db, call.name, call.args)
    case Returned(payload) => FunctionResponse(call.name, call.id, ResultBody(payload))
    case Threw(message) => FunctionResponse(call.name, call.id, ErrorBody(message))
  }

  /** The batch for a turn: one response per call, in call order. */
  function Responses(db: seq<Equipment>, calls: seq<FunctionCall>): (rs: seq<FunctionResponse>)
    ensures |rs| == |calls|
    ensures forall i :: 0 <= i < |calls| ==> rs[i].name == calls[i].name && rs[i].id == calls[i].id
  {
    seq(|calls|, i requires 0 <= i < |calls| => ResponseFor(db, calls[i]))
  }

  /**
    The `for` loop over a turn's calls, each call inside its own `try`: a
    throwing tool becomes an error response and the loop goes on with the
    next call.
   */
  method BuildFunctionResponses(db: seq<Equipment>, calls: seq<FunctionCall>) returns (responses: seq<FunctionResponse>)
    ensures |responses| == |calls|
    ensures forall i :: 0 <= i < |calls| ==>
      responses[i].name == calls[i].name && responses[i].id == calls[i].id
    ensures forall i :: 0 <= i < |calls| ==>
      match Tools.ExecuteTool(db, calls[i].name, calls[i].args)
      case Returned(payload) => responses[i].response == ResultBody(payload)
      case Threw(message) => responses[i].response == ErrorBody(message)
    ensures responses == Responses(db, calls)
  {
    responses := [];
    for k := 0 to |calls|
      invariant |responses| == k
      invariant forall i :: 0 <= i < k ==> responses[i] == ResponseFor(db, calls[i])
    {
      var call := calls[k];
      var outcome := Tools.ExecuteTool(db, call.name, call.args);
      if outcome.Returned? {
        responses := responses + [FunctionResponse(call.name, call.id, ResultBody(outcome.payload))];
      } else {
        responses := responses + [FunctionResponse(call.name, call.id, ErrorBody(outcome.message))];
      }
    }
  }

  /** The loop leaves at this response: no candidates, or no function call in the first one. */
  predicate IsFinal(result: Response)
  {
    result.candidates.None? || |result.candidates.value| == 0 ||
    (result.candidates.value[0].parts.Some? && |FunctionCalls(result.candidates.value[0].parts.value)| == 0)
  }

  /** Reading `candidates[0].content.parts` throws: the content or its parts are missing. */
  predicate IsMalformed(result: Response)
  {
    !IsFinal(result) && result.candidates.value[0].parts.None?
  }

  /** The calls of a response that continues the loop. */
  function TurnCalls(result: Response): seq<FunctionCall>
    requires !IsFinal(result) && !IsMalformed(result)
  {
    FunctionCalls(result.candidates.value[0].parts.value)
  }

  /** `result.text || "I processed the request but received no text output."` */
  function FinalText(result: Response): (t: string)
    ensures t != ""
    ensures result.text.Some? && result.text.value != "" ==> t == result.text.value
  {
    if result.text.Some? && result.text.value != "" then result.text.value else Fallback
  }

  /** How a conversation ends: the returned string, the messages sent, the replies consumed. */
  datatype Outcome = Outcome(reply: string, sent: seq<ChatMessage>, consumed: nat)

  /** The `while (true)` loop from response `result`, with `script` the replies still to come. */
  function Loop(db: seq<Equipment>, result: Response, script: seq<ChatReply>): (o: Outcome)
    ensures o.consumed <= |script|
    ensures o.consumed <= |o.sent| <= o.consumed + 1
    ensures o.reply != ""
    decreases |script|
  {
    if IsFinal(result) then Outcome(FinalText(result), [], 0)
    else if IsMalformed(result) then Outcome(ErrorText, [], 0)
    else
      var m := ToolResponses(Responses(db, TurnCalls(result)));
      if script == [] || script[0].Failed? then Outcome(ErrorText, [m], if script == [] then 0 else 1)
      else
        var o := Loop(db, script[0].response, script[1..]);
        Outcome(o.reply, [m] + o.sent, o.consumed + 1)
  }

  /** The whole of `sendMessage(message)` against the scripted replies. */
  function Conversation(db: seq<Equipment>, message: string, script: seq<ChatReply>): (o: Outcome)
    ensures o.consumed <= |script|
    ensures 1 <= |o.sent| && o.consumed <= |o.sent| <= o.consumed + 1
    ensures o.reply != ""
  {
    if script == [] then Outcome(ErrorText, [UserText(message)], 0)
    else if script[0].Failed? then Outcome(ErrorText, [UserText(message)], 1)
    else
      var o := Loop(db, script[0].response, script[1..]);
      Outcome(o.reply, [UserText(message)] + o.sent, o.consumed + 1)
  }

  /** `m` is the batch answering the calls of response `r`. */
  predicate BatchFor(db: seq<Equipment>, m: ChatMessage, r: Response)
  {
    !IsFinal(r) && !IsMalformed(r) && m == ToolResponses(Responses(db, TurnCalls(r)))
  }

  /** A response that continues the loop carries at least one call, so no batch is empty. */
  lemma BatchNotEmpty(db: seq<Equipment>, m: ChatMessage, r: Response)
    requires BatchFor(db, m, r)
    ensures m.ToolResponses? && |m.responses| == |TurnCalls(r)| > 0
  {
  }

  /**
    The loop leaves without sending anything exactly when the response has
    no candidates, its first candidate has no call, or that candidate is
    malformed; on a final response the reply is its text or the fallback.
   */
  lemma LoopExit(db: seq<Equipment>, result: Response, script: seq<ChatReply>)
    ensures var o := Loop(db, result, script);
      (o.sent == [] <==> IsFinal(result) || IsMalformed(result)) &&
      (IsFinal(result) ==> o.reply == FinalText(result)) &&
      (IsMalformed(result) ==> o.reply == ErrorText)
  {
  }

  /**
    Each message the loop sends is the batch for one response: the first for
    `result`, the next for the reply to the first, and so on; it sends one
    message per reply it reads, plus possibly a last one that fails.
   */
  lemma {:induction false} LoopSendsBatches(db: seq<Equipment>, result: Response, script: seq<ChatReply>)
    ensures var o := Loop(db, result, script);
      |o.sent| <= |script| + 1 &&
      (|o.sent| > 0 ==> BatchFor(db, o.sent[0], result)) &&
      forall j :: 0 <= j < |o.sent| - 1 ==> script[j].Answered? && BatchFor(db, o.sent[j + 1], script[j].response)
    decreases |script|
  {
    if !IsFinal(result) && !IsMalformed(result) && script != [] && script[0].Answered? {
      var rest := Loop(db, script[0].response, script[1..]);
      LoopSendsBatches(db, script[0].response, script[1..]);
      var o := Loop(db, result, script);
      assert o.sent == [ToolResponses(Responses(db, TurnCalls(result)))] + rest.sent;
      forall j | 0 <= j < |o.sent| - 1
        ensures script[j].Answered? && BatchFor(db, o.sent[j + 1], script[j].response)
      {
        assert o.sent[j + 1] == rest.sent[j];
        if j > 0 {
          assert script[1..][j - 1] == script[j];
        }
      }
    }
  }

  /**
    Unless it is the fixed error text, the reply is the text (or the
    fallback) of a final response: the first answer, or a later scripted one.
   */
  lemma {:induction false} LoopReply(db: seq<Equipment>, result: Response, script: seq<ChatReply>)
    ensures var o := Loop(db, result, script);
      o.reply == ErrorText ||
      (IsFinal(result) && o.reply == FinalText(result)) ||
      exists k :: 0 <= k < |script| && script[k].Answered? && IsFinal(script[k].response) &&
        o.reply == FinalText(script[k].response)
    decreases |script|
  {
    var o := Loop(db, result, script);
    if !IsFinal(result) && !IsMalformed(result) && script != [] && script[0].Answered? {
      LoopReply(db, script[0].response, script[1..]);
      var rest := Loop(db, script[0].response, script[1..]);
      if rest.reply != ErrorText && !(IsFinal(script[0].response) && rest.reply == FinalText(script[0].response)) {
        var k :| 0 <= k < |script[1..]| && script[1..][k].Answered? && IsFinal(script[1..][k].response) &&
          rest.reply == FinalText(script[1..][k].response);
        assert script[k + 1] == script[1..][k];
      } else if rest.reply != ErrorText {
        assert script[0].Answered? && IsFinal(script[0].response) && o.reply == FinalText(script[0].response);
      }
    }
  }

  /**
    `sendMessage` always returns a non-empty string (it never throws), and
    the first message it sends is the user's text.
   */
  lemma ConversationShape(db: seq<Equipment>, message: string, script: seq<ChatReply>)
    ensures var o := Conversation(db, message, script);
      o.reply != "" && |o.sent| >= 1 && o.sent[0] == UserText(message) &&
      (script == [] || script[0].Failed? ==> o.reply == ErrorText && |o.sent| == 1)
  {
    if script != [] && script[0].Answered? {
      LoopReply(db, script[0].response, script[1..]);
    }
  }

  class ChatManager {
    var chat: Chat

    constructor(script: seq<ChatReply>)
      ensures fresh(chat) && chat.sent == [] && chat.replies == script
    {
      chat := new Chat(script);
    }

    /**
      `sendMessage`: every failure of the chat, and a response whose first
      candidate has no content, ends in the fixed error text instead of an
      exception.
     */
    method SendMessage(db: seq<Equipment>, message: string) returns (reply: string)
      modifies chat
      ensures var o := Conversation(db, message, old(chat.replies));
        reply == o.reply &&
        chat.sent == old(chat.sent) + o.sent &&
        chat.replies == old(chat.replies)[o.consumed..]
    {
      ghost var script := old(chat.replies);
      ghost var sent0 := chat.sent;
      var r := chat.SendMessage(UserText(message));
      if r.Failed? {
        return ErrorText;
      }
      var result := r.response;
      ghost var done: seq<ChatMessage> := [UserText(message)];
      while true
        invariant chat.sent == sent0 + done
        invariant |chat.replies| <= |script| && chat.replies == script[|script| - |chat.replies|..]
        invariant var l := Loop(db, result, chat.replies);
          Conversation(db, message, script) ==
          Outcome(l.reply, done + l.sent, |script| - |chat.replies| + l.consumed)
        decreases |chat.replies|
      {
        var candidates := result.candidates;
        if candidates.None? || |candidates.value| == 0 {
          break;
        }
        var parts := candidates.value[0].parts;
        if parts.None? {
          return ErrorText;
        }
        var functionCalls := FunctionCalls(parts.value);
        if |functionCalls| > 0 {
          var functionResponses := BuildFunctionResponses(db, functionCalls);
          ghost var l := Loop(db, result, chat.replies);
          r := chat.SendMessage(ToolResponses(functionResponses));
          done := done + [ToolResponses(functionResponses)];
          if r.Failed? {
            return ErrorText;
          }
          result := r.response;
        } else {
          break;
        }
      }
      reply := FinalText(result);
    }
  }
}
