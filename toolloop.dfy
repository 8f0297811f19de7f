/**
 * The conversation with the language model (`getModelResponse`): at most ten
 * rounds, each sending one request; every function call in the response is
 * answered by the weather tool, and the first response without function calls
 * ends the conversation with its text made SMS-safe.
 *
 * The model endpoint and the JSON reading and validation of the tool
 * arguments are parameters of the model.
 */
module ToolLoop {
  import opened Outcomes
  import opened Weather
  import opened SmsTable
  import opened SmsReplacement

  /** One part of a model response: a call of the weather function, or anything else (text, web search, code). */
  datatype ResponsePart =
    | FunctionCall(callId: string, name: string, arguments: string)
    | OtherPart(kind: string)

  /** A model response: its id, its output parts in order, and its concatenated output text. */
  datatype ModelResponse = ModelResponse(id: string, output: seq<ResponsePart>, outputText: string)

  /** An input item of a request: the user's message, or the output of one function call. */
  datatype InputItem =
    | UserMessage(content: string)
    | FunctionCallOutput(callId: string, output: string)

  /** The varying part of a request: the previous response's id (absent in the first round) and the input items. */
  datatype ModelRequest = ModelRequest(previousResponseId: Option<string>, input: seq<InputItem>)

  /**
   * Reading the arguments of a function call: text that is not JSON (reading it
   * throws), JSON the argument schema rejects (with the schema's message), or
   * valid weather tool arguments.
   */
  datatype ArgsParse =
    | NotJson(error: string)
    | Invalid(message: string)
    | Valid(args: WeatherToolArgs)

  /** The outside world of the conversation. */
  datatype Services = Services(
    model: ModelRequest -> Completion<ModelResponse>,
    parseArgs: string -> ArgsParse,
    weather: WeatherServices)

  /** The requests sent to the model, in order, and what the conversation gives. */
  datatype Transcript = Transcript(requests: seq<ModelRequest>, result: Completion<string>)

  const MaxRounds := 10
  const TooManyToolCalls := "Model made too many tool calls"

  // One round's tool outputs

  /** The function calls among the parts of a response, in order. */
  function Calls(parts: seq<ResponsePart>): (calls: seq<ResponsePart>)
    ensures |calls| <= |parts|
    ensures forall c | c in calls :: c.FunctionCall? && c in parts
    ensures (forall p | p in parts :: !p.FunctionCall?) <==> calls == []
  {
    if |parts| == 0 then []
    else
      var init := Calls(parts[..|parts| - 1]);
      var last := parts[|parts| - 1];
      if last.FunctionCall? then init + [last] else init
  }

  /**
   * `Calls` is the order-preserving filter of function calls: it keeps a single
   * part exactly when that part is a function call, and distributes over
   * concatenation, so every call is kept and calls keep their relative order.
   */
  lemma {:induction false} CallsConcat(a: seq<ResponsePart>, b: seq<ResponsePart>, p: ResponsePart)
    ensures Calls([]) == []
    ensures Calls([p]) == if p.FunctionCall? then [p] else []
    ensures Calls(a + b) == Calls(a) + Calls(b)
  {
    assert [p][..0] == [];
    if |b| == 0 {
      assert a + b == a;
    } else {
      var init, last := b[..|b| - 1], b[|b| - 1];
      CallsConcat(a, init, p);
      assert (a + b)[..|a + b| - 1] == a + init;
      assert (a + b)[|a + b| - 1] == last;
    }
  }

  /**
   * The output of one function call: the schema's message for arguments the
   * schema rejects, the weather tool's result for valid ones; arguments that are
   * not JSON throw. A schema failure is never an exception: its message is
   * returned to the model as the output.
   */
  function ToolOutput(arguments: string, svc: Services): (r: Completion<string>)
    ensures svc.parseArgs(arguments).Invalid? ==> r == Returned(svc.parseArgs(arguments).message)
    ensures r.Threw? <==>
      || svc.parseArgs(arguments).NotJson?
      || (svc.parseArgs(arguments).Valid? && WeatherForecast(svc.parseArgs(arguments).args, svc.weather).Threw?)
  {
    match svc.parseArgs(arguments)
    case NotJson(e) => Threw(e)
    case Invalid(message) => Returned(message)
    case Valid(args) => WeatherForecast(args, svc.weather)
  }

  /** The input items of the next request: one output per function call, in order; the first exception ends the round. */
  function ToolOutputs(parts: seq<ResponsePart>, svc: Services): Completion<seq<InputItem>> {
    if |parts| == 0 then Returned([])
    else
      match ToolOutputs(parts[..|parts| - 1], svc)
      case Threw(e) => Threw(e)
      case Returned(items) =>
        var last := parts[|parts| - 1];
        if !last.FunctionCall? then Returned(items)
        else
          match ToolOutput(last.arguments, svc)
          case Threw(e) => Threw(e)
          case Returned(output) => Returned(items + [FunctionCallOutput(last.callId, output)])
  }

  /**
   * Every function call gets exactly one output item, in the order of the
   * calls and with the call's id; other parts get none. The round throws exactly
   * when some call's output throws, and then with the first such exception.
   */
  lemma {:induction false} ToolOutputsFollowCalls(parts: seq<ResponsePart>, svc: Services)
    ensures var calls := Calls(parts);
      ToolOutputs(parts, svc).Returned? ==>
        && |ToolOutputs(parts, svc).value| == |calls|
        && forall k | 0 <= k < |calls| ::
             && ToolOutput(calls[k].arguments, svc).Returned?
             && ToolOutputs(parts, svc).value[k] == FunctionCallOutput(calls[k].callId, ToolOutput(calls[k].arguments, svc).value)
    ensures var calls := Calls(parts);
      ToolOutputs(parts, svc).Threw? ==>
        exists k | 0 <= k < |calls| ::
          && ToolOutput(calls[k].arguments, svc) == Threw(ToolOutputs(parts, svc).error)
          && forall j | 0 <= j < k :: ToolOutput(calls[j].arguments, svc).Returned?
    ensures var calls := Calls(parts);
      (forall k | 0 <= k < |calls| :: ToolOutput(calls[k].arguments, svc).Returned?) ==> ToolOutputs(parts, svc).Returned?
  {
    if |parts| > 0 {
      var init := parts[..|parts| - 1];
      var last := parts[|parts| - 1];
      ToolOutputsFollowCalls(init, svc);
      var calls, initCalls := Calls(parts), Calls(init);
      if last.FunctionCall? {
        assert calls == initCalls + [last];
        if ToolOutputs(init, svc).Returned? && ToolOutput(last.arguments, svc).Threw? {
          var k := |initCalls|;
          assert calls[k] == last;
          assert forall j | 0 <= j < k :: calls[j] == initCalls[j];
          assert ToolOutputs(parts, svc) == Threw(ToolOutput(last.arguments, svc).error);
          assert ToolOutput(calls[k].arguments, svc) == Threw(ToolOutputs(parts, svc).error);
          assert forall j | 0 <= j < k :: ToolOutput(calls[j].arguments, svc).Returned?;
        } else if ToolOutputs(init, svc).Threw? {
          var k :| 0 <= k < |initCalls| && ToolOutput(initCalls[k].arguments, svc) == Threw(ToolOutputs(init, svc).error)
                   && forall j | 0 <= j < k :: ToolOutput(initCalls[j].arguments, svc).Returned?;
          assert calls[k] == initCalls[k];
          assert forall j | 0 <= j < k :: calls[j] == initCalls[j];
          assert ToolOutputs(parts, svc) == ToolOutputs(init, svc);
          assert ToolOutput(calls[k].arguments, svc) == Threw(ToolOutputs(parts, svc).error);
        }
      } else {
        assert calls == initCalls;
      }
    }
  }

  /**
   * In a round that does not throw, the output sent back for each function call
   * is the schema's message when its arguments are rejected, and the text the
   * weather tool returned when they are valid.
   */
  lemma ToolOutputValues(parts: seq<ResponsePart>, svc: Services)
    ensures var calls := Calls(parts);
      ToolOutputs(parts, svc).Returned? ==>
        && |ToolOutputs(parts, svc).value| == |calls|
        && forall k | 0 <= k < |calls| ::
          && (svc.parseArgs(calls[k].arguments).Invalid? ==>
                ToolOutputs(parts, svc).value[k] == FunctionCallOutput(calls[k].callId, svc.parseArgs(calls[k].arguments).message))
          && (svc.parseArgs(calls[k].arguments).Valid? ==>
                && WeatherForecast(svc.parseArgs(calls[k].arguments).args, svc.weather).Returned?
                && ToolOutputs(parts, svc).value[k] ==
                     FunctionCallOutput(calls[k].callId, WeatherForecast(svc.parseArgs(calls[k].arguments).args, svc.weather).value))
  {
    ToolOutputsFollowCalls(parts, svc);
  }

  /** A round without function calls produces no tool outputs. */
  lemma NoCallsNoOutputs(parts: seq<ResponsePart>, svc: Services)
    ensures Calls(parts) == [] <==> ToolOutputs(parts, svc) == Returned([])
  {
    ToolOutputsFollowCalls(parts, svc);
  }

  /** Once a prefix of the parts has thrown, the whole round throws the same exception. */
  lemma {:induction false} ThrownOutputsAreFinal(parts: seq<ResponsePart>, k: nat, svc: Services)
    requires k <= |parts|
    requires ToolOutputs(parts[..k], svc).Threw?
    ensures ToolOutputs(parts, svc) == ToolOutputs(parts[..k], svc)
    decreases |parts| - k
  {
    if k < |parts| {
      var init := parts[..|parts| - 1];
      assert init[..k] == parts[..k];
      ThrownOutputsAreFinal(init, k, svc);
    } else {
      assert parts[..k] == parts;
    }
  }

  /**
   * The inner loop of a round: for each part of the response, skip it unless it
   * is a function call, read its arguments, and answer it with the schema's
   * message or the weather tool's result.
   */
  method CollectToolOutputs(parts: seq<ResponsePart>, svc: Services) returns (r: Completion<seq<InputItem>>)
    ensures r == ToolOutputs(parts, svc)
  {
    var items: seq<InputItem> := [];
    for k := 0 to |parts|
      invariant ToolOutputs(parts[..k], svc) == Returned(items)
    {
      assert parts[..k + 1][..k] == parts[..k];
      var part := parts[k];
      if !part.FunctionCall? {
        continue;
      }
      var output: string;
      match svc.parseArgs(part.arguments) {
        case NotJson(e) =>
          ThrownOutputsAreFinal(parts, k + 1, svc);
          return Threw(e);
        case Invalid(message) =>
          output := message;
        case Valid(args) =>
          var forecast := GetWeatherForecast(args, svc.weather);
          if forecast.Threw? {
            ThrownOutputsAreFinal(parts, k + 1, svc);
            return Threw(forecast.error);
          }
          output := forecast.value;
      }
      items := items + [FunctionCallOutput(part.callId, output)];
    }
    assert parts[..|parts|] == parts;
    r := Returned(items);
  }

  // The rounds

  /** How one round ends: with the conversation's result, or with the next request's input. */
  datatype RoundOutcome =
    | Finished(result: Completion<string>)
    | Continued(responseId: string, items: seq<InputItem>)

  /**
   * One round: ask the model; a thrown call or tool output ends the
   * conversation, a response without tool outputs ends it with its text made
   * SMS-safe, and a response with tool outputs continues with them.
   */
  function Round(request: ModelRequest, svc: Services): RoundOutcome {
    match svc.model(request)
    case Threw(e) => Finished(Threw(e))
    case Returned(response) =>
      match ToolOutputs(response.output, svc)
      case Threw(e) => Finished(Threw(e))
      case Returned(items) =>
        if items == [] then Finished(Returned(Replace(response.outputText)))
        else Continued(response.id, items)
  }

  /**
   * The conversation from round `round` on, given the previous response's id
   * and the input of the next request; after the last round it throws.
   */
  function Rounds(round: nat, previousId: Option<string>, input: seq<InputItem>, svc: Services): (t: Transcript)
    requires round <= MaxRounds
    ensures |t.requests| <= MaxRounds - round
    ensures round < MaxRounds ==> 1 <= |t.requests| && t.requests[0] == ModelRequest(previousId, input)
    decreases MaxRounds - round
  {
    if round == MaxRounds then Transcript([], Threw(TooManyToolCalls))
    else
      var request := ModelRequest(previousId, input);
      match Round(request, svc)
      case Finished(result) => Transcript([request], result)
      case Continued(id, items) =>
        var rest := Rounds(round + 1, Some(id), items, svc);
        Transcript([request] + rest.requests, rest.result)
  }

  /** A round that finishes ends the transcript with its request. */
  lemma FinishedRound(round: nat, previousId: Option<string>, input: seq<InputItem>, svc: Services, result: Completion<string>)
    requires round < MaxRounds
    requires Round(ModelRequest(previousId, input), svc) == Finished(result)
    ensures Rounds(round, previousId, input, svc) == Transcript([ModelRequest(previousId, input)], result)
  {
  }

  /** A round that continues puts its request before those of the next round. */
  lemma ContinuedRound(round: nat, previousId: Option<string>, input: seq<InputItem>, svc: Services,
                       id: string, items: seq<InputItem>)
    requires round < MaxRounds
    requires Round(ModelRequest(previousId, input), svc) == Continued(id, items)
    ensures var rest := Rounds(round + 1, Some(id), items, svc);
      Rounds(round, previousId, input, svc) == Transcript([ModelRequest(previousId, input)] + rest.requests, rest.result)
  {
  }

  /** The whole conversation: the first request carries only the user's message. */
  function Conversation(userMessage: string, svc: Services): Transcript {
    Rounds(0, None, [UserMessage(userMessage)], svc)
  }

  /**
   * The conversation can be resumed at round `round`: the requests already sent,
   * followed by those of the remaining rounds, make up the whole conversation.
   */
  predicate ResumesAt(userMessage: string, svc: Services, sent: seq<ModelRequest>,
                      round: nat, previousId: Option<string>, input: seq<InputItem>)
  {
    && round <= MaxRounds
    && var rest := Rounds(round, previousId, input, svc);
       Conversation(userMessage, svc) == Transcript(sent + rest.requests, rest.result)
  }

  /** A round that finishes ends the conversation with its request and its result. */
  lemma ResumeFinished(userMessage: string, svc: Services, sent: seq<ModelRequest>,
                       round: nat, previousId: Option<string>, input: seq<InputItem>, result: Completion<string>)
    requires ResumesAt(userMessage, svc, sent, round, previousId, input) && round < MaxRounds
    requires Round(ModelRequest(previousId, input), svc) == Finished(result)
    ensures Conversation(userMessage, svc) == Transcript(sent + [ModelRequest(previousId, input)], result)
  {
  }

  /** A round that continues lets the conversation resume at the next round with its tool outputs. */
  lemma ResumeContinued(userMessage: string, svc: Services, sent: seq<ModelRequest>,
                        round: nat, previousId: Option<string>, input: seq<InputItem>, id: string, items: seq<InputItem>)
    requires ResumesAt(userMessage, svc, sent, round, previousId, input) && round < MaxRounds
    requires Round(ModelRequest(previousId, input), svc) == Continued(id, items)
    ensures ResumesAt(userMessage, svc, sent + [ModelRequest(previousId, input)], round + 1, Some(id), items)
  {
    var rest := Rounds(round + 1, Some(id), items, svc);
    assert sent + [ModelRequest(previousId, input)] + rest.requests == sent + ([ModelRequest(previousId, input)] + rest.requests);
  }

  /** After the last round the conversation throws. */
  lemma ResumeExhausted(userMessage: string, svc: Services, sent: seq<ModelRequest>,
                        previousId: Option<string>, input: seq<InputItem>)
    requires ResumesAt(userMessage, svc, sent, MaxRounds, previousId, input)
    ensures Conversation(userMessage, svc) == Transcript(sent, Threw(TooManyToolCalls))
  {
    assert sent + [] == sent;
  }

  /**
   * The body of one round of `getModelResponse`: send the request, collect the
   * outputs of the function calls, and finish with the SMS-safe output text when
   * there are none.
   */
  method RunRound(request: ModelRequest, svc: Services) returns (outcome: RoundOutcome)
    ensures outcome == Round(request, svc)
  {
    var created := svc.model(request);
    if created.Threw? {
      return Finished(Threw(created.error));
    }
    var response := created.value;
    var outputs := CollectToolOutputs(response.output, svc);
    if outputs.Threw? {
      return Finished(Threw(outputs.error));
    }
    if outputs.value == [] {
      var text := SmsCharacterReplacement(response.outputText);
      return Finished(Returned(text));
    }
    outcome := Continued(response.id, outputs.value);
  }

  /**
   * `getModelResponse`: up to ten rounds, each sending the previous response's
   * id and the input, collecting the tool outputs, and returning the SMS-safe
   * text of the first response without function calls. `requests` are the
   * requests sent, in order.
   */
  method GetModelResponse(userMessage: string, svc: Services) returns (reply: Completion<string>, ghost requests: seq<ModelRequest>)
    ensures reply == Conversation(userMessage, svc).result
    ensures requests == Conversation(userMessage, svc).requests
  {
    var input := [UserMessage(userMessage)];
    var previousId: Option<string> := None;
    requests := [];
    for round := 0 to MaxRounds
      invariant ResumesAt(userMessage, svc, requests, round, previousId, input)
    {
      var request := ModelRequest(previousId, input);
      var outcome := RunRound(request, svc);
      match outcome {
        case Finished(result) =>
          ResumeFinished(userMessage, svc, requests, round, previousId, input, result);
          requests := requests + [request];
          reply := result;
          return;
        case Continued(id, items) =>
          ResumeContinued(userMessage, svc, requests, round, previousId, input, id, items);
          requests := requests + [request];
          previousId, input := Some(id), items;
      }
    }
    ResumeExhausted(userMessage, svc, requests, previousId, input);
    reply := Threw(TooManyToolCalls);
  }

  // Properties of the conversation

  /** The model is asked at most ten times, and at least once. */
  lemma AtMostTenModelCalls(userMessage: string, svc: Services)
    ensures 1 <= |Conversation(userMessage, svc).requests| <= MaxRounds
  {
  }

  /** The first request has no previous response id and carries the user's message as its only input. */
  lemma FirstRequestCarriesUserMessage(userMessage: string, svc: Services)
    ensures Conversation(userMessage, svc).requests[0] == ModelRequest(None, [UserMessage(userMessage)])
  {
  }

  /**
   * How one request follows another: the earlier one got a response, that
   * response's function calls produced the later request's input (one output
   * per call, none missing), and the later request names that response's id.
   */
  predicate Continues(svc: Services, before: ModelRequest, after: ModelRequest) {
    && svc.model(before).Returned?
    && ToolOutputs(svc.model(before).value.output, svc) == Returned(after.input)
    && after.input != []
    && after.previousResponseId == Some(svc.model(before).value.id)
  }

  lemma {:induction false} RoundsContinue(round: nat, previousId: Option<string>, input: seq<InputItem>, svc: Services, k: nat)
    requires round <= MaxRounds
    requires 0 < k < |Rounds(round, previousId, input, svc).requests|
    ensures var requests := Rounds(round, previousId, input, svc).requests;
      Continues(svc, requests[k - 1], requests[k])
    decreases MaxRounds - round
  {
    match Round(ModelRequest(previousId, input), svc)
    case Finished(r) =>
      FinishedRound(round, previousId, input, svc, r);
    case Continued(id, items) =>
      ContinuedRound(round, previousId, input, svc, id, items);
      if k > 1 {
        RoundsContinue(round + 1, Some(id), items, svc, k - 1);
      }
  }

  /** Every later request continues from the response to the one before it. */
  lemma LaterRequestsContinue(userMessage: string, svc: Services, k: nat)
    requires 0 < k < |Conversation(userMessage, svc).requests|
    ensures Continues(svc, Conversation(userMessage, svc).requests[k - 1], Conversation(userMessage, svc).requests[k])
  {
    RoundsContinue(0, None, [UserMessage(userMessage)], svc, k);
  }

  /**
   * What the last request decides: a round that finishes gives the result; a
   * round that would continue can only be the last of the `rounds` rounds, and
   * then the conversation throws.
   */
  predicate Concludes(svc: Services, requests: seq<ModelRequest>, result: Completion<string>, rounds: nat)
    requires |requests| > 0
  {
    match Round(requests[|requests| - 1], svc)
    case Finished(r) => result == r
    case Continued(_, _) => |requests| == rounds && result == Threw(TooManyToolCalls)
  }

  lemma {:induction false} RoundsConclude(round: nat, previousId: Option<string>, input: seq<InputItem>, svc: Services)
    requires round < MaxRounds
    ensures var t := Rounds(round, previousId, input, svc);
      Concludes(svc, t.requests, t.result, MaxRounds - round)
    decreases MaxRounds - round
  {
    match Round(ModelRequest(previousId, input), svc)
    case Finished(r) =>
      FinishedRound(round, previousId, input, svc, r);
    case Continued(id, items) =>
      ContinuedRound(round, previousId, input, svc, id, items);
      if round + 1 < MaxRounds {
        RoundsConclude(round + 1, Some(id), items, svc);
        var t, rest := Rounds(round, previousId, input, svc), Rounds(round + 1, Some(id), items, svc);
        assert t.requests[|t.requests| - 1] == rest.requests[|rest.requests| - 1];
      }
  }

  /** The result of the conversation is decided by its last request as `Concludes` describes. */
  lemma ConversationConcludes(userMessage: string, svc: Services)
    ensures Concludes(svc, Conversation(userMessage, svc).requests, Conversation(userMessage, svc).result, MaxRounds)
  {
    RoundsConclude(0, None, [UserMessage(userMessage)], svc);
  }

  /** The model answers the request, the tool outputs are all produced, and there is at least one. */
  predicate KeepsCalling(svc: Services, request: ModelRequest) {
    && svc.model(request).Returned?
    && ToolOutputs(svc.model(request).value.output, svc).Returned?
    && ToolOutputs(svc.model(request).value.output, svc).value != []
  }

  /**
   * A round continues exactly when the model keeps calling functions, and a
   * round finishes with a reply exactly when it got a response without
   * function calls, and then replies with that response's SMS-safe output text.
   */
  lemma RoundOutcomes(request: ModelRequest, svc: Services)
    ensures Round(request, svc).Continued? <==> KeepsCalling(svc, request)
    ensures Round(request, svc).Finished? && Round(request, svc).result.Returned? ==>
      && svc.model(request).Returned?
      && Calls(svc.model(request).value.output) == []
      && Round(request, svc).result.value == Replace(svc.model(request).value.outputText)
    ensures svc.model(request).Returned? && Calls(svc.model(request).value.output) == [] ==>
      Round(request, svc) == Finished(Returned(Replace(svc.model(request).value.outputText)))
  {
    if svc.model(request).Returned? {
      NoCallsNoOutputs(svc.model(request).value.output, svc);
    }
  }

  /** A model that answers every request with function calls is asked ten times, then the conversation throws. */
  lemma RunawayModelFails(userMessage: string, svc: Services)
    requires forall request :: KeepsCalling(svc, request)
    ensures |Conversation(userMessage, svc).requests| == MaxRounds
    ensures Conversation(userMessage, svc).result == Threw(TooManyToolCalls)
  {
    ConversationConcludes(userMessage, svc);
    var requests := Conversation(userMessage, svc).requests;
    RoundOutcomes(requests[|requests| - 1], svc);
  }

  /**
   * A reply is the SMS-safe text of a response without function calls to the
   * last request; it holds no character the replacement table lists.
   */
  lemma FinalAnswerIsNormalised(userMessage: string, svc: Services)
    requires Conversation(userMessage, svc).result.Returned?
    ensures var t := Conversation(userMessage, svc);
      var response := svc.model(t.requests[|t.requests| - 1]);
      && response.Returned?
      && Calls(response.value.output) == []
      && t.result.value == Replace(response.value.outputText)
    ensures forall x | x in Conversation(userMessage, svc).result.value :: Replacement(FirstCodeUnit(x)).None?
  {
    ConversationConcludes(userMessage, svc);
    var t := Conversation(userMessage, svc);
    RoundOutcomes(t.requests[|t.requests| - 1], svc);
    ReplaceIsKeyFree(svc.model(t.requests[|t.requests| - 1]).value.outputText);
  }
}
