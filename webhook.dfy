/**
 * The SMS webhook: the phone number rule of the incoming form, the routing of
 * the HTTP request handler, and the reply the background workflow sends back.
 *
 * Reading the form body and starting the workflow are parameters that may
 * throw, the schema's error message is a parameter, and the message a workflow
 * was started for is recorded in the result.
 */
module Webhook {
  import opened Outcomes
  import opened SmsTable
  import opened SmsReplacement
  import opened ToolLoop

  // Phone numbers

  predicate IsAsciiDigit(c: char) {
    '0' <= c <= '9'
  }

  /** A US number in E.164 form: a plus sign, the country code 1 and exactly ten ASCII digits. */
  predicate IsUsPhoneNumber(s: string) {
    && |s| == 12
    && s[0] == '+' && s[1] == '1'
    && forall i | 2 <= i < 12 :: IsAsciiDigit(s[i])
  }

  /** The tail `[0-9]{n}$` of the phone pattern, matched one character at a time. */
  function MatchDigitsToEnd(s: string, n: nat): bool {
    if n == 0 then s == []
    else s != [] && IsAsciiDigit(s[0]) && MatchDigitsToEnd(s[1..], n - 1)
  }

  /** `[0-9]{n}$` matches exactly the texts of `n` ASCII digits. */
  lemma {:induction false} MatchDigitsToEndExactly(s: string, n: nat)
    ensures MatchDigitsToEnd(s, n) <==> |s| == n && forall i | 0 <= i < |s| :: IsAsciiDigit(s[i])
  {
    if n > 0 && s != [] {
      MatchDigitsToEndExactly(s[1..], n - 1);
      if |s| == n && forall i | 0 <= i < |s| :: IsAsciiDigit(s[i]) {
        assert forall i | 0 <= i < |s[1..]| :: IsAsciiDigit(s[1..][i]) by {
          forall i | 0 <= i < |s[1..]| ensures IsAsciiDigit(s[1..][i]) {
            assert s[1..][i] == s[i + 1];
          }
        }
      }
    }
  }

  /**
   * The anchored pattern `^\+1[0-9]{10}$`, matched from the start of the text;
   * it accepts a text exactly when the text is a US number in E.164 form.
   */
  function MatchPhonePattern(s: string): (r: bool)
    ensures r <==> IsUsPhoneNumber(s)
  {
    if |s| >= 2 then
      MatchDigitsToEndExactly(s[2..], 10);
      assert forall i | 2 <= i < |s| :: s[i] == s[2..][i - 2];
      s[0] == '+' && s[1] == '1' && MatchDigitsToEnd(s[2..], 10)
    else false
  }

  // The incoming message

  /** An SMS as the messaging provider posts it: sender, receiving number and text. */
  datatype Sms = Sms(from: string, to: string, body: string)

  /**
   * The message schema applied to the form entries: `From` and `To` must match
   * the phone pattern and `Body` must be present; other entries are dropped.
   */
  function ParseSms(form: map<string, string>): (r: Option<Sms>)
    ensures r.Some? <==>
      && "From" in form && "To" in form && "Body" in form
      && IsUsPhoneNumber(form["From"]) && IsUsPhoneNumber(form["To"])
    ensures r.Some? ==> r.value == Sms(form["From"], form["To"], form["Body"])
  {
    if "From" in form && "To" in form && "Body" in form then
      if MatchPhonePattern(form["From"]) && MatchPhonePattern(form["To"]) then
        Some(Sms(form["From"], form["To"], form["Body"]))
      else None
    else None
  }

  // The request handler

  /** An HTTP response: status, the content type when one is set explicitly, and body. */
  datatype HttpResponse = HttpResponse(status: int, contentType: Option<string>, body: string)

  /** What handling a request gives: the response, and the message a workflow was started for, if any. */
  datatype Handled = Handled(response: HttpResponse, started: Option<Sms>)

  const SmsPath := "/sms"
  const NotFound := "Not Found"
  const MethodMustBePost := "Bad Request: Method must be POST"
  /** The empty messaging response: acknowledge the message without replying in it. */
  const EmptyTwiml := "<?xml version=\"1.0\" encoding=\"UTF-8\"?><Response/>"

  /**
   * The `fetch` handler: 404 off the webhook path, 400 for any method but POST;
   * otherwise read the form, which rejects for a body that is not a form, 400
   * with the schema's message for a form the message schema rejects, and
   * otherwise start the workflow for the message, which may reject too, and
   * acknowledge it with an empty XML response. A rejection makes the handler
   * throw.
   */
  function HandleRequest(pathname: string, httpMethod: string, formData: Completion<map<string, string>>,
                         schemaMessage: map<string, string> -> string,
                         startWorkflow: Sms -> Completion<string>): (h: Completion<Handled>)
    ensures h.Returned? ==> h.value.response.status in {200, 400, 404}
    ensures h.Threw? ==> pathname == SmsPath && httpMethod == "POST"
  {
    if pathname != SmsPath then Returned(Handled(HttpResponse(404, None, NotFound), None))
    else if httpMethod != "POST" then Returned(Handled(HttpResponse(400, None, MethodMustBePost), None))
    else
      match formData
      case Threw(e) => Threw(e)
      case Returned(form) =>
        match ParseSms(form)
        case None => Returned(Handled(HttpResponse(400, None, schemaMessage(form)), None))
        case Some(sms) =>
          match startWorkflow(sms)
          case Threw(e) => Threw(e)
          case Returned(_) => Returned(Handled(HttpResponse(200, Some("text/xml"), EmptyTwiml), Some(sms)))
  }

  /**
   * The handler answers 404 exactly off the webhook path; on it, 400 exactly
   * when the method is not POST or the form is read and its message is invalid,
   * with the method message taking precedence; and 200 exactly when a workflow
   * is started, for the parsed message. It throws exactly when, for a POST to
   * the webhook path, reading the form throws, or the message is valid and
   * starting its workflow throws, and then with that exception.
   */
  lemma HandlerRouting(pathname: string, httpMethod: string, formData: Completion<map<string, string>>,
                       schemaMessage: map<string, string> -> string, startWorkflow: Sms -> Completion<string>)
    ensures var h := HandleRequest(pathname, httpMethod, formData, schemaMessage, startWorkflow);
      var onWebhook := pathname == SmsPath && httpMethod == "POST";
      && (h.Threw? <==>
            onWebhook && (formData.Threw? || (ParseSms(formData.value).Some? && startWorkflow(ParseSms(formData.value).value).Threw?)))
      && (h.Threw? && formData.Threw? ==> h.error == formData.error)
      && (h.Threw? && formData.Returned? ==> ParseSms(formData.value).Some? && h.error == startWorkflow(ParseSms(formData.value).value).error)
      && (h.Returned? ==>
            && (h.value.response.status == 404 <==> pathname != SmsPath)
            && (h.value.response.status == 400 <==>
                  pathname == SmsPath && (httpMethod != "POST" || ParseSms(formData.value).None?))
            && (h.value.response.status == 400 && httpMethod != "POST" ==> h.value.response.body == MethodMustBePost)
            && (h.value.response.status == 400 && httpMethod == "POST" ==> h.value.response.body == schemaMessage(formData.value))
            && (h.value.response.status == 200 <==> h.value.started.Some?)
            && (h.value.started.Some? ==> onWebhook && h.value.started == ParseSms(formData.value)))
  {
  }

  /** A workflow is started only for a message whose two numbers are US numbers, and only when starting it succeeds. */
  lemma StartedMessagesHaveValidNumbers(pathname: string, httpMethod: string, formData: Completion<map<string, string>>,
                                        schemaMessage: map<string, string> -> string, startWorkflow: Sms -> Completion<string>)
    requires var h := HandleRequest(pathname, httpMethod, formData, schemaMessage, startWorkflow);
      h.Returned? && h.value.started.Some?
    ensures var sms := HandleRequest(pathname, httpMethod, formData, schemaMessage, startWorkflow).value.started.value;
      && formData.Returned?
      && IsUsPhoneNumber(sms.from) && IsUsPhoneNumber(sms.to) && sms.body == formData.value["Body"]
      && startWorkflow(sms).Returned?
  {
  }

  // The reply

  const ModelErrorPrefix := "Error calling model: "

  /**
   * The reply SMS: back to the sender, from the number they wrote to, with the
   * conversation's answer, or the model error prefix followed by the exception
   * as `String` renders it.
   */
  function Reply(sms: Sms, svc: Services, render: string -> string): (out: Sms)
    ensures out.to == sms.from && out.from == sms.to
  {
    var text := match Conversation(sms.body, svc).result
      case Returned(answer) => answer
      case Threw(e) => ModelErrorPrefix + render(e);
    Sms(sms.to, sms.from, text)
  }

  /**
   * The reply carries the SMS-safe answer of the conversation about the
   * message's text, free of every character the replacement table lists; when
   * the conversation throws, it says so behind the model error prefix.
   */
  lemma ReplyCarriesAnswer(sms: Sms, svc: Services, render: string -> string)
    ensures var result := Conversation(sms.body, svc).result;
      var out := Reply(sms, svc, render);
      && (result.Returned? ==>
            && out.body == result.value
            && forall x | x in out.body :: Replacement(FirstCodeUnit(x)).None?)
      && (result.Threw? ==> out.body == ModelErrorPrefix + render(result.error))
  {
    if Conversation(sms.body, svc).result.Returned? {
      FinalAnswerIsNormalised(sms.body, svc);
    }
  }
}
