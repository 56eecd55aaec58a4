/** The DeepSeek adapter: the output ceiling it plans and sends, and what it makes of a response. */
module DeepSeeks {
  import opened Contracts
  import opened Tables
  import opened OutputBudgets
  import opened Journals
  import opened Scripts

  datatype Json =
    | Null
    | Boolean(truth: bool)
    | Integer(value: int)
    | Float(number: real)
    | Text(text: string)
    | Array(items: seq<Json>)
    | Object(fields: map<string, Json>)

  /** What decoding a text comes to: a value, a ValueError, or another exception, as for too deep a nesting. */
  datatype Decoding = Parsed(json: Json) | Undecodable | Exhausted {
    function Value(): Option<Json> { if Parsed? then Some(json) else None }
  }

  /** json.loads */
  type Loads = string -> Decoding

  /** What comes of composing the payload, its ceiling aside. */
  datatype Payload = Composed | Malformed | TooDeep

  /** What comes of posting the request. */
  datatype Wire =
    | Replied(status: int, body: Decoding)
    | Unreachable
    | Late
    | Cancelled
    | Broke(name: TypeName)    // an exception of no class the adapter handles

  /** What the trace callback does: nothing of note, or raise an Exception, a cancellation, or another BaseException. */
  datatype Sink = Quiet | Fails | Cancels | Breaks(name: TypeName)

  // ------------------------------------------------------------ output ceiling

  const PROVIDER_NAME: TypeName := "ProviderError"
  const PROVIDER_ERROR: Error := Thrown(InferenceFailure, PROVIDER_NAME, 0, None)
  const NO_BUDGET: Error := Thrown(BudgetExhausted, BUDGET_NAME, 0, None)

  function Min(a: int, b: int): int { if a <= b then a else b }

  /** _output_limit */
  function OutputLimit(maxTokens: int, request: InferenceRequest): Outcome<int> {
    match request.maxOutputTokens
    case None => Ok(maxTokens)
    case Some(limit) => if limit <= 0 then Raised(PROVIDER_ERROR) else Ok(Min(maxTokens, limit))
  }

  /** The ceiling sent is the adapter's own limit unless the request narrows it; a request's ceiling that is no positive
      number is a provider error. */
  lemma LimitNarrows(maxTokens: int, request: InferenceRequest)
    ensures match request.maxOutputTokens
      case None => OutputLimit(maxTokens, request) == Ok(maxTokens)
      case Some(ceiling) =>
        if ceiling <= 0 then
          OutputLimit(maxTokens, request).Raised? && OutputLimit(maxTokens, request).error.Class() == InferenceFailure
        else if ceiling <= maxTokens then OutputLimit(maxTokens, request) == Ok(ceiling)
        else OutputLimit(maxTokens, request) == Ok(maxTokens)
  {
  }

  /** plan_output, as the runtime sees it. */
  function PlanOutput(maxTokens: int, request: InferenceRequest, available: int): Reply<Reservation>
    requires maxTokens > 0 && available < INT64_BOUND
  {
    if available <= 0 then Threw(NO_BUDGET)
    else
      match OutputLimit(maxTokens, request)
      case Raised(e) => Threw(e)
      case Ok(limit) => Value(OutputReservation(Model, Min(available, limit)))
  }

  /** Planning fails for want of budget first, then for a ceiling that is no positive number, and otherwise plans exactly
      the least of what is available, the adapter's own limit and the prepared ceiling. */
  lemma PlannedCeiling(budget: OutputBudget, maxTokens: int, request: InferenceRequest)
    requires maxTokens > 0 && budget.available.Some? && budget.available.value < INT64_BOUND
    ensures var available := budget.available.value;
      var planned := PlanFor(budget, request, Some(PlanOutput(maxTokens, request, available)));
      && (planned.Ok? <==> available > 0 && (request.maxOutputTokens.Some? ==> request.maxOutputTokens.value > 0))
      && (available <= 0 ==> planned.Raised? && planned.error.Class() == BudgetExhausted)
      && (available > 0 && planned.Raised? ==> planned.error.Class() == InferenceFailure)
      && (planned.Ok? ==>
            && planned.value.reservation.Some? && planned.value.reservation.value.kind.Model?
            && var tokens := planned.value.reservation.value.tokens;
               && 1 <= tokens <= available
               && planned.value.request == request.(maxOutputTokens := Some(tokens))
               && OutputLimit(maxTokens, planned.value.request) == Ok(tokens)
               && tokens <= maxTokens && (request.maxOutputTokens.Some? ==> tokens <= request.maxOutputTokens.value)
               && (tokens == available || tokens == maxTokens || request.maxOutputTokens == Some(tokens)))
  {
  }

  /** In a capped run the ceiling on the wire, the ceiling in the request and the durable reservation are one number
      between 1 and what is available; start refuses it neither as a mismatch nor as too large. */
  lemma CeilingsAgree(j: Journal, maxTokens: int, request: InferenceRequest)
    requires maxTokens > 0 && j.limits.outputTokens.Some?
    ensures Budget(j).available.Some? && 0 <= Budget(j).available.value < INT64_BOUND
    ensures var available := Budget(j).available.value;
      var planned := PlanFor(Budget(j), request, Some(PlanOutput(maxTokens, request, available)));
      planned.Ok? ==>
        && planned.value.reservation.Some?
        && var tokens := planned.value.reservation.value.tokens;
           && 1 <= tokens <= available
           && planned.value.request.maxOutputTokens == Some(tokens)
           && OutputLimit(maxTokens, planned.value.request) == Ok(tokens)
           && Admission(Budget(j), planned.value.request, planned.value.reservation)
              == Refuse(Budget(j).unresolved != 0 || Budget(j).breached != 0, OutputUnsettled)
  {
    AvailableIsBounded(j);
    hide Budget, PlanFor, PlanOutput, OutputLimit;
    PlannedCeiling(Budget(j), maxTokens, request);
  }

  lemma AvailableIsBounded(j: Journal)
    requires j.limits.outputTokens.Some?
    ensures Budget(j).limit.Some? && Budget(j).available.Some? && 0 <= Budget(j).available.value < INT64_BOUND
  {
    TallyNonNegative(j.outputs, j.usage);
  }

  // --------------------------------------------------------- reading a response

  function Member(json: Json, key: string): Json {
    if json.Object? && key in json.fields then json.fields[key] else Null
  }

  function Sole(json: Json): Json {
    if json.Array? && |json.items| == 1 then json.items[0] else Null
  }

  function Body(body: Option<Json>): Json { if body.Some? then body.value else Null }

  function Choice(body: Option<Json>): Json { Sole(Member(Body(body), "choices")) }

  function Item(body: Option<Json>): Json { Sole(Member(Member(Choice(body), "message"), "tool_calls")) }

  function Callee(body: Option<Json>): Json { Member(Item(body), "function") }

  datatype Rejection =
    | InvalidJson
    | ResponseNotObject
    | ChoicesNotList
    | ExpectedOneChoice
    | ChoiceNotObject
    | FinishReasonNotToolCalls
    | MessageNotObject
    | ToolCallsNotList
    | ExpectedOneToolCall
    | InvalidToolType
    | FunctionNotObject
    | ToolNotPermitted
    | ArgumentsNotString
    | ArgumentsInvalidJson
    | ArgumentsNotObject

  /** The place of a check in the order they are made. */
  function Rank(rejection: Rejection): nat {
    match rejection
    case InvalidJson => 0
    case ResponseNotObject => 1
    case ChoicesNotList => 2
    case ExpectedOneChoice => 3
    case ChoiceNotObject => 4
    case FinishReasonNotToolCalls => 5
    case MessageNotObject => 6
    case ToolCallsNotList => 7
    case ExpectedOneToolCall => 8
    case InvalidToolType => 9
    case FunctionNotObject => 10
    case ToolNotPermitted => 11
    case ArgumentsNotString => 12
    case ArgumentsInvalidJson => 13
    case ArgumentsNotObject => 14
  }

  /** What each check asks of the response, on its own. */
  predicate Passes(rejection: Rejection, loads: Loads, allowed: seq<string>, body: Option<Json>) {
    var choices := Member(Body(body), "choices");
    var calls := Member(Member(Choice(body), "message"), "tool_calls");
    var name, arguments := Member(Callee(body), "name"), Member(Callee(body), "arguments");
    match rejection
    case InvalidJson => body.Some?
    case ResponseNotObject => Body(body).Object?
    case ChoicesNotList => choices.Array?
    case ExpectedOneChoice => choices.Array? && |choices.items| == 1
    case ChoiceNotObject => Choice(body).Object?
    case FinishReasonNotToolCalls => Member(Choice(body), "finish_reason") == Text("tool_calls")
    case MessageNotObject => Member(Choice(body), "message").Object?
    case ToolCallsNotList => calls.Array?
    case ExpectedOneToolCall => calls.Array? && |calls.items| == 1
    case InvalidToolType => Item(body).Object? && Member(Item(body), "type") == Text("function")
    case FunctionNotObject => Callee(body).Object?
    case ToolNotPermitted => name.Text? && name.text in allowed
    case ArgumentsNotString => arguments.Text?
    case ArgumentsInvalidJson => arguments.Text? && loads(arguments.text).Parsed?
    case ArgumentsNotObject => arguments.Text? && loads(arguments.text).Parsed? && loads(arguments.text).json.Object?
  }

  /** Decoding the arguments raises something that is no ValueError. */
  predicate Exhausts(loads: Loads, body: Option<Json>) {
    var arguments := Member(Callee(body), "arguments");
    arguments.Text? && loads(arguments.text).Exhausted?
  }

  /** The check fails, and every check made before it holds. */
  ghost predicate FirstFailure(rejection: Rejection, loads: Loads, allowed: seq<string>, body: Option<Json>) {
    && !Passes(rejection, loads, allowed, body)
    && !(rejection.ArgumentsInvalidJson? && Exhausts(loads, body))
    && forall earlier :: Rank(earlier) < Rank(rejection) ==> Passes(earlier, loads, allowed, body)
  }

  /** Every check before the decoding of the arguments holds, and that decoding raises something else. */
  ghost predicate Overruns(loads: Loads, allowed: seq<string>, body: Option<Json>) {
    && Exhausts(loads, body)
    && forall earlier :: Rank(earlier) < Rank(ArgumentsInvalidJson) ==> Passes(earlier, loads, allowed, body)
  }

  ghost predicate Accepted(loads: Loads, allowed: seq<string>, body: Option<Json>) {
    forall rejection :: Passes(rejection, loads, allowed, body)
  }

  function CallIn(body: Option<Json>): ToolCall {
    var name, arguments := Member(Callee(body), "name"), Member(Callee(body), "arguments");
    ToolCall(if name.Text? then name.text else "", if arguments.Text? then arguments.text else "")
  }

  function CalleeOf(fields: map<string, Json>, call: ToolCall): Json {
    Object(fields["name" := Text(call.name)]["arguments" := Text(call.arguments)])
  }

  function ItemOf(fields: map<string, Json>, callee: Json): Json {
    Object(fields["type" := Text("function")]["function" := callee])
  }

  function MessageOf(fields: map<string, Json>, item: Json): Json {
    Object(fields["tool_calls" := Array([item])])
  }

  function ChoiceOf(fields: map<string, Json>, message: Json): Json {
    Object(fields["finish_reason" := Text("tool_calls")]["message" := message])
  }

  /** One choice with one function call, whatever other fields surround it. */
  function Envelope(response: map<string, Json>, choice: map<string, Json>, message: map<string, Json>,
                    item: map<string, Json>, callee: map<string, Json>, call: ToolCall): Json
  {
    Object(response["choices" := Array([ChoiceOf(choice, MessageOf(message, ItemOf(item, CalleeOf(callee, call))))])])
  }

  predicate Permitted(loads: Loads, allowed: seq<string>, call: ToolCall) {
    call.name in allowed && loads(call.arguments).Parsed? && loads(call.arguments).json.Object?
  }

  /** Every response of the right shape is accepted as exactly its call. */
  lemma EnvelopeIsAccepted(loads: Loads, allowed: seq<string>, response: map<string, Json>, choice: map<string, Json>,
                           message: map<string, Json>, item: map<string, Json>, callee: map<string, Json>, call: ToolCall)
    requires Permitted(loads, allowed, call)
    ensures var body := Some(Envelope(response, choice, message, item, callee, call));
      Accepted(loads, allowed, body) && CallIn(body) == call
  {
    var body := Some(Envelope(response, choice, message, item, callee, call));
    assert Member(Choice(body), "finish_reason") == Text("tool_calls");
    assert Member(Item(body), "type") == Text("function");
    assert Member(Callee(body), "name") == Text(call.name);
  }

  function Fields(json: Json): map<string, Json> { if json.Object? then json.fields else map[] }

  lemma Restores(json: Json, key: string, value: Json)
    requires json.Object? && Member(json, key) == value && !value.Null?
    ensures json.fields[key := value] == json.fields && json == Object(json.fields) && Fields(json) == json.fields
  {
  }

  lemma Wraps(json: Json)
    requires json.Array? && |json.items| == 1
    ensures json == Array([Sole(json)])
  {
  }

  lemma CallIsWhole(loads: Loads, allowed: seq<string>, body: Option<Json>)
    requires Accepted(loads, allowed, body)
    ensures Permitted(loads, allowed, CallIn(body))
    ensures Callee(body) == CalleeOf(Fields(Callee(body)), CallIn(body))
  {
    hide Choice, Item;
    assert Passes(FunctionNotObject, loads, allowed, body);
    assert Passes(ToolNotPermitted, loads, allowed, body) && Passes(ArgumentsNotObject, loads, allowed, body);
    hide Accepted, Passes, Callee;
    Restores(Callee(body), "name", Text(CallIn(body).name));
    Restores(Callee(body), "arguments", Text(CallIn(body).arguments));
  }

  lemma ItemIsWhole(loads: Loads, allowed: seq<string>, body: Option<Json>)
    requires Accepted(loads, allowed, body)
    ensures Item(body) == ItemOf(Fields(Item(body)), Callee(body))
  {
    assert Passes(InvalidToolType, loads, allowed, body) && Passes(FunctionNotObject, loads, allowed, body);
    hide Accepted, Passes, Item;
    Restores(Item(body), "type", Text("function"));
    Restores(Item(body), "function", Callee(body));
  }

  lemma MessageIsWhole(loads: Loads, allowed: seq<string>, body: Option<Json>)
    requires Accepted(loads, allowed, body)
    ensures var message := Member(Choice(body), "message");
      && message == MessageOf(Fields(message), Item(body))
      && Choice(body) == ChoiceOf(Fields(Choice(body)), message)
  {
    assert Passes(ChoiceNotObject, loads, allowed, body) && Passes(ExpectedOneToolCall, loads, allowed, body);
    assert Passes(FinishReasonNotToolCalls, loads, allowed, body) && Passes(MessageNotObject, loads, allowed, body);
    hide Accepted, Passes, Choice;
    var message := Member(Choice(body), "message");
    Wraps(Member(message, "tool_calls"));
    Restores(message, "tool_calls", Array([Item(body)]));
    Restores(Choice(body), "finish_reason", Text("tool_calls"));
    Restores(Choice(body), "message", message);
  }

  lemma ResponseIsWhole(loads: Loads, allowed: seq<string>, body: Option<Json>)
    requires Accepted(loads, allowed, body)
    ensures body == Some(Object(Fields(Body(body))["choices" := Array([Choice(body)])]))
  {
    assert Passes(InvalidJson, loads, allowed, body) && Passes(ResponseNotObject, loads, allowed, body);
    assert Passes(ExpectedOneChoice, loads, allowed, body);
    hide Accepted, Passes;
    Wraps(Member(Body(body), "choices"));
    Restores(Body(body), "choices", Array([Choice(body)]));
  }

  /** And every accepted response has that shape. */
  lemma AcceptedIsEnvelope(loads: Loads, allowed: seq<string>, body: Option<Json>)
    requires Accepted(loads, allowed, body)
    ensures Permitted(loads, allowed, CallIn(body))
    ensures body == Some(Envelope(Fields(Body(body)), Fields(Choice(body)), Fields(Member(Choice(body), "message")),
                                  Fields(Item(body)), Fields(Callee(body)), CallIn(body)))
  {
    hide Accepted, Permitted, CalleeOf, ItemOf, MessageOf, ChoiceOf, Fields, Member, Choice, Item, Callee, CallIn;
    CallIsWhole(loads, allowed, body);
    ItemIsWhole(loads, allowed, body);
    MessageIsWhole(loads, allowed, body);
    ResponseIsWhole(loads, allowed, body);
  }

  // ------------------------------------------------- the same, read from outside in

  /** What a reader that descends into the response finds: where the shape first breaks, or the call at its core. */
  datatype Finding = Wrong(at: Rejection) | Overrun | Holds(call: ToolCall)

  function Descend(loads: Loads, allowed: seq<string>, body: Option<Json>): Finding {
    match body
    case None => Wrong(InvalidJson)
    case Some(Object(fields)) =>
      if "choices" !in fields || !fields["choices"].Array? then Wrong(ChoicesNotList)
      else if |fields["choices"].items| != 1 then Wrong(ExpectedOneChoice)
      else DescendChoice(loads, allowed, fields["choices"].items[0])
    case Some(_) => Wrong(ResponseNotObject)
  }

  function DescendChoice(loads: Loads, allowed: seq<string>, choice: Json): Finding {
    if !choice.Object? then Wrong(ChoiceNotObject)
    else if "finish_reason" !in choice.fields || choice.fields["finish_reason"] != Text("tool_calls") then
      Wrong(FinishReasonNotToolCalls)
    else if "message" !in choice.fields || !choice.fields["message"].Object? then Wrong(MessageNotObject)
    else
      var message := choice.fields["message"].fields;
      if "tool_calls" !in message || !message["tool_calls"].Array? then Wrong(ToolCallsNotList)
      else if |message["tool_calls"].items| != 1 then Wrong(ExpectedOneToolCall)
      else DescendItem(loads, allowed, message["tool_calls"].items[0])
  }

  function DescendItem(loads: Loads, allowed: seq<string>, item: Json): Finding {
    if !item.Object? || "type" !in item.fields || item.fields["type"] != Text("function") then Wrong(InvalidToolType)
    else if "function" !in item.fields || !item.fields["function"].Object? then Wrong(FunctionNotObject)
    else DescendCallee(loads, allowed, item.fields["function"].fields)
  }

  function DescendCallee(loads: Loads, allowed: seq<string>, callee: map<string, Json>): Finding {
    if "name" !in callee || !callee["name"].Text? || callee["name"].text !in allowed then Wrong(ToolNotPermitted)
    else if "arguments" !in callee || !callee["arguments"].Text? then Wrong(ArgumentsNotString)
    else
      match loads(callee["arguments"].text)
      case Exhausted => Overrun
      case Undecodable => Wrong(ArgumentsInvalidJson)
      case Parsed(Object(_)) => Holds(ToolCall(callee["name"].text, callee["arguments"].text))
      case Parsed(_) => Wrong(ArgumentsNotObject)
  }

  /** The checks, each judged on its own and taken in their order, find exactly what the descent finds. */
  lemma DescentAgrees(loads: Loads, allowed: seq<string>, body: Option<Json>)
    ensures Agrees(Descend(loads, allowed, body), loads, allowed, body)
  {
    hide Agrees, DescendChoice;
    if Made(3, loads, allowed, body) {
      assert Passes(ExpectedOneChoice, loads, allowed, body);
      ChoiceAgrees(loads, allowed, body);
    } else {
      DescentStops(loads, allowed, body);
    }
  }

  ghost predicate Agrees(found: Finding, loads: Loads, allowed: seq<string>, body: Option<Json>) {
    match found
    case Wrong(at) => FirstFailure(at, loads, allowed, body)
    case Overrun => Overruns(loads, allowed, body)
    case Holds(call) => Accepted(loads, allowed, body) && CallIn(body) == call
  }

  /** The checks up to the given rank hold. */
  ghost predicate Made(rank: nat, loads: Loads, allowed: seq<string>, body: Option<Json>) {
    forall made :: Rank(made) <= rank ==> Passes(made, loads, allowed, body)
  }

  lemma DescentStops(loads: Loads, allowed: seq<string>, body: Option<Json>)
    requires !Made(3, loads, allowed, body)
    ensures Agrees(Descend(loads, allowed, body), loads, allowed, body)
  {
    hide Item, Callee, DescendChoice;
  }

  lemma ChoiceAgrees(loads: Loads, allowed: seq<string>, body: Option<Json>)
    requires Made(3, loads, allowed, body)
    ensures Agrees(DescendChoice(loads, allowed, Choice(body)), loads, allowed, body)
  {
    hide Agrees, DescendItem, Choice;
    if Made(8, loads, allowed, body) {
      assert Passes(ChoiceNotObject, loads, allowed, body) && Passes(FinishReasonNotToolCalls, loads, allowed, body);
      assert Passes(MessageNotObject, loads, allowed, body) && Passes(ExpectedOneToolCall, loads, allowed, body);
      ItemAgrees(loads, allowed, body);
    } else {
      ChoiceStops(loads, allowed, body);
    }
  }

  lemma ChoiceStops(loads: Loads, allowed: seq<string>, body: Option<Json>)
    requires Made(3, loads, allowed, body) && !Made(8, loads, allowed, body)
    ensures Agrees(DescendChoice(loads, allowed, Choice(body)), loads, allowed, body)
  {
    hide Item, Choice, Callee, DescendItem;
  }

  lemma ItemAgrees(loads: Loads, allowed: seq<string>, body: Option<Json>)
    requires Made(8, loads, allowed, body)
    ensures Agrees(DescendItem(loads, allowed, Item(body)), loads, allowed, body)
  {
    hide Agrees, DescendCallee, Item, Choice, Callee;
    if Made(10, loads, allowed, body) {
      assert Passes(InvalidToolType, loads, allowed, body) && Passes(FunctionNotObject, loads, allowed, body);
      CalleeIs(body);
      CalleeAgrees(loads, allowed, body);
    } else {
      ItemStops(loads, allowed, body);
    }
  }

  lemma CalleeIs(body: Option<Json>)
    ensures Callee(body) == Member(Item(body), "function")
  {
  }

  lemma ItemStops(loads: Loads, allowed: seq<string>, body: Option<Json>)
    requires Made(8, loads, allowed, body) && !Made(10, loads, allowed, body)
    ensures Agrees(DescendItem(loads, allowed, Item(body)), loads, allowed, body)
  {
    hide Item, Choice, DescendCallee;
  }

  lemma CalleeAgrees(loads: Loads, allowed: seq<string>, body: Option<Json>)
    requires Made(10, loads, allowed, body) && Callee(body).Object?
    ensures Agrees(DescendCallee(loads, allowed, Callee(body).fields), loads, allowed, body)
  {
    hide Item, Choice, Callee;
  }

  /** The checks name at most one failure, and its number tells which. */
  lemma OneFailure(a: Rejection, b: Rejection, loads: Loads, allowed: seq<string>, body: Option<Json>)
    requires FirstFailure(a, loads, allowed, body) && FirstFailure(b, loads, allowed, body)
    ensures a == b
    ensures Rank(a) < 15 && forall c :: Rank(c) == Rank(a) ==> c == a
  {
    assert Rank(a) == Rank(b);
  }

  // ---------------------------------------------------------------- accounting

  function Count(json: Json): Option<int> {
    if json.Integer? && SqliteCount(json.value) then Some(json.value) else None
  }

  function Words(json: Json): Option<string> {
    if json.Text? && NonBlank(json.text) then Some(json.text) else None
  }

  function FinishIn(body: Option<Json>): Json { Member(Choice(body), "finish_reason") }

  /** The one report of an invocation, from what was heard and nothing else; its constructor never raises. */
  function Report(model: string, sent: Option<string>, heard: Option<Json>): (usage: InferenceUsage)
    requires NonBlank(model) && (sent.Some? ==> IsSha256(sent.value))
    ensures usage.Valid()
  {
    var counts := Member(Body(heard), "usage");
    var prompt := if sent.None? then Some(0) else Count(Member(counts, "prompt_tokens"));
    var completion := if sent.None? then Some(0) else Count(Member(counts, "completion_tokens"));
    InferenceUsage(Model, if prompt.Some? && completion.Some? then Known else Unknown, sent.Some?, Some("deepseek"), Some(model),
                   Words(Member(Body(heard), "id")), Words(FinishIn(heard)), prompt, completion,
                   Words(Member(Body(heard), "model")), sent)
  }

  /** What is read of a request that was sent: prompt tokens as input and completion tokens as output, each only when it
      is an integer of the database's range, and Known only when both are. */
  lemma ReportCounts(model: string, digest: string, response: map<string, Json>, counts: map<string, Json>, prompt: int,
                     completion: int)
    requires NonBlank(model) && IsSha256(digest)
    ensures var usage := Object(counts["prompt_tokens" := Integer(prompt)]["completion_tokens" := Integer(completion)]);
      var report := Report(model, Some(digest), Some(Object(response["usage" := usage])));
      && report.inputTokens == (if 0 <= prompt < 0x8000_0000_0000_0000 then Some(prompt) else None)
      && report.outputTokens == (if 0 <= completion < 0x8000_0000_0000_0000 then Some(completion) else None)
      && (report.status == Known <==> 0 <= prompt < 0x8000_0000_0000_0000 && 0 <= completion < 0x8000_0000_0000_0000)
  {
    var usage := counts["prompt_tokens" := Integer(prompt)]["completion_tokens" := Integer(completion)];
    assert Member(Object(usage), "prompt_tokens") == Integer(prompt);
    assert Member(Object(usage), "completion_tokens") == Integer(completion);
    assert Member(Object(response["usage" := Object(usage)]), "usage") == Object(usage);
  }

  /** The document is an object with the value under the key. */
  predicate At(body: Option<Json>, key: string, value: Json) {
    body.Some? && body.value.Object? && key in body.value.fields && body.value.fields[key] == value
  }

  /** A count is reported only when the response says it, so a missing one, or one that is no integer, is None. */
  lemma ReportedCountsAreSaid(model: string, digest: string, body: Option<Json>, n: int)
    requires NonBlank(model) && IsSha256(digest)
    ensures var report := Report(model, Some(digest), body);
      && (report.inputTokens == Some(n) <==>
            SqliteCount(n) && exists usage :: At(body, "usage", usage) && At(Some(usage), "prompt_tokens", Integer(n)))
      && (report.outputTokens == Some(n) <==>
            SqliteCount(n) && exists usage :: At(body, "usage", usage) && At(Some(usage), "completion_tokens", Integer(n)))
      && report.status == (if report.inputTokens.Some? && report.outputTokens.Some? then Known else Unknown)
  {
    var usage := Member(Body(body), "usage");
    if usage.Object? {
      assert At(body, "usage", usage);
    }
  }

  /** What every report says of its invocation; one that was never sent reports that nothing was consumed. */
  lemma ReportNames(model: string, sent: Option<string>, body: Option<Json>)
    requires NonBlank(model) && (sent.Some? ==> IsSha256(sent.value))
    ensures var report := Report(model, sent, body);
      && report.kind == Model && report.provider == Some("deepseek") && report.model == Some(model)
      && report.configurationSha256 == sent && (report.requestStarted <==> sent.Some?)
      && (sent.None? ==> report.inputTokens == Some(0) && report.outputTokens == Some(0) && report.status == Known)
  {
  }

  /** The response's identity, model and finish reason are reported exactly as it gives them, when they are text that
      is not blank. */
  lemma ReportQuotes(model: string, sent: Option<string>, body: Option<Json>, text: string)
    requires NonBlank(model) && (sent.Some? ==> IsSha256(sent.value))
    ensures var report := Report(model, sent, body);
      && (report.responseId == Some(text) <==> NonBlank(text) && At(body, "id", Text(text)))
      && (report.responseModel == Some(text) <==> NonBlank(text) && At(body, "model", Text(text)))
      && (report.finishReason == Some(text) <==>
            NonBlank(text) && exists choice :: At(body, "choices", Array([choice])) && At(Some(choice), "finish_reason", Text(text)))
  {
    var choice := Choice(body);
    if Member(Body(body), "choices").Array? && |Member(Body(body), "choices").items| == 1 {
      assert At(body, "choices", Array([choice]));
    }
  }

  /** Only a decoded answer with status 200 is read. */
  lemma HeardExactly(wire: Wire, json: Json)
    ensures Heard(wire) == Some(json) <==> wire == Replied(200, Parsed(json))
  {
  }

  /** A model reservation takes the report of a response exactly when its completion tokens stay within it; they are then
      what it spends, and nothing of it is held any longer. */
  lemma ReportSettles(outputs: seq<OutputRow>, id: string, reservation: Reservation, model: string, digest: string,
                      response: map<string, Json>, counts: map<string, Json>, prompt: int, completion: int)
    requires NonBlank(model) && IsSha256(digest) && SqliteCount(prompt) && SqliteCount(completion)
    requires reservation.kind.Model? && OutputOf(outputs, id) == Some(reservation)
    ensures var usage := Object(counts["prompt_tokens" := Integer(prompt)]["completion_tokens" := Integer(completion)]);
      var report: Usage := Report(model, Some(digest), Some(Object(response["usage" := usage])));
      && UsageFault(outputs, id, Instance(report))
         == (if completion <= reservation.tokens then None else Some(Refused(OutputBreached)))
      && RowTally(reservation, Some(report)).spent == completion
      && RowTally(reservation, Some(report)).held == 0 && RowTally(reservation, Some(report)).unresolved == 0
      && RowTally(reservation, Some(report)).breached == (if completion <= reservation.tokens then 0 else 1)
  {
    ReportCounts(model, digest, response, counts, prompt, completion);
    var usage := Object(counts["prompt_tokens" := Integer(prompt)]["completion_tokens" := Integer(completion)]);
    ReportNames(model, Some(digest), Some(Object(response["usage" := usage])));
  }

  /** A response settles a reservation by its token counts alone: an accepted one and a rejected one that report the
      same usage are recorded, refused and counted alike. */
  lemma {:induction false} SettlesAlike(outputs: seq<OutputRow>, usage: seq<UsageRow>, id: string, model: string,
                                        sent: Option<string>, accepted: Option<Json>, rejected: Option<Json>)
    requires NonBlank(model) && (sent.Some? ==> IsSha256(sent.value))
    requires Member(Body(accepted), "usage") == Member(Body(rejected), "usage")
    ensures var a: Usage, b: Usage := Report(model, sent, accepted), Report(model, sent, rejected);
      && UsageFault(outputs, id, Instance(a)) == UsageFault(outputs, id, Instance(b))
      && TallyOf(outputs, usage + [UsageRow(id, a)]) == TallyOf(outputs, usage + [UsageRow(id, b)])
  {
    var a: Usage, b: Usage := Report(model, sent, accepted), Report(model, sent, rejected);
    assert a.kind == b.kind && a.outputTokens == b.outputTokens;
    if outputs != [] {
      var n := |outputs| - 1;
      SettlesAlike(outputs[..n], usage, id, model, sent, accepted, rejected);
      UsageFrame(usage, UsageRow(id, a), outputs[n].operation);
      UsageFrame(usage, UsageRow(id, b), outputs[n].operation);
    }
  }

  // ------------------------------------------------------------------- adapter

  const TOO_DEEP: TypeName := "RecursionError"
  const REJECTED_NAME: TypeName := "ProviderResponseRejected"
  const FAILURE_NAME: TypeName := "InferenceFailure"
  const CANCELLED_NAME: TypeName := "CancelledError"
  const CARRIED_NAME: TypeName := "InferenceCancelled"
  const CANCELLED: Error := Thrown(CancelledError, CANCELLED_NAME, 0, None)

  function Unforeseen(name: TypeName): Error { Thrown(OtherError, name, 0, None) }

  function RejectedAs(rejection: Rejection, usage: Option<Dynamic<Usage>>): Error {
    Thrown(InferenceRejected, REJECTED_NAME, Rank(rejection), usage)
  }

  /** A rejection is an InferenceRejected that carries the report and tells which check failed. */
  lemma RejectionTells(a: Rejection, b: Rejection, usage: Option<Dynamic<Usage>>)
    ensures RejectedAs(a, usage).IsInferenceRejected() && RejectedAs(a, usage).usage == usage
    ensures RejectedAs(a, usage) == RejectedAs(b, usage) ==> a == b
  {
  }

  /** What one request ends with, when it was sent. */
  ghost predicate Answered(loads: Loads, allowed: seq<string>, wire: Wire, r: Outcome<ToolCall>) {
    match wire
    case Unreachable => r == Raised(PROVIDER_ERROR)
    case Late => r == Raised(PROVIDER_ERROR)
    case Cancelled => r == Raised(CANCELLED)
    case Broke(name) => r == Raised(Unforeseen(name))
    case Replied(status, body) =>
      if status != 200 then r == Raised(PROVIDER_ERROR)
      else if body.Exhausted? || Overruns(loads, allowed, body.Value()) then r == Raised(Unforeseen(TOO_DEEP))
      else
        && (r.Ok? <==> Accepted(loads, allowed, body.Value()))
        && (r.Ok? ==> r.value == CallIn(body.Value()))
        && (r.Raised? ==> exists rejection ::
              FirstFailure(rejection, loads, allowed, body.Value()) && r.error == RejectedAs(rejection, None))
  }

  /** What one invocation ends with: what the trace callback raises overrides the rest. */
  ghost predicate Concludes(loads: Loads, allowed: seq<string>, payload: Payload, unsent: bool, wire: Wire, sink: Sink,
                            report: Usage, r: Outcome<ToolCall>)
  {
    match sink
    case Fails => r == Raised(Thrown(InferenceFailure, FAILURE_NAME, 0, Some(Instance(report))))
    case Cancels => r == Raised(CANCELLED)
    case Breaks(name) => r == Raised(Unforeseen(name))
    case Quiet =>
      if payload.TooDeep? then r == Raised(Unforeseen(TOO_DEEP))
      else if unsent then r == Raised(PROVIDER_ERROR)
      else Answered(loads, allowed, wire, r)
  }

  function Heard(wire: Wire): Option<Json> { if wire.Replied? && wire.status == 200 then wire.body.Value() else None }

  class DeepSeekAdapter {
    const model: string
    const maxTokens: int
    const loads: Loads

    constructor (model: string, maxTokens: int, loads: Loads)
      ensures this.model == model && this.maxTokens == maxTokens && this.loads == loads
    {
      this.model, this.maxTokens, this.loads := model, maxTokens, loads;
    }

    static method Create(model: string, maxTokens: int, loads: Loads) returns (r: Option<DeepSeekAdapter>)
      ensures r.Some? <==> NonBlank(model) && maxTokens > 0
      ensures r.Some? ==> r.value.model == model && r.value.maxTokens == maxTokens && r.value.loads == loads && r.value.Valid()
    {
      if !NonBlank(model) || maxTokens <= 0 {
        return None;
      }
      var adapter := new DeepSeekAdapter(model, maxTokens, loads);
      r := Some(adapter);
    }

    predicate Valid() { NonBlank(model) && maxTokens > 0 }

    /** The checks on a response, in order; a later one is skipped once one has failed. */
    method Examine(body: Option<Json>, allowed: seq<string>)
      returns (rejection: Option<Rejection>, tooDeep: bool, finish: Json, call: ToolCall)
      ensures tooDeep <==> Overruns(loads, allowed, body)
      ensures rejection.None? && !tooDeep ==> Accepted(loads, allowed, body) && call == CallIn(body)
      ensures rejection.Some? ==> !tooDeep && FirstFailure(rejection.value, loads, allowed, body)
      ensures finish == FinishIn(body)
    {
      hide FinishIn, Choice, Item, Callee, CallIn, ExaminedTo, Accepted, Overruns, FirstFailure;
      var choice, item, callee;
      rejection, choice, finish := ExamineChoice(body, allowed);
      rejection, item := ExamineMessage(body, choice, allowed, rejection);
      rejection, callee := ExamineItem(body, item, allowed, rejection);
      rejection, tooDeep, call := ExamineCall(body, callee, allowed, rejection);
      if !tooDeep {
        AllMade(rejection, loads, allowed, body);
      }
    }

    method ExamineChoice(body: Option<Json>, allowed: seq<string>)
      returns (rejection: Option<Rejection>, choice: Json, finish: Json)
      ensures choice == Choice(body) && finish == FinishIn(body)
      ensures ExaminedTo(5, rejection, loads, allowed, body)
    {
      rejection, finish := None, Null;
      if body.None? {
        rejection := Some(InvalidJson);
      }
      if rejection.None? && !Body(body).Object? {
        rejection := Some(ResponseNotObject);
      }
      var choices := Member(Body(body), "choices");
      if rejection.None? {
        if !choices.Array? {
          rejection := Some(ChoicesNotList);
        } else if |choices.items| != 1 {
          rejection := Some(ExpectedOneChoice);
        }
      }
      choice := if rejection.None? && choices.Array? then choices.items[0] else Null;
      assert choice == Choice(body);
      if rejection.None? && !choice.Object? {
        rejection := Some(ChoiceNotObject);
      }
      if choice.Object? {
        finish := Member(choice, "finish_reason");
        if finish != Text("tool_calls") {
          rejection := Some(FinishReasonNotToolCalls);
        }
      }
    }

    method ExamineMessage(body: Option<Json>, choice: Json, allowed: seq<string>, earlier: Option<Rejection>)
      returns (rejection: Option<Rejection>, item: Json)
      requires choice == Choice(body)
      requires ExaminedTo(5, earlier, loads, allowed, body)
      ensures ExaminedTo(8, rejection, loads, allowed, body)
      ensures rejection.None? ==> item == Item(body)
    {
      rejection := earlier;
      var message := Member(choice, "message");
      if rejection.None? && !message.Object? {
        rejection := Some(MessageNotObject);
      }
      var calls := Member(message, "tool_calls");
      if rejection.None? {
        if !calls.Array? {
          rejection := Some(ToolCallsNotList);
        } else if |calls.items| != 1 {
          rejection := Some(ExpectedOneToolCall);
        }
      }
      item := if rejection.None? && calls.Array? then calls.items[0] else Null;
    }

    method ExamineItem(body: Option<Json>, item: Json, allowed: seq<string>, earlier: Option<Rejection>)
      returns (rejection: Option<Rejection>, callee: Json)
      requires earlier.None? ==> item == Item(body)
      requires ExaminedTo(8, earlier, loads, allowed, body)
      ensures ExaminedTo(10, rejection, loads, allowed, body)
      ensures rejection.None? ==> callee == Callee(body)
    {
      rejection := earlier;
      if rejection.None? && (!item.Object? || Member(item, "type") != Text("function")) {
        rejection := Some(InvalidToolType);
      }
      callee := Member(item, "function");
      if rejection.None? && !callee.Object? {
        rejection := Some(FunctionNotObject);
      }
    }

    method ExamineCall(body: Option<Json>, callee: Json, allowed: seq<string>, earlier: Option<Rejection>)
      returns (rejection: Option<Rejection>, tooDeep: bool, call: ToolCall)
      requires earlier.None? ==> callee == Callee(body)
      requires ExaminedTo(10, earlier, loads, allowed, body)
      ensures tooDeep ==> rejection.None? && Overruns(loads, allowed, body)
      ensures !tooDeep ==> ExaminedTo(14, rejection, loads, allowed, body)
      ensures rejection.None? ==> call == CallIn(body)
    {
      hide Callee;
      rejection, tooDeep, call := earlier, false, ToolCall("", "");
      var name, arguments := Member(callee, "name"), Member(callee, "arguments");
      if rejection.None? && (!name.Text? || name.text !in allowed) {
        rejection := Some(ToolNotPermitted);
      }
      if rejection.None? {
        if !arguments.Text? {
          rejection := Some(ArgumentsNotString);
        } else {
          var decoded := loads(arguments.text);
          if decoded.Exhausted? {
            tooDeep := true;
          } else if decoded.Undecodable? {
            rejection := Some(ArgumentsInvalidJson);
          } else if !decoded.json.Object? {
            rejection := Some(ArgumentsNotObject);
          }
        }
      }
      if rejection.None? {
        call := ToolCall(name.text, arguments.text);
      }
    }

    /** _generate: one request, one report. digest is the configuration's. */
    method Ask(request: InferenceRequest, payload: Payload, digest: string, wire: Wire, sink: Sink)
      returns (r: Outcome<ToolCall>, reports: seq<InferenceUsage>)
      requires Valid() && IsSha256(digest)
      ensures var unsent := !payload.Composed? || OutputLimit(maxTokens, request).Raised?;
        && reports == [if unsent then Report(model, None, None) else Report(model, Some(digest), Heard(wire))]
        && Concludes(loads, request.allowedTools, payload, unsent, wire, sink, reports[0], r)
    {
      hide Report, Heard, Answered, OutputLimit;
      var sent: Option<string>, heard: Option<Json>, finish := None, None, Null;
      reports := [];
      var limit := OutputLimit(maxTokens, request);
      if payload.TooDeep? {
        r := Raised(Unforeseen(TOO_DEEP));
      } else if payload.Malformed? || limit.Raised? {
        r := Raised(PROVIDER_ERROR);
      } else {
        sent := Some(digest);
        r, heard, finish := Post(request.allowedTools, wire);
      }
      // finally
      NothingHeard();
      var report := Account(sent, heard, finish);
      reports := reports + [report];
      match sink {
        case Quiet =>
        case Fails => r := Raised(Thrown(InferenceFailure, FAILURE_NAME, 0, Some(Instance(report))));
        case Cancels => r := Raised(CANCELLED);
        case Breaks(name) => r := Raised(Unforeseen(name));
      }
    }

    /** The request itself; heard is the response as far as it was decoded. */
    method Post(allowed: seq<string>, wire: Wire) returns (r: Outcome<ToolCall>, heard: Option<Json>, finish: Json)
      ensures heard == Heard(wire) && finish == FinishIn(heard)
      ensures Answered(loads, allowed, wire, r)
    {
      hide FinishIn, Accepted, FirstFailure, Overruns;
      heard, finish := None, Null;
      NothingHeard();
      match wire {
        case Unreachable => r := Raised(PROVIDER_ERROR);
        case Late => r := Raised(PROVIDER_ERROR);
        case Cancelled => r := Raised(CANCELLED);
        case Broke(name) => r := Raised(Unforeseen(name));
        case Replied(status, body) =>
          if status != 200 {
            r := Raised(PROVIDER_ERROR);
          } else if body.Exhausted? {
            r := Raised(Unforeseen(TOO_DEEP));
          } else {
            heard := body.Value();
            r, finish := Decide(heard, allowed);
          }
      }
    }

    method Account(sent: Option<string>, data: Option<Json>, finish: Json) returns (report: InferenceUsage)
      requires Valid() && (sent.Some? ==> IsSha256(sent.value)) && finish == FinishIn(data)
      ensures report == Report(model, sent, data)
    {
      hide FinishIn;
      var counts := Member(Body(data), "usage");
      var prompt, completion := Count(Member(counts, "prompt_tokens")), Count(Member(counts, "completion_tokens"));
      if sent.None? {
        prompt, completion := Some(0), Some(0);
      }
      report := InferenceUsage(Model, if prompt.Some? && completion.Some? then Known else Unknown, sent.Some?,
                               Some("deepseek"), Some(model), Words(Member(Body(data), "id")), Words(finish), prompt,
                               completion, Words(Member(Body(data), "model")), sent);
    }

    method Decide(body: Option<Json>, allowed: seq<string>) returns (r: Outcome<ToolCall>, finish: Json)
      ensures finish == FinishIn(body)
      ensures if Overruns(loads, allowed, body) then r == Raised(Unforeseen(TOO_DEEP))
              else
                && (r.Ok? <==> Accepted(loads, allowed, body))
                && (r.Ok? ==> r.value == CallIn(body))
                && (r.Raised? ==> exists rejection ::
                      FirstFailure(rejection, loads, allowed, body) && r.error == RejectedAs(rejection, None))
    {
      hide FinishIn, Accepted, FirstFailure, Overruns;
      var rejection, tooDeep, call;
      rejection, tooDeep, finish, call := Examine(body, allowed);
      if tooDeep {
        return Raised(Unforeseen(TOO_DEEP)), finish;
      }
      if rejection.Some? {
        FailureIsNotAcceptance(rejection.value, loads, allowed, body);
        return Raised(RejectedAs(rejection.value, None)), finish;
      }
      r := Ok(call);
    }

    /** generate, as the runtime sees it: its answer carries the report, unless an unforeseen exception goes up. */
    method Generate(request: InferenceRequest, payload: Payload, digest: string, wire: Wire, sink: Sink)
      returns (reply: Reply<InferenceResult>)
      requires Valid() && IsSha256(digest)
      ensures var unsent := !payload.Composed? || OutputLimit(maxTokens, request).Raised?;
        var report: Usage := if unsent then Report(model, None, None) else Report(model, Some(digest), Heard(wire));
        Replies(loads, request.allowedTools, payload, unsent, wire, sink, report, reply)
    {
      hide Answered, Replies, Report, Heard, OutputLimit, NonBlank;
      var r, reports := Ask(request, payload, digest, wire, sink);
      ghost var unsent := !payload.Composed? || OutputLimit(maxTokens, request).Raised?;
      var report: Usage := reports[0];
      match r {
        case Ok(call) => reply := Value(InferenceResult(Instance(call), Instance(report)));
        case Raised(error) =>
          if error.Class() == InferenceFailure || error.Class() == InferenceRejected {
            reply := Threw(Thrown(error.kind, error.name, error.tag, Some(Instance(report))));
          } else if error.Class() == CancelledError {
            reply := Threw(Thrown(InferenceCancelled, CARRIED_NAME, 0, Some(Instance(report))));
          } else {
            reply := Threw(error);
          }
      }
      Carries(loads, request.allowedTools, payload, unsent, wire, sink, report, r, reply);
    }
  }

  /** How generate passes on what _generate came to. */
  predicate PassedOn(report: Usage, r: Outcome<ToolCall>, reply: Reply<InferenceResult>) {
    match r
    case Ok(call) => reply == Value(InferenceResult(Instance(call), Instance(report)))
    case Raised(error) =>
      match error.Class()
      case InferenceFailure => error.Thrown? && reply == Threw(error.(usage := Some(Instance(report))))
      case InferenceRejected => error.Thrown? && reply == Threw(error.(usage := Some(Instance(report))))
      case CancelledError => reply == Threw(Thrown(InferenceCancelled, CARRIED_NAME, 0, Some(Instance(report))))
      case _ => reply == Threw(error)
  }

  lemma Carries(loads: Loads, allowed: seq<string>, payload: Payload, unsent: bool, wire: Wire, sink: Sink, report: Usage,
                r: Outcome<ToolCall>, reply: Reply<InferenceResult>)
    requires !payload.Composed? ==> unsent
    requires Concludes(loads, allowed, payload, unsent, wire, sink, report, r)
    requires PassedOn(report, r, reply)
    ensures Replies(loads, allowed, payload, unsent, wire, sink, report, reply)
  {
    hide Accepted, FirstFailure, Overruns, NonBlank;
  }

  lemma FailureIsNotOverrun(rejection: Rejection, loads: Loads, allowed: seq<string>, body: Option<Json>)
    requires FirstFailure(rejection, loads, allowed, body)
    ensures !Overruns(loads, allowed, body)
  {
    assert Rank(ArgumentsInvalidJson) < Rank(rejection) ==> Passes(ArgumentsInvalidJson, loads, allowed, body);
  }

  lemma FailureIsNotAcceptance(rejection: Rejection, loads: Loads, allowed: seq<string>, body: Option<Json>)
    requires FirstFailure(rejection, loads, allowed, body)
    ensures !Accepted(loads, allowed, body)
  {
  }

  lemma NothingHeard()
    ensures FinishIn(None) == Null
  {
  }

  /** An exception goes up that the adapter does not handle: its own decoding, its transport's, or its sink's. */
  ghost predicate GoesUp(loads: Loads, allowed: seq<string>, payload: Payload, unsent: bool, wire: Wire, sink: Sink) {
    match sink
    case Fails => false
    case Cancels => false
    case Breaks(_) => true
    case Quiet =>
      payload.TooDeep?
      || (!unsent && wire.Broke?)
      || (!unsent && wire.Replied? && wire.status == 200
          && (wire.body.Exhausted? || Overruns(loads, allowed, wire.body.Value())))
  }

  /** The answer of generate: the call, the rejection, every failure it handles with the one report, any other bare. */
  ghost predicate Replies(loads: Loads, allowed: seq<string>, payload: Payload, unsent: bool, wire: Wire, sink: Sink,
                          report: Usage, reply: Reply<InferenceResult>)
  {
    var carried := Some(Instance(report));
    if GoesUp(loads, allowed, payload, unsent, wire, sink) then exists name :: reply == Threw(Unforeseen(name))
    else if sink.Fails? then reply == Threw(Thrown(InferenceFailure, FAILURE_NAME, 0, carried))
    else if sink.Cancels? || (!unsent && wire.Cancelled?) then
      reply == Threw(Thrown(InferenceCancelled, CARRIED_NAME, 0, carried))
    else if unsent || !wire.Replied? || wire.status != 200 then
      reply == Threw(Thrown(InferenceFailure, PROVIDER_NAME, 0, carried))
    else if Accepted(loads, allowed, wire.body.Value()) then
      reply == Value(InferenceResult(Instance(CallIn(wire.body.Value())), Instance(report)))
    else
      exists rejection ::
        FirstFailure(rejection, loads, allowed, wire.body.Value()) && reply == Threw(RejectedAs(rejection, carried))
  }

  /** The runtime records the one report, and no other, exactly when no unhandled exception goes up; else it records
      none, and a capped run's reservation stays held. */
  lemma RepliesCarryReport(loads: Loads, allowed: seq<string>, payload: Payload, unsent: bool, wire: Wire, sink: Sink,
                           report: Usage, reply: Reply<InferenceResult>, id: string)
    requires Replies(loads, allowed, payload, unsent, wire, sink, report, reply)
    ensures UsageNotes(id, ReportIn(reply)).usage
         == if GoesUp(loads, allowed, payload, unsent, wire, sink) then [] else [UsageRow(id, report)]
  {
    hide Accepted, FirstFailure, GoesUp;
  }

  /** A response that reports its usage, and is of the right shape but for arguments nested too deep to decode, loses
      its report: the promise that accepted and rejected responses settle alike does not reach it. */
  lemma DeepArgumentsLoseReport(loads: Loads, allowed: seq<string>, response: map<string, Json>, choice: map<string, Json>,
                                message: map<string, Json>, item: map<string, Json>, callee: map<string, Json>,
                                call: ToolCall, report: Usage, reply: Reply<InferenceResult>, id: string)
    requires call.name in allowed && loads(call.arguments).Exhausted?
    requires var wire := Replied(200, Parsed(Envelope(response, choice, message, item, callee, call)));
      Replies(loads, allowed, Composed, false, wire, Quiet, report, reply)
    ensures UsageNotes(id, ReportIn(reply)).usage == []
    ensures forall reservation: Reservation :: reservation.kind.Model? ==>
      RowTally(reservation, UsageOf(UsageNotes(id, ReportIn(reply)).usage, id)).unresolved == 1
  {
    hide Replies;
    var body := Envelope(response, choice, message, item, callee, call);
    EnvelopeOverruns(loads, allowed, response, choice, message, item, callee, call);
    assert GoesUp(loads, allowed, Composed, false, Replied(200, Parsed(body)), Quiet);
    RepliesCarryReport(loads, allowed, Composed, false, Replied(200, Parsed(body)), Quiet, report, reply, id);
  }

  lemma EnvelopeOverruns(loads: Loads, allowed: seq<string>, response: map<string, Json>, choice: map<string, Json>,
                         message: map<string, Json>, item: map<string, Json>, callee: map<string, Json>, call: ToolCall)
    requires call.name in allowed && loads(call.arguments).Exhausted?
    ensures Overruns(loads, allowed, Some(Envelope(response, choice, message, item, callee, call)))
  {
    var body := Some(Envelope(response, choice, message, item, callee, call));
    assert Member(Choice(body), "finish_reason") == Text("tool_calls");
    assert Member(Item(body), "type") == Text("function");
    assert Member(Callee(body), "name") == Text(call.name);
  }

  /** The checks up to the given rank have been made: the first that failed is known, if any. */
  ghost predicate ExaminedTo(rank: nat, rejection: Option<Rejection>, loads: Loads, allowed: seq<string>, body: Option<Json>) {
    match rejection
    case None => forall made :: Rank(made) <= rank ==> Passes(made, loads, allowed, body)
    case Some(failed) => Rank(failed) <= rank && FirstFailure(failed, loads, allowed, body)
  }

  lemma AllMade(rejection: Option<Rejection>, loads: Loads, allowed: seq<string>, body: Option<Json>)
    requires ExaminedTo(14, rejection, loads, allowed, body)
    ensures !Overruns(loads, allowed, body)
    ensures match rejection
      case None => Accepted(loads, allowed, body)
      case Some(failed) => FirstFailure(failed, loads, allowed, body)
  {
    if rejection.Some? {
      FailureIsNotOverrun(rejection.value, loads, allowed, body);
    } else {
      assert Passes(ArgumentsInvalidJson, loads, allowed, body);
    }
  }
}
