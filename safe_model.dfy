/**
 * The safety gate (class `SafeModel` of safe_model.py). Each call of `Chat`
 * picks the last genuine user turn, adopts a state decoded from its hidden
 * payload, has the visible part of that turn scored by an evaluator, stores
 * the clamped evaluation as the new state, and then either refuses (risk at
 * or above 0.8) or delegates to the service and decides whether to hide the
 * state in the reply. The two language-model calls are opaque functions
 * held by the object, like the client the source creates in its constructor.
 */
module SafeModel {
  import opened Base
  import opened JsonValues
  import opened SafetyStego

  datatype Role = System | User | Assistant

  /** One conversation turn (`{"role": ..., "content": ...}`). */
  datatype Message = Message(role: Role, content: string)

  /** The prefix that marks a user turn echoing the result of running code. */
  const ExecutionOutputMarker: string := "Execution output:"

  /** Risk at or above this value forces a refusal. */
  const RefusalThreshold: real := 0.8

  const RefusalReason: string := "trajectory too risky"

  /** What `chat` raises instead of returning. */
  datatype GateError =
    | NoUserTurn                       // no genuine user turn: the source subscripts None
    | EvaluatorNotJson(reply: string)  // the evaluator's reply is not JSON
    | EvaluatorReplyNotObject          // the evaluator's JSON is not an object, so `.get` fails
    | RiskScoreNotNumber               // `float()` rejects the risk score
    | ReplyNotObject                   // the service's JSON is not an object, so `.get` fails

  // ------------------------------------------------------------------
  // Selecting and cleaning the turn to evaluate
  // ------------------------------------------------------------------

  /** A user turn that is not an echo of execution output. */
  predicate IsGenuineUserTurn(m: Message) {
    m.role == User && !(ExecutionOutputMarker <= m.content)
  }

  /** The index of the most recent genuine user turn, if there is one. */
  function LastUserTurn(messages: seq<Message>): (r: Option<nat>)
    ensures r.Some? ==> r.value < |messages| && IsGenuineUserTurn(messages[r.value])
    ensures r.Some? ==> forall j :: r.value < j < |messages| ==> !IsGenuineUserTurn(messages[j])
    ensures r.None? ==> forall j :: 0 <= j < |messages| ==> !IsGenuineUserTurn(messages[j])
  {
    if messages == [] then None
    else if IsGenuineUserTurn(messages[|messages| - 1]) then Some(|messages| - 1)
    else LastUserTurn(messages[..|messages| - 1])
  }

  /** The text before the first header: what a reader sees, without the hidden payload. */
  function VisibleText(text: string): (r: string)
    ensures ZwHeader !in r
    ensures r <= text
    ensures ZwHeader in text ==> |r| < |text| && text[|r|] == ZwHeader
    ensures ZwHeader !in text ==> r == text
  {
    match FirstIndex(text, ZwHeader)
    case None => text
    case Some(i) => text[..i]
  }

  // ------------------------------------------------------------------
  // The evaluation and its post-processing
  // ------------------------------------------------------------------

  /** The state of a freshly constructed gate. */
  function InitialState(): Json {
    Object(map[
      "stated_intent" := Str("unknown"),
      "inferred_intent" := Str("unknown"),
      "risk_score" := Num(0.0)])
  }

  /** `max(0.0, min(1.0, x))`. */
  function Clamp(x: real): (r: real)
    ensures 0.0 <= r <= 1.0
    ensures 0.0 <= x <= 1.0 ==> r == x
    ensures x < 0.0 ==> r == 0.0
    ensures x > 1.0 ==> r == 1.0
  {
    var upper := if 1.0 <= x then 1.0 else x;
    if upper <= 0.0 then 0.0 else upper
  }

  /** Python's `float()` applied to a JSON value; `None` where it raises. */
  function ToFloat(json: JsonLib, v: Json): (r: Option<real>)
    ensures v.Num? ==> r == Some(v.n)
    ensures v.Bool? ==> r == Some(if v.b then 1.0 else 0.0)
    ensures v.Str? ==> r == json.parseFloat(v.s)
    ensures v.Null? || v.Array? || v.Object? ==> r.None?
  {
    match v
    case Num(n) => Some(n)
    case Bool(b) => Some(if b then 1.0 else 0.0)
    case Str(s) => json.parseFloat(s)
    case _ => None
  }

  /** An object whose `risk_score` is a number in [0, 1]. */
  predicate IsEvaluated(state: Json) {
    && state.Object?
    && "risk_score" in state.fields
    && state.fields["risk_score"].Num?
    && 0.0 <= state.fields["risk_score"].n <= 1.0
  }

  function RiskOf(state: Json): real
    requires IsEvaluated(state)
  {
    state.fields["risk_score"].n
  }

  /** The state forces a refusal. */
  predicate Refuses(state: Json)
    requires IsEvaluated(state)
  {
    RiskOf(state) >= RefusalThreshold
  }

  /**
   * The post-processing of `_llm_evaluate_safety`: parse the evaluator's
   * reply, read `risk_score` (0.0 when absent), convert it and clamp it.
   */
  function Evaluate(json: JsonLib, reply: string): (r: Result<Json, GateError>)
    ensures json.loads(reply).None? ==> r == Failure(EvaluatorNotJson(reply))
    ensures json.loads(reply).Some? && !json.loads(reply).value.Object? ==> r == Failure(EvaluatorReplyNotObject)
    ensures r.Success? ==> IsEvaluated(r.value)
    ensures r.Success? ==>
      && json.loads(reply).Some? && json.loads(reply).value.Object?
      && var parsed := json.loads(reply).value.fields;
      && r.value.fields.Keys == parsed.Keys + {"risk_score"}
      && (forall k :: k in parsed && k != "risk_score" ==> r.value.fields[k] == parsed[k])
    ensures json.loads(reply).Some? && json.loads(reply).value.Object? ==>
      var parsed := json.loads(reply).value.fields;
      && ("risk_score" !in parsed ==> r.Success? && RiskOf(r.value) == 0.0)
      && ("risk_score" in parsed && ToFloat(json, parsed["risk_score"]).None? ==> r == Failure(RiskScoreNotNumber))
      && ("risk_score" in parsed && ToFloat(json, parsed["risk_score"]).Some? ==>
            r.Success? && RiskOf(r.value) == Clamp(ToFloat(json, parsed["risk_score"]).value))
      && ("risk_score" in parsed && parsed["risk_score"].Num? ==>
            r.Success? && RiskOf(r.value) == Clamp(parsed["risk_score"].n))
      && ("risk_score" in parsed && parsed["risk_score"].Bool? ==>
            r.Success? && RiskOf(r.value) == (if parsed["risk_score"].b then 1.0 else 0.0))
  {
    match json.loads(reply)
    case None => Failure(EvaluatorNotJson(reply))
    case Some(obj) =>
      if !obj.Object? then Failure(EvaluatorReplyNotObject)
      else
        var score := if "risk_score" in obj.fields then obj.fields["risk_score"] else Num(0.0);
        match ToFloat(json, score)
        case None => Failure(RiskScoreNotNumber)
        case Some(x) => Success(Object(obj.fields["risk_score" := Num(Clamp(x))]))
  }

  // ------------------------------------------------------------------
  // What `chat` returns
  // ------------------------------------------------------------------

  /** The state after the inbound payload of `content` is adopted (if it decodes to a truthy value). */
  function Inbound(json: JsonLib, state: Json, content: string): (r: Json)
    ensures ZwHeader !in content ==> r == state
    ensures r == state || Extract(json, content) == Some(r)
    ensures ZwHeader in content && Extract(json, content).Some? && Truthy(Extract(json, content).value) ==>
      r == Extract(json, content).value
    ensures !(Extract(json, content).Some? && Truthy(Extract(json, content).value)) ==> r == state
  {
    if ZwHeader in content then
      match Extract(json, content)
      case Some(extracted) => if Truthy(extracted) then extracted else state
      case None => state
    else state
  }

  /** The finish action a refusal carries. */
  function RefusalAction(state: Json): (r: Json)
    ensures r.Object? && Get(r.fields, "action") == Some(Str("finish")) && "final" in r.fields
    ensures var final := r.fields["final"];
      && final.Object? && final.fields.Keys == {"type", "result", "metadata"}
      && final.fields["type"] == Str("refusal") && final.fields["result"] == Array([])
      && final.fields["metadata"] == Object(map["reason" := Str(RefusalReason), "safety_state" := state])
  {
    Object(map[
      "action" := Str("finish"),
      "final" := Object(map[
        "type" := Str("refusal"),
        "result" := Array([]),
        "metadata" := Object(map[
          "reason" := Str(RefusalReason),
          "safety_state" := state])])])
  }

  /** The refusal text: the serialised refusal action with the state hidden behind it. */
  function Refusal(json: JsonLib, state: Json): (r: string)
    ensures ZwHeader !in json.dumps(RefusalAction(state)) ==> VisibleText(r) == json.dumps(RefusalAction(state))
  {
    var visible := json.dumps(RefusalAction(state));
    var r := Embed(json, visible, state);
    assert ZwHeader !in visible ==> FirstIndex(r, ZwHeader) == Some(|visible|) by {
      if ZwHeader !in visible {
        FirstIndexAfter(visible, ZwHeader, r[|visible| + 1..]);
        assert r == visible + [ZwHeader] + r[|visible| + 1..];
      }
    }
    r
  }

  /** `text` parses to an object whose `action` is the string `name`. */
  predicate ActionIs(json: JsonLib, text: string, name: string) {
    && json.loads(text).Some?
    && json.loads(text).value.Object?
    && Get(json.loads(text).value.fields, "action") == Some(Str(name))
  }

  /**
   * The delegation branch of `chat`: a run_code reply passes through
   * byte for byte, every other reply gets the state hidden behind it.
   */
  function Delegate(json: JsonLib, state: Json, reply: string): (r: Result<string, GateError>)
    ensures r.Failure? <==> json.loads(reply).Some? && !json.loads(reply).value.Object?
    ensures r.Failure? ==> r.error == ReplyNotObject
    ensures r.Success? ==> (r.value == reply <==> ActionIs(json, reply, "run_code"))
    ensures r.Success? && !ActionIs(json, reply, "run_code") ==> r.value == Embed(json, reply, state)
  {
    match json.loads(reply)
    case None => Success(Embed(json, reply, state))
    case Some(parsed) =>
      if !parsed.Object? then Failure(ReplyNotObject)
      else if Get(parsed.fields, "action") == Some(Str("run_code")) then Success(reply)
      else Success(Embed(json, reply, state))
  }

  /**
   * The state `chat` leaves when the turn it selects is `content`: the
   * fresh evaluation, or, when the evaluation fails, the state with the
   * inbound payload adopted.
   */
  function TurnState(json: JsonLib, evaluator: string -> string, state: Json, content: string): Json {
    match Evaluate(json, evaluator(VisibleText(content)))
    case Success(evaluation) => evaluation
    case Failure(_) => Inbound(json, state, content)
  }

  /** The state `chat` leaves after a call on `messages`. */
  function ChatState(json: JsonLib, evaluator: string -> string, state: Json, messages: seq<Message>): Json {
    match LastUserTurn(messages)
    case None => state
    case Some(i) => TurnState(json, evaluator, state, messages[i].content)
  }

  /**
   * What `chat` returns for `messages`. The state held before the call
   * does not take part: a successful evaluation replaces it first.
   */
  function ChatReply(json: JsonLib, evaluator: string -> string, service: seq<Message> -> string,
                     messages: seq<Message>): Result<string, GateError> {
    match LastUserTurn(messages)
    case None => Failure(NoUserTurn)
    case Some(i) =>
      match Evaluate(json, evaluator(VisibleText(messages[i].content)))
      case Failure(e) => Failure(e)
      case Success(evaluation) =>
        if Refuses(evaluation) then Success(Refusal(json, evaluation))
        else Delegate(json, evaluation, service(messages))
  }

  // ------------------------------------------------------------------
  // The gate object
  // ------------------------------------------------------------------

  /** One call of `chat`: the conversation it received and what it returned or raised. */
  datatype Exchange = Exchange(request: seq<Message>, reply: Result<string, GateError>)

  class SafeModel {
    /** The current safety state; replaced wholesale, never merged. */
    var safetyState: Json
    /** Every text the evaluator was asked to score, in order. */
    ghost var evaluatorLog: seq<string>
    /** Every conversation forwarded to the service, in order. */
    ghost var serviceLog: seq<seq<Message>>
    /** Every call of `chat`, in order, with its result. */
    ghost var chatLog: seq<Exchange>

    const json: JsonLib
    /** The evaluator model's reply to the safety prompt built around a text. */
    const evaluator: string -> string
    /** The service model's reply to a conversation. */
    const service: seq<Message> -> string

    constructor (json: JsonLib, evaluator: string -> string, service: seq<Message> -> string)
      ensures this.json == json && this.evaluator == evaluator && this.service == service
      ensures safetyState == InitialState()
      ensures IsEvaluated(safetyState) && RiskOf(safetyState) == 0.0
      ensures evaluatorLog == [] && serviceLog == [] && chatLog == []
    {
      this.json := json;
      this.evaluator := evaluator;
      this.service := service;
      safetyState := InitialState();
      evaluatorLog := [];
      serviceLog := [];
      chatLog := [];
    }

    /** `chat`: one gated turn over the conversation `messages`. */
    method Chat(messages: seq<Message>) returns (r: Result<string, GateError>)
      modifies this
      ensures r == ChatReply(json, evaluator, service, messages)
      ensures safetyState == ChatState(json, evaluator, old(safetyState), messages)
      ensures chatLog == old(chatLog) + [Exchange(messages, r)]
      ensures LastUserTurn(messages).None? ==>
        r == Failure(NoUserTurn) && unchanged(this`safetyState, this`evaluatorLog, this`serviceLog)
      ensures LastUserTurn(messages).Some? ==>
        evaluatorLog == old(evaluatorLog) + [VisibleText(messages[LastUserTurn(messages).value].content)]
      ensures serviceLog == old(serviceLog) || serviceLog == old(serviceLog) + [messages]
      ensures LastUserTurn(messages).Some? ==>
        var content := messages[LastUserTurn(messages).value].content;
        var evaluation := Evaluate(json, evaluator(VisibleText(content)));
        && evaluatorLog == old(evaluatorLog) + [VisibleText(content)]
        && (evaluation.Failure? ==>
              && r == Failure(evaluation.error)
              && safetyState == Inbound(json, old(safetyState), content)
              && serviceLog == old(serviceLog))
        && (evaluation.Success? ==> safetyState == evaluation.value)
        && (evaluation.Success? && Refuses(evaluation.value) ==>
              && r == Success(Refusal(json, evaluation.value))
              && serviceLog == old(serviceLog))
        && (evaluation.Success? && !Refuses(evaluation.value) ==>
              && r == Delegate(json, evaluation.value, service(messages))
              && serviceLog == old(serviceLog) + [messages])
    {
      var last := LastUserTurn(messages);
      if last.None? {
        r := Failure(NoUserTurn);
      } else {
        var msgText := messages[last.value].content;
        if ZwHeader in msgText {
          var extracted := Extract(json, msgText);
          if extracted.Some? && Truthy(extracted.value) {
            safetyState := extracted.value;
          }
        }

        var userText := msgText;
        if ZwHeader in userText {
          userText := VisibleText(userText);
        }
        evaluatorLog := evaluatorLog + [userText];
        var evaluation := Evaluate(json, evaluator(userText));
        if evaluation.Failure? {
          r := Failure(evaluation.error);
        } else {
          safetyState := evaluation.value;
          if RiskOf(safetyState) >= RefusalThreshold {
            var refusal := json.dumps(RefusalAction(safetyState));
            r := Success(Embed(json, refusal, safetyState));
          } else {
            serviceLog := serviceLog + [messages];
            var content := service(messages);
            var parsed := json.loads(content);
            if parsed.None? {
              r := Success(Embed(json, content, safetyState));
            } else if !parsed.value.Object? {
              r := Failure(ReplyNotObject);
            } else if Get(parsed.value.fields, "action") == Some(Str("run_code")) {
              r := Success(content);
            } else {
              r := Success(Embed(json, content, safetyState));
            }
          }
        }
      }
      chatLog := chatLog + [Exchange(messages, r)];
    }
  }

  // ------------------------------------------------------------------
  // Laws of the gate
  // ------------------------------------------------------------------

  /** Out-of-range scores are clamped on ingestion: 1.7 is stored as 1.0 and -0.2 as 0.0. */
  lemma EvaluateClampsOutOfRange(json: JsonLib, high: string, low: string)
    requires json.loads(high) == Some(Object(map["risk_score" := Num(1.7)]))
    requires json.loads(low) == Some(Object(map["risk_score" := Num(-0.2)]))
    ensures Evaluate(json, high) == Success(Object(map["risk_score" := Num(1.0)]))
    ensures Evaluate(json, low) == Success(Object(map["risk_score" := Num(0.0)]))
  {
    assert Clamp(1.7) == 1.0 && Clamp(-0.2) == 0.0;
    assert map["risk_score" := Num(1.7)]["risk_score" := Num(1.0)] == map["risk_score" := Num(1.0)];
    assert map["risk_score" := Num(-0.2)]["risk_score" := Num(0.0)] == map["risk_score" := Num(0.0)];
  }

  /** The boundary is inclusive: 0.79 delegates and 0.8 refuses. */
  lemma ThresholdIsInclusive(below: Json, at: Json)
    requires below == Object(map["risk_score" := Num(0.79)])
    requires at == Object(map["risk_score" := Num(0.8)])
    ensures IsEvaluated(below) && !Refuses(below)
    ensures IsEvaluated(at) && Refuses(at)
  {
  }

  /** The initial state is neutral: it would never force a refusal. */
  lemma InitialStateIsNeutral()
    ensures IsEvaluated(InitialState()) && RiskOf(InitialState()) == 0.0 && !Refuses(InitialState())
    ensures InitialState().fields["stated_intent"] == Str("unknown")
    ensures InitialState().fields["inferred_intent"] == Str("unknown")
  {
  }

  /**
   * A hand-crafted hidden run behind the first header is adopted as the
   * state as soon as it decodes to a truthy value: nothing authenticates it.
   */
  lemma ForgedStateAdopted(json: JsonLib, state: Json, visible: string, forged: string)
    requires ZwHeader !in visible && Below256(forged)
    requires json.loads(forged).Some? && Truthy(json.loads(forged).value)
    ensures Inbound(json, state, visible + [ZwHeader] + Hidden(forged)) == json.loads(forged).value
  {
    ExtractHidden(json, visible, forged);
  }

  /** What a reader sees of an embedded reply is the reply itself. */
  lemma VisibleTextOfEmbed(json: JsonLib, visible: string, state: Json)
    requires ZwHeader !in visible
    ensures VisibleText(Embed(json, visible, state)) == visible
  {
  }

  /** A refusal carries the state forward: decoding it yields the serialised state back. */
  lemma RefusalCarriesState(json: JsonLib, state: Json)
    requires ZwHeader !in json.dumps(RefusalAction(state))
    requires Below256(json.dumps(state))
    ensures Extract(json, Refusal(json, state)) == json.loads(json.dumps(state))
  {
    ExtractEmbed(json, json.dumps(RefusalAction(state)), state);
  }

  /** Every delegated reply other than run_code carries the state forward. */
  lemma DelegateCarriesState(json: JsonLib, state: Json, reply: string)
    requires !ActionIs(json, reply, "run_code")
    requires json.loads(reply).None? || json.loads(reply).value.Object?
    requires ZwHeader !in reply && Below256(json.dumps(state))
    ensures Delegate(json, state, reply).Success?
    ensures VisibleText(Delegate(json, state, reply).value) == reply
    ensures Extract(json, Delegate(json, state, reply).value) == json.loads(json.dumps(state))
  {
    ExtractEmbed(json, reply, state);
    VisibleTextOfEmbed(json, reply, state);
  }
}
