/**
 * The agent controller (agent.py): it strips zero-width characters from
 * what the gate returns, parses the rest as an action, runs code and loops,
 * or stops on a finish action or a malformed reply. The code executor is an
 * opaque function giving the trimmed (stdout, stderr) of a program.
 */
module Agent {
  import opened Base
  import opened JsonValues
  import opened SafetyStego
  import opened SafeModel

  // ------------------------------------------------------------------
  // strip_zw
  // ------------------------------------------------------------------

  /** ZERO WIDTH SPACE, NON-JOINER, JOINER and NO-BREAK SPACE (byte order mark). */
  predicate IsZeroWidth(c: char) {
    c == '\U{200B}' || c == '\U{200C}' || c == '\U{200D}' || c == '\U{FEFF}'
  }

  predicate NoZeroWidth(s: string) {
    forall i :: 0 <= i < |s| ==> !IsZeroWidth(s[i])
  }

  /** `strip_zw`: drop every zero-width character. */
  function StripZw(text: string): (r: string)
    ensures NoZeroWidth(r)
    ensures forall c :: c in r <==> c in text && !IsZeroWidth(c)
    ensures |r| <= |text|
  {
    if text == [] then []
    else (if IsZeroWidth(text[0]) then [] else [text[0]]) + StripZw(text[1..])
  }

  /** Stripping works piecewise. */
  lemma {:induction false} StripZwConcat(a: string, b: string)
    ensures StripZw(a + b) == StripZw(a) + StripZw(b)
  {
    if a == [] {
      assert a + b == b;
    } else {
      assert (a + b)[1..] == a[1..] + b;
      StripZwConcat(a[1..], b);
    }
  }

  /** Text without zero-width characters is kept as it is, in order. */
  lemma {:induction false} StripZwKeepsClean(s: string)
    requires NoZeroWidth(s)
    ensures StripZw(s) == s
  {
    if s != [] {
      StripZwKeepsClean(s[1..]);
    }
  }

  /** Text made only of zero-width characters disappears. */
  lemma {:induction false} StripZwDropsInvisible(s: string)
    requires forall i :: 0 <= i < |s| ==> IsZeroWidth(s[i])
    ensures StripZw(s) == []
  {
    if s != [] {
      StripZwDropsInvisible(s[1..]);
    }
  }

  /** Stripping twice is stripping once. */
  lemma StripZwIdempotent(s: string)
    ensures StripZw(StripZw(s)) == StripZw(s)
  {
    StripZwKeepsClean(StripZw(s));
  }

  /** Stripping removes everything the codec adds: header and hidden run alike. */
  lemma StripZwOfEmbed(json: JsonLib, visible: string, state: Json)
    ensures StripZw(Embed(json, visible, state)) == StripZw(visible)
  {
    var r := Embed(json, visible, state);
    var tail := r[|visible|..];
    assert r == visible + tail;
    StripZwConcat(visible, tail);
    StripZwDropsInvisible(tail);
  }

  /** Stripped text holds no payload the gate could decode. */
  lemma StrippedTextHasNoPayload(json: JsonLib, text: string)
    ensures Extract(json, StripZw(text)) == None
  {
  }

  // ------------------------------------------------------------------
  // execute_python
  // ------------------------------------------------------------------

  /** The trimmed streams a run of a program produced. */
  datatype ExecResult = ExecResult(stdout: string, stderr: string)

  const ErrorTag: string := "[error]\n"

  /**
   * The output selection of `execute_python`: error text replaces standard
   * output whenever there is any, so only one of the two is surfaced.
   */
  function ExecutePython(run: string -> ExecResult, code: string): string {
    var result := run(code);
    if result.stderr != [] then ErrorTag + result.stderr else result.stdout
  }

  /**
   * Any error text is surfaced, whole, behind the error tag, and standard
   * output is then dropped; without error text, standard output comes back
   * unchanged.
   */
  lemma ExecutePythonSurfacesOne(run: string -> ExecResult, code: string)
    ensures run(code).stderr != [] ==>
      && ErrorTag <= ExecutePython(run, code)
      && ExecutePython(run, code)[|ErrorTag|..] == run(code).stderr
    ensures run(code).stderr == [] ==> ExecutePython(run, code) == run(code).stdout
  {
  }

  // ------------------------------------------------------------------
  // One step's decision
  // ------------------------------------------------------------------

  const NonJsonFailure: string := "\U{274C} LLM returned non-JSON:\n"
  const InvalidRunCodeFailure: string := "\U{274C} Invalid run_code payload:\n"
  const MissingFinalFailure: string := "\U{274C} finish missing final object:\n"
  const MissingKeysFailure: string := "\U{274C} final object missing required keys:\n"
  const InvalidActionFailure: string := "\U{274C} Invalid action:\n"

  /** What the controller does with one reply of the gate. */
  datatype Decision =
    | RunCode(code: string)   // execute and loop
    | Finish(final: Json)     // return `final`
    | Fail(message: string)   // return a failure report
    | NotAnObject             // the payload is JSON but not an object, so `.get` raises

  /** A final object with all three required keys. */
  predicate HasFinalKeys(final: Json) {
    final.Object? && "type" in final.fields && "result" in final.fields && "metadata" in final.fields
  }

  /**
   * The dispatch in the body of `agent_step`'s loop: strip, parse, and
   * classify the payload by its `action`.
   */
  function Decide(json: JsonLib, raw: string): (d: Decision)
    ensures json.loads(StripZw(raw)).None? ==> d == Fail(NonJsonFailure + StripZw(raw))
    ensures d.NotAnObject? <==> json.loads(StripZw(raw)).Some? && !json.loads(StripZw(raw)).value.Object?
    ensures d.RunCode? ==>
      ActionIs(json, StripZw(raw), "run_code") && Get(json.loads(StripZw(raw)).value.fields, "code") == Some(Str(d.code))
    ensures d.Finish? ==>
      && ActionIs(json, StripZw(raw), "finish")
      && Get(json.loads(StripZw(raw)).value.fields, "final") == Some(d.final)
      && HasFinalKeys(d.final)
    ensures forall code ::
      (ActionIs(json, StripZw(raw), "run_code") && Get(json.loads(StripZw(raw)).value.fields, "code") == Some(Str(code)))
      ==> d == RunCode(code)
    ensures ActionIs(json, StripZw(raw), "run_code") && !d.RunCode? ==> d == Fail(InvalidRunCodeFailure + raw)
    ensures forall final ::
      (ActionIs(json, StripZw(raw), "finish") && Get(json.loads(StripZw(raw)).value.fields, "final") == Some(final)
       && HasFinalKeys(final))
      ==> d == Finish(final)
    ensures json.loads(StripZw(raw)).Some? && json.loads(StripZw(raw)).value.Object?
      && !ActionIs(json, StripZw(raw), "run_code") && !ActionIs(json, StripZw(raw), "finish")
      ==> d == Fail(InvalidActionFailure + raw)
    ensures ActionIs(json, StripZw(raw), "finish")
      && !(Get(json.loads(StripZw(raw)).value.fields, "final").Some?
           && Get(json.loads(StripZw(raw)).value.fields, "final").value.Object?)
      ==> d == Fail(MissingFinalFailure + raw)
    ensures forall final ::
      (ActionIs(json, StripZw(raw), "finish") && Get(json.loads(StripZw(raw)).value.fields, "final") == Some(final)
       && final.Object? && !HasFinalKeys(final))
      ==> d == Fail(MissingKeysFailure + raw)
  {
    var clean := StripZw(raw);
    match json.loads(clean)
    case None => Fail(NonJsonFailure + clean)
    case Some(payload) =>
      if !payload.Object? then NotAnObject
      else
        var action := Get(payload.fields, "action");
        if action == Some(Str("run_code")) then
          match Get(payload.fields, "code")
          case Some(Str(code)) => RunCode(code)
          case _ => Fail(InvalidRunCodeFailure + raw)
        else if action == Some(Str("finish")) then
          match Get(payload.fields, "final")
          case Some(Object(fields)) =>
            if "type" in fields && "result" in fields && "metadata" in fields then Finish(Object(fields))
            else Fail(MissingKeysFailure + raw)
          case _ => Fail(MissingFinalFailure + raw)
        else Fail(InvalidActionFailure + raw)
  }

  /**
   * A refusal from the gate ends the run with its final object unchanged,
   * when the serialised refusal has no zero-width characters and parses back.
   */
  lemma RefusalEndsRun(json: JsonLib, state: Json)
    requires NoZeroWidth(json.dumps(RefusalAction(state)))
    requires json.loads(json.dumps(RefusalAction(state))) == Some(RefusalAction(state))
    ensures Decide(json, Refusal(json, state)) == Finish(RefusalAction(state).fields["final"])
    ensures RefusalAction(state).fields["final"].fields["type"] == Str("refusal")
    ensures RefusalAction(state).fields["final"].fields["result"] == Array([])
  {
    var action := RefusalAction(state);
    var visible := json.dumps(action);
    StripZwOfEmbed(json, visible, state);
    StripZwKeepsClean(visible);
    assert StripZw(Refusal(json, state)) == visible;
    var final := action.fields["final"];
    assert Get(action.fields, "action") == Some(Str("finish"));
    assert Get(action.fields, "final") == Some(final);
    assert HasFinalKeys(final);
  }

  /**
   * A run_code reply of the service crosses the gate byte for byte and the
   * controller runs its code.
   */
  lemma RunCodePassesThrough(json: JsonLib, state: Json, reply: string, code: string)
    requires ActionIs(json, reply, "run_code") && NoZeroWidth(reply)
    requires Get(json.loads(reply).value.fields, "code") == Some(Str(code))
    ensures Delegate(json, state, reply) == Success(reply)
    ensures Decide(json, Delegate(json, state, reply).value) == RunCode(code)
  {
    StripZwKeepsClean(reply);
  }

  /**
   * A service reply that is not JSON reaches the controller with the state
   * hidden behind it, and the run ends reporting the reply without it.
   */
  lemma NonJsonReplyEndsRun(json: JsonLib, state: Json, reply: string)
    requires json.loads(reply).None? && NoZeroWidth(reply)
    ensures Delegate(json, state, reply) == Success(Embed(json, reply, state))
    ensures Decide(json, Delegate(json, state, reply).value) == Fail(NonJsonFailure + reply)
  {
    StripZwOfEmbed(json, reply, state);
    StripZwKeepsClean(reply);
  }

  // ------------------------------------------------------------------
  // The histories agent_step builds
  // ------------------------------------------------------------------

  /** The user turn that reports the output of a run. */
  function ExecutionTurn(output: string): Message {
    Message(User, ExecutionOutputMarker + "\n" + output)
  }

  /**
   * An execution-output turn is a user turn that starts with the marker,
   * so the gate never takes it for the user's prompt, and the output
   * follows the marker and a newline unchanged.
   */
  lemma ExecutionTurnReports(output: string)
    ensures var m := ExecutionTurn(output);
      && m.role == User && ExecutionOutputMarker <= m.content && !IsGenuineUserTurn(m)
      && |m.content| == |ExecutionOutputMarker| + 1 + |output| && m.content[|ExecutionOutputMarker| + 1..] == output
  {
  }

  /**
   * The prompt as the only initial turn, then pairs of an assistant reply
   * and an execution-output turn.
   */
  predicate IsAgentHistory(prompt: string, history: seq<Message>) {
    && |history| % 2 == 1
    && history[0] == Message(User, prompt)
    && forall k :: 1 <= k < |history| ==>
         if k % 2 == 1 then history[k].role == Assistant
         else history[k].role == User && ExecutionOutputMarker <= history[k].content
  }

  /** A conversation as the controller sends it: its system prompt, then an agent history. */
  predicate IsAgentConversation(systemPrompt: string, prompt: string, messages: seq<Message>) {
    |messages| >= 1 && messages[0] == Message(System, systemPrompt) && IsAgentHistory(prompt, messages[1..])
  }

  /** Every conversation in `log` from position `from` on was sent by the controller. */
  ghost predicate SentByAgent(systemPrompt: string, prompt: string, log: seq<seq<Message>>, from: nat) {
    from <= |log| && forall i :: from <= i < |log| ==> IsAgentConversation(systemPrompt, prompt, log[i])
  }

  /** Every text in `log` from position `from` on is the visible part of the prompt. */
  ghost predicate EvaluatedPrompt(prompt: string, log: seq<string>, from: nat) {
    from <= |log| && forall i :: from <= i < |log| ==> log[i] == VisibleText(prompt)
  }

  /** Appending an assistant turn and an execution-output turn keeps the history shape. */
  lemma AppendKeepsHistory(prompt: string, history: seq<Message>, raw: string, output: string)
    requires IsAgentHistory(prompt, history)
    ensures IsAgentHistory(prompt, history + [Message(Assistant, raw), ExecutionTurn(output)])
  {
    ExecutionTurnReports(output);
  }

  /**
   * In every conversation the controller sends, the gate's lookup selects
   * the initial prompt, or finds nothing when the prompt itself starts
   * with the execution-output marker.
   */
  lemma {:induction false} LookupFindsPrompt(systemPrompt: string, prompt: string, history: seq<Message>)
    requires IsAgentHistory(prompt, history)
    ensures IsGenuineUserTurn(Message(User, prompt)) ==>
      LastUserTurn(Conversation(systemPrompt, history)) == Some(1)
    ensures !IsGenuineUserTurn(Message(User, prompt)) ==>
      LastUserTurn(Conversation(systemPrompt, history)) == None
  {
    var messages := Conversation(systemPrompt, history);
    forall j | 2 <= j < |messages|
      ensures !IsGenuineUserTurn(messages[j])
    {
      assert messages[j] == history[j - 1];
    }
    assert messages[1] == Message(User, prompt);
  }

  // ------------------------------------------------------------------
  // agent_step
  // ------------------------------------------------------------------

  datatype AgentError =
    | GateRaised(error: GateError)   // `chat` raised
    | PayloadNotObject               // `payload.get` on JSON that is not an object

  /** What `agent_step` returns, or the exception it lets through. */
  datatype Outcome =
    | Finished(final: Json)
    | Failed(message: string)
    | Raised(error: AgentError)
    | StepLimitReached               // the model's bound on iterations ran out

  /** The conversation `llm_agent_call` sends: the system prompt in front of the history. */
  function Conversation(systemPrompt: string, history: seq<Message>): seq<Message> {
    [Message(System, systemPrompt)] + history
  }

  /** A reply of the gate that asked to run code, and that code. */
  datatype CodeStep = CodeStep(reply: string, code: string)

  /** The reply of each step decides to run exactly the code of that step. */
  predicate RanCode(json: JsonLib, steps: seq<CodeStep>) {
    forall i :: 0 <= i < |steps| ==> Decide(json, steps[i].reply) == RunCode(steps[i].code)
  }

  /**
   * The history once every step has run, in order: the prompt, then each
   * reply followed by the output of its code.
   */
  function Transcript(run: string -> ExecResult, prompt: string, steps: seq<CodeStep>): (r: seq<Message>)
    ensures |r| == 2 * |steps| + 1 && r[0] == Message(User, prompt)
    decreases |steps|
  {
    if steps == [] then [Message(User, prompt)]
    else
      var n := |steps| - 1;
      Transcript(run, prompt, steps[..n])
        + [Message(Assistant, steps[n].reply), ExecutionTurn(ExecutePython(run, steps[n].code))]
  }

  /** Every transcript has the shape of an agent history. */
  lemma {:induction false} TranscriptIsHistory(run: string -> ExecResult, prompt: string, steps: seq<CodeStep>)
    ensures IsAgentHistory(prompt, Transcript(run, prompt, steps))
    decreases |steps|
  {
    if steps != [] {
      var n := |steps| - 1;
      TranscriptIsHistory(run, prompt, steps[..n]);
      AppendKeepsHistory(prompt, Transcript(run, prompt, steps[..n]), steps[n].reply, ExecutePython(run, steps[n].code));
    }
  }

  /** The reply of step i and the output of its code are turns 2i+1 and 2i+2 of the history. */
  lemma {:induction false} TranscriptAt(run: string -> ExecResult, prompt: string, steps: seq<CodeStep>, i: nat)
    requires i < |steps|
    ensures Transcript(run, prompt, steps)[2 * i + 1] == Message(Assistant, steps[i].reply)
    ensures Transcript(run, prompt, steps)[2 * i + 2] == ExecutionTurn(ExecutePython(run, steps[i].code))
  {
    var n := |steps| - 1;
    var before := steps[..n];
    var pair := [Message(Assistant, steps[n].reply), ExecutionTurn(ExecutePython(run, steps[n].code))];
    var t := Transcript(run, prompt, before);
    assert Transcript(run, prompt, steps) == t + pair;
    if i < n {
      TranscriptAt(run, prompt, before, i);
      assert before[i] == steps[i];
      assert (t + pair)[2 * i + 1] == t[2 * i + 1] && (t + pair)[2 * i + 2] == t[2 * i + 2];
    } else {
      assert (t + pair)[2 * i + 1] == pair[0] && (t + pair)[2 * i + 2] == pair[1];
    }
  }

  /**
   * The calls of the gate while the steps ran: call i sent the history
   * built from the steps before it and got the reply of step i back.
   */
  function Exchanges(run: string -> ExecResult, systemPrompt: string, prompt: string, steps: seq<CodeStep>)
    : (r: seq<Exchange>)
    ensures |r| == |steps|
    decreases |steps|
  {
    if steps == [] then []
    else
      var n := |steps| - 1;
      Exchanges(run, systemPrompt, prompt, steps[..n])
        + [Exchange(Conversation(systemPrompt, Transcript(run, prompt, steps[..n])), Success(steps[n].reply))]
  }

  /** Call i of a run sent the history built from the first i steps, and got the reply of step i. */
  lemma {:induction false} ExchangeAt(run: string -> ExecResult, systemPrompt: string, prompt: string,
                                      steps: seq<CodeStep>, i: nat)
    requires i < |steps|
    ensures Exchanges(run, systemPrompt, prompt, steps)[i]
      == Exchange(Conversation(systemPrompt, Transcript(run, prompt, steps[..i])), Success(steps[i].reply))
  {
    var n := |steps| - 1;
    var before := steps[..n];
    var tail := Exchange(Conversation(systemPrompt, Transcript(run, prompt, before)), Success(steps[n].reply));
    var e := Exchanges(run, systemPrompt, prompt, before);
    assert Exchanges(run, systemPrompt, prompt, steps) == e + [tail];
    if i < n {
      ExchangeAt(run, systemPrompt, prompt, before, i);
      assert before[..i] == steps[..i];
      assert before[i] == steps[i];
      assert (e + [tail])[i] == e[i];
    } else {
      assert before == steps[..i];
      assert (e + [tail])[i] == tail;
    }
  }

  /**
   * A run_code step appends exactly the reply, as an assistant turn, and
   * the output of its code, as an execution-output turn; the earlier turns
   * stay as they were, and the run gains the call that produced the reply.
   */
  lemma CodeStepAppends(run: string -> ExecResult, systemPrompt: string, prompt: string,
                        steps: seq<CodeStep>, step: CodeStep)
    ensures Transcript(run, prompt, steps + [step]) ==
      Transcript(run, prompt, steps) + [Message(Assistant, step.reply), ExecutionTurn(ExecutePython(run, step.code))]
    ensures Exchanges(run, systemPrompt, prompt, steps + [step]) ==
      Exchanges(run, systemPrompt, prompt, steps)
        + [Exchange(Conversation(systemPrompt, Transcript(run, prompt, steps)), Success(step.reply))]
  {
    assert (steps + [step])[..|steps|] == steps;
  }

  /** Appending one element after a concatenation. */
  lemma AppendAssoc<T>(a: seq<T>, b: seq<T>, x: T)
    ensures a + (b + [x]) == (a + b) + [x]
  {
  }

  /**
   * The reply of each step is what the gate answers to the conversation it
   * was sent: the system prompt plus the history built from the steps before.
   */
  ghost predicate GateAnswered(json: JsonLib, evaluator: string -> string, service: seq<Message> -> string,
                               run: string -> ExecResult, systemPrompt: string, prompt: string,
                               steps: seq<CodeStep>)
  {
    forall i :: 0 <= i < |steps| ==>
      ChatReply(json, evaluator, service, Conversation(systemPrompt, Transcript(run, prompt, steps[..i])))
        == Success(steps[i].reply)
  }

  /** Extending a sequence of steps keeps a property that each step has with respect to the steps before it. */
  lemma PrefixesAppend<R>(f: seq<CodeStep> -> R, g: CodeStep -> R, steps: seq<CodeStep>, step: CodeStep)
    requires forall i :: 0 <= i < |steps| ==> f(steps[..i]) == g(steps[i])
    requires f(steps) == g(step)
    ensures forall i :: 0 <= i < |steps| + 1 ==> f((steps + [step])[..i]) == g((steps + [step])[i])
  {
    var all := steps + [step];
    forall i | 0 <= i < |all|
      ensures f(all[..i]) == g(all[i])
    {
      if i < |steps| {
        assert all[..i] == steps[..i];
        assert all[i] == steps[i];
      } else {
        assert all[..i] == steps;
      }
    }
  }

  /**
   * A run is answered exactly when every call it adds to the gate's log got
   * the gate's answer to what it sent.
   */
  lemma AnsweredExchanges(json: JsonLib, evaluator: string -> string, service: seq<Message> -> string,
                          run: string -> ExecResult, systemPrompt: string, prompt: string, steps: seq<CodeStep>)
    ensures GateAnswered(json, evaluator, service, run, systemPrompt, prompt, steps) <==>
      forall e | e in Exchanges(run, systemPrompt, prompt, steps) :: e.reply == ChatReply(json, evaluator, service, e.request)
  {
    var log := Exchanges(run, systemPrompt, prompt, steps);
    if GateAnswered(json, evaluator, service, run, systemPrompt, prompt, steps) {
      forall e | e in log
        ensures e.reply == ChatReply(json, evaluator, service, e.request)
      {
        var i :| 0 <= i < |log| && log[i] == e;
        ExchangeAt(run, systemPrompt, prompt, steps, i);
      }
    }
    if forall e | e in log :: e.reply == ChatReply(json, evaluator, service, e.request) {
      forall i | 0 <= i < |steps|
        ensures ChatReply(json, evaluator, service, Conversation(systemPrompt, Transcript(run, prompt, steps[..i])))
          == Success(steps[i].reply)
      {
        ExchangeAt(run, systemPrompt, prompt, steps, i);
        assert log[i] in log;
      }
    }
  }

  /** A step whose reply the gate gave to the current history extends a run of answered steps. */
  lemma GateAnsweredAppend(json: JsonLib, evaluator: string -> string, service: seq<Message> -> string,
                           run: string -> ExecResult, systemPrompt: string, prompt: string,
                           steps: seq<CodeStep>, step: CodeStep)
    requires GateAnswered(json, evaluator, service, run, systemPrompt, prompt, steps)
    requires ChatReply(json, evaluator, service, Conversation(systemPrompt, Transcript(run, prompt, steps)))
      == Success(step.reply)
    ensures GateAnswered(json, evaluator, service, run, systemPrompt, prompt, steps + [step])
  {
    var f := before => ChatReply(json, evaluator, service, Conversation(systemPrompt, Transcript(run, prompt, before)));
    var g := (s: CodeStep) => Success(s.reply);
    PrefixesAppend(f, g, steps, step);
  }

  /** A step whose reply decides to run its code extends a run of such steps. */
  lemma RanCodeAppend(json: JsonLib, steps: seq<CodeStep>, step: CodeStep)
    requires RanCode(json, steps) && Decide(json, step.reply) == RunCode(step.code)
    ensures RanCode(json, steps + [step])
  {
    forall i | 0 <= i < |steps| + 1
      ensures Decide(json, (steps + [step])[i].reply) == RunCode((steps + [step])[i].code)
    {
      if i < |steps| {
        assert (steps + [step])[i] == steps[i];
      }
    }
  }

  /**
   * One call of the gate on an agent history keeps both logs what the
   * controller makes of them: prompt evaluations and agent conversations.
   */
  lemma CallKeepsLogs(systemPrompt: string, prompt: string, history: seq<Message>,
                      evalOrigin: seq<string>, evalBefore: seq<string>, evalAfter: seq<string>,
                      servOrigin: seq<seq<Message>>, servBefore: seq<seq<Message>>, servAfter: seq<seq<Message>>)
    requires IsAgentHistory(prompt, history)
    requires evalOrigin <= evalBefore && EvaluatedPrompt(prompt, evalBefore, |evalOrigin|)
    requires servOrigin <= servBefore && SentByAgent(systemPrompt, prompt, servBefore, |servOrigin|)
    requires evalAfter == evalBefore || evalAfter == evalBefore + [VisibleText(prompt)]
    requires servAfter == servBefore || servAfter == servBefore + [Conversation(systemPrompt, history)]
    ensures evalOrigin <= evalAfter && EvaluatedPrompt(prompt, evalAfter, |evalOrigin|)
    ensures servOrigin <= servAfter && SentByAgent(systemPrompt, prompt, servAfter, |servOrigin|)
  {
  }

  /** The run ended on a reply that does not ask to run code. */
  predicate EndedByReply(o: Outcome) {
    o.Finished? || o.Failed? || o == Raised(PayloadNotObject)
  }

  /** How `agent_step` ends on a reply that does not ask to run code. */
  function Stop(d: Decision): (o: Outcome)
    requires !d.RunCode?
    ensures EndedByReply(o)
    ensures o.Finished? <==> d.Finish?
    ensures o.Finished? ==> o.final == d.final
    ensures o.Failed? <==> d.Fail?
    ensures o.Failed? ==> o.message == d.message
  {
    match d
    case Finish(final) => Finished(final)
    case Fail(message) => Failed(message)
    case NotAnObject => Raised(PayloadNotObject)
  }

  /**
   * `llm_agent_call`: put the agent's system prompt in front of the history
   * and pass the conversation to the gate. `prompt` is the prompt an agent
   * history starts with.
   */
  method LlmAgentCall(model: SafeModel, systemPrompt: string, history: seq<Message>, ghost prompt: string)
    returns (r: Result<string, GateError>)
    modifies model
    ensures r == ChatReply(model.json, model.evaluator, model.service, Conversation(systemPrompt, history))
    ensures model.safetyState
      == ChatState(model.json, model.evaluator, old(model.safetyState), Conversation(systemPrompt, history))
    ensures model.chatLog == old(model.chatLog) + [Exchange(Conversation(systemPrompt, history), r)]
    ensures model.serviceLog == old(model.serviceLog)
      || model.serviceLog == old(model.serviceLog) + [Conversation(systemPrompt, history)]
    ensures IsAgentHistory(prompt, history) ==>
      model.evaluatorLog == old(model.evaluatorLog) || model.evaluatorLog == old(model.evaluatorLog) + [VisibleText(prompt)]
    ensures IsAgentHistory(prompt, history) && IsGenuineUserTurn(Message(User, prompt)) ==>
      && model.evaluatorLog == old(model.evaluatorLog) + [VisibleText(prompt)]
      && model.safetyState == TurnState(model.json, model.evaluator, old(model.safetyState), prompt)
      && (r.Success? ==> Evaluate(model.json, model.evaluator(VisibleText(prompt))).Success?)
    ensures IsAgentHistory(prompt, history) && !IsGenuineUserTurn(Message(User, prompt)) ==>
      r == Failure(NoUserTurn) && unchanged(model`safetyState, model`evaluatorLog, model`serviceLog)
  {
    var messages := Conversation(systemPrompt, history);
    if IsAgentHistory(prompt, history) {
      LookupFindsPrompt(systemPrompt, prompt, history);
    }
    r := model.Chat(messages);
  }

  /**
   * One pass of `agent_step`'s loop over the history `turns`, built from
   * the steps in `executed`: ask the gate, then either run the code of its
   * reply and extend the history (`stop` is `None`, `step` the new step),
   * or stop. `reply` is what the gate returned or raised.
   */
  method AgentTurn(model: SafeModel, systemPrompt: string, run: string -> ExecResult, userPrompt: string,
                   turns: seq<Message>, ghost executed: seq<CodeStep>)
    returns (stop: Option<Outcome>, next: seq<Message>, ghost reply: Result<string, GateError>, ghost step: CodeStep)
    requires turns == Transcript(run, userPrompt, executed)
    modifies model
    ensures reply == ChatReply(model.json, model.evaluator, model.service, Conversation(systemPrompt, turns))
    ensures model.chatLog == old(model.chatLog) + [Exchange(Conversation(systemPrompt, turns), reply)]
    ensures stop.None? ==>
      && reply == Success(step.reply)
      && Decide(model.json, step.reply) == RunCode(step.code)
      && (RanCode(model.json, executed) ==> RanCode(model.json, executed + [step]))
      && next == Transcript(run, userPrompt, executed + [step])
      && Exchanges(run, systemPrompt, userPrompt, executed + [step])
           == Exchanges(run, systemPrompt, userPrompt, executed) + [Exchange(Conversation(systemPrompt, turns), reply)]
    ensures stop.Some? && EndedByReply(stop.value) ==>
      && reply.Success?
      && !Decide(model.json, reply.value).RunCode?
      && stop.value == Stop(Decide(model.json, reply.value))
    ensures stop.Some? && !EndedByReply(stop.value) ==>
      reply.Failure? && stop.value == Raised(GateRaised(reply.error))
    ensures stop.Some? ==> stop.value != StepLimitReached
    ensures stop.Some? && stop.value.Finished? ==> HasFinalKeys(stop.value.final)
    ensures stop.Some? && stop.value.Raised? && stop.value.error.GateRaised? ==>
      reply == Failure(stop.value.error.error)
    ensures model.serviceLog == old(model.serviceLog)
      || model.serviceLog == old(model.serviceLog) + [Conversation(systemPrompt, turns)]
    ensures model.evaluatorLog == old(model.evaluatorLog)
      || model.evaluatorLog == old(model.evaluatorLog) + [VisibleText(userPrompt)]
    ensures IsGenuineUserTurn(Message(User, userPrompt)) ==>
      && model.safetyState == TurnState(model.json, model.evaluator, old(model.safetyState), userPrompt)
      && (stop.None? ==> Evaluate(model.json, model.evaluator(VisibleText(userPrompt))).Success?)
    ensures !IsGenuineUserTurn(Message(User, userPrompt)) ==>
      && stop == Some(Raised(GateRaised(NoUserTurn)))
      && unchanged(model`safetyState, model`evaluatorLog, model`serviceLog)
  {
    next := turns;
    step := CodeStep("", "");
    TranscriptIsHistory(run, userPrompt, executed);
    var answer := LlmAgentCall(model, systemPrompt, turns, userPrompt);
    reply := answer;
    if answer.Failure? {
      return Some(Raised(GateRaised(answer.error))), next, reply, step;
    }
    var text := answer.value;
    match Decide(model.json, text) {
      case RunCode(code) =>
        var output := ExecutePython(run, code);
        step := CodeStep(text, code);
        CodeStepAppends(run, systemPrompt, userPrompt, executed, step);
        if RanCode(model.json, executed) {
          RanCodeAppend(model.json, executed, step);
        }
        next := turns + [Message(Assistant, text), ExecutionTurn(output)];
        stop := None;
      case Finish(final) =>
        stop := Some(Finished(final));
      case Fail(message) =>
        stop := Some(Failed(message));
      case NotAnObject =>
        stop := Some(Raised(PayloadNotObject));
    }
  }

  /** The part of the gate's state that a run of the controller changes. */
  datatype GateView = GateView(safetyState: Json, evaluatorLog: seq<string>, serviceLog: seq<seq<Message>>,
                               chatLog: seq<Exchange>)

  ghost function View(model: SafeModel): GateView
    reads model
  {
    GateView(model.safetyState, model.evaluatorLog, model.serviceLog, model.chatLog)
  }

  /**
   * What holds while `agent_step` loops, from the gate state `origin` at
   * the start to `now`: the history is the transcript of the steps that
   * ran, each call of the gate is logged, every evaluation scored the
   * visible prompt, every conversation sent is an agent conversation, and
   * once a step ran the prompt was genuine and the state is its evaluation.
   */
  ghost predicate Running(json: JsonLib, evaluator: string -> string, service: seq<Message> -> string,
                          run: string -> ExecResult, systemPrompt: string, prompt: string,
                          origin: GateView, now: GateView, turns: seq<Message>, executed: seq<CodeStep>)
  {
    && RanCode(json, executed) && turns == Transcript(run, prompt, executed)
    && GateAnswered(json, evaluator, service, run, systemPrompt, prompt, executed)
    && IsAgentHistory(prompt, turns)
    && now.chatLog == origin.chatLog + Exchanges(run, systemPrompt, prompt, executed)
    && origin.evaluatorLog <= now.evaluatorLog && EvaluatedPrompt(prompt, now.evaluatorLog, |origin.evaluatorLog|)
    && origin.serviceLog <= now.serviceLog && SentByAgent(systemPrompt, prompt, now.serviceLog, |origin.serviceLog|)
    && (executed == [] ==> now == origin)
    && (!IsGenuineUserTurn(Message(User, prompt)) ==> executed == [])
    && (executed != [] ==>
          && Evaluate(json, evaluator(VisibleText(prompt))).Success?
          && now.safetyState == TurnState(json, evaluator, origin.safetyState, prompt))
  }

  /**
   * What holds when the gate's reply `reply` to `history` ended the run
   * with `outcome`, after the steps in `executed` ran.
   */
  ghost predicate Ended(json: JsonLib, evaluator: string -> string, service: seq<Message> -> string,
                        run: string -> ExecResult, systemPrompt: string, prompt: string,
                        origin: GateView, now: GateView, outcome: Outcome, history: seq<Message>,
                        executed: seq<CodeStep>, reply: Result<string, GateError>)
  {
    && RanCode(json, executed) && history == Transcript(run, prompt, executed)
    && GateAnswered(json, evaluator, service, run, systemPrompt, prompt, executed)
    && IsAgentHistory(prompt, history)
    && reply == ChatReply(json, evaluator, service, Conversation(systemPrompt, history))
    && now.chatLog == origin.chatLog + Exchanges(run, systemPrompt, prompt, executed)
         + [Exchange(Conversation(systemPrompt, history), reply)]
    && outcome != StepLimitReached
    && (EndedByReply(outcome) ==>
          reply.Success? && !Decide(json, reply.value).RunCode? && outcome == Stop(Decide(json, reply.value)))
    && (outcome.Raised? && outcome.error.GateRaised? ==> reply == Failure(outcome.error.error))
    && (outcome.Finished? ==> HasFinalKeys(outcome.final))
    && origin.evaluatorLog <= now.evaluatorLog && EvaluatedPrompt(prompt, now.evaluatorLog, |origin.evaluatorLog|)
    && origin.serviceLog <= now.serviceLog && SentByAgent(systemPrompt, prompt, now.serviceLog, |origin.serviceLog|)
    && (IsGenuineUserTurn(Message(User, prompt)) ==>
          now.safetyState == TurnState(json, evaluator, origin.safetyState, prompt))
    && (!IsGenuineUserTurn(Message(User, prompt)) ==>
          && outcome == Raised(GateRaised(NoUserTurn))
          && now.safetyState == origin.safetyState
          && now.evaluatorLog == origin.evaluatorLog
          && now.serviceLog == origin.serviceLog)
  }

  /**
   * One iteration of `agent_step`'s loop: it keeps the loop's invariant
   * when the reply runs code, and otherwise states how the run ended.
   */
  method Advance(model: SafeModel, systemPrompt: string, run: string -> ExecResult, userPrompt: string,
                 ghost origin: GateView, turns: seq<Message>, ghost executed: seq<CodeStep>)
    returns (stop: Option<Outcome>, next: seq<Message>, ghost step: CodeStep, ghost reply: Result<string, GateError>)
    requires Running(model.json, model.evaluator, model.service, run, systemPrompt, userPrompt,
                     origin, View(model), turns, executed)
    modifies model
    ensures stop.None? ==>
      Running(model.json, model.evaluator, model.service, run, systemPrompt, userPrompt,
              origin, View(model), next, executed + [step])
    ensures stop.Some? ==>
      Ended(model.json, model.evaluator, model.service, run, systemPrompt, userPrompt,
            origin, View(model), stop.value, turns, executed, reply)
  {
    ghost var before := View(model);
    stop, next, reply, step := AgentTurn(model, systemPrompt, run, userPrompt, turns, executed);
    CallKeepsLogs(systemPrompt, userPrompt, turns, origin.evaluatorLog, before.evaluatorLog, model.evaluatorLog,
                  origin.serviceLog, before.serviceLog, model.serviceLog);
    if stop.None? {
      AppendAssoc(origin.chatLog, Exchanges(run, systemPrompt, userPrompt, executed),
                  Exchange(Conversation(systemPrompt, turns), reply));
      TranscriptIsHistory(run, userPrompt, executed + [step]);
      GateAnsweredAppend(model.json, model.evaluator, model.service, run, systemPrompt, userPrompt, executed, step);
    }
  }

  /**
   * The loop of `agent_step`, bounded by `maxSteps` iterations, from the
   * history `initial` that holds only the prompt. It ends either in the
   * ended state or, when the bound runs out, still running; `last` is what
   * the gate returned or raised on the call that ended the run.
   */
  method ActionLoop(model: SafeModel, userPrompt: string, systemPrompt: string,
                    run: string -> ExecResult, maxSteps: nat, initial: seq<Message>)
    returns (outcome: Outcome, ghost history: seq<Message>, ghost executed: seq<CodeStep>,
             ghost last: Option<Result<string, GateError>>)
    requires initial == [Message(User, userPrompt)]
    modifies model
    ensures |executed| <= maxSteps
    ensures last.None? ==>
      && outcome == StepLimitReached && |executed| == maxSteps
      && Running(model.json, model.evaluator, model.service, run, systemPrompt, userPrompt,
                 old(View(model)), View(model), history, executed)
    ensures last.Some? ==>
      Ended(model.json, model.evaluator, model.service, run, systemPrompt, userPrompt,
            old(View(model)), View(model), outcome, history, executed, last.value)
    ensures maxSteps == 0 ==> last.None? && unchanged(model)
  {
    var turns := initial;
    executed := [];
    ghost var origin := View(model);
    var steps := 0;
    assert Transcript(run, userPrompt, executed) == turns;
    while steps < maxSteps
      invariant steps <= maxSteps && |executed| == steps
      invariant Running(model.json, model.evaluator, model.service, run, systemPrompt, userPrompt,
                        origin, View(model), turns, executed)
      invariant steps == 0 ==> unchanged(model)
      decreases maxSteps - steps
    {
      var stop, next, step, reply := Advance(model, systemPrompt, run, userPrompt, origin, turns, executed);
      if stop.Some? {
        return stop.value, turns, executed, Some(reply);
      }
      turns, executed := next, executed + [step];
      steps := steps + 1;
    }
    return StepLimitReached, turns, executed, None;
  }

  /**
   * `agent_step`: the action loop, bounded by `maxSteps` iterations.
   * `executed` are the steps whose code ran, `last` what the gate
   * returned or raised on the call that ended the run (none when the bound
   * ran out), and `history` the conversation as it stands when the loop stops.
   */
  method AgentStep(model: SafeModel, userPrompt: string, systemPrompt: string,
                   run: string -> ExecResult, maxSteps: nat)
    returns (outcome: Outcome, ghost history: seq<Message>, ghost executed: seq<CodeStep>,
             ghost last: Option<Result<string, GateError>>)
    modifies model
    ensures |executed| <= maxSteps
    ensures RanCode(model.json, executed) && history == Transcript(run, userPrompt, executed)
    ensures GateAnswered(model.json, model.evaluator, model.service, run, systemPrompt, userPrompt, executed)
    ensures last.None? <==> outcome == StepLimitReached
    ensures last.None? ==>
      && |executed| == maxSteps
      && model.chatLog == old(model.chatLog) + Exchanges(run, systemPrompt, userPrompt, executed)
    ensures last.Some? ==>
      && last.value == ChatReply(model.json, model.evaluator, model.service, Conversation(systemPrompt, history))
      && model.chatLog == old(model.chatLog) + Exchanges(run, systemPrompt, userPrompt, executed)
           + [Exchange(Conversation(systemPrompt, history), last.value)]
    ensures EndedByReply(outcome) ==>
      && last.Some? && last.value.Success?
      && !Decide(model.json, last.value.value).RunCode?
      && outcome == Stop(Decide(model.json, last.value.value))
    ensures outcome.Raised? && outcome.error.GateRaised? ==> last == Some(Failure(outcome.error.error))
    ensures IsAgentHistory(userPrompt, history)
    ensures outcome.Finished? ==> HasFinalKeys(outcome.final)
    ensures old(model.evaluatorLog) <= model.evaluatorLog
    ensures EvaluatedPrompt(userPrompt, model.evaluatorLog, old(|model.evaluatorLog|))
    ensures old(model.serviceLog) <= model.serviceLog
    ensures SentByAgent(systemPrompt, userPrompt, model.serviceLog, old(|model.serviceLog|))
    ensures maxSteps == 0 ==> outcome == StepLimitReached && unchanged(model)
    ensures maxSteps > 0 && IsGenuineUserTurn(Message(User, userPrompt)) ==>
      model.safetyState == TurnState(model.json, model.evaluator, old(model.safetyState), userPrompt)
    ensures maxSteps > 0 && !IsGenuineUserTurn(Message(User, userPrompt)) ==>
      && outcome == Raised(GateRaised(NoUserTurn))
      && unchanged(model`safetyState, model`evaluatorLog, model`serviceLog)
  {
    outcome, history, executed, last := ActionLoop(model, userPrompt, systemPrompt, run, maxSteps,
                                                   [Message(User, userPrompt)]);
  }
}
