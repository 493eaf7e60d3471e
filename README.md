# Safety gate with a zero-width state channel, and its agent loop

This project models three small sequential Python components. They form a
safety gate wrapped around an agent loop. The gate carries its state inside
the text it returns, in zero-width characters.

- `safety_stego.dfy` (module `SafetyStego`) models the codec of
  `safety_stego.py`. A state is serialised, each character becomes its
  8-digit binary numeral, and each digit becomes U+200C (0) or U+200D (1).
  The run goes after the visible text, behind a U+200B header. `Extract`
  splits at the first header, keeps only the two digit markers, regroups
  them into 8-digit chunks (dropping an incomplete tail) and deserialises.
  Everything here is a pure function over `seq<char>`.
- `safe_model.dfy` (module `SafeModel`) models the gate of `safe_model.py`.
  Class `SafeModel` holds the mutable `safetyState`. Its `Chat` method:
  - selects the last genuine user turn;
  - adopts a state decoded from that turn's hidden payload;
  - has the visible part scored and clamps the score;
  - stores the evaluation as the new state;
  - then refuses (risk at or above 0.8) or delegates to the service. On
    delegation a `run_code` reply passes through byte for byte, and any
    other reply gets the state embedded.
- `agent.dfy` (module `Agent`) models `agent.py`:
  - the zero-width filter `StripZw`;
  - the output selection of `execute_python`;
  - the per-reply dispatch `Decide`;
  - `llm_agent_call`;
  - the `agent_step` loop, `AgentStep`, which appends to a local history.
- `json.dfy` (module `JsonValues`) holds the JSON value type. Python dicts
  are `Object(map<string, Json>)`. `JsonLib` carries `json.dumps`,
  `json.loads` and `float()` on strings as opaque functions.
- `base.dfy` (module `Base`) holds `Option` and `Result`.

The two language-model calls are `const` function fields of the gate
object: `evaluator` (the reply to the safety prompt) and `service` (the reply
to a conversation). The object also keeps three ghost logs. `evaluatorLog` and
`serviceLog` record what was sent to each model; they make two properties
statable: the evaluator never sees hidden bytes, and a refusal never calls
the service. `chatLog` records each call of `chat` with its reply.
What `chat` replies and the state it leaves are given by the functions
`ChatReply` and `ChatState`. `AgentStep` states through `GateAnswered` that
the reply of every step it ran is `ChatReply` of the conversation sent at
that point, independently of what `chatLog` holds. The code executor is a function parameter that
returns the trimmed standard output and error of a program.

Three behaviours of the code worth noting:
- When the service reply is JSON but not an object, `parsed.get` raises
  (`GateError.ReplyNotObject`). It is not embedded as prose.
- The controller's non-JSON failure report carries the stripped text, not
  the raw text.
- A user prompt that itself starts with `Execution output:` leaves the gate
  no turn to evaluate. The source then fails when it subscripts `None`. The
  model returns `GateError.NoUserTurn`.

## Model

| member | source | states |
|---|---|---|
| `SafetyStego.MarkersDistinct` | safety_stego.py:6-8 | the header, 0 and 1 markers are pairwise distinct |
| `SafetyStego.ParseBinary` | safety_stego.py:30 | the value of an n-digit binary numeral is below 2^n |
| `SafetyStego.BinaryDigits` | safety_stego.py:23 | the unpadded numeral of n consists of binary digits and reads back as n |
| `SafetyStego.CharToBitsOfByte` | safety_stego.py:23 | `f"{ord(ch):08b}"` of a character below 256 is exactly 8 digits that read back as its code point |
| `SafetyStego.CharToBits` | safety_stego.py:23 | `f"{ord(ch):08b}"` is at least 8 binary digits and reads back as the code point |
| `SafetyStego.StringToBits` | safety_stego.py:22-23 | the output is binary digits, at least 8 per character |
| `SafetyStego.StringToBitsLength` | safety_stego.py:22-23 | the output length is exactly 8·\|s\| when every code point is below 256 |
| `SafetyStego.BitsToString` | safety_stego.py:25-31 | the result has ⌊\|bits\|/8⌋ characters, each below 256, and character i is the value of chunk i |
| `SafetyStego.BitsToStringDropsTail` | safety_stego.py:26-31 | an incomplete trailing chunk changes nothing in the result |
| `SafetyStego.BitsRoundTrip` | safety_stego.py:22-31 | `bits_to_string(string_to_bits(s)) == s` for every s below 256 |
| `SafetyStego.BitsToZw` | safety_stego.py:36-37 | the result has the same length and holds only the two markers, with ZW1 exactly where the input has '1' |
| `SafetyStego.ZwToBits` | safety_stego.py:39-40 | the result is binary digits and no longer than the payload |
| `SafetyStego.ZwRoundTrip` | safety_stego.py:36-40 | `zw_to_bits(bits_to_zw(b)) == b` for every b over '0'/'1' |
| `SafetyStego.ZwToBitsConcat` | safety_stego.py:39-40 | decoding a concatenation is the concatenation of the decodings |
| `SafetyStego.ZwToBitsForeign` | safety_stego.py:39-40 | text with no digit markers decodes to no digits |
| `SafetyStego.IgnoresForeign` | safety_stego.py:39-40 | inserting characters other than the two markers does not change the decoded digits |
| `SafetyStego.Hidden` | safety_stego.py:46-48 | the hidden run consists only of the two digit markers |
| `SafetyStego.Embed` | safety_stego.py:45-49 | the visible text is an unchanged prefix, followed by the header, and everything after is ZW0/ZW1 |
| `SafetyStego.EmbedLength` | safety_stego.py:45-49 | the embedded text is \|visible\| + 1 + 8·\|serialised state\| long |
| `SafetyStego.FirstIndex` | safety_stego.py:55 | the split point is an occurrence of the header with none before it; none iff the header is absent |
| `SafetyStego.Extract` | safety_stego.py:51-58 | no header means no payload |
| `SafetyStego.ExtractHidden` | safety_stego.py:51-58 | any run behind the first header decodes to `deserialize` of the text it spells, with no authentication (forgery accepted) |
| `SafetyStego.ExtractEmbed` | safety_stego.py:45-58 | `extract(embed(t, s)) == deserialize(serialize(s))` when t has no header and the serialisation is below 256 |
| `SafeModel.LastUserTurn` | safe_model.py:128-135 | the selected turn is a user turn not starting with "Execution output:", and every later turn is not; none iff no such turn exists |
| `SafeModel.VisibleText` | safe_model.py:155-157 | the text sent to the evaluator is a prefix of the content with no header, ending exactly at the first header |
| `SafeModel.Clamp` | safe_model.py:112 | the result lies in [0, 1], equals the input inside that range, and is 0 below it and 1 above it |
| `SafeModel.ToFloat` | safe_model.py:111 | `float()` of a number is the number, of a boolean 1.0 or 0.0, of a string whatever the string parses to; null, a list or a dict is an error |
| `SafeModel.Evaluate` | safe_model.py:101-114 | a non-JSON reply and JSON that is not an object are errors; a missing risk_score becomes 0.0, a numeric one is clamped, a boolean one is 1.0 or 0.0, and one `float()` rejects is an error; a success keeps every other field unchanged |
| `SafeModel.EvaluateClampsOutOfRange` | safe_model.py:111-112 | evaluator scores 1.7 and -0.2 are stored as 1.0 and 0.0 |
| `SafeModel.ThresholdIsInclusive` | safe_model.py:162 | risk 0.79 delegates and risk 0.8 refuses |
| `SafeModel.InitialStateIsNeutral` | safe_model.py:26-30 | the initial state has both intents "unknown" and risk 0.0, so it never refuses |
| `SafeModel.Inbound` | safe_model.py:138-145 | with a header and a payload that decodes to a truthy value, that value becomes the state; in every other case the state is kept |
| `SafeModel.ForgedStateAdopted` | safe_model.py:138-145 | a hand-crafted hidden run that decodes to a truthy value becomes the state |
| `SafeModel.RefusalAction` | safe_model.py:163-173 | the refusal is a finish action whose final object has exactly the keys type, result and metadata: type "refusal", result [], and metadata holding the reason "trajectory too risky" and the state |
| `SafeModel.Refusal` | safe_model.py:162-174 | the visible part of a refusal is the serialised refusal action |
| `SafeModel.RefusalCarriesState` | safe_model.py:162-174 | decoding a refusal yields the serialised state back |
| `SafeModel.Delegate` | safe_model.py:183-195 | JSON that is not an object raises; otherwise the reply comes back unchanged iff its action is "run_code", else embedded with the state |
| `SafeModel.DelegateCarriesState` | safe_model.py:183-195 | every delegated reply other than run_code that contains no U+200B shows the reply and decodes to the state (a reply holding its own U+200B is cut and decoded at that character instead) |
| `SafeModel.VisibleTextOfEmbed` | safe_model.py:155-157 | cutting an embedded text that contains no U+200B at the header restores the visible text |
| `SafeModel.SafeModel.constructor` | safe_model.py:21-30 | a fresh gate holds the neutral initial state, has sent nothing and answered nothing |
| `SafeModel.SafeModel.Chat` | safe_model.py:119-195 | the reply is `ChatReply` of the messages and the new state `ChatState`: the selected turn's visible text is evaluated; the new state is the fresh evaluation whatever was decoded, or the decoded state when evaluation raises; risk ≥ 0.8 refuses without calling the service; below it the service is called once and `Delegate` decides the reply; the call is appended to the log of answered calls |
| `Agent.StripZw` | agent.py:67-71 | the output has none of U+200B, U+200C, U+200D, U+FEFF, and holds exactly the other characters of the input |
| `Agent.StripZwConcat` | agent.py:67-71 | stripping works piecewise over a concatenation |
| `Agent.StripZwKeepsClean` | agent.py:67-71 | text without zero-width characters is returned unchanged, in order |
| `Agent.StripZwDropsInvisible` | agent.py:67-71 | text made only of zero-width characters disappears |
| `Agent.StripZwIdempotent` | agent.py:67-71 | stripping twice is stripping once |
| `Agent.StripZwOfEmbed` | agent.py:67-71 | `strip_zw(embed(t, s)) == strip_zw(t)`: stripping removes everything the codec adds |
| `Agent.StrippedTextHasNoPayload` | agent.py:67-71 | stripped text never yields a payload to `extract` |
| `Agent.ExecutePythonSurfacesOne` | agent.py:94-100 | non-empty error text is surfaced whole behind "[error]\n" and standard output is dropped; otherwise standard output comes back alone |
| `Agent.Decide` | agent.py:115-173 | non-JSON fails with the stripped text; JSON that is not an object raises; run_code with a string code runs it, otherwise fails as invalid payload; finish returns a final object exactly when it has type, result and metadata, otherwise fails; any other action fails |
| `Agent.RefusalEndsRun` | agent.py:156-170 | a gate refusal ends the run returning its final object, whose type is "refusal" and result [] |
| `Agent.RunCodePassesThrough` | agent.py:131-140 | a run_code reply without zero-width characters crosses the gate unchanged and the controller runs its code (the gate passes any run_code reply unchanged, but the controller parses the stripped text, so a reply with zero-width characters may run other code) |
| `Agent.NonJsonReplyEndsRun` | agent.py:120-123 | a non-JSON service reply without zero-width characters is embedded by the gate and ends the run with that reply in the report (a reply that fails to parse only because of a zero-width character may parse once the controller strips it) |
| `Agent.ExecutionTurnReports` | agent.py:145-148 | an execution-output turn is a user turn starting with the marker, never taken for a genuine user turn, and holds the output unchanged after the marker and a newline |
| `Agent.AppendKeepsHistory` | agent.py:144-148 | appending an assistant turn and an execution-output turn keeps the shape of an agent history |
| `Agent.Transcript` | agent.py:107-148 | the history after n code steps has 2n+1 turns and starts with the prompt |
| `Agent.TranscriptIsHistory` | agent.py:107-148 | every such history has the agent-history shape |
| `Agent.TranscriptAt` | agent.py:144-148 | turn 2i+1 is the reply of step i as an assistant turn, turn 2i+2 the execution-output turn of its code's output |
| `Agent.ExchangeAt` | agent.py:109-148 | call i of the gate sent the system prompt plus the history built from the first i steps, and got the reply of step i |
| `Agent.CodeStepAppends` | agent.py:111-148 | a run_code step extends the history by exactly its two turns and the log of calls by exactly its call |
| `Agent.Stop` | agent.py:120-173 | a decision other than run_code ends the run: finish returns its final object, a failure its message, and a payload that is not an object raises |
| `Agent.LookupFindsPrompt` | agent.py:105-151 | in every conversation the loop sends, the gate's lookup selects the initial prompt (or nothing, if the prompt starts with the execution-output marker) |
| `Agent.CallKeepsLogs` | agent.py:75-77 | the two log predicates (every evaluation scored the visible prompt; every conversation sent is the system prompt plus an agent history) survive a call that appends at most the visible prompt to the evaluator log and at most the conversation to the service log |
| `Agent.LlmAgentCall` | agent.py:75-77 | the reply is the gate's `ChatReply` to the system prompt plus the history and the state its `ChatState`; on an agent history the gate evaluates the visible prompt and forwards the conversation at most once, or raises at once when the prompt starts with the marker |
| `Agent.AgentTurn` | agent.py:109-173 | one pass of the loop: the gate's reply, then either its run_code step appended to the history, or the outcome `Stop` gives for its decision, or the error the gate raised |
| `Agent.AnsweredExchanges` | agent.py:75-77 | the steps of a run are answered by the gate exactly when every call the run adds to the log got the gate's `ChatReply` to what it sent |
| `Agent.GateAnsweredAppend` | agent.py:109-148 | a step whose reply is the gate's answer to the current history extends a run whose every reply is the gate's answer to the history before it |
| `Agent.Advance` | agent.py:109-173 | one pass keeps the loop's invariant (history, log of calls, logs, state) when it runs code, and otherwise leaves the run in the ended state |
| `Agent.ActionLoop` | agent.py:109-173 | the loop of `agent_step` ends either in the ended state of the last call, or, when the bound runs out, still in the loop's invariant after exactly `maxSteps` steps; with a bound of 0 the gate is left unchanged |
| `Agent.AgentStep` | agent.py:105-173 | the history is the prompt followed by each executed reply and the output of its code, and each executed reply decided to run exactly that code; the reply of step i is `ChatReply` of the system prompt plus the history built from the first i steps (`GateAnswered`), and the reply that ended the run is `ChatReply` of the final conversation; the outcome is what `Stop` gives for the last reply's decision, or the error the gate raised; a finished run returns a final object with all three keys; every evaluation scores the visible prompt; every conversation sent is the system prompt plus an agent history; the state is the evaluation of the prompt; a prompt starting with the marker fails at once, leaving the state, the evaluator log and the service log unchanged (the log of calls still gains that one call) |

## Left out

- The OpenAI client, `load_dotenv` and both `chat.completions.create` calls are network I/O. They are the `evaluator` and `service` functions of the gate. These are total, so a failing model call is not modelled: a network error or time-out in `create`, and a `message.content` of `None` (which makes `json.loads` raise in the evaluator path and `embed` raise in the service path). The model therefore assumes both calls are deterministic: the same input gets the same reply. One consequence is that every evaluation in one `AgentStep` run scores the same visible prompt and gets the same score, so a run that was delegated to once is never refused later in that run.
- The system prompt strings of both files are natural-language content. The agent's system prompt is a parameter of `AgentStep`. The evaluator's prompt is folded into `evaluator`.
- `json.dumps`, `json.loads` (with `deserialize`'s catch-all) and Python's `float()` on a string are library parsing. They are the opaque fields of `JsonLib`. The round-trip lemmas take what they need of them as preconditions, such as "the serialisation is below 256" (true of `json.dumps`' default ASCII output) or "the refusal parses back".
- Python floats, NaN and infinities are not modelled. Risk scores are `real`, and only clamping and the `>= 0.8` comparison are modelled.
- `tempfile` and `subprocess` in `execute_python` are the executor parameter. Its outputs are taken as already passed through `.strip()`, and the whitespace rules of `.strip()` are not modelled.
- The executor `run` is a pure function of the code text alone, so the model fixes that the same code always prints the same output and that earlier steps cannot change what later steps print. The source runs `python3` on a temporary file in a subprocess, whose output can depend on files earlier steps wrote, on the clock and on randomness. `Transcript`, and the history `AgentStep` returns, are stated under this assumption.
- The console printing in `agent_step` and the module-level global `model` are left out. The gate object is passed to `AgentStep` explicitly.
- `AgentStep`: the source loops with `while True`, but the model stops after `maxSteps` iterations with `StepLimitReached`, an outcome the source does not have.
- Exceptions that `Message` rules out by construction are not modelled, such as a turn without a `role` or `content` key.
- `SafeModel.Inbound`: a decoded payload that is truthy is adopted whatever its shape, as in the source; a falsy one (`{}`, `[]`, `0`, `""`, `false`, `null`) is not. That is why the state field is a `Json` value and not a record.
- Dict key order is lost: an object is a `map<string, Json>`, so the order in which `json.dumps` writes keys is not modelled, and neither is that `Evaluate`'s in-place update keeps `risk_score` at its original position.
- CallKeepsLogs: what the gate appends to its logs is a hypothesis of this lemma, not its conclusion. That a call appends at most the visible prompt and at most the conversation is the contract of `LlmAgentCall` (from `SafeModel.Chat`); the lemma only carries the log predicates across such a call.
