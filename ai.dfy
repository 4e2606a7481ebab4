/**
 * AI dispatch (src/ai.js): the prompt template, the choice between the
 * MiniMax HTTP endpoint and the `opencode` command-line agent, and how each
 * backend's answer becomes a reply or an error.
 *
 * `JSON.parse` is a parameter `parse`: `Success(v)` for the value it returns,
 * `Failure(m)` for the SyntaxError it throws, with its message `m`. The child
 * process is a sequence of events; the HTTP exchange is one outcome.
 */
module Ai {
  import opened Wrappers
  import opened JsValue
  import opened Ansi
  import Db

  /** `process.env`: variables that are set, with their values. */
  type Env = map<string, string>

  type Parser = string -> Result<Value, string>

  const ApiKeyVar: string := "MINIOC_API_KEY"
  const BaseUrlVar: string := "MINIOC_BASE_URL"
  const ModelVar: string := "MINIOC_MODEL"
  const DefaultBaseUrl: string := "https://api.minimax.io"
  const DefaultModel: string := "MiniMax-M2.5"
  const OpenCodePrefix: string := "opencode/"
  const ChatCompletionPath: string := "/v1/text/chatcompletion"
  /** The variables OpenCode reads its provider settings from. */
  const OpenCodeBaseUrlVar: string := "ANTHROPIC_BASE_URL"
  const OpenCodeTokenVar: string := "ANTHROPIC_AUTH_TOKEN"

  const MissingKeyMessage: string := "MINIOC_API_KEY is not set in .env"
  const OpenCodeTimeoutMessage: string := "opencode timed out after 60 seconds"
  const ApiTimeoutMessage: string := "API request timed out"
  const SpawnPrefix: string := "Failed to spawn opencode: "

  const PromptHead: string := "User: "
  const PromptTail: string := "\nPlease provide a short response:"

  // ---------------------------------------------------------------------------
  // Prompt (src/ai.js:5-7).

  /** The prompt is the message inside a fixed two-line template; user id and history play no part. */
  function BuildPrompt(userId: int, message: string, history: seq<Db.Turn>): (prompt: string)
    ensures |prompt| == |PromptHead| + |message| + |PromptTail|
    ensures prompt[..|PromptHead|] == PromptHead
    ensures prompt[|PromptHead|..|PromptHead| + |message|] == message
    ensures prompt[|PromptHead| + |message|..] == PromptTail
  {
    PromptHead + message + PromptTail
  }

  /** The message a prompt was built from: the template is undone exactly. */
  function PromptMessage(prompt: string): string
    requires |prompt| >= |PromptHead| + |PromptTail|
  {
    prompt[|PromptHead|..|prompt| - |PromptTail|]
  }

  lemma PromptRoundTrip(userId: int, message: string, history: seq<Db.Turn>)
    ensures PromptMessage(BuildPrompt(userId, message, history)) == message
  {
    var p := BuildPrompt(userId, message, history);
    assert p[|PromptHead|..|p| - |PromptTail|] == p[|PromptHead|..|PromptHead| + |message|];
  }

  // ---------------------------------------------------------------------------
  // Configuration and backend choice (src/ai.js:137-150).

  /** `process.env[key] || fallback`: an unset or empty variable gives the fallback. */
  function EnvOr(env: Env, key: string, fallback: string): (v: string)
    ensures v == fallback || (key in env && v == env[key])
    ensures v != "" <==> (key in env && env[key] != "") || fallback != ""
    ensures key in env && env[key] != "" ==> v == env[key]
  {
    if key in env && env[key] != "" then env[key] else fallback
  }

  predicate HasApiKey(env: Env) {
    ApiKeyVar in env && env[ApiKeyVar] != ""
  }

  function ModelOf(env: Env): string {
    EnvOr(env, ModelVar, DefaultModel)
  }

  datatype Backend =
    | MissingApiKey
    | OpenCode(model: string)
    | MiniMax(apiKey: string, baseUrl: string, model: string)

  /**
   * The key check comes first; then a model named `opencode/...` selects the
   * OpenCode agent and every other model the HTTP endpoint.
   */
  function SelectBackend(env: Env): (b: Backend)
    ensures b.MissingApiKey? <==> !HasApiKey(env)
    ensures b.OpenCode? <==> HasApiKey(env) && OpenCodePrefix <= ModelOf(env)
    ensures b.OpenCode? ==> b.model == ModelOf(env)
    ensures b.MiniMax? ==> b == MiniMax(env[ApiKeyVar], EnvOr(env, BaseUrlVar, DefaultBaseUrl), ModelOf(env))
  {
    if !HasApiKey(env) then MissingApiKey
    else if OpenCodePrefix <= ModelOf(env) then OpenCode(ModelOf(env))
    else MiniMax(env[ApiKeyVar], EnvOr(env, BaseUrlVar, DefaultBaseUrl), ModelOf(env))
  }

  /** With no model configured the default model is used, and it selects the HTTP endpoint. */
  lemma DefaultModelUsesHttp(env: Env)
    requires HasApiKey(env) && !(ModelVar in env && env[ModelVar] != "")
    ensures SelectBackend(env) == MiniMax(env[ApiKeyVar], EnvOr(env, BaseUrlVar, DefaultBaseUrl), DefaultModel)
  {
    assert !(OpenCodePrefix <= DefaultModel) by {
      assert DefaultModel[0] != OpenCodePrefix[0];
    }
  }

  // ---------------------------------------------------------------------------
  // OpenCode invocation (src/ai.js:62-80).

  /** `opencode run --format json [--model <model>] -- <prompt>` */
  function OpenCodeArgs(model: string, prompt: string): (args: seq<string>)
    ensures |args| == if model != "" then 7 else 5
    ensures args[..3] == ["run", "--format", "json"]
    ensures model != "" ==> args[3..5] == ["--model", model]
    ensures args[|args| - 2..] == ["--", prompt]
  {
    ["run", "--format", "json"] + (if model != "" then ["--model", model] else []) + ["--", prompt]
  }

  /**
   * Unless the model name is itself "--", the first "--" is the one right
   * before the prompt, so the prompt is read as a positional argument however
   * it starts.
   */
  lemma PromptIsPositional(model: string, prompt: string)
    requires model != "--"
    ensures var args := OpenCodeArgs(model, prompt);
            forall k :: 0 <= k < |args| - 2 ==> args[k] != "--"
  {
  }

  /**
   * The child's environment: the parent's, with OpenCode's base-URL and
   * token variables replaced by the relay's own settings. A replacement whose
   * source is unset is `undefined`, and spawning drops variables whose value
   * is `undefined`.
   */
  function ChildEnv(parent: Env): (child: Env)
    ensures forall k :: k != OpenCodeBaseUrlVar && k != OpenCodeTokenVar ==>
              (k in child <==> k in parent) && (k in parent ==> child[k] == parent[k])
    ensures OpenCodeBaseUrlVar in child <==> BaseUrlVar in parent
    ensures BaseUrlVar in parent ==> child[OpenCodeBaseUrlVar] == parent[BaseUrlVar]
    ensures OpenCodeTokenVar in child <==> ApiKeyVar in parent
    ensures ApiKeyVar in parent ==> child[OpenCodeTokenVar] == parent[ApiKeyVar]
  {
    var kept := map k | k in parent && k != OpenCodeBaseUrlVar && k != OpenCodeTokenVar :: parent[k];
    var withUrl := if BaseUrlVar in parent then kept[OpenCodeBaseUrlVar := parent[BaseUrlVar]] else kept;
    if ApiKeyVar in parent then withUrl[OpenCodeTokenVar := parent[ApiKeyVar]] else withUrl
  }

  // ---------------------------------------------------------------------------
  // Splitting the OpenCode output into lines: `s.split('\n')`.

  function NewlineIndex(s: string): (k: nat)
    requires '\n' in s
    ensures k < |s| && s[k] == '\n' && '\n' !in s[..k]
  {
    if s[0] == '\n' then 0
    else
      var k := NewlineIndex(s[1..]);
      assert s[1..][..k] == s[1..k + 1];
      1 + k
  }

  function SplitLines(s: string): (lines: seq<string>)
    ensures |lines| >= 1
    ensures forall k :: 0 <= k < |lines| ==> '\n' !in lines[k]
    decreases |s|
  {
    if '\n' in s then
      var k := NewlineIndex(s);
      [s[..k]] + SplitLines(s[k + 1..])
    else [s]
  }

  function JoinLines(lines: seq<string>): string
    requires |lines| >= 1
  {
    if |lines| == 1 then lines[0] else lines[0] + "\n" + JoinLines(lines[1..])
  }

  /** Splitting loses nothing: joining the lines with "\n" gives back the text. */
  lemma {:induction false} SplitLinesRoundTrip(s: string)
    ensures JoinLines(SplitLines(s)) == s
    decreases |s|
  {
    if '\n' in s {
      var k := NewlineIndex(s);
      SplitLinesRoundTrip(s[k + 1..]);
      assert SplitLines(s)[1..] == SplitLines(s[k + 1..]);
      assert s == s[..k] + "\n" + s[k + 1..];
    }
  }

  // ---------------------------------------------------------------------------
  // The JSON-line scan (src/ai.js:113-124).

  /** What one line contributes to the scan. */
  datatype LineVerdict =
    | TextPart(text: Value)   // `{type: "text", part: {text}}` with a truthy text: the reply
    | OtherLine               // parsed, but not a text record: look further
    | ScanStops               // `JSON.parse` threw, or the value was null: the catch ends the scan

  function Verdict(line: string, parse: Parser): LineVerdict {
    match parse(line)
    case Failure(_) => ScanStops
    case Success(obj) =>
      if obj.Nullish() then ScanStops
      else
        var text := OptMember(Member(obj, "part"), "text");
        if Member(obj, "type") == Str("text") && Truthy(text) then TextPart(text) else OtherLine
  }

  /** The text of the first text record, provided no line stops the scan before it. */
  function FirstTextPart(lines: seq<string>, parse: Parser): (r: Option<Value>)
    ensures r.Some? ==> Truthy(r.value)
  {
    if lines == [] then None
    else
      match Verdict(lines[0], parse)
      case TextPart(t) => Some(t)
      case ScanStops => None
      case OtherLine => FirstTextPart(lines[1..], parse)
  }

  /** The OpenCode reply: the first text record's text, else the whole cleaned output. */
  function OpenCodeReply(clean: string, parse: Parser): (r: Value)
    ensures Truthy(r) || r == Str(clean)
    ensures clean != "" ==> Truthy(r)
  {
    match FirstTextPart(SplitLines(clean), parse)
    case Some(t) => t
    case None => Str(clean)
  }

  /** The scan decides at the first line that is not an ordinary record. */
  lemma {:induction false} FirstTextPartAt(lines: seq<string>, parse: Parser, k: nat)
    requires k < |lines|
    requires forall j :: 0 <= j < k ==> Verdict(lines[j], parse).OtherLine?
    requires !Verdict(lines[k], parse).OtherLine?
    ensures FirstTextPart(lines, parse) ==
            if Verdict(lines[k], parse).TextPart? then Some(Verdict(lines[k], parse).text) else None
    decreases k
  {
    if k > 0 {
      FirstTextPartAt(lines[1..], parse, k - 1);
    }
  }

  /** When every line is an ordinary record, nothing is found. */
  lemma {:induction false} FirstTextPartNone(lines: seq<string>, parse: Parser)
    requires forall j :: 0 <= j < |lines| ==> Verdict(lines[j], parse).OtherLine?
    ensures FirstTextPart(lines, parse) == None
  {
    if lines != [] {
      FirstTextPartNone(lines[1..], parse);
    }
  }

  /** A found text comes from a text record that only ordinary records precede. */
  lemma {:induction false} FirstTextPartFound(lines: seq<string>, parse: Parser)
    requires FirstTextPart(lines, parse).Some?
    ensures exists k :: 0 <= k < |lines| && Verdict(lines[k], parse) == TextPart(FirstTextPart(lines, parse).value) &&
                        forall j :: 0 <= j < k ==> Verdict(lines[j], parse).OtherLine?
  {
    if Verdict(lines[0], parse).OtherLine? {
      FirstTextPartFound(lines[1..], parse);
      var k :| 0 <= k < |lines[1..]| && Verdict(lines[1..][k], parse) == TextPart(FirstTextPart(lines[1..], parse).value) &&
               forall j :: 0 <= j < k ==> Verdict(lines[1..][j], parse).OtherLine?;
      assert Verdict(lines[k + 1], parse) == TextPart(FirstTextPart(lines, parse).value);
    } else {
      assert Verdict(lines[0], parse) == TextPart(FirstTextPart(lines, parse).value);
    }
  }

  /** The `for (const line of lines)` loop with its `break` and the surrounding `catch`. */
  method ScanLines(clean: string, parse: Parser) returns (reply: Value)
    ensures reply == OpenCodeReply(clean, parse)
  {
    reply := Str(clean);
    var lines := SplitLines(clean);
    var i := 0;
    while i < |lines|
      invariant 0 <= i <= |lines|
      invariant forall j :: 0 <= j < i ==> Verdict(lines[j], parse).OtherLine?
      invariant reply == Str(clean)
    {
      var parsed := parse(lines[i]);
      if parsed.Failure? || parsed.value.Nullish() {
        // JSON.parse threw, or `obj.type` was read on null: the catch keeps the cleaned output
        FirstTextPartAt(lines, parse, i);
        return;
      }
      var obj := parsed.value;
      var text := OptMember(Member(obj, "part"), "text");
      if Member(obj, "type") == Str("text") && Truthy(text) {
        FirstTextPartAt(lines, parse, i);
        reply := text;
        return;
      }
      i := i + 1;
    }
    FirstTextPartNone(lines, parse);
  }

  // ---------------------------------------------------------------------------
  // The child process (src/ai.js:82-133).

  datatype ChildEvent =
    | StdoutChunk(data: string)
    | StderrChunk(data: string)
    | Close(code: Option<int>)   // None: the child ended by a signal, Node reports `null`
    | SpawnError(message: string)
    | TimeoutFired               // the 60-second timer

  datatype AiOutcome = Resolved(value: Value) | Rejected(message: string)

  /** The events that settle the promise when they come first. */
  predicate Decisive(e: ChildEvent) {
    e.Close? || e.SpawnError? || e.TimeoutFired?
  }

  /** Index of the first settling event, if there is one. */
  function FirstDecisive(es: seq<ChildEvent>): (k: Option<nat>)
    ensures k.Some? ==> k.value < |es| && Decisive(es[k.value]) &&
                        forall j :: 0 <= j < k.value ==> !Decisive(es[j])
    ensures k.None? ==> forall j :: 0 <= j < |es| ==> !Decisive(es[j])
  {
    if es == [] then None
    else
      match FirstDecisive(es[..|es| - 1])
      case Some(k) => Some(k)
      case None => if Decisive(es[|es| - 1]) then Some(|es| - 1) else None
  }

  /** Everything the child wrote to standard output, chunk after chunk. */
  function StdoutOf(es: seq<ChildEvent>): string {
    if es == [] then ""
    else StdoutOf(es[..|es| - 1]) + (if es[|es| - 1].StdoutChunk? then es[|es| - 1].data else "")
  }

  function StderrOf(es: seq<ChildEvent>): string {
    if es == [] then ""
    else StderrOf(es[..|es| - 1]) + (if es[|es| - 1].StderrChunk? then es[|es| - 1].data else "")
  }

  function ExitCodeText(code: Option<int>): string {
    match code
    case None => "null"
    case Some(n) => IntToString(n)
  }

  /** The close handler's verdict. */
  function ExitOutcome(stdout: string, stderr: string, code: Option<int>, parse: Parser): (r: AiOutcome)
    ensures code != Some(0) && stderr != "" ==> r == Rejected(stderr)
    ensures code != Some(0) && stderr == "" ==> r == Rejected("opencode failed with exit code " + ExitCodeText(code))
    ensures code == Some(0) ==> r == Resolved(OpenCodeReply(Clean(stdout), parse))
  {
    if code != Some(0) then
      Rejected(if stderr != "" then stderr else "opencode failed with exit code " + ExitCodeText(code))
    else Resolved(OpenCodeReply(Clean(stdout), parse))
  }

  /** The rejection text for a child that could not start; it always names a reason. */
  function SpawnFailure(message: string): (m: string)
    ensures |m| > |SpawnPrefix| && m[..|SpawnPrefix|] == SpawnPrefix
    ensures message != "" ==> m[|SpawnPrefix|..] == message
  {
    SpawnPrefix + (if message != "" then message else "Unknown error")
  }

  /** Only a clean exit resolves; a timer or a spawn error always rejects. */
  function DecisiveOutcome(e: ChildEvent, stdout: string, stderr: string, parse: Parser): (r: AiOutcome)
    requires Decisive(e)
    ensures r.Resolved? <==> e == Close(Some(0))
    ensures e.TimeoutFired? ==> r == Rejected(OpenCodeTimeoutMessage)
    ensures e.SpawnError? ==> r.Rejected? && r.message != ""
  {
    match e
    case Close(code) => ExitOutcome(stdout, stderr, code, parse)
    case SpawnError(m) => Rejected(SpawnFailure(m))
    case TimeoutFired => Rejected(OpenCodeTimeoutMessage)
  }

  /** How the promise settles: by the first settling event, with the output gathered before it. */
  function Settlement(es: seq<ChildEvent>, parse: Parser): (r: Option<AiOutcome>)
    ensures r.None? <==> forall j :: 0 <= j < |es| ==> !Decisive(es[j])
    ensures TimerKills(es) ==> r == Some(Rejected(OpenCodeTimeoutMessage))
    ensures r.Some? && r.value.Resolved? ==> exists k :: 0 <= k < |es| && es[k] == Close(Some(0))
  {
    match FirstDecisive(es)
    case None => None
    case Some(k) => Some(DecisiveOutcome(es[k], StdoutOf(es[..k]), StderrOf(es[..k]), parse))
  }

  /** The timer fires, and kills the child, only when it is the first settling event. */
  predicate TimerKills(es: seq<ChildEvent>) {
    FirstDecisive(es).Some? && es[FirstDecisive(es).value].TimeoutFired?
  }

  /**
   * Runs the handlers of `callOpenCode` over the events in order. `settled`
   * is the promise's own state: a later resolve or reject changes nothing.
   * `timerArmed` is the live `timeoutId`.
   */
  method RunChild(events: seq<ChildEvent>, parse: Parser) returns (outcome: Option<AiOutcome>, kills: nat)
    ensures outcome == Settlement(events, parse)
    ensures kills == if TimerKills(events) then 1 else 0
  {
    var stdout, stderr := "", "";
    var settled, timerArmed := false, true;
    outcome, kills := None, 0;
    for i := 0 to |events|
      invariant stdout == StdoutOf(events[..i]) && stderr == StderrOf(events[..i])
      invariant settled <==> FirstDecisive(events[..i]).Some?
      invariant timerArmed == !settled
      invariant outcome == Settlement(events[..i], parse)
      invariant kills == if TimerKills(events[..i]) then 1 else 0
    {
      assert events[..i + 1][..i] == events[..i];
      if settled {
        var k := FirstDecisive(events[..i]).value;
        assert events[..i + 1][..k] == events[..i][..k];
      }
      match events[i]
      case StdoutChunk(d) =>
        stdout := stdout + d;
      case StderrChunk(d) =>
        stderr := stderr + d;
      case Close(code) =>
        timerArmed := false;
        var result: AiOutcome;
        if code != Some(0) {
          result := Rejected(if stderr != "" then stderr else "opencode failed with exit code " + ExitCodeText(code));
        } else {
          var reply := ScanLines(Clean(stdout), parse);
          result := Resolved(reply);
        }
        if !settled {
          outcome, settled := Some(result), true;
        }
      case SpawnError(m) =>
        timerArmed := false;
        if !settled {
          outcome, settled := Some(Rejected(SpawnFailure(m))), true;
        }
      case TimeoutFired =>
        // a handler that ran first cleared the timer; otherwise nothing has settled yet
        if timerArmed {
          timerArmed := false;
          kills := kills + 1;
          outcome, settled := Some(Rejected(OpenCodeTimeoutMessage)), true;
        }
    }
    assert events[..|events|] == events;
  }

  /** Once settled, later events change nothing: the promise settles exactly once. */
  lemma SettlementIsFinal(es: seq<ChildEvent>, more: seq<ChildEvent>, parse: Parser)
    requires Settlement(es, parse).Some?
    ensures Settlement(es + more, parse) == Settlement(es, parse)
    ensures TimerKills(es + more) == TimerKills(es)
  {
    var k := FirstDecisive(es).value;
    var all := es + more;
    assert all[k] == es[k];
    assert forall j :: 0 <= j < k ==> all[j] == es[j];
    assert FirstDecisive(all) == Some(k);
    assert all[..k] == es[..k];
  }

  /** A close or spawn error before any timer event means the child is never killed. */
  lemma ExitBeforeTimerNoKill(es: seq<ChildEvent>, k: nat)
    requires k < |es| && (es[k].Close? || es[k].SpawnError?)
    requires forall j :: 0 <= j < k ==> !es[j].TimeoutFired?
    ensures !TimerKills(es)
  {
    assert Decisive(es[k]);
  }

  /** A failed exit reports the error output; what the child printed on stdout plays no part. */
  lemma FailedExitIgnoresStdout(out1: string, out2: string, stderr: string, code: Option<int>, parse: Parser)
    requires code != Some(0)
    ensures ExitOutcome(out1, stderr, code, parse) == ExitOutcome(out2, stderr, code, parse)
    ensures ExitOutcome(out1, stderr, code, parse).Rejected?
  {
  }

  // ---------------------------------------------------------------------------
  // The HTTP endpoint (src/ai.js:9-60).

  datatype HttpExchange =
    | Response(body: string)     // the response ended with this body
    | RequestError(message: string)
    | RequestTimedOut            // the 60-second request timeout

  /** `result.base_resp?.status_code` */
  function StatusCode(result: Value): Value
    requires !result.Nullish()
  {
    OptMember(Member(result, "base_resp"), "status_code")
  }

  /**
   * The end handler: a failed parse, or a truthy provider status code,
   * rejects; otherwise a truthy `reply` is the answer, and failing that the
   * raw body.
   */
  function InterpretReply(body: string, parse: Parser): (r: AiOutcome)
    ensures parse(body).Failure? ==> r == Rejected("Failed to parse API response: " + parse(body).error)
    ensures parse(body).Success? && parse(body).value.Nullish() ==>
              r == Rejected("Failed to parse API response: Cannot read properties of " + Display(parse(body).value) + " (reading 'base_resp')")
    ensures parse(body).Success? && !parse(body).value.Nullish() ==>
              var v := parse(body).value;
              (Truthy(StatusCode(v)) ==> r == Rejected("MiniMax API error: " + Display(Member(Member(v, "base_resp"), "status_msg")))) &&
              (!Truthy(StatusCode(v)) && Truthy(Member(v, "reply")) ==> r == Resolved(Member(v, "reply"))) &&
              (!Truthy(StatusCode(v)) && !Truthy(Member(v, "reply")) ==> r == Resolved(Str(body)))
  {
    match parse(body)
    case Failure(m) => Rejected("Failed to parse API response: " + m)
    case Success(v) =>
      if v.Nullish() then
        // reading `base_resp` of null throws a TypeError, which the catch reports
        Rejected("Failed to parse API response: Cannot read properties of " + Display(v) + " (reading 'base_resp')")
      else if Truthy(StatusCode(v)) then
        Rejected("MiniMax API error: " + Display(Member(Member(v, "base_resp"), "status_msg")))
      else if Truthy(Member(v, "reply")) then Resolved(Member(v, "reply"))
      else Resolved(Str(body))
  }

  function HttpOutcome(x: HttpExchange, parse: Parser): (r: AiOutcome)
    ensures x.RequestError? ==> r == Rejected(x.message)
    ensures x.RequestTimedOut? ==> r == Rejected(ApiTimeoutMessage)
    ensures x.Response? ==> r == InterpretReply(x.body, parse)
  {
    match x
    case Response(body) => InterpretReply(body, parse)
    case RequestError(m) => Rejected(m)
    case RequestTimedOut => Rejected(ApiTimeoutMessage)
  }

  /**
   * Only a response can answer: a request error or a timeout always rejects,
   * and a resolved answer is a truthy `reply` field or the body itself.
   */
  lemma HttpAnswerNeedsResponse(x: HttpExchange, parse: Parser)
    ensures HttpOutcome(x, parse).Resolved? ==>
              x.Response? && (Truthy(HttpOutcome(x, parse).value) || HttpOutcome(x, parse).value == Str(x.body))
    ensures x.RequestTimedOut? ==> HttpOutcome(x, parse) == Rejected(ApiTimeoutMessage)
  {
    if HttpOutcome(x, parse).Resolved? {
      HttpResolvedReply(x.body, parse);
    }
  }

  /** A resolved HTTP reply is either a truthy `reply` field or the body itself. */
  lemma HttpResolvedReply(body: string, parse: Parser)
    requires InterpretReply(body, parse).Resolved?
    ensures var v := InterpretReply(body, parse).value;
            Truthy(v) || v == Str(body)
  {
  }

  // ---------------------------------------------------------------------------
  // processMessage (src/ai.js:137-174).

  /** What `processMessage` hands to the outside world. */
  datatype Invocation =
    | NoBackend
    | HttpPost(baseUrl: string, path: string, authorization: string, model: string, messages: seq<Db.Turn>)
    | Spawn(command: string, args: seq<string>, env: Env)

  /** The outside call `processMessage` makes for a message. */
  function Dispatch(userId: int, message: string, history: seq<Db.Turn>, env: Env): (call: Invocation)
    ensures call.NoBackend? <==> !HasApiKey(env)
    ensures call.Spawn? <==> HasApiKey(env) && OpenCodePrefix <= ModelOf(env)
    ensures call.Spawn? ==>
              call == Spawn("opencode", OpenCodeArgs(ModelOf(env), BuildPrompt(userId, message, history)), ChildEnv(env))
    ensures call.HttpPost? ==>
              call == HttpPost(EnvOr(env, BaseUrlVar, DefaultBaseUrl), ChatCompletionPath, "Bearer " + env[ApiKeyVar],
                               ModelOf(env), [Db.Turn("user", BuildPrompt(userId, message, history))])
  {
    var prompt := BuildPrompt(userId, message, history);
    match SelectBackend(env)
    case MissingApiKey => NoBackend
    case OpenCode(model) => Spawn("opencode", OpenCodeArgs(model, prompt), ChildEnv(env))
    case MiniMax(key, baseUrl, model) => HttpPost(baseUrl, ChatCompletionPath, "Bearer " + key, model, [Db.Turn("user", prompt)])
  }

  /**
   * How `processMessage` settles, given what the spawned child and the HTTP
   * endpoint would do; `None` when it has not settled within the child's events.
   */
  function Answer(env: Env, child: seq<ChildEvent>, http: HttpExchange, parse: Parser): (r: Option<AiOutcome>)
    ensures !HasApiKey(env) ==> r == Some(Rejected(MissingKeyMessage))
    ensures HasApiKey(env) && OpenCodePrefix <= ModelOf(env) ==> r == Settlement(child, parse)
    ensures HasApiKey(env) && !(OpenCodePrefix <= ModelOf(env)) ==> r == Some(HttpOutcome(http, parse))
  {
    match SelectBackend(env)
    case MissingApiKey => Some(Rejected(MissingKeyMessage))
    case OpenCode(_) => Settlement(child, parse)
    case MiniMax(_, _, _) => Some(HttpOutcome(http, parse))
  }

  /** Without a key nothing is contacted, whatever the child or the endpoint would have done. */
  lemma MissingKeyContactsNothing(userId: int, message: string, history: seq<Db.Turn>, env: Env,
                                  child: seq<ChildEvent>, http: HttpExchange, parse: Parser)
    requires !HasApiKey(env)
    ensures Dispatch(userId, message, history, env) == NoBackend
    ensures forall c, h :: Answer(env, c, h, parse) == Answer(env, child, http, parse)
  {
  }

  /**
   * Builds the prompt, checks the key, picks the backend and runs it.
   * `child` is what the OpenCode process does if one is spawned, `http` what
   * the endpoint does if it is called.
   */
  method ProcessMessage(userId: int, message: string, history: seq<Db.Turn>, env: Env,
                        child: seq<ChildEvent>, http: HttpExchange, parse: Parser)
    returns (call: Invocation, outcome: Option<AiOutcome>)
    ensures call == Dispatch(userId, message, history, env)
    ensures outcome == Answer(env, child, http, parse)
  {
    var prompt := BuildPrompt(userId, message, history);
    if !HasApiKey(env) {
      return NoBackend, Some(Rejected(MissingKeyMessage));
    }
    var apiKey := env[ApiKeyVar];
    var baseUrl := EnvOr(env, BaseUrlVar, DefaultBaseUrl);
    var model := EnvOr(env, ModelVar, DefaultModel);
    if OpenCodePrefix <= model {
      call := Spawn("opencode", OpenCodeArgs(model, prompt), ChildEnv(env));
      var kills;
      outcome, kills := RunChild(child, parse);
      return;
    }
    call := HttpPost(baseUrl, ChatCompletionPath, "Bearer " + apiKey, model, [Db.Turn("user", prompt)]);
    outcome := Some(HttpOutcome(http, parse));
  }
}
