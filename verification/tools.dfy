/**
 The server's tools. Each takes the registry, its arguments and the outcome
 of every SDK call it may make, and returns the registry afterwards, the SDK
 calls it made (in order) and its result or the `ValueError` it raises.
 */
module Tools {
  import opened Wrappers
  import opened Sdk
  import opened Errors
  import opened Sessions
  import opened Decimal

  datatype Step<+T> = Step(reg: Registry, calls: seq<Call>, result: Result<T, Error>)

  /** What `initialize_computer` returns. */
  datatype InitInfo = InitInfo(sessionId: string, projectId: Option<string>, status: Payload)

  /** What `prompt` returns. */
  datatype PromptSummary = PromptSummary(success: bool, messageCount: nat, result: string)

  /** What `server_info` returns. */
  datatype ServerInfo = ServerInfo(name: string, description: string, version: string, activeSessions: nat)

  /** The provider whose calls need an API key from the environment. */
  const AnthropicProvider: string := "anthropic"
  const ApiKeyVariable: string := "ANTHROPIC_API_KEY"
  const RemovedStatus: string := "removed_from_registry"
  const RemovedWarningPrefix: string := "API error occurred but computer removed from registry: "

  /**
   The shape every read-only tool promises: the registry is untouched; an
   unregistered session raises the lookup error before any SDK call; a
   registered one gets exactly `call` on its handle, and the tool returns
   `wrap` of the SDK's value or raises "<action> failed: <message>".
   */
  ghost predicate Forwards<T, U>(reg: Registry, sid: Option<string>, s: Step<U>,
                                 action: string, call: Handle -> Call,
                                 outcome: Outcome<T>, wrap: T -> U)
  {
    var k := Normalize(sid);
    && s.reg == reg
    && (k !in reg.handles ==> s.calls == [] && s.result == Failure(NoComputer(k)))
    && (k in reg.handles ==> s.calls == [call(reg.handles[k])])
    && (k in reg.handles && outcome.Returned? ==> s.result == Success(wrap(outcome.value)))
    && (k in reg.handles && outcome.Raised? ==> s.result == Failure(ActionFailed(action, outcome.message)))
  }

  /** `registry.get`, then one SDK call inside `try`, re-raised as "<action> failed". */
  function Forward<T, U>(reg: Registry, sid: Option<string>, action: string,
                         call: Handle -> Call, outcome: Outcome<T>, wrap: T -> U): (s: Step<U>)
    ensures Forwards(reg, sid, s, action, call, outcome, wrap)
  {
    match Get(reg, sid)
    case Failure(e) => Step(reg, [], Failure(e))
    case Success(h) =>
      var r := match outcome
        case Returned(v) => Success(wrap(v))
        case Raised(m) => Failure(ActionFailed(action, m));
      Step(reg, [call(h)], r)
  }

  /** The confirmation text of the three click tools. */
  function ClickText(verb: string, x: int, y: int): string
  {
    verb + " at (" + IntToString(x) + ", " + IntToString(y) + ")"
  }

  lemma SplitAtComma(a: string, r: string, a': string, r': string)
    requires forall i :: 0 <= i < |a| ==> a[i] != ','
    requires forall i :: 0 <= i < |a'| ==> a'[i] != ','
    requires a + "," + r == a' + "," + r'
    ensures a == a' && r == r'
  {
    var t := a + "," + r;
    assert |a| == |a'| by {
      assert t[|a|] == ',';
      assert (a' + "," + r')[|a'|] == ',';
    }
    assert a == t[..|a|];
    assert a' == (a' + "," + r')[..|a'|];
    assert r == t[|a| + 1..];
    assert r' == (a' + "," + r')[|a'| + 1..];
  }

  /** A click confirmation names exactly the coordinates that were clicked. */
  lemma ClickTextNamesCoordinates(verb: string, x: int, y: int, x': int, y': int)
    requires ClickText(verb, x, y) == ClickText(verb, x', y')
    ensures x == x' && y == y'
  {
    var p := verb + " at (";
    var a, b, a', b' := IntToString(x), IntToString(y), IntToString(x'), IntToString(y');
    var rest, rest' := " " + b + ")", " " + b' + ")";
    assert ClickText(verb, x, y) == p + (a + "," + rest);
    assert ClickText(verb, x', y') == p + (a' + "," + rest');
    assert a + "," + rest == (p + (a + "," + rest))[|p|..];
    assert a' + "," + rest' == (p + (a' + "," + rest'))[|p|..];
    SplitAtComma(a, rest, a', rest');
    assert b == rest[1..|rest| - 1];
    assert b' == rest'[1..|rest'| - 1];
    IntToStringInjective(x, x');
    IntToStringInjective(y, y');
  }

  /** The action names the tools put in front of " failed: ". */
  const Actions: set<string> := {
    "Computer initialization", "Screenshot", "Left-click", "Right-click", "Double-click",
    "Scroll", "Type text", "Key press", "Wait", "Bash command", "Restart", "Status check",
    "Prompt execution"
  }

  /** Every tool failure message reads back to its action and the SDK's message. */
  lemma ToolFailureReadsBack(a: string, d: string)
    requires a in Actions
    ensures ActionFailedParts(Message(ActionFailed(a, d))) == Some((a, d))
  {
    ActionFailedNamesActionAndDetail(a, d);
  }

  function LeftClick(reg: Registry, x: int, y: int, sid: Option<string>, outcome: Outcome<()>): (s: Step<string>)
    ensures Forwards(reg, sid, s, "Left-click", h => Sdk.LeftClick(h, x, y), outcome, _ => ClickText("Left-clicked", x, y))
  {
    Forward(reg, sid, "Left-click", h => Sdk.LeftClick(h, x, y), outcome, _ => ClickText("Left-clicked", x, y))
  }

  function RightClick(reg: Registry, x: int, y: int, sid: Option<string>, outcome: Outcome<()>): (s: Step<string>)
    ensures Forwards(reg, sid, s, "Right-click", h => Sdk.RightClick(h, x, y), outcome, _ => ClickText("Right-clicked", x, y))
  {
    Forward(reg, sid, "Right-click", h => Sdk.RightClick(h, x, y), outcome, _ => ClickText("Right-clicked", x, y))
  }

  function DoubleClick(reg: Registry, x: int, y: int, sid: Option<string>, outcome: Outcome<()>): (s: Step<string>)
    ensures Forwards(reg, sid, s, "Double-click", h => Sdk.DoubleClick(h, x, y), outcome, _ => ClickText("Double-clicked", x, y))
  {
    Forward(reg, sid, "Double-click", h => Sdk.DoubleClick(h, x, y), outcome, _ => ClickText("Double-clicked", x, y))
  }

  function Scroll(reg: Registry, direction: string, amount: int, sid: Option<string>, outcome: Outcome<()>): (s: Step<string>)
    ensures Forwards(reg, sid, s, "Scroll", h => Sdk.Scroll(h, direction, amount), outcome,
                     _ => "Scrolled " + direction + " by " + IntToString(amount))
  {
    Forward(reg, sid, "Scroll", h => Sdk.Scroll(h, direction, amount), outcome,
            _ => "Scrolled " + direction + " by " + IntToString(amount))
  }

  /** The confirmation echoes the whole text; only the log line is cut to 50 characters. */
  function TypeText(reg: Registry, text: string, sid: Option<string>, outcome: Outcome<()>): (s: Step<string>)
    ensures Forwards(reg, sid, s, "Type text", h => Sdk.Type(h, text), outcome, _ => "Typed: " + text)
  {
    Forward(reg, sid, "Type text", h => Sdk.Type(h, text), outcome, _ => "Typed: " + text)
  }

  function PressKey(reg: Registry, key: string, sid: Option<string>, outcome: Outcome<()>): (s: Step<string>)
    ensures Forwards(reg, sid, s, "Key press", h => Sdk.Key(h, key), outcome, _ => "Pressed key: " + key)
  {
    Forward(reg, sid, "Key press", h => Sdk.Key(h, key), outcome, _ => "Pressed key: " + key)
  }

  function Wait(reg: Registry, seconds: Seconds, sid: Option<string>, outcome: Outcome<()>): (s: Step<string>)
    ensures Forwards(reg, sid, s, "Wait", h => Sdk.Wait(h, seconds), outcome,
                     _ => "Waited for " + seconds.text + " seconds")
  {
    Forward(reg, sid, "Wait", h => Sdk.Wait(h, seconds), outcome, _ => "Waited for " + seconds.text + " seconds")
  }

  /** The command's output is returned as the SDK gave it. */
  function ExecuteBash(reg: Registry, command: string, sid: Option<string>, outcome: Outcome<string>): (s: Step<string>)
    ensures Forwards(reg, sid, s, "Bash command", h => Sdk.Bash(h, command), outcome, (out: string) => out)
  {
    Forward(reg, sid, "Bash command", h => Sdk.Bash(h, command), outcome, (out: string) => out)
  }

  function RestartComputer(reg: Registry, sid: Option<string>, outcome: Outcome<Payload>): (s: Step<Payload>)
    ensures Forwards(reg, sid, s, "Restart", h => Sdk.Restart(h), outcome, (p: Payload) => p)
  {
    Forward(reg, sid, "Restart", h => Sdk.Restart(h), outcome, (p: Payload) => p)
  }

  function GetStatus(reg: Registry, sid: Option<string>, outcome: Outcome<Payload>): (s: Step<Payload>)
    ensures Forwards(reg, sid, s, "Status check", h => Sdk.Status(h), outcome, (p: Payload) => p)
  {
    Forward(reg, sid, "Status check", h => Sdk.Status(h), outcome, (p: Payload) => p)
  }

  /** Python's truthiness of `screenshot_base64()`'s value: `None` and `""` are falsy. */
  predicate Truthy(image: Option<string>)
  {
    image.Some? && image.value != ""
  }

  /** The dictionary `get_screenshot` returns. */
  function ImageResult(image: string): Payload
  {
    Payload(map["image" := image])
  }

  /**
   `get_screenshot`: the fallback capture runs exactly when the primary
   capture returns a falsy value; a failure of either is re-raised.
   */
  function GetScreenshot(reg: Registry, sid: Option<string>,
                         primary: Outcome<Option<string>>, fallback: Outcome<string>): (s: Step<Payload>)
    ensures s.reg == reg
    ensures Normalize(sid) !in reg.handles ==> s.calls == [] && s.result == Failure(NoComputer(Normalize(sid)))
    ensures s.result.Success? ==> s.result.value.fields.Keys == {"image"}
    ensures Normalize(sid) in reg.handles ==>
      var h := reg.handles[Normalize(sid)];
      && |s.calls| >= 1 && s.calls[0] == ScreenshotBase64(h)
      && (|s.calls| == 2 <==> primary.Returned? && !Truthy(primary.value))
      && (|s.calls| == 2 ==> s.calls[1] == Screenshot(h))
      && |s.calls| <= 2
      && (primary.Raised? ==> s.result == Failure(ActionFailed("Screenshot", primary.message)))
      && (primary.Returned? && Truthy(primary.value) ==>
            s.result.Success? && s.result.value.fields["image"] == primary.value.value)
      && (primary.Returned? && !Truthy(primary.value) && fallback.Returned? ==>
            s.result.Success? && s.result.value.fields["image"] == fallback.value)
      && (primary.Returned? && !Truthy(primary.value) && fallback.Raised? ==>
            s.result == Failure(ActionFailed("Screenshot", fallback.message)))
  {
    match Get(reg, sid)
    case Failure(e) => Step(reg, [], Failure(e))
    case Success(h) =>
      match primary
      case Raised(m) => Step(reg, [ScreenshotBase64(h)], Failure(ActionFailed("Screenshot", m)))
      case Returned(image) =>
        if Truthy(image) then Step(reg, [ScreenshotBase64(h)], Success(ImageResult(image.value)))
        else
          var r := match fallback
            case Returned(encoded) => Success(ImageResult(encoded))
            case Raised(m) => Failure(ActionFailed("Screenshot", m));
          Step(reg, [ScreenshotBase64(h), Screenshot(h)], r)
  }

  /** `os.environ.get("ANTHROPIC_API_KEY")` is truthy: present and not empty. */
  predicate HasApiKey(env: map<string, string>)
  {
    ApiKeyVariable in env && env[ApiKeyVariable] != ""
  }

  /**
   `prompt`: the registry lookup comes first, then the API-key check for
   provider "anthropic", then the one SDK call.
   */
  function Prompt(reg: Registry, instruction: string, provider: string, model: string,
                  thinkingEnabled: bool, sid: Option<string>, env: map<string, string>,
                  outcome: Outcome<seq<Payload>>): (s: Step<PromptSummary>)
    ensures s.reg == reg
    ensures Normalize(sid) !in reg.handles ==> s.calls == [] && s.result == Failure(NoComputer(Normalize(sid)))
    ensures Normalize(sid) in reg.handles && provider == AnthropicProvider && !HasApiKey(env) ==>
      s.calls == [] && s.result == Failure(ApiKeyMissing)
    ensures Normalize(sid) in reg.handles && (provider != AnthropicProvider || HasApiKey(env)) ==>
      && s.calls == [Sdk.Prompt(reg.handles[Normalize(sid)], instruction, provider, model, thinkingEnabled)]
      && (outcome.Returned? ==> s.result == Success(PromptSummary(true, |outcome.value|, "Prompt executed successfully")))
      && (outcome.Raised? ==> s.result == Failure(ActionFailed("Prompt execution", outcome.message)))
  {
    match Get(reg, sid)
    case Failure(e) => Step(reg, [], Failure(e))
    case Success(h) =>
      if provider == AnthropicProvider && !HasApiKey(env) then Step(reg, [], Failure(ApiKeyMissing))
      else
        var r := match outcome
          case Returned(messages) => Success(PromptSummary(true, |messages|, "Prompt executed successfully"))
          case Raised(m) => Failure(ActionFailed("Prompt execution", m));
        Step(reg, [Sdk.Prompt(h, instruction, provider, model, thinkingEnabled)], r)
  }

  /**
   `initialize_computer`: the new handle is registered as soon as the
   constructor returns, before `status()` is asked for, so a failing
   `status()` leaves it registered.
   */
  function InitializeComputer(reg: Registry, projectId: Option<string>, sid: Option<string>,
                              baseApiUrl: Option<string>, config: Option<Payload>, sdkInstalled: bool,
                              construct: Outcome<Handle>, status: Outcome<Payload>): (s: Step<InitInfo>)
    requires Valid(reg)
    ensures Valid(s.reg)
    ensures !sdkInstalled ==> s == Step(reg, [], Failure(SdkNotInstalled))
    ensures sdkInstalled && construct.Raised? ==>
      && s.reg == reg
      && s.calls == [Construct(projectId, baseApiUrl, config)]
      && s.result == Failure(ActionFailed("Computer initialization", construct.message))
    ensures sdkInstalled && construct.Returned? ==>
      var k, h := Normalize(sid), construct.value;
      && k in s.reg.handles && s.reg.handles[k] == h
      && (forall j :: j != k ==> (j in s.reg.handles <==> j in reg.handles))
      && (forall j :: j != k && j in reg.handles ==> s.reg.handles[j] == reg.handles[j])
      && s.calls == [Construct(projectId, baseApiUrl, config), Status(h)]
      && (status.Returned? ==> s.result == Success(InitInfo(k, h.projectId, status.value)))
      && (status.Raised? ==> s.result == Failure(ActionFailed("Computer initialization", status.message)))
  {
    if !sdkInstalled then Step(reg, [], Failure(SdkNotInstalled))
    else
      var ctor := Construct(projectId, baseApiUrl, config);
      match construct
      case Raised(m) => Step(reg, [ctor], Failure(ActionFailed("Computer initialization", m)))
      case Returned(h) =>
        var (reg', k) := Add(reg, h, sid);
        var r := match status
          case Returned(st) => Success(InitInfo(k, h.projectId, st))
          case Raised(m) => Failure(ActionFailed("Computer initialization", m));
        Step(reg', [ctor, Status(h)], r)
  }

  /** The dictionary `shutdown_computer` returns when the SDK's `shutdown()` raises. */
  function RemovedResult(message: string): Payload
  {
    Payload(map["status" := RemovedStatus, "warning" := RemovedWarningPrefix + message])
  }

  /**
   `shutdown_computer`: an unregistered session raises the lookup error with
   no SDK call; a registered one is removed whether `shutdown()` succeeds or
   raises, and a raise becomes a "removed_from_registry" result.
   */
  function ShutdownComputer(reg: Registry, sid: Option<string>, outcome: Outcome<Payload>): (s: Step<Payload>)
    requires Valid(reg)
    ensures Valid(s.reg)
    ensures Normalize(sid) !in reg.handles ==> s == Step(reg, [], Failure(NoComputer(Normalize(sid))))
    ensures Normalize(sid) in reg.handles ==>
      var k := Normalize(sid);
      && k !in s.reg.handles
      && (forall j :: j != k ==> (j in s.reg.handles <==> j in reg.handles))
      && (forall j :: j != k && j in reg.handles ==> s.reg.handles[j] == reg.handles[j])
      && s.calls == [Sdk.Shutdown(reg.handles[k])]
      && s.result.Success?
      && (outcome.Returned? ==> s.result.value == outcome.value)
      && (outcome.Raised? ==>
            && s.result.value.fields.Keys == {"status", "warning"}
            && s.result.value.fields["status"] == RemovedStatus
            && s.result.value.fields["warning"] == RemovedWarningPrefix + outcome.message)
  {
    match Get(reg, sid)
    case Failure(e) => Step(reg, [], Failure(e))
    case Success(h) =>
      var (reg', _) := Remove(reg, sid);
      match outcome
      case Returned(result) => Step(reg', [Sdk.Shutdown(h)], Success(result))
      case Raised(m) => Step(reg', [Sdk.Shutdown(h)], Success(RemovedResult(m)))
  }

  /** The `list_sessions` tool: every registered session, nothing changed, no SDK call. */
  function ListSessionsTool(reg: Registry): (s: Step<seq<string>>)
    requires Valid(reg)
    ensures s.reg == reg && s.calls == []
    ensures s.result.Success?
    ensures forall k :: k in s.result.value <==> k in reg.handles
    ensures |s.result.value| == |reg.handles|
  {
    Step(reg, [], Success(ListSessions(reg)))
  }

  /** The `computer://server/info` resource. */
  function Info(reg: Registry): (i: ServerInfo)
    requires Valid(reg)
    ensures i.activeSessions == |reg.handles| == |ListSessions(reg)|
    ensures i.version == "1.0.0"
  {
    ServerInfo("Computer MCP", "MCP interface for controlling virtual computers", "1.0.0", |reg.handles|)
  }
}
