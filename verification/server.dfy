/**
 The server as a state machine over the registry: one request is one tool
 invocation together with the outcomes its SDK calls will have.
 */
module Server {
  import opened Wrappers
  import opened Sdk
  import opened Errors
  import Sessions
  import Tools
  import Decimal

  datatype Request =
    | InitializeComputer(projectId: Option<string>, sid: Option<string>, baseApiUrl: Option<string>,
                         config: Option<Payload>, sdkInstalled: bool,
                         construct: Outcome<Handle>, status: Outcome<Payload>)
    | GetScreenshot(sid: Option<string>, primary: Outcome<Option<string>>, fallback: Outcome<string>)
    | LeftClick(x: int, y: int, sid: Option<string>, done: Outcome<()>)
    | RightClick(x: int, y: int, sid: Option<string>, done: Outcome<()>)
    | DoubleClick(x: int, y: int, sid: Option<string>, done: Outcome<()>)
    | Scroll(direction: string, amount: int, sid: Option<string>, done: Outcome<()>)
    | TypeText(text: string, sid: Option<string>, done: Outcome<()>)
    | PressKey(key: string, sid: Option<string>, done: Outcome<()>)
    | Wait(seconds: Seconds, sid: Option<string>, done: Outcome<()>)
    | ExecuteBash(command: string, sid: Option<string>, output: Outcome<string>)
    | RestartComputer(sid: Option<string>, result: Outcome<Payload>)
    | ShutdownComputer(sid: Option<string>, result: Outcome<Payload>)
    | GetStatus(sid: Option<string>, result: Outcome<Payload>)
    | ListSessions
    | Prompt(instruction: string, provider: string, model: string, thinkingEnabled: bool,
             sid: Option<string>, env: map<string, string>, messages: Outcome<seq<Payload>>)

  datatype Response =
    | Text(text: string)
    | Initialized(info: Tools.InitInfo)
    | Dict(payload: Payload)
    | SessionList(ids: seq<string>)
    | Summary(summary: Tools.PromptSummary)

  function Lift<T>(s: Tools.Step<T>, wrap: T -> Response): (s': Tools.Step<Response>)
    ensures s'.reg == s.reg && s'.calls == s.calls
    ensures s'.result.Success? <==> s.result.Success?
    ensures s.result.Failure? ==> s'.result.error == s.result.error
  {
    match s.result
    case Success(v) => Tools.Step(s.reg, s.calls, Success(wrap(v)))
    case Failure(e) => Tools.Step(s.reg, s.calls, Failure(e))
  }

  /** The tools that change the registry. */
  predicate Mutates(req: Request)
  {
    req.InitializeComputer? || req.ShutdownComputer?
  }

  /** Dispatches one request to its tool. */
  function Apply(reg: Sessions.Registry, req: Request): (s: Tools.Step<Response>)
    requires Sessions.Valid(reg)
    ensures Sessions.Valid(s.reg)
    ensures !Mutates(req) ==> s.reg == reg
    ensures forall k :: k in s.reg.handles && (k !in reg.handles || s.reg.handles[k] != reg.handles[k]) ==>
              req.InitializeComputer? && Sessions.Normalize(req.sid) == k
    ensures forall k :: k in reg.handles && k !in s.reg.handles ==>
              req.ShutdownComputer? && Sessions.Normalize(req.sid) == k
  {
    match req
    case InitializeComputer(p, sid, url, cfg, ok, c, st) =>
      Lift(Tools.InitializeComputer(reg, p, sid, url, cfg, ok, c, st), (i: Tools.InitInfo) => Initialized(i))
    case GetScreenshot(sid, p, f) => Lift(Tools.GetScreenshot(reg, sid, p, f), (image: Payload) => Dict(image))
    case LeftClick(x, y, sid, o) => Lift(Tools.LeftClick(reg, x, y, sid, o), (t: string) => Text(t))
    case RightClick(x, y, sid, o) => Lift(Tools.RightClick(reg, x, y, sid, o), (t: string) => Text(t))
    case DoubleClick(x, y, sid, o) => Lift(Tools.DoubleClick(reg, x, y, sid, o), (t: string) => Text(t))
    case Scroll(d, n, sid, o) => Lift(Tools.Scroll(reg, d, n, sid, o), (t: string) => Text(t))
    case TypeText(t, sid, o) => Lift(Tools.TypeText(reg, t, sid, o), (t: string) => Text(t))
    case PressKey(k, sid, o) => Lift(Tools.PressKey(reg, k, sid, o), (t: string) => Text(t))
    case Wait(secs, sid, o) => Lift(Tools.Wait(reg, secs, sid, o), (t: string) => Text(t))
    case ExecuteBash(c, sid, o) => Lift(Tools.ExecuteBash(reg, c, sid, o), (t: string) => Text(t))
    case RestartComputer(sid, o) => Lift(Tools.RestartComputer(reg, sid, o), (p: Payload) => Dict(p))
    case ShutdownComputer(sid, o) => Lift(Tools.ShutdownComputer(reg, sid, o), (p: Payload) => Dict(p))
    case GetStatus(sid, o) => Lift(Tools.GetStatus(reg, sid, o), (p: Payload) => Dict(p))
    case ListSessions => Lift(Tools.ListSessionsTool(reg), (ids: seq<string>) => SessionList(ids))
    case Prompt(i, p, m, t, sid, env, o) =>
      Lift(Tools.Prompt(reg, i, p, m, t, sid, env, o), (r: Tools.PromptSummary) => Summary(r))
  }

  /** The registry after serving `reqs` one after another. */
  function Run(reg: Sessions.Registry, reqs: seq<Request>): (r: Sessions.Registry)
    requires Sessions.Valid(reg)
    ensures Sessions.Valid(r)
    decreases |reqs|
  {
    if |reqs| == 0 then reg else Run(Apply(reg, reqs[0]).reg, reqs[1..])
  }

  /** Requests other than initialize and shutdown never change the registry. */
  lemma {:induction false} ReadOnlyRunKeepsRegistry(reg: Sessions.Registry, reqs: seq<Request>)
    requires Sessions.Valid(reg)
    requires forall i :: 0 <= i < |reqs| ==> !Mutates(reqs[i])
    ensures Run(reg, reqs) == reg
    decreases |reqs|
  {
    if |reqs| > 0 {
      ReadOnlyRunKeepsRegistry(reg, reqs[1..]);
    }
  }

  /** A session stays registered until a shutdown names it. */
  lemma {:induction false} OnlyShutdownUnregisters(reg: Sessions.Registry, reqs: seq<Request>, k: string)
    requires Sessions.Valid(reg)
    requires forall i :: 0 <= i < |reqs| ==> !(reqs[i].ShutdownComputer? && Sessions.Normalize(reqs[i].sid) == k)
    ensures k in reg.handles ==> k in Run(reg, reqs).handles
    decreases |reqs|
  {
    if |reqs| > 0 {
      OnlyShutdownUnregisters(Apply(reg, reqs[0]).reg, reqs[1..], k);
    }
  }

  /** Without an initialize naming `k`, a run never adds `k` nor changes its handle. */
  lemma {:induction false} OnlyInitializeRegisters(reg: Sessions.Registry, reqs: seq<Request>, k: string)
    requires Sessions.Valid(reg)
    requires forall i :: 0 <= i < |reqs| ==> !(reqs[i].InitializeComputer? && Sessions.Normalize(reqs[i].sid) == k)
    ensures k in Run(reg, reqs).handles ==> k in reg.handles && Run(reg, reqs).handles[k] == reg.handles[k]
    decreases |reqs|
  {
    if |reqs| > 0 {
      OnlyInitializeRegisters(Apply(reg, reqs[0]).reg, reqs[1..], k);
    }
  }

  /** After a shutdown, whether or not the SDK raised, a later click on that session fails at lookup. */
  lemma ShutdownThenClickFails(reg: Sessions.Registry, sid: Option<string>, result: Outcome<Payload>,
                               x: int, y: int, done: Outcome<()>)
    requires Sessions.Valid(reg)
    ensures var after := Apply(reg, ShutdownComputer(sid, result)).reg;
      var s := Apply(after, Request.LeftClick(x, y, sid, done));
      s.calls == [] && s.result == Failure(NoComputer(Sessions.Normalize(sid)))
  {
    var after := Apply(reg, ShutdownComputer(sid, result)).reg;
    assert after == Tools.ShutdownComputer(reg, sid, result).reg;
    assert Sessions.Normalize(sid) !in after.handles;
    var click := Tools.LeftClick(after, x, y, sid, done);
    assert Apply(after, Request.LeftClick(x, y, sid, done)) == Lift(click, (t: string) => Text(t));
  }

  /** `list_sessions` after any run reports exactly the registered sessions, each once. */
  lemma ListAfterRun(reg: Sessions.Registry, reqs: seq<Request>)
    requires Sessions.Valid(reg)
    ensures var after := Run(reg, reqs);
      var s := Apply(after, ListSessions);
      && s.result.Success?
      && s.result.value.SessionList?
      && Sessions.Distinct(s.result.value.ids)
      && (forall k :: k in s.result.value.ids <==> k in after.handles)
  {
  }

  /** Registering a handle under "s1" and left-clicking (10, 20) there. */
  lemma LeftClickExample(a: Handle, status: Outcome<Payload>)
    ensures var init := Apply(Sessions.Empty, InitializeComputer(None, Some("s1"), None, None, true, Returned(a), status));
      var click := Apply(init.reg, Request.LeftClick(10, 20, Some("s1"), Returned(())));
      && click.calls == [Sdk.LeftClick(a, 10, 20)]
      && click.result == Success(Text("Left-clicked at (10, 20)"))
  {
    var init := Apply(Sessions.Empty, InitializeComputer(None, Some("s1"), None, None, true, Returned(a), status));
    assert "s1" in init.reg.handles && init.reg.handles["s1"] == a;
    assert Decimal.NatToString(1) == "1" && Decimal.NatToString(2) == "2";
    assert Decimal.IntToString(10) == "10" && Decimal.IntToString(20) == "20";
    var click := Tools.LeftClick(init.reg, 10, 20, Some("s1"), Returned(()));
    assert click.result == Success(Tools.ClickText("Left-clicked", 10, 20));
    assert Tools.ClickText("Left-clicked", 10, 20) == "Left-clicked at (10, 20)";
  }
}
