# Orgo MCP session registry and tools, in Dafny

This project models the core of the Computer MCP server (`server.py`): the
in-memory `ComputerRegistry` that maps a session id to a virtual-computer
handle, and the way each MCP tool reads and changes that table around its one
call into the Orgo SDK.

- `wrappers.dfy` (`Wrappers`): `Option` for Python's `Optional[...]` arguments,
  `Result` for "returns a value or raises".
- `sdk.dfy` (`Sdk`): the SDK reduced to what the server observes. A `Handle`
  stands for a `Computer` object, with its `project_id` and its Python
  truthiness. A `Call` records one SDK call and the arguments passed to it. An
  `Outcome` is what that call did: it returned a value, or it raised with a
  message.
- `errors.dfy` (`Errors`): the `ValueError`s the server raises, sorted by
  cause, and their exact message text.
- `decimal.dfy` (`Decimal`): Python's `str()` of an `int`, which renders the
  coordinates and amounts in confirmation texts, and a parser that inverts it.
- `sessions.dfy` (`Sessions`): `ComputerRegistry`. A Python `dict` keeps its
  keys in insertion order, and `list_sessions` returns them in that order. So
  the registry is a map plus the insertion order of its keys. `Valid` is the
  dict's own invariant: each key appears once, and the order holds exactly
  the map's keys. `Empty` is valid, and every operation keeps it valid.
- `tools.dfy` (`Tools`): one function per tool. Each takes the registry, the
  tool's arguments and the outcome of every SDK call the tool may make. It
  returns a `Step`: the registry afterwards, the SDK calls made in order, and
  the tool's result or error. Because the calls are recorded, the contracts
  can state when a tool fails *before* touching the SDK.
- `server.dfy` (`Server`): a request names a tool together with its SDK
  outcomes. `Apply` serves one request and `Run` serves a sequence of them.
  The lemmas here span several calls: only initialize and shutdown change
  the table, and `list_sessions` reflects it after any run.

Points where the code's behaviour is easy to misread; the model follows the code:

- `remove` returns `bool()` of the popped handle, not whether the key was
  present. An absent key gives `false`. A present key gives the handle's
  truthiness.
- A missing Anthropic API key raises "Anthropic API key required but not
  provided". This happens outside the `try`, so the message is not of the
  form "<action> failed: ...".
- The lookup error is an ordinary `ValueError` whose message names the
  normalised session id. `None` and `""` both normalise to `"default"`.
- A failure of the screenshot fallback path is caught by the same `try`. It
  is re-raised as "Screenshot failed: ...".

## Model

| member | source | states |
|---|---|---|
| Sessions.Normalize | server.py:39-40 | `None` and `""` become `"default"`; any other id is kept as is; the key is never empty |
| Sessions.NormalizeIdempotent | server.py:40 | normalising an already normalised id changes nothing |
| Sessions.Get | server.py:39-43 | succeeds exactly when the normalised key is registered, returning its handle; otherwise raises the lookup error naming that key |
| Sessions.Add | server.py:45-48 | stores the handle under the normalised key and returns that key; every other entry is unchanged; a new key goes to the end of the insertion order and an existing key keeps its place |
| Sessions.Remove | server.py:50-52 | the normalised key is absent afterwards and all other entries are unchanged; an absent key gives `false` and an unchanged table; a present key gives the removed handle's truthiness |
| Sessions.ListSessions | server.py:54-55 | lists every registered session exactly once and nothing else; its length is the number of entries |
| Sessions.GetAfterAdd | server.py:39-48 | after `add`, `get` of the same normalised key returns the new handle (last write wins) and `get` of any other key is unaffected |
| Sessions.GetAfterRemove | server.py:39-52 | after `remove`, `get` of that session raises the lookup error naming it |
| Sessions.AddIdempotent | server.py:45-48 | adding the same handle twice under one session is the same as adding it once, insertion order included |
| Sessions.ListAfterAdd | server.py:45-55 | `list_sessions` after `add` lists a new session last and leaves an overwritten one in its place |
| Sessions.ListAfterRemove | server.py:50-55 | `remove` keeps the relative order of every other listed session |
| Sessions.RemoveUndoesAdd | server.py:45-52 | removing a session that was just added, and not registered before, gives back the original table, insertion order included |
| Errors.NotFoundNamesSession | server.py:42 | the lookup error's message can be read back to the exact session id that was looked up |
| Errors.ActionFailedNamesActionAndDetail | server.py:137-140 | a "<action> failed: <message>" error reads back to exactly the action and the SDK's message, for any action name without a colon |
| Tools.ToolFailureReadsBack | server.py:97-100 | for every action name the tools use, the failure message reads back to that action and the SDK's message |
| Decimal.IntRoundTrip | server.py:136 | the decimal rendering of an integer, including negative ones, parses back to the same integer |
| Tools.ClickTextNamesCoordinates | server.py:136 | two click confirmations with the same wording are equal only when their coordinates are equal |
| Tools.Forward | server.py:130-140 | the shared tool shape: the table is unchanged; an unregistered session raises the lookup error with no SDK call; a registered one gets exactly one call on its handle and returns its value or raises "<action> failed: <message>" |
| Tools.LeftClick | server.py:127-140 | the shared shape, with call `left_click(x, y)`, action "Left-click" and result "Left-clicked at (x, y)" |
| Tools.RightClick | server.py:142-155 | the shared shape, with call `right_click(x, y)`, action "Right-click" and result "Right-clicked at (x, y)" |
| Tools.DoubleClick | server.py:157-170 | the shared shape, with call `double_click(x, y)`, action "Double-click" and result "Double-clicked at (x, y)" |
| Tools.Scroll | server.py:172-185 | the shared shape, with call `scroll(direction, amount)`, action "Scroll" and result "Scrolled <direction> by <amount>" |
| Tools.TypeText | server.py:187-200 | the shared shape, with call `type(text)`, action "Type text" and a result that echoes the whole text |
| Tools.PressKey | server.py:202-215 | the shared shape, with call `key(key)`, action "Key press" and result "Pressed key: <key>" |
| Tools.Wait | server.py:217-230 | the shared shape, with call `wait(seconds)` passing the seconds unchanged, action "Wait" and result "Waited for <seconds> seconds" |
| Tools.ExecuteBash | server.py:232-245 | the shared shape, with call `bash(command)`, action "Bash command" and the command's output returned unchanged |
| Tools.RestartComputer | server.py:247-260 | the shared shape, with call `restart()`, action "Restart" and the SDK's result returned unchanged |
| Tools.GetStatus | server.py:281-294 | the shared shape, with call `status()`, action "Status check" and the SDK's status returned unchanged |
| Tools.GetScreenshot | server.py:102-125 | the table is unchanged; an unregistered session raises with no SDK call; the result is the dictionary `{"image": ...}` holding the primary image when it is truthy; the fallback capture is called exactly when the primary capture returns `None` or `""`, and its image is then the one returned; a failure of either capture raises "Screenshot failed: ..." |
| Tools.Prompt | server.py:310-343 | the table is unchanged; the lookup error comes first; then provider "anthropic" without a non-empty key raises with no SDK call; otherwise exactly one `prompt` call, whose message count is the length of the SDK's result |
| Tools.InitializeComputer | server.py:60-100 | with the SDK missing, raises "Orgo SDK not installed" and changes nothing; a failing constructor changes nothing; once the constructor returns, its handle is registered under the normalised key (others unchanged) before `status()`, and stays registered when `status()` raises "Computer initialization failed: ..." |
| Tools.ShutdownComputer | server.py:262-279 | an unregistered session raises the lookup error with no SDK call; a registered one is removed whether `shutdown()` returns or raises, others are unchanged; a raise becomes a result with status "removed_from_registry" and a warning carrying the SDK's message |
| Tools.ListSessionsTool | server.py:296-308 | returns every registered session, with no SDK call and no change to the table |
| Tools.Info | server.py:346-354 | `active_sessions` equals the number of entries, which is the length of `list_sessions`; version "1.0.0" |
| Server.Apply | server.py:60-343 | every tool keeps the table well formed; only initialize and shutdown change it; a session gains or changes its handle only by initialize on that session, and loses it only by shutdown on that session |
| Server.Run | server.py:57 | the process-wide table stays well formed over any sequence of tool calls |
| Server.ReadOnlyRunKeepsRegistry | server.py:102-343 | any sequence of tool calls other than initialize and shutdown leaves the table exactly as it was |
| Server.OnlyInitializeRegisters | server.py:79-100 | over a run with no initialize naming a session, that session is never added and its handle never changes |
| Server.OnlyShutdownUnregisters | server.py:262-279 | over a run with no shutdown naming a session, a registered session stays registered (no expiry, no other removal) |
| Server.ShutdownThenClickFails | server.py:262-279 | after shutdown, whether or not the SDK raised, a click on the same session raises the lookup error and makes no SDK call |
| Server.ListAfterRun | server.py:296-308 | after any run, `list_sessions` reports exactly the registered sessions, each once |
| Server.LeftClickExample | server.py:127-140 | register handle A under "s1", then left-click (10, 20) on "s1": the SDK receives `left_click(10, 20)` on A and the result is "Left-clicked at (10, 20)" |

## Left out

- The Orgo SDK itself (the `Computer` constructor, clicking, typing, screenshots, bash, restart, shutdown, AI prompting). These are network calls into foreign code. Each call is an abstract `Outcome` parameter: a returned value or a raised message.
- The JPEG/base64 encoding of the screenshot fallback (`BytesIO`, `b64encode`) needs an external image object. The whole fallback is one abstract outcome. The model only records that it runs exactly when the primary result is falsy.
- `ctx.info`, `ctx.warning`, `ctx.error`, `logger.warning`, the `logging` setup and `load_dotenv` are logging side channels. So is the 50- and 100-character truncation of log previews. The process environment is the `env` parameter of `Tools.Prompt`.
- `wait`'s `seconds` is a Python `float`. The model represents it by the text `str()` gives it and passes it to the SDK unchanged. Float values are not modelled.
- The SDK's dictionaries (status, restart and shutdown results, prompt messages) are maps from string to string. Their values can be any Python object in the source.
- Whether the SDK can be imported is the `sdkInstalled` flag of `Tools.InitializeComputer`.
- Tool argument defaults (scroll "down" by 1; provider "anthropic"; model "claude-3-7-sonnet-20250219"; thinking off) are applied by the MCP framework. The callers in the model always pass every argument.
- `list_sessions` has an `except` branch raising "Failed to list sessions: ...". Listing a dict's keys cannot raise, so the branch is not modelled.
- Concurrency: the tools are `async`, but each one is modelled as running alone from start to finish.
- The FastMCP server wiring and `mcp.run`, the unused `ComputerConfig` model, and the static `desktop_guidelines` text are not modelled. None of them touches the registry.
- `client.py` is a network client that only lists tools. It is not part of this model.
