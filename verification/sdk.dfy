/**
 The external virtual-computer SDK, reduced to what the server can observe:
 opaque handles, the calls made on them, and the outcome of each call.
 */
module Sdk {
  import opened Wrappers

  /** A `Computer` object. `ref` tells handles apart; `truthy` is what
      Python's `bool()` makes of the object. */
  datatype Handle = Handle(ref: nat, projectId: Option<string>, truthy: bool)

  /** A dictionary returned by the SDK (status, restart and shutdown results). */
  datatype Payload = Payload(fields: map<string, string>)

  /** A `float` number of seconds, represented by the text Python's `str()` gives it. */
  datatype Seconds = Seconds(text: string)

  /** What one SDK call did: it returned a value, or it raised with a message. */
  datatype Outcome<+T> = Returned(value: T) | Raised(message: string)

  /** One call the server makes into the SDK, with the arguments it passes. */
  datatype Call =
    | Construct(projectId: Option<string>, baseApiUrl: Option<string>, config: Option<Payload>)
    | Status(h: Handle)
    | ScreenshotBase64(h: Handle)
    | Screenshot(h: Handle)
    | LeftClick(h: Handle, x: int, y: int)
    | RightClick(h: Handle, x: int, y: int)
    | DoubleClick(h: Handle, x: int, y: int)
    | Scroll(h: Handle, direction: string, amount: int)
    | Type(h: Handle, text: string)
    | Key(h: Handle, key: string)
    | Wait(h: Handle, seconds: Seconds)
    | Bash(h: Handle, command: string)
    | Restart(h: Handle)
    | Shutdown(h: Handle)
    | Prompt(h: Handle, instruction: string, provider: string, model: string, thinkingEnabled: bool)
}
