# zeegat, the OCPP-J 1.6 dispatch core, in Dafny

zeegat is a small Python framework for the central-system side of OCPP-J
1.6 (the JSON-over-WebSocket binding of the Open Charge Point Protocol).
A received frame holds a message. `unpack` turns it into a Call
(`[2, uniqueId, action, payload]`). A composition of Services answers
that Call with a CallResult (`[3, uniqueId, payload]`) or a CallError
(`[4, uniqueId, errorCode, errorDescription, errorDetails]`). The four
Services are:

- `log`: records each frame and the response it got.
- `timeout`: replaces a late answer by an `InternalError`.
- `route`: dispatches on the Call's action. An OCPP error it or its
  delegate raises becomes the Call's CallError.
- `handler`: turns a plain function into a Service. To call the function,
  it resolves the function's annotated parameters to values extracted
  from the frame. `inject(**overrides)` supplies extra values by name.

This project models that core and proves what it promises:

- Module `JsonData` (`json.dfy`): the decoded JSON values, and the
  renderings that Python's error messages insert.
- Module `Messages` (`messages.dfy`): `unpack`, the three message kinds,
  `create_call_result`, `create_call_error` and `into_response`. Raising
  is the datatype `Outcome`: a value, an `OCPPError`, or any other
  exception with its class (`ErrorClass`) and message.
- Module `Frames` (`frame.py`'s `Frame`, in `frame.dfy`): the immutable
  frame holder.
- Module `Injection` (`injection.dfy`): `_inject_dependencies` and
  `inject`. The closure they return is the class `Injected`. Its dictionary
  `_kwargs` is a field that invocations overwrite in place, as the Python
  code does.
- Module `Services` (`services.dfy`):
  - `log`, `timeout`, `route` and `handler`.
  - `route`'s table is the mutable `Router.routes`.
  - `Serve` is one call of a composed Service. It is proved against the
    reference evaluation `Eval`, and it changes only the `_kwargs` of the
    closure chain the frame reaches (`Reached`).
- Module `Csms` (`csms.dfy`): the example application of `bin/csms.py`.
  It is assembled from these Services and proved on three frames, all as
  stated in `Csms.Session`:
  - the first Heartbeat is answered with the time;
  - the second Heartbeat fails (see Findings);
  - a status notification that outlives its timeout is answered with an
    `InternalError` CallError.

Choices made for the Python runtime:

- The frame's payload is modelled as the JSON value `json.loads` decodes
  from it.
- Each way `msg[0]` fails in Python is kept:
  - an empty list or an empty string raises an IndexError;
  - an object raises KeyError 0;
  - a scalar raises a TypeError;
  - a non-empty string has its first character compared with 2.
- In `Call(*msg[1:])`, a wrong number of fields raises a TypeError.
  Nothing about the fields' types is checked.
- Route lookup depends on the kind of action:
  - a string action is looked up in the table;
  - any other hashable action misses (the table's keys are strings) and
    is answered `NotSupported`;
  - a list or object action raises TypeError (unhashable).
- Annotations are either postponed (strings, because the handler's module
  uses `from __future__ import annotations`) or evaluated (classes).
  - A postponed annotation is looked up by name in the function's globals.
  - An evaluated one is never found there. That is why, of evaluated
    annotations, only `Frame` resolves, through the `type_hint.annotation
    != Frame` escape at services.py:144-147. This is the case that occurs
    when `_inject_dependencies` wraps its own closure.
- The error codes (`NotSupported`, `InternalError`) and their descriptions
  are those of section 4.2.3 of OCPP-J 1.6.
- Time is abstract. `ticks(s)` says how long Service `s` takes on the
  frame. `timeout` lets the inner call finish exactly when the interval
  is positive and `ticks <= interval` (`InTime`).
- `asyncio.wait_for` with an interval of zero or less cancels the inner
  call before it starts and raises `TimeoutError`. So `timeout(0, s)`
  always answers its `InternalError`: `s` never runs, logs nothing and
  changes no `_kwargs`.
- `except asyncio.TimeoutError` catches `TimeoutError` and the classes
  derived from it. An inner call that raises such an exception in time
  is answered like a late one.
- The `ocpp` class is `NotSupportedError`; the code it carries on the
  wire is `NotSupported`, and the model follows that code.

## Model

| member | source | states |
|---|---|---|
| Messages.Unpack | zeegat/messages.py:9-20 | A message is accepted iff it is a 4-element list tagged 2, and then its fields bind positionally to the Call. Another tag raises the `Exception` "unsupported message type" naming the tag. Tag 2 with the wrong arity raises a TypeError naming the missing fields or counting the arguments. An empty list or string raises IndexError, an object KeyError, a scalar TypeError. An OCPP error is never raised. |
| Messages.UnpackRoundTrip | zeegat/messages.py:9-16 | Every accepted message is exactly the list form of the Call it unpacks to: `unpack` and `into_response` are inverse. |
| Messages.Call.IntoResponse | zeegat/messages.py:28-29 | The list form of a Call unpacks back to that Call. |
| Messages.Call.CreateCallResult | zeegat/messages.py:31-32 | The result carries the Call's unique id and the given payload. |
| Messages.Call.CreateCallError | zeegat/messages.py:34-49 | The unique id is echoed. An `OCPPError` is copied field by field. Any other exception becomes the fixed triple InternalError / "An unexpected error occurred." / `{}`. |
| Messages.CallResult.IntoResponse | zeegat/messages.py:52-54 | The list form decodes, under tag 3, back to the same CallResult. |
| Messages.CallError.IntoResponse | zeegat/messages.py:57-59 | The list form decodes, under tag 4, back to the same CallError. |
| Messages.Response.IntoResponse | zeegat/messages.py:52-59 | Either answer's list form decodes back to it. |
| Messages.AnswersEchoUniqueId | zeegat/messages.py:31-49 | Both answers to an unpacked Call carry the message's own unique id in element 1, under tags 3 and 4. |
| Messages.OtherExceptionsIndistinguishable | zeegat/messages.py:34-49 | Two non-OCPP exceptions give the same CallError, whatever their classes and messages: nothing of them reaches the wire. |
| Messages.IsTimeoutError | zeegat/services.py:42 | Holds exactly for the classes `except asyncio.TimeoutError` catches: `TimeoutError` and every class derived from it. |
| Frames.Frame.AsCall | zeegat/frame.py:8-9 | `as_call` succeeds exactly on a 4-element list tagged 2, and then the stored payload is the Call's list form. It never raises an OCPP error. |
| Frames.Frame.AsBytes | zeegat/frame.py:11-12 | The payload given to the constructor is returned unchanged. |
| Frames.Frame.FromFrame | zeegat/frame.py:14-16 | `Frame.from_frame` hands back a frame with the same payload. |
| Frames.CallFromFrame | zeegat/messages.py:24-26 | `Call.from_frame(frame)` is `unpack` of the frame's payload. |
| Frames.AsCallDeterministic | zeegat/frame.py:4-9 | Frames with equal payloads unpack alike, every time. |
| Injection.ConcreteType | zeegat/services.py:133-147 | A postponed annotation resolves iff its name is in the globals, to the bound type. An evaluated annotation resolves iff it is `Frame`. |
| Injection.ExtractorOf | zeegat/services.py:149-152 | A resolved type has no extractor iff it is neither Call nor Frame and lacks `from_frame`. |
| Injection.ResolveParam | zeegat/services.py:124-152 | For one parameter, the checks come in the source's order: a named override wins before any check; then a missing annotation is `MissingTypeHintError`; then a name not in the globals is "type not in scope"; then a type without `from_frame` is `UnsupportedTypeError`, naming the type. |
| Injection.Resolve | zeegat/services.py:123-152 | The loop over the signature, in declaration order: one extractor per parameter, or the first parameter's error. `ResolveSucceeds`, `ResolveFailsAtFirst` and `ResolveFailureHasFirstCause` state both directions. |
| Injection.InjectError.Message | zeegat/services.py:189-205 | The `str()` of the resolution errors: `MissingTypeHintError` and `UnsupportedTypeError` name the argument and the callable `module.name()`, and the latter the type; the scope miss of line 145 is "type not in scope". |
| Injection.ResolveSucceeds | zeegat/services.py:123-152 | A signature resolves iff every parameter does. The extractors are then the parameters' own, one per parameter, in declaration order. |
| Injection.ResolveFailsAtFirst | zeegat/services.py:123-152 | If every parameter before `k` resolves and parameter `k` does not, the whole signature fails with parameter `k`'s error, whatever follows it. |
| Injection.ResolveFailureHasFirstCause | zeegat/services.py:123-152 | Conversely, every failure is the error of a first failing parameter. |
| Injection.ResolvePrefixFailure | zeegat/services.py:123-152 | When a prefix of the signature fails, the whole signature fails with the same error. |
| Injection.InjectDependencies | zeegat/services.py:115-161 | The loop fails iff resolution fails, with the same error. On success the closure is new and well formed, holds `fn` and the resolved extractors, and every `_kwargs` entry still holds its extractor. |
| Injection.Inject | zeegat/services.py:164-182 | `inject(**overrides)(fn)` fails iff resolving `fn` with those overrides fails, with the same error. On success the closure is new and well formed, holds `fn` and the resolved extractors (an override's own function for each overridden name), and every entry still holds its extractor. |
| Injection.ApplyExtractor | zeegat/services.py:150 | `Frame.from_frame` yields the frame. `Call.from_frame` yields the unpacked Call, or raises what `unpack` raises. Another type's `from_frame`, and an override, give what that function gives. |
| Injection.ApplySlot | zeegat/services.py:155-156 | An entry still holding its extractor applies it. An entry already holding a value raises the TypeError "'T' object is not callable" naming the value's type. |
| Injection.Extract | zeegat/services.py:155-156 | The state of `_kwargs` after the loop has as many entries as before. A completed loop yields one value per entry. |
| Injection.ExtractFills | zeegat/services.py:155-156 | After a completed loop, every entry holds the value its callable returned, in order. |
| Injection.ExtractStops | zeegat/services.py:155-156 | The loop stops at the first raising entry, with that entry's exception. Earlier entries are already overwritten; that entry and the later ones are untouched. It completes iff no entry raises. |
| Injection.SecondInvocationRaises | zeegat/services.py:154-158 | After one completed invocation with at least one parameter, a second invocation on any frame raises the TypeError saying that the first value stored is not callable. |
| Injection.ExtractFresh | zeegat/services.py:102-104 | The corrected extraction: every extractor is applied to the frame, in order, without writing back; the first exception stops it. `ExtractFreshAgrees` ties it to the loop as written. |
| Injection.ExtractFreshAgrees | zeegat/services.py:155-156 | On entries not yet overwritten, the loop computes what a fresh, non-overwriting extraction computes. |
| Injection.Kwargs | zeegat/services.py:158 | The keyword arguments have exactly the parameter names as keys, and the last name maps to the last value. |
| Injection.KwargsByName | zeegat/services.py:155-158 | When the names are distinct, as a signature's are, each value is passed under its own parameter's name. |
| Injection.Injected.constructor | zeegat/services.py:122-161 | The new closure is well formed, owns itself and the closures `fn` already wrapped, and every entry holds its extractor. |
| Injection.Injected.CallFresh | zeegat/services.py:154-158 | As corrected: an extraction failure propagates, and otherwise the function is called with the freshly extracted values by name. A wrapped closure is invoked with the frame value. |
| Injection.Injected.AsWrittenWhenPristine | zeegat/services.py:154-158 | On a closure chain never invoked, the code as written answers what the corrected closure answers. |
| Injection.Injected.AsWritten | zeegat/services.py:154-158 | The reference answer of `from_frame` as written: the loop over the current `_kwargs`, then the function on the values, or the wrapped closure on the frame value. `Invoke` returns it. |
| Injection.Injected.Invoke | zeegat/services.py:154-158 | As written: the answer is the reference `AsWritten` of the state before the call. `_kwargs` becomes the loop's result. On a failed loop no wrapped closure changes. On a never-invoked chain the answer is `CallFresh`. |
| Injection.Injected.Overwrite | zeegat/services.py:155-156 | The in-place loop leaves `_kwargs` and its result exactly as `Extract` specifies. |
| Services.NotSupportedError | zeegat/services.py:76-80 | The error carries the `NotSupported` code and the given details. |
| Services.InternalError | zeegat/services.py:43-47 | The error carries the `InternalError` code and the given details. |
| Services.LogCall | zeegat/services.py:23-26 | The inner outcome is returned unchanged. Exactly one record (payload, response) is emitted iff the inner call returned; none is emitted when it raised. |
| Services.TimedOut | zeegat/services.py:42-47 | Once `wait_for` gives up, the answer is `InternalError` with cause "Handler for action X timed out.", or whatever unpacking the frame raises. |
| Services.InTime | zeegat/services.py:41-42 | `wait_for` lets the inner call finish exactly when the interval is positive and not exceeded. |
| Services.TimeoutCall | zeegat/services.py:39-49 | An inner call finished in time passes through, returned or raised, unless it raised a `TimeoutError`. A late inner call, one under a non-positive interval, and an inner `TimeoutError` are all answered as `TimedOut`. |
| Services.TimeoutDiscardsLateOutcome | zeegat/services.py:39-49 | A late inner call cannot influence the answer, and that answer is always an exception. |
| Services.TimeoutNeverRaisesTimeout | zeegat/services.py:40-47 | No `TimeoutError` leaves `timeout`, whatever the inner call raised. |
| Services.RouteLookup | zeegat/services.py:73-80 | A string action finds its registered Service, or raises `NotSupported` with cause "No handler for X registered.". A `None`, boolean or number action always misses and raises that same `NotSupported`. A list or object action raises the TypeError "unhashable type". A frame that does not unpack propagates its failure. |
| Services.CatchAtRoute | zeegat/services.py:83-84 | An OCPP error becomes the Call's CallError; anything else passes through. No OCPP error escapes. |
| Services.RouteCall | zeegat/services.py:71-84 | `route.call`: look up, run the delegate, catch OCPP errors. It never raises an OCPP error, and a frame that does not unpack raises that failure. `RouteUnregistered` and `RouteRegistered` give its answers. |
| Services.RouteError.Message | zeegat/services.py:60-63 | A duplicate action is refused with "Can't register handler for action X: already a handler registered."; a function whose signature does not resolve keeps its resolution error. |
| Services.RouteUnregistered | zeegat/services.py:71-84 | An unregistered string action is answered with a `NotSupported` CallError that names the action and echoes the unique id. |
| Services.RouteRegistered | zeegat/services.py:71-84 | A registered action is answered by its delegate: a response unchanged, an OCPP error as the Call's CallError, any other exception propagated. |
| Services.RouteDependsOnActionOnly | zeegat/services.py:74 | Calls with the same action reach the same delegate, whatever their ids and payloads. |
| Services.RouteNeverRaisesOcpp | zeegat/services.py:71-84 | `route` never raises an OCPP error. |
| Services.NewHandler | zeegat/services.py:108-109 | `handler(fn)` fails iff resolving `fn` without overrides fails, with the same error. On success it is a new, never-invoked closure around `fn`. |
| Services.Router.constructor | zeegat/services.py:56 | The table starts empty. |
| Services.Router.Route | zeegat/services.py:59-69 | A duplicate action is refused and the table is unchanged. A Service is added as is. A plain function is wrapped in a new `handler`; when that fails, the table is unchanged. Exactly one entry is added, and the router itself is returned. |
| Services.NewRouter | zeegat/services.py:55-57 | `route(action, service)` builds a table holding exactly that action. It fails only when a function's signature does not resolve. |
| Services.Reached | zeegat/services.py:71-82 | The closure a frame reaches is one of the known closures. |
| Services.Eval | zeegat/services.py:23-112 | The reference answer and log of `service.call(frame)` for a composed Service: `log`, `timeout`, `route` and `handler` each as its own stage function says, with routing depth bounded by `fuel`. `Serve` is proved against it. |
| Services.Serve | zeegat/services.py:23-112 | One call of a composed Service answers and logs what `Eval` says of the starting state. Routers are unchanged. Only the reached closure chain changes `_kwargs`, as the loop specifies. |
| Services.EvalRouteNeverRaisesOcpp | zeegat/services.py:83-84 | No OCPP error escapes a router, however deep the composition. |
| Services.EvalLogRecordsAnswer | zeegat/services.py:23-26 | `log` returns the inner answer. When it is a response, the last record is that response to this frame; when it raised, the inner records are all there is. |
| Services.EvalTimeoutLate | zeegat/services.py:39-47 | A late inner Service, or one under a non-positive interval, is answered with `timeout`'s `InternalError`, and none of its records survive. |
| Services.EvalTimeoutNotStarted | zeegat/services.py:41 | Under a non-positive interval the inner Service never runs: the answer is `TimedOut`, nothing is logged and no closure is reached. |
| Services.EvalTimeoutInnerTimeout | zeegat/services.py:41-47 | An inner Service that raises a `TimeoutError` in time is answered as `TimedOut`, and the records it emitted stay. |
| Services.EvalPristineHandler | zeegat/services.py:108-112 | A never-invoked handler answers as its function does on freshly extracted values. |
| Services.EvalLogRoute | zeegat/services.py:23-26 | Under `log(route(...))`, the delegate's answer, with OCPP errors caught, is what is returned and recorded. |
| Csms.Request | zeegat/bin/csms.py:16 | A request frame unpacks to the Call of its id and action. |
| Csms.CallParamResolves | zeegat/bin/csms.py:41 | A parameter annotated `Call` resolves to `Call.from_frame`. |
| Csms.HeartbeatBody | zeegat/bin/csms.py:41-42 | `on_heartbeat` answers the Call, under its unique id, with the current time. Without `call` it raises the missing-argument TypeError; with a `call` that is not a Call, the AttributeError of `create_call_result`. |
| Csms.StatusBody | zeegat/bin/csms.py:45-47 | `on_status_notification` answers the Call, under its unique id, with `{}`; the failing cases are those of `on_heartbeat`. |
| Csms.Assemble | zeegat/bin/csms.py:53-63 | `log(route("Heartbeat", on_heartbeat).route("FirmwareStatusNotification", timeout(1, handler(on_status_notification))))` has exactly the two routes, each with a new, never-invoked closure. |
| Csms.HeartbeatAnswers | zeegat/bin/csms.py:41-42 | A never-invoked Heartbeat handler answers with the current time, under the Call's unique id. |
| Csms.HandlerRaisesOnceFilled | zeegat/services.py:154-158 | A handler whose `_kwargs` hold a Call raises "'Call' object is not callable" on every frame. |
| Csms.FirstHeartbeat | zeegat/bin/csms.py:41-42 | The first Heartbeat is answered with the time and logged, and the handler's `_kwargs` now hold that Call. |
| Csms.SecondHeartbeat | zeegat/services.py:154-158 | A second Heartbeat raises the TypeError; nothing is logged and nothing changes. |
| Csms.LateNotification | zeegat/bin/csms.py:45-47 | The two-second status handler under a one-second timeout is answered and logged as an `InternalError` CallError naming the action. The handler started before it was cancelled, so its `_kwargs` went through the loop: a never-invoked one now holds the Call. The Heartbeat handler's `_kwargs` are unchanged. |
| Csms.DeployedClosed | zeegat/bin/csms.py:53-63 | The assembled application reaches only its router and its two closures. |
| Csms.Session | zeegat/bin/csms.py:50-65 | Over three frames: the first Heartbeat is answered, the second raises, the late notification gets an `InternalError` CallError. Exactly the two answers are logged. |
| JsonData.Str | zeegat/services.py:45 | An f-string inserts a string as it is, and `None` and integers as their Python renderings. |

## Left out

- The JSON text codec is not part of this model: payloads are the decoded values (`json.loads`, `to_json`).
- JSON numbers are integers only; floating-point payloads are not modelled.
- asyncio is not modelled: no real clock, no concurrency. `ticks` gives each Service's running time; `timeout` compares it with the interval (`<=` passes). A cancelled inner call is taken to have run its synchronous part, the `_kwargs` loop, before it was cancelled.
- Exception classes are those the core raises or catches, plus classes derived from them. Class relations that nothing in the core tests, such as KeyError deriving from LookupError, are not modelled.
- Logging is the list of records emitted; the log line format and the logger configuration are left out.
- `inspect.signature` and `fn.__globals__` are replaced by the function's parameter list and its globals map.
- Values extracted into `_kwargs` are taken to be not callable. A `from_frame` returning a callable would be called again by the next invocation; that is not modelled.
- An override handed to a wrapped closure's `frame` parameter that yields something other than a Frame: the model raises a TypeError (`NotAFrameError`) here, while Python would pass the value on.
- The remaining `ocpp` library classes are not part of this model (the `OCPPError` hierarchy, `messages.Call` validation, `to_json`). The codes and descriptions are those of section 4.2.3 of OCPP-J 1.6.
- Services are the four of zeegat. A user object with a `call` method is not modelled.
- Routing depth is bounded by `fuel`. Running out models Python's RecursionError for a router that routes into itself.
- JsonData.Str: string contents are not escaped in renderings of lists and objects.
- `bin/csms.py`'s WebSocket loop (`on_connect`, `CSMS.serve`) is I/O and is left out. The loop also hands the Services an unpacked Call where they expect a Frame.
- `bin/csms.py`'s clock (`datetime.now()`) is the string parameter `now`.
- `bin/charger.py` is a WebSocket client and is left out.
- `interfaces.py`'s `Service`, `IntoResponse` and `Handler` protocols are the datatypes `Services.Service` and `Messages.Response`.
- Injection.Injected.Invoke: the new `_kwargs` of wrapped closures is stated only by the answer and by their well-formedness, not entry by entry.
- Services.Serve: the new `_kwargs` of closures wrapped by the reached one is stated only by their well-formedness.

## Findings

| source | as written | input that shows it | evidently intended | confidence | as-written member | corrected member |
|---|---|---|---|---|---|---|
| zeegat/services.py:154-158 | `from_frame` overwrites each `_kwargs` entry with the value extracted from the frame. The dictionary is shared by every invocation of the closure, so the extractor is lost. | `handler(on_heartbeat)` with `on_heartbeat(call: Call)`. The first frame `[2, "19223201", "Heartbeat", {}]` is answered. A second Heartbeat then calls the stored Call and raises TypeError "'Call' object is not callable". | Each invocation extracts fresh values into a new dictionary and leaves `_kwargs` holding the extractors. | not executed; high, proved for every handler with at least one parameter | Injection.SecondInvocationRaises | Injection.Injected.CallFresh |
