/** The middleware of zeegat/services.py: `log`, `timeout`, `route` and
    `handler`, composed as Services. A Service turns a frame into a
    response or raises (`Outcome<Response>`).

    Each stage's own behaviour is a function of the outcome of the Service
    it wraps; `Serve` composes them. Time is abstract: how long a Service
    takes on a frame is given by a `ticks` function, and `timeout` compares
    it with its interval. Logging is the list of records emitted. */
module Services {
  import opened JsonData
  import opened Messages
  import opened Frames
  import opened Injection

  /** The four Services of zeegat; a `route` is an object whose table is
      updated in place, a `handler` holds an injected closure. */
  datatype Service =
    | Log(inner: Service)
    | Timeout(interval: int, inner: Service)
    | Route(router: Router)
    | Handler(closure: Injected)

  /** What `log` emits: the frame's payload and the response. */
  datatype Record = Record(frame: Json, response: Response)

  // ---------------------------------------------------------------------
  // The OCPP errors the middleware raises.

  /** Codes of section 4.2.3 of OCPP-J 1.6, as the `NotSupportedError` and
      `InternalError` classes carry them. The descriptions are the
      standard's; the classes' default descriptions are not part of this
      model. */
  const NotSupportedCode: string := "NotSupported"
  const NotSupportedDescription: string := "Requested Action is recognized but not supported by the receiver"
  const InternalErrorDescription: string :=
    "An internal error occurred and the receiver was not able to process the requested Action successfully"

  /** `NotSupportedError(details=...)`. */
  function NotSupportedError(details: Json): (e: OcppError)
    ensures e.code == NotSupportedCode && e.details == details
  {
    OcppError(NotSupportedCode, NotSupportedDescription, details)
  }

  /** `InternalError(details=...)`. */
  function InternalError(details: Json): (e: OcppError)
    ensures e.code == InternalErrorCode && e.details == details
  {
    OcppError(InternalErrorCode, InternalErrorDescription, details)
  }

  function TimeoutCause(action: Json): string
  {
    "Handler for action " + Str(action) + " timed out."
  }

  function NoHandlerCause(action: Json): string
  {
    "No handler for " + Str(action) + " registered."
  }

  /** The message of the TypeError raised by looking up a list or an
      object in a dict. */
  function UnhashableMessage(key: Json): string
  {
    "unhashable type: '" + TypeName(key) + "'"
  }

  // ---------------------------------------------------------------------
  // log

  /** `log.call` (lines 23-26): the inner response, unchanged, and one
      record emitted after the inner call returned; when the inner call
      raises, the exception propagates and nothing is emitted. */
  function LogCall(f: Frame, inner: Outcome<Response>): (r: (Outcome<Response>, seq<Record>))
    ensures r.0 == inner
    ensures inner.Ok? <==> |r.1| == 1
    ensures !inner.Ok? <==> r.1 == []
    ensures inner.Ok? ==> r.1[0].frame == f.AsBytes() && r.1[0].response == inner.value
  {
    if inner.Ok? then (inner, [Record(f.AsBytes(), inner.value)]) else (inner, [])
  }

  // ---------------------------------------------------------------------
  // timeout

  /** The answer of `timeout` once `wait_for` gave up (lines 42-47): an
      `InternalError` naming the action. Naming the action unpacks the
      frame again, and a frame that does not unpack raises that failure
      instead. */
  function TimedOut(f: Frame): (o: Outcome<Response>)
    ensures f.AsCall().Ok? ==>
              o == RaiseOcpp(InternalError(Single("cause", JStr(TimeoutCause(f.AsCall().value.action)))))
    ensures !f.AsCall().Ok? ==> o == f.AsCall().Propagate()
  {
    var c := f.AsCall();
    if c.Ok? then RaiseOcpp(InternalError(Single("cause", JStr(TimeoutCause(c.value.action)))))
    else c.Propagate()
  }

  /** `asyncio.wait_for` lets an inner call of `elapsed` ticks finish: the
      interval is positive and not exceeded. With an interval of zero or
      less, `wait_for` cancels the inner call before it starts. */
  predicate InTime(interval: int, elapsed: nat)
  {
    0 < interval && elapsed <= interval
  }

  /** The inner call raised something `except asyncio.TimeoutError`
      catches. */
  predicate RaisesTimeout(o: Outcome<Response>)
  {
    o.RaiseOther? && IsTimeoutError(o.cls)
  }

  /** `timeout.call` (lines 39-49): an inner call finished in time passes
      through, whether it returned or raised, unless what it raised is
      itself a `TimeoutError`; a late inner call, and an inner
      `TimeoutError`, are both answered as `TimedOut` says. */
  function TimeoutCall(interval: int, f: Frame, inner: Outcome<Response>, elapsed: nat): (o: Outcome<Response>)
    ensures InTime(interval, elapsed) && !RaisesTimeout(inner) ==> o == inner
    ensures !InTime(interval, elapsed) || RaisesTimeout(inner) ==> o == TimedOut(f)
  {
    if InTime(interval, elapsed) && !RaisesTimeout(inner) then inner else TimedOut(f)
  }

  /** A late inner call cannot influence what the caller sees: its result,
      or its exception, is discarded, and what is seen is an exception. */
  lemma TimeoutDiscardsLateOutcome(interval: int, f: Frame, o1: Outcome<Response>, o2: Outcome<Response>, elapsed: nat)
    requires !InTime(interval, elapsed)
    ensures TimeoutCall(interval, f, o1, elapsed) == TimeoutCall(interval, f, o2, elapsed)
    ensures !TimeoutCall(interval, f, o1, elapsed).Ok?
  {
  }

  /** `timeout` never lets a `TimeoutError` through, from its inner call or
      its own. */
  lemma TimeoutNeverRaisesTimeout(interval: int, f: Frame, inner: Outcome<Response>, elapsed: nat)
    ensures !RaisesTimeout(TimeoutCall(interval, f, inner, elapsed))
  {
  }

  // ---------------------------------------------------------------------
  // route

  /** The look-up of lines 73-80: the delegate registered for the Call's
      action, or what the look-up raises. */
  datatype Lookup<+S> = Delegate(service: S) | Done(outcome: Outcome<Response>)

  /** `self._routes[frame.as_call().action]`: a string action finds its
      Service or raises `NotSupportedError`; an action of another hashable
      JSON type finds nothing, since the keys are strings; a list or an
      object is not hashable and the TypeError propagates; and a frame that
      does not unpack propagates that failure. */
  function RouteLookup<S>(routes: map<string, S>, f: Frame): (l: Lookup<S>)
    ensures !f.AsCall().Ok? ==> l == Done(f.AsCall().Propagate())
    ensures f.AsCall().Ok? && f.AsCall().value.action.JStr? ==>
              var a := f.AsCall().value.action;
              l == if a.s in routes then Delegate(routes[a.s])
                   else Done(RaiseOcpp(NotSupportedError(Single("cause", JStr(NoHandlerCause(a))))))
    ensures f.AsCall().Ok? && (f.AsCall().value.action.JArr? || f.AsCall().value.action.JObj?) ==>
              l == Done(RaiseOther(TypeErrorClass, UnhashableMessage(f.AsCall().value.action)))
    ensures f.AsCall().Ok? && (f.AsCall().value.action.JNull? || f.AsCall().value.action.JBool?
                               || f.AsCall().value.action.JNum?) ==>
              l == Done(RaiseOcpp(NotSupportedError(Single("cause", JStr(NoHandlerCause(f.AsCall().value.action))))))
    ensures l.Done? ==> !l.outcome.Ok?
  {
    var c := f.AsCall();
    if !c.Ok? then Done(c.Propagate())
    else
      var a := c.value.action;
      match a
      case JStr(key) =>
        if key in routes then Delegate(routes[key])
        else Done(RaiseOcpp(NotSupportedError(Single("cause", JStr(NoHandlerCause(a))))))
      case JArr(_) => Done(RaiseOther(TypeErrorClass, UnhashableMessage(a)))
      case JObj(_) => Done(RaiseOther(TypeErrorClass, UnhashableMessage(a)))
      case _ => Done(RaiseOcpp(NotSupportedError(Single("cause", JStr(NoHandlerCause(a))))))
  }

  /** The `except OCPPError` of lines 83-84: an OCPP error raised by the
      look-up or by the delegate becomes the Call's CallError; other
      exceptions and responses pass through. */
  function CatchAtRoute(f: Frame, o: Outcome<Response>): (r: Outcome<Response>)
    ensures !r.RaiseOcpp?
    ensures !o.RaiseOcpp? ==> r == o
    ensures o.RaiseOcpp? && f.AsCall().Ok? ==>
              r == Ok(ErrorMsg(f.AsCall().value.CreateCallError(OcppException(o.error))))
  {
    if o.RaiseOcpp? then
      var c := f.AsCall();
      if c.Ok? then Ok(ErrorMsg(c.value.CreateCallError(OcppException(o.error)))) else c.Propagate()
    else o
  }

  /** `route.call` over a table whose Services behave as `run` says. */
  function RouteCall<S>(routes: map<string, S>, f: Frame, run: S -> Outcome<Response>): (o: Outcome<Response>)
    ensures !o.RaiseOcpp?
    ensures !f.AsCall().Ok? ==> o == f.AsCall().Propagate()
  {
    CatchAtRoute(f, match RouteLookup(routes, f)
                    case Delegate(s) => run(s)
                    case Done(o) => o)
  }

  /** An unregistered action is answered, not raised: a CallError with the
      `NotSupported` code, the cause naming the action, and the Call's
      unique id. */
  lemma RouteUnregistered<S>(routes: map<string, S>, f: Frame, run: S -> Outcome<Response>, action: string)
    requires f.AsCall().Ok? && f.AsCall().value.action == JStr(action)
    requires action !in routes
    ensures RouteCall(routes, f, run)
            == Ok(ErrorMsg(CallError(f.AsCall().value.uniqueId, NotSupportedCode, NotSupportedDescription,
                                     Single("cause", JStr("No handler for " + action + " registered.")))))
  {
  }

  /** A registered action is answered by its delegate: a response passes
      unchanged, an OCPP error becomes the Call's CallError, and any other
      exception propagates. */
  lemma RouteRegistered<S>(routes: map<string, S>, f: Frame, run: S -> Outcome<Response>, action: string)
    requires f.AsCall().Ok? && f.AsCall().value.action == JStr(action)
    requires action in routes
    ensures var o := run(routes[action]);
            RouteCall(routes, f, run)
            == if o.RaiseOcpp? then Ok(ErrorMsg(f.AsCall().value.CreateCallError(OcppException(o.error)))) else o
  {
  }

  /** Dispatch depends on the action only: two Calls with the same action
      reach the same delegate, whatever their unique ids and payloads. */
  lemma RouteDependsOnActionOnly<S>(routes: map<string, S>, f: Frame, g: Frame)
    requires f.AsCall().Ok? && g.AsCall().Ok?
    requires f.AsCall().value.action == g.AsCall().value.action
    ensures RouteLookup(routes, f).Delegate? <==> RouteLookup(routes, g).Delegate?
    ensures RouteLookup(routes, f).Delegate? ==> RouteLookup(routes, f) == RouteLookup(routes, g)
  {
  }

  /** An error code never leaves the router as an exception. */
  lemma RouteNeverRaisesOcpp<S>(routes: map<string, S>, f: Frame, run: S -> Outcome<Response>)
    ensures !RouteCall(routes, f, run).RaiseOcpp?
  {
  }

  /** What `route` accepts: a Service, or a plain function that it wraps in
      a `handler`. */
  datatype Registrable = AsService(service: Service) | AsFunction(fn: Fn)

  datatype RouteError =
    | AlreadyRegistered(action: string)
    | BadSignature(error: InjectError)
  {
    function Message(): string
    {
      match this
      case AlreadyRegistered(a) =>
        "Can't register handler for action " + a + ": already a handler registered."
      case BadSignature(e) => e.Message()
    }
  }

  /** `svc` is a `handler` whose closure was just built around `fn` with
      the extractors `xs`: it has not been invoked yet, and the closures it
      owns are its own and those `fn` already wrapped. */
  ghost predicate Wraps(svc: Service, fn: Fn, xs: seq<Extractor>)
    reads if svc.Handler? then {svc.closure} + svc.closure.Repr else {}
  {
    && svc.Handler?
    && svc.closure.fn == fn
    && svc.closure.extractors == xs
    && svc.closure.Repr == {svc.closure} + (if fn.InjectedFn? then fn.inner.Repr else {})
    && svc.closure.Valid()
    && svc.closure.slots == Pendings(xs)
  }

  /** `handler(fn)` (lines 108-109): a Service around the closure that
      resolving `fn` without overrides gives. */
  method NewHandler(fn: Fn) returns (r: Result<Service, InjectError>)
    requires fn.InjectedFn? ==> fn.inner.Valid()
    ensures var res := Resolve(QualName(fn), Signature(fn), Scope(fn), map[]);
            && (r.Failure? <==> res.Failure?)
            && (r.Failure? ==> r.error == res.error)
            && (r.Success? ==> r.value.Handler? && fresh(r.value.closure) && Wraps(r.value, fn, res.value))
  {
    var h := InjectDependencies(fn, map[]);
    match h
    case Failure(e) => r := Failure(e);
    case Success(c) => r := Success(Handler(c));
  }

  /** The object `route`: a table from action to Service, updated in
      place by registration. */
  class Router {
    var routes: map<string, Service>

    /** `self._routes = {}`. */
    constructor ()
      ensures routes == map[]
    {
      routes := map[];
    }

    /** `route(action, service)` (lines 59-69): a duplicate action is
        refused and the table is left as it was; otherwise a plain function
        is wrapped in a `handler` (whose construction may fail, again
        leaving the table alone) and exactly one entry is added. The router
        itself is returned, for chaining. */
    method Route(action: string, s: Registrable) returns (r: Result<Router, RouteError>)
      requires s.AsFunction? && s.fn.InjectedFn? ==> s.fn.inner.Valid()
      modifies this
      ensures action in old(routes) ==> r == Failure(AlreadyRegistered(action)) && routes == old(routes)
      ensures action !in old(routes) && s.AsService? ==>
                r == Success(this) && routes == old(routes)[action := s.service]
      ensures action !in old(routes) && s.AsFunction? ==>
                var res := Resolve(QualName(s.fn), Signature(s.fn), Scope(s.fn), map[]);
                && (r.Failure? <==> res.Failure?)
                && (r.Failure? ==> r.error == BadSignature(res.error) && routes == old(routes))
                && (r.Success? ==> && r.value == this
                                   && action in routes
                                   && routes == old(routes)[action := routes[action]]
                                   && routes[action].Handler?
                                   && fresh(routes[action].closure)
                                   && Wraps(routes[action], s.fn, res.value))
    {
      if action in routes {
        return Failure(AlreadyRegistered(action));
      }
      var service: Service;
      match s {
        case AsService(svc) =>
          service := svc;
        case AsFunction(fn) =>
          var h := NewHandler(fn);
          if h.Failure? {
            return Failure(BadSignature(h.error));
          }
          service := h.value;
      }
      routes := routes[action := service];
      return Success(this);
    }
  }

  /** `route(action, service)` as a constructor (lines 55-57): a fresh
      router whose table holds exactly the one entry. */
  method NewRouter(action: string, s: Registrable) returns (r: Result<Router, RouteError>)
    requires s.AsFunction? && s.fn.InjectedFn? ==> s.fn.inner.Valid()
    ensures r.Success? ==> fresh(r.value) && r.value.routes.Keys == {action}
    ensures r.Success? && s.AsService? ==> r.value.routes == map[action := s.service]
    ensures s.AsService? ==> r.Success?
    ensures s.AsFunction? ==>
              var res := Resolve(QualName(s.fn), Signature(s.fn), Scope(s.fn), map[]);
              && (r.Failure? <==> res.Failure?)
              && (r.Failure? ==> r.error == BadSignature(res.error))
              && (r.Success? ==> && r.value.routes[action].Handler?
                                 && fresh(r.value.routes[action].closure)
                                 && Wraps(r.value.routes[action], s.fn, res.value))
  {
    var router := new Router();
    r := router.Route(action, s);
  }

  // ---------------------------------------------------------------------
  // Composition

  /** Every router and closure reachable from `s` is among `rs` and `hs`. */
  ghost predicate Within(s: Service, rs: set<Router>, hs: set<Injected>)
  {
    match s
    case Log(inner) => Within(inner, rs, hs)
    case Timeout(_, inner) => Within(inner, rs, hs)
    case Route(r) => r in rs
    case Handler(h) => h in hs
  }

  /** `rs` and `hs` are closed under "reachable from", and every closure is
      well formed. */
  ghost predicate Closed(rs: set<Router>, hs: set<Injected>)
    reads rs, hs
  {
    && (forall r, a :: r in rs && a in r.routes ==> Within(r.routes[a], rs, hs))
    && (forall h :: h in hs ==> h.Repr <= hs && h.Valid())
  }

  /** The message of Python's RecursionError, raised when a router routes
      back into itself more deeply than the interpreter allows. */
  const RecursionMessage: string := "maximum recursion depth exceeded"

  /** What `service.call(frame)` returns and logs, in the current state:
      the reference the method `Serve` is proved against. `ticks(s)` is how
      long `s` takes on this frame; `fuel` bounds the depth of routing. A
      timed-out inner call still ran, but its log records are lost with it. */
  ghost function Eval(s: Service, f: Frame, ticks: Service -> nat, fuel: nat, rs: set<Router>, hs: set<Injected>)
    : (Outcome<Response>, seq<Record>)
    requires Within(s, rs, hs) && Closed(rs, hs)
    reads rs, hs
    decreases fuel, s
  {
    match s
    case Log(inner) =>
      var (io, itrace) := Eval(inner, f, ticks, fuel, rs, hs);
      var (lo, records) := LogCall(f, io);
      (lo, itrace + records)
    case Timeout(interval, inner) =>
      if interval <= 0 then (TimedOut(f), [])
      else
        var (io, itrace) := Eval(inner, f, ticks, fuel, rs, hs);
        (TimeoutCall(interval, f, io, ticks(inner)), if ticks(inner) <= interval then itrace else [])
    case Route(router) =>
      (match RouteLookup(router.routes, f)
       case Done(lo) => (CatchAtRoute(f, lo), [])
       case Delegate(svc) =>
         if fuel == 0 then (RaiseOther(RecursionErrorClass, RecursionMessage), [])
         else
           var (io, itrace) := Eval(svc, f, ticks, fuel - 1, rs, hs);
           (CatchAtRoute(f, io), itrace))
    case Handler(h) => (h.AsWritten(f), [])
  }

  /** The closure a frame reaches through `s`, if any: at most one closure
      chain is invoked per frame, and only it changes state. */
  ghost function Reached(s: Service, f: Frame, fuel: nat, rs: set<Router>, hs: set<Injected>): (h: Option<Injected>)
    requires Within(s, rs, hs) && Closed(rs, hs)
    reads rs, hs
    ensures h.Some? ==> h.value in hs
    decreases fuel, s
  {
    match s
    case Log(inner) => Reached(inner, f, fuel, rs, hs)
    case Timeout(interval, inner) => if interval <= 0 then None else Reached(inner, f, fuel, rs, hs)
    case Route(router) =>
      (match RouteLookup(router.routes, f)
       case Done(_) => None
       case Delegate(svc) => if fuel == 0 then None else Reached(svc, f, fuel - 1, rs, hs))
    case Handler(h) => Some(h)
  }

  /** `service.call(frame)` for a composed Service: it answers as `Eval`
      says of the state it started in, no router changes, and only the
      reached closure chain updates its `_kwargs`. */
  method Serve(s: Service, f: Frame, ticks: Service -> nat, fuel: nat, ghost rs: set<Router>, ghost hs: set<Injected>)
    returns (o: Outcome<Response>, trace: seq<Record>)
    requires Within(s, rs, hs) && Closed(rs, hs)
    modifies hs
    decreases fuel, s
    ensures Closed(rs, hs)
    ensures (o, trace) == old(Eval(s, f, ticks, fuel, rs, hs))
    ensures var h := old(Reached(s, f, fuel, rs, hs));
            && (h.None? ==> forall x :: x in hs ==> x.slots == old(x.slots))
            && (h.Some? ==> && h.value.slots == old(Extract(h.value.slots, f).slots)
                            && forall x :: x in hs && x !in h.value.Repr ==> x.slots == old(x.slots))
  {
    match s
    case Log(inner) =>
      var io, itrace := Serve(inner, f, ticks, fuel, rs, hs);
      var (lo, records) := LogCall(f, io);
      o, trace := lo, itrace + records;
    case Timeout(interval, inner) =>
      if interval <= 0 {
        o, trace := TimedOut(f), [];
      } else {
        var io, itrace := Serve(inner, f, ticks, fuel, rs, hs);
        o := TimeoutCall(interval, f, io, ticks(inner));
        trace := if ticks(inner) <= interval then itrace else [];
      }
    case Route(router) =>
      match RouteLookup(router.routes, f) {
        case Done(lo) =>
          o, trace := CatchAtRoute(f, lo), [];
        case Delegate(svc) =>
          if fuel == 0 {
            o, trace := RaiseOther(RecursionErrorClass, RecursionMessage), [];
          } else {
            var io, itrace := Serve(svc, f, ticks, fuel - 1, rs, hs);
            o, trace := CatchAtRoute(f, io), itrace;
          }
      }
    case Handler(h) =>
      o := h.Invoke(f);
      trace := [];
  }

  /** A routed frame is always answered or fails with a non-OCPP exception;
      an OCPP error never escapes the router. */
  lemma EvalRouteNeverRaisesOcpp(s: Service, f: Frame, ticks: Service -> nat, fuel: nat, rs: set<Router>, hs: set<Injected>)
    requires Within(s, rs, hs) && Closed(rs, hs)
    requires s.Route?
    ensures !Eval(s, f, ticks, fuel, rs, hs).0.RaiseOcpp?
  {
  }

  /** `log` passes the inner answer through and, when there is one, its
      last record is that answer to this frame. */
  lemma EvalLogRecordsAnswer(s: Service, f: Frame, ticks: Service -> nat, fuel: nat, rs: set<Router>, hs: set<Injected>)
    requires Within(s, rs, hs) && Closed(rs, hs)
    requires s.Log?
    ensures var (o, trace) := Eval(s, f, ticks, fuel, rs, hs);
            && o == Eval(s.inner, f, ticks, fuel, rs, hs).0
            && (o.Ok? ==> |trace| > 0 && trace[|trace| - 1] == Record(f.AsBytes(), o.value))
            && (!o.Ok? ==> trace == Eval(s.inner, f, ticks, fuel, rs, hs).1)
  {
  }

  /** A late inner Service, or one never started because the interval is
      not positive, is answered with the `InternalError` of `timeout`,
      whatever it returned, and none of its records survive. */
  lemma EvalTimeoutLate(s: Service, f: Frame, ticks: Service -> nat, fuel: nat, rs: set<Router>, hs: set<Injected>)
    requires Within(s, rs, hs) && Closed(rs, hs)
    requires s.Timeout? && !InTime(s.interval, ticks(s.inner)) && f.AsCall().Ok?
    ensures Eval(s, f, ticks, fuel, rs, hs)
            == (RaiseOcpp(InternalError(Single("cause", JStr(TimeoutCause(f.AsCall().value.action))))), [])
  {
  }

  /** With an interval of zero or less the inner Service never runs: no
      closure is reached, so nothing changes state. */
  lemma EvalTimeoutNotStarted(s: Service, f: Frame, ticks: Service -> nat, fuel: nat, rs: set<Router>, hs: set<Injected>)
    requires Within(s, rs, hs) && Closed(rs, hs)
    requires s.Timeout? && s.interval <= 0
    ensures Eval(s, f, ticks, fuel, rs, hs) == (TimedOut(f), [])
    ensures Reached(s, f, fuel, rs, hs) == None
  {
  }

  /** An inner Service that raises a `TimeoutError` in time is answered
      like a late one, but the records it emitted before raising stay. */
  lemma EvalTimeoutInnerTimeout(s: Service, f: Frame, ticks: Service -> nat, fuel: nat, rs: set<Router>, hs: set<Injected>)
    requires Within(s, rs, hs) && Closed(rs, hs)
    requires s.Timeout? && InTime(s.interval, ticks(s.inner))
    requires RaisesTimeout(Eval(s.inner, f, ticks, fuel, rs, hs).0)
    ensures Eval(s, f, ticks, fuel, rs, hs) == (TimedOut(f), Eval(s.inner, f, ticks, fuel, rs, hs).1)
  {
  }

  /** A handler that has never been invoked answers as its function does on
      the values freshly extracted from the frame. */
  lemma EvalPristineHandler(s: Service, f: Frame, ticks: Service -> nat, fuel: nat, rs: set<Router>, hs: set<Injected>)
    requires Within(s, rs, hs) && Closed(rs, hs)
    requires s.Handler? && s.closure.Pristine()
    ensures Eval(s, f, ticks, fuel, rs, hs) == (s.closure.CallFresh(f), [])
  {
    s.closure.AsWrittenWhenPristine(f);
  }

  /** `log` around a router that delegates the frame: the delegate's
      answer, with an OCPP error turned into the CallError, is what is
      logged and returned. */
  lemma EvalLogRoute(router: Router, f: Frame, ticks: Service -> nat, fuel: nat, rs: set<Router>, hs: set<Injected>)
    requires router in rs && Closed(rs, hs)
    requires fuel > 0 && RouteLookup(router.routes, f).Delegate?
    ensures var svc := RouteLookup(router.routes, f).service;
            && Within(svc, rs, hs)
            && Reached(Log(Route(router)), f, fuel, rs, hs) == Reached(svc, f, fuel - 1, rs, hs)
            && var (io, itrace) := Eval(svc, f, ticks, fuel - 1, rs, hs);
               var (lo, records) := LogCall(f, CatchAtRoute(f, io));
               Eval(Log(Route(router)), f, ticks, fuel, rs, hs) == (lo, itrace + records)
  {
  }
}
