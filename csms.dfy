/** The example application of zeegat/bin/csms.py, assembled from the
    Services and run on three frames: two Heartbeat requests and one
    FirmwareStatusNotification whose handler takes longer than its
    timeout. The clock is a parameter (`now`), and how long the second
    handler sleeps is given as ticks. */
module Csms {
  import opened JsonData
  import opened Messages
  import opened Frames
  import opened Injection
  import opened Services

  /** The module globals the handlers' postponed annotations are evaluated
      in; only the class `Call` is used by an annotation. */
  const Globals: map<string, TypeRef> := map["Call" := CallClass]

  /** The one parameter both handlers declare, `call: Call`. */
  const CallParam: Param := Param("call", Postponed("Call"))

  /** The message of the TypeError raised when a handler is called without
      its `call` argument. */
  function MissingCall(name: string): string
  {
    name + "() missing 1 required positional argument: 'call'"
  }

  const HeartbeatName: string := "on_heartbeat"
  const StatusName: string := "on_status_notification"

  /** The message of the AttributeError raised by `call.create_call_result`
      when `call` is not a Call. */
  function NoCreateCallResult(v: Value): string
  {
    "'" + ValueTypeName(v) + "' object has no attribute 'create_call_result'"
  }

  /** The body of `on_heartbeat(call)` (lines 41-42), on its keyword
      arguments: answers the Call with the current time. Without a `call`
      argument the call itself fails; with a `call` that is not a Call,
      `create_call_result` is missing. */
  function HeartbeatBody(now: string, kw: map<string, Value>): (r: Outcome<Response>)
    ensures "call" in kw && kw["call"].CallValue? ==>
              r == Ok(ResultMsg(CallResult(kw["call"].call.uniqueId, Single("currentTime", JStr(now)))))
    ensures "call" !in kw ==> r == RaiseOther(TypeErrorClass, MissingCall(HeartbeatName))
    ensures "call" in kw && !kw["call"].CallValue? ==>
              r == RaiseOther(AttributeErrorClass, NoCreateCallResult(kw["call"]))
  {
    if "call" !in kw then RaiseOther(TypeErrorClass, MissingCall(HeartbeatName))
    else if kw["call"].CallValue?
    then Ok(ResultMsg(kw["call"].call.CreateCallResult(Single("currentTime", JStr(now)))))
    else RaiseOther(AttributeErrorClass, NoCreateCallResult(kw["call"]))
  }

  /** The body of `on_status_notification(call)` (lines 45-47): answers
      the Call with an empty payload, after sleeping for two seconds. The
      failing cases are those of `HeartbeatBody`. */
  function StatusBody(kw: map<string, Value>): (r: Outcome<Response>)
    ensures "call" in kw && kw["call"].CallValue? ==>
              r == Ok(ResultMsg(CallResult(kw["call"].call.uniqueId, EmptyObject)))
    ensures "call" !in kw ==> r == RaiseOther(TypeErrorClass, MissingCall(StatusName))
    ensures "call" in kw && !kw["call"].CallValue? ==>
              r == RaiseOther(AttributeErrorClass, NoCreateCallResult(kw["call"]))
  {
    if "call" !in kw then RaiseOther(TypeErrorClass, MissingCall(StatusName))
    else if kw["call"].CallValue?
    then Ok(ResultMsg(kw["call"].call.CreateCallResult(EmptyObject)))
    else RaiseOther(AttributeErrorClass, NoCreateCallResult(kw["call"]))
  }

  function OnHeartbeat(now: string): Fn
  {
    UserFn("__main__." + HeartbeatName, [CallParam], Globals, kw => HeartbeatBody(now, kw))
  }

  function OnStatusNotification(): Fn
  {
    UserFn("__main__." + StatusName, [CallParam], Globals, StatusBody)
  }

  /** A parameter annotated `Call`, in these globals, is extracted with
      `Call.from_frame`. */
  lemma CallParamResolves(q: string)
    ensures Resolve(q, [CallParam], Globals, map[]) == Success([FromCall])
  {
    var ps := [CallParam];
    assert ps[..|ps| - 1] == [];
    assert Resolve(q, ps[..|ps| - 1], Globals, map[]) == Success([]);
    assert ResolveParam(q, ps[|ps| - 1], Globals, map[]) == Success(FromCall);
    assert [] + [FromCall] == [FromCall];
  }

  const HeartbeatAction: string := "Heartbeat"
  const StatusAction: string := "FirmwareStatusNotification"

  /** A request frame `[2, uniqueId, action, {}]`. */
  function Request(uniqueId: string, action: string): (f: Frame)
    ensures f.AsCall() == Ok(Call(JStr(uniqueId), JStr(action), EmptyObject))
  {
    Frame(JArr([JNum(CallTypeId), JStr(uniqueId), JStr(action), EmptyObject]))
  }

  /** The application of `main` (lines 53-63): `log` around a router with
      the Heartbeat handler and, behind a one-second `timeout`, the status
      notification handler. Both closures are new and not yet invoked. */
  method Assemble(now: string) returns (app: Service, router: Router, heartbeat: Injected, status: Injected)
    ensures app == Log(Route(router))
    ensures router.routes == map[HeartbeatAction := Handler(heartbeat),
                                 StatusAction := Timeout(1, Handler(status))]
    ensures fresh(router) && fresh(heartbeat) && fresh(status) && heartbeat != status
    ensures heartbeat.Valid() && heartbeat.Pristine() && heartbeat.Repr == {heartbeat}
    ensures status.Valid() && status.Pristine() && status.Repr == {status}
    ensures heartbeat.fn == OnHeartbeat(now) && heartbeat.extractors == [FromCall] && heartbeat.names == ["call"]
    ensures status.fn == OnStatusNotification() && status.extractors == [FromCall] && status.names == ["call"]
  {
    var hb := OnHeartbeat(now);
    CallParamResolves(QualName(hb));
    var r1 := NewRouter(HeartbeatAction, AsFunction(hb));
    router := r1.value;
    heartbeat := router.routes[HeartbeatAction].closure;

    var st := OnStatusNotification();
    CallParamResolves(QualName(st));
    var r2 := NewHandler(st);
    status := r2.value.closure;
    var r3 := router.Route(StatusAction, AsService(Timeout(1, r2.value)));
    app := Log(Route(router));
  }

  /** A Heartbeat handler not yet invoked answers a Call with the time. */
  lemma HeartbeatAnswers(now: string, h: Injected, f: Frame)
    requires h.Valid() && h.Pristine()
    requires h.fn == OnHeartbeat(now) && h.extractors == [FromCall] && h.names == ["call"]
    requires f.AsCall().Ok?
    ensures h.AsWritten(f) == Ok(ResultMsg(f.AsCall().value.CreateCallResult(Single("currentTime", JStr(now)))))
  {
    h.AsWrittenWhenPristine(f);
    var v := CallValue(f.AsCall().value);
    assert ApplyExtractor(FromCall, f) == Ok(v);
    assert [FromCall][1..] == [];
    assert ExtractFresh([], f) == Ok([]);
    assert [v] + [] == [v];
    assert ExtractFresh([FromCall], f) == Ok([v]);
    assert Kwargs(["call"], [v]) == map["call" := v];
  }

  /** Once a closure's `_kwargs` hold the Call, invoking it again raises,
      whatever the frame. */
  lemma HandlerRaisesOnceFilled(h: Injected, c: Call, f: Frame)
    requires h.Valid() && h.slots == [Filled(CallValue(c))]
    ensures h.AsWritten(f) == RaiseOther(TypeErrorClass, NotCallable(CallValue(c)))
  {
  }

  /** The objects `Assemble` builds, as they stay while frames are served:
      only the closures' `_kwargs` change. */
  ghost predicate Deployed(now: string, app: Service, router: Router, heartbeat: Injected, status: Injected)
    reads router, heartbeat, status
  {
    && app == Log(Route(router))
    && router.routes == map[HeartbeatAction := Handler(heartbeat),
                            StatusAction := Timeout(1, Handler(status))]
    && heartbeat != status
    && heartbeat.Repr == {heartbeat} && heartbeat.Valid()
    && status.Repr == {status} && status.Valid()
    && heartbeat.fn == OnHeartbeat(now) && heartbeat.extractors == [FromCall] && heartbeat.names == ["call"]
    && status.fn == OnStatusNotification() && status.extractors == [FromCall] && status.names == ["call"]
  }

  /** The deployed objects are all the application reaches. */
  lemma DeployedClosed(now: string, app: Service, router: Router, heartbeat: Injected, status: Injected)
    requires Deployed(now, app, router, heartbeat, status)
    ensures Within(app, {router}, {heartbeat, status}) && Closed({router}, {heartbeat, status})
  {
  }

  /** A first Heartbeat: answered with the time and logged; the handler's
      `_kwargs` now hold the Call. */
  method FirstHeartbeat(now: string, app: Service, router: Router, heartbeat: Injected, status: Injected,
                        ticks: Service -> nat, uniqueId: string)
    returns (o: Outcome<Response>, trace: seq<Record>)
    requires Deployed(now, app, router, heartbeat, status) && heartbeat.Pristine()
    modifies heartbeat, status
    ensures Deployed(now, app, router, heartbeat, status)
    ensures o == Ok(ResultMsg(CallResult(JStr(uniqueId), Single("currentTime", JStr(now)))))
    ensures trace == [Record(Request(uniqueId, HeartbeatAction).raw, o.value)]
    ensures heartbeat.slots == [Filled(CallValue(Request(uniqueId, HeartbeatAction).AsCall().value))]
    ensures status.slots == old(status.slots)
  {
    ghost var rs, hs := {router}, {heartbeat, status};
    DeployedClosed(now, app, router, heartbeat, status);
    var f := Request(uniqueId, HeartbeatAction);
    assert RouteLookup(router.routes, f) == Delegate(Handler(heartbeat));
    EvalLogRoute(router, f, ticks, 1, rs, hs);
    HeartbeatAnswers(now, heartbeat, f);
    assert ApplySlot(Pending(FromCall), f) == Ok(CallValue(f.AsCall().value));
    assert Extract(heartbeat.slots, f).slots == [Filled(CallValue(f.AsCall().value))];
    o, trace := Serve(app, f, ticks, 1, rs, hs);
  }

  /** A second Heartbeat reaches the overwritten `_kwargs` and raises;
      nothing is logged and nothing changes. */
  method SecondHeartbeat(now: string, app: Service, router: Router, heartbeat: Injected, status: Injected,
                         ticks: Service -> nat, c: Call, uniqueId: string)
    returns (o: Outcome<Response>, trace: seq<Record>)
    requires Deployed(now, app, router, heartbeat, status) && heartbeat.slots == [Filled(CallValue(c))]
    modifies heartbeat, status
    ensures Deployed(now, app, router, heartbeat, status)
    ensures o == RaiseOther(TypeErrorClass, NotCallable(CallValue(c))) && trace == []
    ensures heartbeat.slots == old(heartbeat.slots) && status.slots == old(status.slots)
  {
    ghost var rs, hs := {router}, {heartbeat, status};
    DeployedClosed(now, app, router, heartbeat, status);
    var f := Request(uniqueId, HeartbeatAction);
    assert RouteLookup(router.routes, f) == Delegate(Handler(heartbeat));
    EvalLogRoute(router, f, ticks, 1, rs, hs);
    HandlerRaisesOnceFilled(heartbeat, c, f);
    assert Extract(heartbeat.slots, f).slots == heartbeat.slots;
    o, trace := Serve(app, f, ticks, 1, rs, hs);
  }

  /** A status notification whose handler takes longer than the interval
      is answered, and logged, as an `InternalError` CallError. The handler
      was started before it was cancelled: its `_kwargs` were overwritten
      with the Call, and the Heartbeat handler's are untouched. */
  method LateNotification(now: string, app: Service, router: Router, heartbeat: Injected, status: Injected,
                          ticks: Service -> nat, uniqueId: string)
    returns (o: Outcome<Response>, trace: seq<Record>)
    requires Deployed(now, app, router, heartbeat, status) && ticks(Handler(status)) > 1
    modifies heartbeat, status
    ensures Deployed(now, app, router, heartbeat, status)
    ensures o == Ok(ErrorMsg(CallError(JStr(uniqueId), InternalErrorCode, InternalErrorDescription,
                                       Single("cause", JStr(TimeoutCause(JStr(StatusAction)))))))
    ensures trace == [Record(Request(uniqueId, StatusAction).raw, o.value)]
    ensures status.slots == Extract(old(status.slots), Request(uniqueId, StatusAction)).slots
    ensures old(status.Pristine()) ==>
              status.slots == [Filled(CallValue(Request(uniqueId, StatusAction).AsCall().value))]
    ensures heartbeat.slots == old(heartbeat.slots)
  {
    ghost var rs, hs := {router}, {heartbeat, status};
    DeployedClosed(now, app, router, heartbeat, status);
    var f := Request(uniqueId, StatusAction);
    var slow := Timeout(1, Handler(status));
    assert RouteLookup(router.routes, f) == Delegate(slow);
    EvalLogRoute(router, f, ticks, 1, rs, hs);
    EvalTimeoutLate(slow, f, ticks, 0, rs, hs);
    assert Reached(slow, f, 0, rs, hs) == Some(status);
    assert ApplySlot(Pending(FromCall), f) == Ok(CallValue(f.AsCall().value));
    o, trace := Serve(app, f, ticks, 1, rs, hs);
  }

  /** Three frames through the application. The first Heartbeat is
      answered with the time; the second one reaches a handler whose
      `_kwargs` already hold the first Call, and raises; the status
      notification outlives its timeout (it sleeps two seconds) and is
      answered with an `InternalError` CallError. Each answer is logged,
      the exception is not. */
  method Session(now: string) returns (first: Outcome<Response>, second: Outcome<Response>,
                                       late: Outcome<Response>, records: seq<Record>)
    ensures first == Ok(ResultMsg(CallResult(JStr("19223201"), Single("currentTime", JStr(now)))))
    ensures second == RaiseOther(TypeErrorClass, NotCallable(CallValue(Call(JStr("19223201"), JStr(HeartbeatAction), EmptyObject))))
    ensures late == Ok(ErrorMsg(CallError(JStr("19223203"), InternalErrorCode, InternalErrorDescription,
                                          Single("cause", JStr(TimeoutCause(JStr(StatusAction)))))))
    ensures records == [Record(Request("19223201", HeartbeatAction).raw, first.value),
                        Record(Request("19223203", StatusAction).raw, late.value)]
  {
    var app, router, heartbeat, status := Assemble(now);
    var ticks := (s: Service) => if s == Handler(status) then 2 else 0;
    var t1, t2, t3;
    first, t1 := FirstHeartbeat(now, app, router, heartbeat, status, ticks, "19223201");
    second, t2 := SecondHeartbeat(now, app, router, heartbeat, status, ticks, Request("19223201", HeartbeatAction).AsCall().value, "19223202");
    late, t3 := LateNotification(now, app, router, heartbeat, status, ticks, "19223203");
    records := t1 + t2 + t3;
  }
}
