/** The OCPP-J 1.6 message model of zeegat/messages.py: the Call a peer
    sends (section 4.2.1 of OCPP-J 1.6), the CallResult and CallError
    answering it (sections 4.2.2 and 4.2.3), `unpack`, and the conversion
    of a raised exception into a CallError.

    Raising is modelled by `Outcome`: a computation either returns a value
    or raises an `OCPPError` or raises some other exception. */
module Messages {
  import opened JsonData

  /** The message type numbers of section 4.1.3 of OCPP-J 1.6. */
  const CallTypeId: int := 2
  const CallResultTypeId: int := 3
  const CallErrorTypeId: int := 4

  /** An exception of the `ocpp.exceptions.OCPPError` family, reduced to the
      three attributes the core reads. */
  datatype OcppError = OcppError(code: string, description: string, details: Json)

  /** The class of an exception that is not an `OCPPError`: one of the
      builtin classes the core raises, or a class derived from another
      one. `TimeoutErrorClass` is the builtin `TimeoutError`, which
      `asyncio.TimeoutError` names. */
  datatype ErrorClass =
    | ExceptionClass
    | TypeErrorClass
    | IndexErrorClass
    | KeyErrorClass
    | AttributeErrorClass
    | RecursionErrorClass
    | TimeoutErrorClass
    | Derived(name: string, base: ErrorClass)

  /** `except asyncio.TimeoutError` catches the class: it is `TimeoutError`
      or derives from it. */
  predicate IsTimeoutError(c: ErrorClass)
  {
    match c
    case TimeoutErrorClass => true
    case Derived(_, b) => IsTimeoutError(b)
    case _ => false
  }

  /** Any raised exception: an `OCPPError`, or anything else (a defect, a
      type error, ...), which carries its class and its message. */
  datatype Exception =
    | OcppException(error: OcppError)
    | OtherException(cls: ErrorClass, message: string)

  /** What a Python call does: it returns a value or it raises. */
  datatype Outcome<+T> =
    | Ok(value: T)
    | RaiseOcpp(error: OcppError)
    | RaiseOther(cls: ErrorClass, message: string)
  {
    /** The exception raised, when one is. */
    function Raised(): (e: Exception)
      requires !Ok?
      ensures RaiseOcpp? <==> e.OcppException?
      ensures RaiseOther? ==> e == OtherException(cls, message)
    {
      if RaiseOcpp? then OcppException(error) else OtherException(cls, message)
    }

    /** The same exception, raised from a computation of another type. */
    function Propagate<U>(): (o: Outcome<U>)
      requires !Ok?
      ensures !o.Ok? && o.Raised() == Raised()
    {
      if RaiseOcpp? then RaiseOcpp(error) else RaiseOther(cls, message)
    }
  }

  /** The fixed triple `create_call_error` substitutes for any exception
      that is not an `OCPPError`. */
  const InternalErrorCode: string := "InternalError"
  const UnexpectedDescription: string := "An unexpected error occurred."

  /** A request, `[2, uniqueId, action, payload]` on the wire. The fields
      are decoded JSON values: `Call(*msg[1:])` checks nothing about them. */
  datatype Call = Call(uniqueId: Json, action: Json, payload: Json)
  {
    /** `create_call_result`: the answer correlated with this Call. */
    function CreateCallResult(result: Json): (r: CallResult)
      ensures r.uniqueId == uniqueId && r.payload == result
    {
      CallResult(uniqueId, result)
    }

    /** `create_call_error`: an `OCPPError` is copied field by field; any
        other exception becomes the fixed InternalError triple, so nothing
        of it reaches the wire. The unique id is always echoed. */
    function CreateCallError(ex: Exception): (r: CallError)
      ensures r.uniqueId == uniqueId
      ensures ex.OcppException? ==>
                && r.errorCode == ex.error.code
                && r.errorDescription == ex.error.description
                && r.errorDetails == ex.error.details
      ensures ex.OtherException? ==>
                && r.errorCode == InternalErrorCode
                && r.errorDescription == UnexpectedDescription
                && r.errorDetails == EmptyObject
    {
      var (code, description, details) :=
        match ex
        case OcppException(e) => (e.code, e.description, e.details)
        case OtherException(_, _) => (InternalErrorCode, UnexpectedDescription, EmptyObject);
      CallError(uniqueId, code, description, details)
    }

    /** `into_response`: the list form of the Call. Unpacking it gives the
        Call back. */
    function IntoResponse(): (j: Json)
      ensures Unpack(j) == Ok(this)
    {
      JArr([JNum(CallTypeId), uniqueId, action, payload])
    }
  }

  /** A successful answer, `[3, uniqueId, payload]` on the wire. */
  datatype CallResult = CallResult(uniqueId: Json, payload: Json)
  {
    /** `into_response`: the list form of section 4.2.2 of OCPP-J 1.6. */
    function IntoResponse(): (j: Json)
      ensures WireCallResult(j) == Some(this)
    {
      JArr([JNum(CallResultTypeId), uniqueId, payload])
    }
  }

  /** A failed answer, `[4, uniqueId, errorCode, errorDescription,
      errorDetails]` on the wire. */
  datatype CallError = CallError(uniqueId: Json, errorCode: string, errorDescription: string, errorDetails: Json)
  {
    /** `into_response`: the list form of section 4.2.3 of OCPP-J 1.6. */
    function IntoResponse(): (j: Json)
      ensures WireCallError(j) == Some(this)
    {
      JArr([JNum(CallErrorTypeId), uniqueId, JStr(errorCode), JStr(errorDescription), errorDetails])
    }
  }

  /** What a Service returns: something with `into_response`. The pipeline
      only ever produces the two answers. */
  datatype Response =
    | ResultMsg(result: CallResult)
    | ErrorMsg(error: CallError)
  {
    /** `into_response`: the list form of the answer. */
    function IntoResponse(): (j: Json)
      ensures ResultMsg? ==> WireCallResult(j) == Some(result)
      ensures ErrorMsg? ==> WireCallError(j) == Some(error)
    {
      match this
      case ResultMsg(r) => r.IntoResponse()
      case ErrorMsg(e) => e.IntoResponse()
    }
  }

  datatype Option<+T> = None | Some(value: T)

  /** Reads the list form of section 4.2.2 of OCPP-J 1.6; the reference
      the serialisation of a CallResult is checked against. */
  function WireCallResult(j: Json): Option<CallResult>
  {
    if j.JArr? && |j.items| == 3 && j.items[0] == JNum(CallResultTypeId)
    then Some(CallResult(j.items[1], j.items[2]))
    else None
  }

  /** Reads the list form of section 4.2.3 of OCPP-J 1.6. */
  function WireCallError(j: Json): Option<CallError>
  {
    if j.JArr? && |j.items| == 5 && j.items[0] == JNum(CallErrorTypeId)
       && j.items[2].JStr? && j.items[3].JStr?
    then Some(CallError(j.items[1], j.items[2].s, j.items[3].s, j.items[4]))
    else None
  }

  /** The message of the exception `unpack` raises for a tag other than 2. */
  function UnsupportedMessage(tag: Json): string
  {
    "Received unsupported message type " + Str(tag)
    + ". Project only supports receiving Calls as of now. "
  }

  /** The message of the TypeError raised by `Call(*args)` when `args` does
      not hold exactly the three fields `unique_id`, `action` and `payload`:
      the missing ones are named, or the count of positional arguments
      (`self` included) is given. */
  function ArityMessage(given: nat): string
  {
    if given == 0 then
      "Call.__init__() missing 3 required positional arguments: 'unique_id', 'action', and 'payload'"
    else if given == 1 then
      "Call.__init__() missing 2 required positional arguments: 'action' and 'payload'"
    else if given == 2 then
      "Call.__init__() missing 1 required positional argument: 'payload'"
    else "Call.__init__() takes 4 positional arguments but " + NatToString(given + 1) + " were given"
  }

  /** `unpack`, starting from the decoded message: `msg[0]` must be the
      Call tag 2, and the rest binds positionally to `Call(unique_id,
      action, payload)`. Each way `msg[0]` itself can fail in Python is
      kept: an empty list or string (IndexError), an object (KeyError 0,
      since JSON keys are strings), a scalar (TypeError). */
  function Unpack(msg: Json): (r: Outcome<Call>)
    ensures r.Ok? <==> msg.JArr? && |msg.items| == 4 && msg.items[0] == JNum(CallTypeId)
    ensures r.Ok? ==> r.value == Call(msg.items[1], msg.items[2], msg.items[3])
    ensures msg.JArr? && |msg.items| > 0 && msg.items[0] != JNum(CallTypeId) ==>
              r == RaiseOther(ExceptionClass, UnsupportedMessage(msg.items[0]))
    ensures msg.JArr? && |msg.items| > 0 && msg.items[0] == JNum(CallTypeId) && |msg.items| != 4 ==>
              r == RaiseOther(TypeErrorClass, ArityMessage(|msg.items| - 1))
    ensures (msg.JArr? && |msg.items| == 0) || (msg.JStr? && |msg.s| == 0) ==> r.RaiseOther? && r.cls == IndexErrorClass
    ensures msg.JObj? ==> r.RaiseOther? && r.cls == KeyErrorClass
    ensures msg.JNull? || msg.JBool? || msg.JNum? ==> r.RaiseOther? && r.cls == TypeErrorClass
    ensures !r.RaiseOcpp?
  {
    match msg
    case JArr(xs) =>
      if |xs| == 0 then RaiseOther(IndexErrorClass, "list index out of range")
      else if xs[0] != JNum(CallTypeId) then RaiseOther(ExceptionClass, UnsupportedMessage(xs[0]))
      else if |xs| != 4 then RaiseOther(TypeErrorClass, ArityMessage(|xs| - 1))
      else Ok(Call(xs[1], xs[2], xs[3]))
    case JStr(s) =>
      if |s| == 0 then RaiseOther(IndexErrorClass, "string index out of range")
      else RaiseOther(ExceptionClass, UnsupportedMessage(JStr([s[0]])))
    case JObj(_) => RaiseOther(KeyErrorClass, "0")
    case _ => RaiseOther(TypeErrorClass, "'" + TypeName(msg) + "' object is not subscriptable")
  }

  /** Parsing and serialising a Call are inverse: an accepted message is
      exactly the list form of the Call it unpacks to. */
  lemma UnpackRoundTrip(msg: Json)
    requires Unpack(msg).Ok?
    ensures Unpack(msg).value.IntoResponse() == msg
  {
  }

  /** The answers to an unpacked Call carry, in their list forms, the
      message's own unique id (element 1) under tags 3 and 4. */
  lemma AnswersEchoUniqueId(msg: Json, result: Json, ex: Exception)
    requires Unpack(msg).Ok?
    ensures Unpack(msg).value.CreateCallResult(result).IntoResponse()
            == JArr([JNum(CallResultTypeId), msg.items[1], result])
    ensures var j := Unpack(msg).value.CreateCallError(ex).IntoResponse();
            j.JArr? && |j.items| == 5 && j.items[0] == JNum(CallErrorTypeId) && j.items[1] == msg.items[1]
  {
  }

  /** A non-OCPP exception leaves no trace in the CallError: two such
      exceptions give the same answer, whatever their classes and
      messages. */
  lemma OtherExceptionsIndistinguishable(c: Call, k1: ErrorClass, m1: string, k2: ErrorClass, m2: string)
    ensures c.CreateCallError(OtherException(k1, m1)) == c.CreateCallError(OtherException(k2, m2))
  {
  }
}
