/** The frame holder of zeegat/frame.py: an immutable wrapper around the
    payload received from the transport. The payload is modelled as the
    JSON value `json.loads` decodes from it (the text codec is not part of
    this model). */
module Frames {
  import opened JsonData
  import opened Messages

  /** `Frame(frame)`; `_frame` is set once and never reassigned, so the
      frame is a value. */
  datatype Frame = Frame(raw: Json)
  {
    /** `as_call`: unpacks the stored payload. */
    function AsCall(): (r: Outcome<Call>)
      ensures r.Ok? <==> raw.JArr? && |raw.items| == 4 && raw.items[0] == JNum(CallTypeId)
      ensures r.Ok? ==> r.value.IntoResponse() == raw
      ensures !r.RaiseOcpp?
    {
      if Unpack(raw).Ok? then UnpackRoundTrip(raw); Unpack(raw) else Unpack(raw)
    }

    /** `as_bytes`: the payload given to the constructor. */
    function AsBytes(): (b: Json)
      ensures Frame(b) == this
    {
      raw
    }

    /** `Frame.from_frame`: the extraction capability of the Frame type
        hands back the frame it is given. */
    static function FromFrame(f: Frame): (r: Frame)
      ensures r.AsBytes() == f.AsBytes()
    {
      f
    }
  }

  /** `Call.from_frame(frame)`, which is `frame.as_call()`. It is declared
      here rather than in Messages because it takes a Frame. */
  function CallFromFrame(f: Frame): (r: Outcome<Call>)
    ensures r == Unpack(f.raw)
  {
    f.AsCall()
  }

  /** Nothing changes the stored payload: two `as_call()` calls on one
      frame, or on two frames built from the same payload, agree, and they
      fail exactly when `unpack` of that payload fails. */
  lemma AsCallDeterministic(f: Frame, g: Frame)
    requires f.AsBytes() == g.AsBytes()
    ensures f.AsCall() == g.AsCall() == Unpack(f.AsBytes())
  {
  }
}
