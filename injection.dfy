/** The handler adapter of zeegat/services.py: `_inject_dependencies`,
    `inject` and the errors they raise. At construction every parameter of
    the wrapped function is resolved, in declaration order, to an extractor;
    each invocation applies the extractors to the frame and calls the
    function with the results as keyword arguments.

    Reflection is replaced by data: a function is described by its ordered
    parameters (name and annotation) and by its globals (`scope`), and what
    the function, the overrides and the `from_frame` of other types compute
    is given as Dafny functions returning an `Outcome`. */
module Injection {
  import opened JsonData
  import opened Messages
  import opened Frames

  datatype Result<+T, +E> = Success(value: T) | Failure(error: E)

  /** A value passed to a handler: a Call, a Frame, or a value of some other
      type built by that type's `from_frame` or by an override. */
  datatype Value =
    | CallValue(call: Call)
    | FrameValue(frame: Frame)
    | Data(typeName: string, data: Json)

  function ValueTypeName(v: Value): string
  {
    match v
    case CallValue(_) => "Call"
    case FrameValue(_) => "Frame"
    case Data(t, _) => t
  }

  /** What a name in a function's globals is bound to: the class Call, the
      class Frame, or some other object, which may or may not have a
      `from_frame` attribute. `OtherType.name` stands for the object's
      `str()`, such as `<class 'app.Db'>`, which is what
      `UnsupportedTypeError` inserts. */
  datatype TypeRef =
    | CallClass
    | FrameClass
    | OtherType(name: string, fromFrame: Option<Frame -> Outcome<Value>>)

  function TypeRefName(t: TypeRef): string
  {
    match t
    case CallClass => "Call"
    case FrameClass => "Frame"
    case OtherType(n, _) => n
  }

  /** A parameter's annotation: none; a postponed annotation, which is the
      string naming the type (the case under `from __future__ import
      annotations`); or an evaluated annotation, which is the class itself. */
  datatype Annotation =
    | Empty
    | Postponed(name: string)
    | Evaluated(t: TypeRef)

  datatype Param = Param(name: string, annotation: Annotation)

  /** A callable `_inject_dependencies` can wrap: a user function, or the
      `from_frame` closure that an earlier `_inject_dependencies` returned
      (what `handler(inject(...)(fn))` wraps). */
  datatype Fn =
    | UserFn(qualname: string, params: seq<Param>, scope: map<string, TypeRef>,
             body: map<string, Value> -> Outcome<Response>)
    | InjectedFn(inner: Injected)

  /** The signature of the closure `from_frame(frame: Frame)`. zeegat's
      services module does not postpone annotations, so its annotation is
      the class Frame itself. */
  const ClosureParams: seq<Param> := [Param("frame", Evaluated(FrameClass))]

  function Signature(fn: Fn): seq<Param>
  {
    match fn
    case UserFn(_, ps, _, _) => ps
    case InjectedFn(_) => ClosureParams
  }

  /** `fn.__globals__`. For the closure they are the services module's
      globals, whose keys are strings; an evaluated annotation never finds
      a string key, so their contents do not matter. */
  function Scope(fn: Fn): map<string, TypeRef>
  {
    match fn
    case UserFn(_, _, scope, _) => scope
    case InjectedFn(_) => map[]
  }

  function QualName(fn: Fn): string
  {
    match fn
    case UserFn(q, _, _, _) => q
    case InjectedFn(_) => "zeegat.services.from_frame"
  }

  function ParamNames(ps: seq<Param>): (names: seq<string>)
    ensures |names| == |ps|
    ensures forall i :: 0 <= i < |ps| ==> names[i] == ps[i].name
  {
    seq(|ps|, i requires 0 <= i < |ps| => ps[i].name)
  }

  /** The errors raised while resolving a signature. */
  datatype InjectError =
    | MissingTypeHint(qualname: string, argument: string)
    | TypeNotInScope(key: string)
    | UnsupportedType(qualname: string, argument: string, typeName: string)
  {
    /** `str()` of the exception. */
    function Message(): string
    {
      match this
      case MissingTypeHint(q, a) =>
        "Argument '" + a + "' of callable '" + q + "()' is lacking a type hint."
      case TypeNotInScope(_) => "type not in scope"
      case UnsupportedType(q, a, t) =>
        "Argument '" + a + "' of callable '" + q + "()' has an incorrect type hint. It's of type "
        + t + ", but that type doesn't implement a `from_frame()` method."
    }
  }

  /** How one parameter's value is obtained at call time. */
  datatype Extractor =
    | FromCall                                              // Call.from_frame
    | FromFrame                                             // Frame.from_frame
    | FromType(typeName: string, extract: Frame -> Outcome<Value>)
    | Supplied(extract: Frame -> Outcome<Value>)              // a named override

  /** The look-up of an annotation in the globals (zeegat/services.py lines
      133-147): a postponed annotation is looked up by name; an evaluated
      one is a class, never a key of the globals, and is admitted only when
      it is the class Frame. A miss yields the key that was missing. */
  function ConcreteType(a: Annotation, scope: map<string, TypeRef>): (r: Result<TypeRef, string>)
    requires !a.Empty?
    ensures a.Postponed? ==> (r.Success? <==> a.name in scope)
    ensures a.Evaluated? ==> (r.Success? <==> a.t.FrameClass?)
    ensures r.Success? && a.Postponed? ==> r.value == scope[a.name]
    ensures r.Success? && a.Evaluated? ==> r.value.FrameClass?
  {
    match a
    case Postponed(n) => if n in scope then Success(scope[n]) else Failure(n)
    case Evaluated(t) => if t.FrameClass? then Success(FrameClass) else Failure(TypeRefName(t))
  }

  /** `concrete_type.from_frame`, when the type has that attribute. */
  function ExtractorOf(t: TypeRef): (r: Option<Extractor>)
    ensures r.None? <==> t.OtherType? && t.fromFrame.None?
  {
    match t
    case CallClass => Some(FromCall)
    case FrameClass => Some(FromFrame)
    case OtherType(n, ff) => if ff.Some? then Some(FromType(n, ff.value)) else None
  }

  /** One iteration of the loop of `_inject_dependencies` (lines 124-152):
      a named override wins before any check; otherwise the annotation must
      exist, must resolve in the globals, and the type it resolves to must
      have `from_frame`. */
  function ResolveParam(qualname: string, p: Param, scope: map<string, TypeRef>,
                        overrides: map<string, Frame -> Outcome<Value>>): (r: Result<Extractor, InjectError>)
    ensures p.name in overrides ==> r == Success(Supplied(overrides[p.name]))
    ensures p.name !in overrides && p.annotation.Empty? ==> r == Failure(MissingTypeHint(qualname, p.name))
    ensures p.name !in overrides && p.annotation.Postponed? && p.annotation.name !in scope ==>
              r == Failure(TypeNotInScope(p.annotation.name))
    ensures p.name !in overrides && p.annotation.Evaluated? && !p.annotation.t.FrameClass? ==>
              r.Failure? && r.error.TypeNotInScope?
    ensures p.name !in overrides && p.annotation.Evaluated? && p.annotation.t.FrameClass? ==>
              r == Success(FromFrame)
    ensures p.name !in overrides && p.annotation.Postponed? && p.annotation.name in scope ==>
              match ExtractorOf(scope[p.annotation.name])
              case Some(x) => r == Success(x)
              case None => r == Failure(UnsupportedType(qualname, p.name, TypeRefName(scope[p.annotation.name])))
  {
    if p.name in overrides then Success(Supplied(overrides[p.name]))
    else if p.annotation.Empty? then Failure(MissingTypeHint(qualname, p.name))
    else
      match ConcreteType(p.annotation, scope)
      case Failure(key) => Failure(TypeNotInScope(key))
      case Success(t) =>
        match ExtractorOf(t)
        case Some(x) => Success(x)
        case None => Failure(UnsupportedType(qualname, p.name, TypeRefName(t)))
  }

  /** The whole loop: the parameters are resolved in declaration order and
      the first failure is the error raised. */
  function Resolve(qualname: string, ps: seq<Param>, scope: map<string, TypeRef>,
                   overrides: map<string, Frame -> Outcome<Value>>): (r: Result<seq<Extractor>, InjectError>)
    ensures r.Success? ==> |r.value| == |ps|
  {
    if ps == [] then Success([])
    else
      match Resolve(qualname, ps[..|ps| - 1], scope, overrides)
      case Failure(e) => Failure(e)
      case Success(xs) =>
        match ResolveParam(qualname, ps[|ps| - 1], scope, overrides)
        case Failure(e) => Failure(e)
        case Success(x) => Success(xs + [x])
  }

  /** A signature resolves exactly when every parameter does, and then the
      extractors are the parameters' own, in declaration order. */
  lemma {:induction false} ResolveSucceeds(q: string, ps: seq<Param>, scope: map<string, TypeRef>,
                                           ov: map<string, Frame -> Outcome<Value>>)
    ensures Resolve(q, ps, scope, ov).Success? <==>
              forall j :: 0 <= j < |ps| ==> ResolveParam(q, ps[j], scope, ov).Success?
    ensures Resolve(q, ps, scope, ov).Success? ==>
              var xs := Resolve(q, ps, scope, ov).value;
              && |xs| == |ps|
              && forall j :: 0 <= j < |ps| ==> xs[j] == ResolveParam(q, ps[j], scope, ov).value
  {
    if ps != [] {
      var init := ps[..|ps| - 1];
      ResolveSucceeds(q, init, scope, ov);
      assert forall j :: 0 <= j < |init| ==> init[j] == ps[j];
    }
  }

  /** The first failing parameter decides the error: if every parameter
      before `k` resolves and parameter `k` does not, resolving the whole
      signature fails with parameter `k`'s error, whatever follows it. */
  lemma {:induction false} ResolveFailsAtFirst(q: string, ps: seq<Param>, scope: map<string, TypeRef>,
                                               ov: map<string, Frame -> Outcome<Value>>, k: nat)
    requires k < |ps|
    requires forall j :: 0 <= j < k ==> ResolveParam(q, ps[j], scope, ov).Success?
    requires ResolveParam(q, ps[k], scope, ov).Failure?
    ensures Resolve(q, ps, scope, ov) == Failure(ResolveParam(q, ps[k], scope, ov).error)
  {
    var init := ps[..|ps| - 1];
    if k == |ps| - 1 {
      ResolveSucceeds(q, init, scope, ov);
      assert forall j :: 0 <= j < |init| ==> init[j] == ps[j];
    } else {
      assert forall j :: 0 <= j <= k ==> init[j] == ps[j];
      ResolveFailsAtFirst(q, init, scope, ov, k);
    }
  }

  /** Conversely, a failure always has such a first failing parameter. */
  lemma {:induction false} ResolveFailureHasFirstCause(q: string, ps: seq<Param>, scope: map<string, TypeRef>,
                                                       ov: map<string, Frame -> Outcome<Value>>)
    requires Resolve(q, ps, scope, ov).Failure?
    ensures exists k :: 0 <= k < |ps|
              && (forall j :: 0 <= j < k ==> ResolveParam(q, ps[j], scope, ov).Success?)
              && ResolveParam(q, ps[k], scope, ov) == Failure(Resolve(q, ps, scope, ov).error)
  {
    var init := ps[..|ps| - 1];
    assert forall j :: 0 <= j < |init| ==> init[j] == ps[j];
    if Resolve(q, init, scope, ov).Failure? {
      ResolveFailureHasFirstCause(q, init, scope, ov);
      var k :| 0 <= k < |init|
              && (forall j :: 0 <= j < k ==> ResolveParam(q, init[j], scope, ov).Success?)
              && ResolveParam(q, init[k], scope, ov) == Failure(Resolve(q, init, scope, ov).error);
      assert ps[k] == init[k];
    } else {
      ResolveSucceeds(q, init, scope, ov);
      var k := |ps| - 1;
      assert forall j :: 0 <= j < k ==> ResolveParam(q, ps[j], scope, ov).Success?;
    }
  }

  /** An entry of `_kwargs`: an extractor still to be applied, or the value
      that `from_frame` wrote over it. */
  datatype Slot = Pending(extractor: Extractor) | Filled(value: Value)

  function Pendings(xs: seq<Extractor>): (s: seq<Slot>)
    ensures |s| == |xs|
    ensures forall i :: 0 <= i < |xs| ==> s[i] == Pending(xs[i])
  {
    seq(|xs|, i requires 0 <= i < |xs| => Pending(xs[i]))
  }

  function Fills(vs: seq<Value>): (s: seq<Slot>)
    ensures |s| == |vs|
    ensures forall i :: 0 <= i < |vs| ==> s[i] == Filled(vs[i])
  {
    seq(|vs|, i requires 0 <= i < |vs| => Filled(vs[i]))
  }

  /** Applying an extractor to the frame. */
  function ApplyExtractor(x: Extractor, f: Frame): (r: Outcome<Value>)
    ensures x.FromFrame? ==> r == Ok(FrameValue(f))
    ensures x.FromCall? ==> (r.Ok? <==> CallFromFrame(f).Ok?)
    ensures x.FromCall? && r.Ok? ==> r.value == CallValue(CallFromFrame(f).value)
    ensures x.FromCall? && !r.Ok? ==> r == CallFromFrame(f).Propagate()
    ensures x.FromType? || x.Supplied? ==> r == x.extract(f)
  {
    match x
    case FromCall => var c := CallFromFrame(f); if c.Ok? then Ok(CallValue(c.value)) else c.Propagate()
    case FromFrame => Ok(FrameValue(Frame.FromFrame(f)))
    case FromType(_, g) => g(f)
    case Supplied(g) => g(f)
  }

  /** The message of the TypeError raised by calling a value that is not
      callable. */
  function NotCallable(v: Value): string
  {
    "'" + ValueTypeName(v) + "' object is not callable"
  }

  /** `callable(frame)` for an entry of `_kwargs`: once an entry holds an
      extracted value, calling it raises a TypeError (a Call, a Frame and
      the values built for other types are not callable). */
  function ApplySlot(s: Slot, f: Frame): (r: Outcome<Value>)
    ensures s.Pending? ==> r == ApplyExtractor(s.extractor, f)
    ensures s.Filled? ==> r == RaiseOther(TypeErrorClass, NotCallable(s.value))
  {
    match s
    case Pending(x) => ApplyExtractor(x, f)
    case Filled(v) => RaiseOther(TypeErrorClass, NotCallable(v))
  }

  /** The state of `_kwargs` after the loop of `from_frame`, and what that
      loop produced: the values, or the exception that stopped it. */
  datatype Extraction = Extraction(slots: seq<Slot>, outcome: Outcome<seq<Value>>)

  /** Lines 155-156: every entry, in order, is replaced by the result of
      calling it on the frame; the first call that raises stops the loop
      with the earlier entries already overwritten. */
  function Extract(slots: seq<Slot>, f: Frame): (x: Extraction)
    ensures |x.slots| == |slots|
    ensures x.outcome.Ok? ==> |x.outcome.value| == |slots|
  {
    if slots == [] then Extraction([], Ok([]))
    else
      match ApplySlot(slots[0], f)
      case Ok(v) =>
        var rest := Extract(slots[1..], f);
        Extraction([Filled(v)] + rest.slots,
                   if rest.outcome.Ok? then Ok([v] + rest.outcome.value) else rest.outcome)
      case _ => Extraction(slots, ApplySlot(slots[0], f).Propagate())
  }

  /** After a successful loop every entry holds the value extracted for it
      in place of its extractor. */
  lemma {:induction false} ExtractFills(slots: seq<Slot>, f: Frame)
    requires Extract(slots, f).outcome.Ok?
    ensures var x := Extract(slots, f);
            && |x.outcome.value| == |slots|
            && x.slots == Fills(x.outcome.value)
            && forall j :: 0 <= j < |slots| ==> ApplySlot(slots[j], f) == Ok(x.outcome.value[j])
  {
    if slots != [] {
      ExtractFills(slots[1..], f);
    }
  }

  /** How many leading entries can be called without raising. */
  function StopIndex(slots: seq<Slot>, f: Frame): (k: nat)
    ensures k <= |slots|
  {
    if slots == [] || !ApplySlot(slots[0], f).Ok? then 0 else 1 + StopIndex(slots[1..], f)
  }

  /** The loop stops exactly at the first raising entry `k`, with the
      exception that entry raised; entries before `k` are overwritten and
      entry `k` and those after it are left as they were. */
  lemma {:induction false} ExtractStops(slots: seq<Slot>, f: Frame)
    ensures var k := StopIndex(slots, f);
            var x := Extract(slots, f);
            && (x.outcome.Ok? <==> k == |slots|)
            && (k < |slots| ==> && !ApplySlot(slots[k], f).Ok?
                                && x.outcome == ApplySlot(slots[k], f).Propagate()
                                && x.slots[k..] == slots[k..])
            && (forall j :: 0 <= j < k ==>
                  ApplySlot(slots[j], f).Ok? && x.slots[j] == Filled(ApplySlot(slots[j], f).value))
  {
    if slots != [] && ApplySlot(slots[0], f).Ok? {
      var rest := slots[1..];
      ExtractStops(rest, f);
      var k := StopIndex(rest, f);
      var x := Extract(slots, f);
      assert x.slots == [Filled(ApplySlot(slots[0], f).value)] + Extract(rest, f).slots;
      if k < |rest| {
        assert x.slots[k + 1..] == Extract(rest, f).slots[k..];
        assert slots[k + 1..] == rest[k..];
      }
      forall j | 1 <= j < k + 1
        ensures ApplySlot(slots[j], f).Ok? && x.slots[j] == Filled(ApplySlot(slots[j], f).value)
      {
        assert slots[j] == rest[j - 1];
      }
    }
  }

  /** The quirk of lines 154-158: after one successful invocation with at
      least one parameter, a second invocation, on any frame, raises a
      TypeError, because the first entry of `_kwargs` now holds a value
      instead of a callable. */
  lemma SecondInvocationRaises(slots: seq<Slot>, f: Frame, g: Frame)
    requires |slots| > 0
    requires Extract(slots, f).outcome.Ok?
    ensures Extract(Extract(slots, f).slots, g).outcome
            == RaiseOther(TypeErrorClass, NotCallable(Extract(slots, f).outcome.value[0]))
  {
  }

  /** The evidently intended extraction: apply every extractor to the frame
      without writing the results back. */
  function ExtractFresh(xs: seq<Extractor>, f: Frame): Outcome<seq<Value>>
  {
    if xs == [] then Ok([])
    else
      match ApplyExtractor(xs[0], f)
      case Ok(v) =>
        var rest := ExtractFresh(xs[1..], f);
        if rest.Ok? then Ok([v] + rest.value) else rest
      case _ => ApplyExtractor(xs[0], f).Propagate()
  }

  /** On entries not yet overwritten, the loop as written computes what the
      intended extraction computes. */
  lemma {:induction false} ExtractFreshAgrees(xs: seq<Extractor>, f: Frame)
    ensures Extract(Pendings(xs), f).outcome == ExtractFresh(xs, f)
  {
    if xs != [] {
      assert Pendings(xs)[1..] == Pendings(xs[1..]);
      ExtractFreshAgrees(xs[1..], f);
    }
  }

  /** `fn(**_kwargs)`: the keyword arguments, parameter name to value. */
  function Kwargs(names: seq<string>, vs: seq<Value>): (m: map<string, Value>)
    requires |names| == |vs|
    ensures m.Keys == set i | 0 <= i < |names| :: names[i]
    ensures |names| > 0 ==> m[names[|names| - 1]] == vs[|vs| - 1]
  {
    if names == [] then map[]
    else Kwargs(names[..|names| - 1], vs[..|vs| - 1])[names[|names| - 1] := vs[|vs| - 1]]
  }

  /** With distinct names, as a signature's are, every value is passed
      under its own parameter's name. */
  lemma {:induction false} KwargsByName(names: seq<string>, vs: seq<Value>)
    requires |names| == |vs|
    requires forall i, j :: 0 <= i < j < |names| ==> names[i] != names[j]
    ensures forall i :: 0 <= i < |names| ==> Kwargs(names, vs)[names[i]] == vs[i]
  {
    if names != [] {
      var init, vinit := names[..|names| - 1], vs[..|vs| - 1];
      KwargsByName(init, vinit);
      assert forall i :: 0 <= i < |init| ==> init[i] == names[i] && vinit[i] == vs[i];
    }
  }

  /** The message of the exception raised when an override hands the
      closure's `frame` parameter something that is not a Frame. */
  const NotAFrame: string := "'frame' was not given a Frame"

  /** That exception. */
  const NotAFrameError: Outcome<Response> := RaiseOther(TypeErrorClass, NotAFrame)

  /** The closure `from_frame` that `_inject_dependencies` returns, with
      the dictionary `_kwargs` it closes over: `names` are its keys in
      insertion order, `slots` its values, which the closure overwrites. */
  class Injected {
    const fn: Fn
    const names: seq<string>
    /** The extractors resolved at construction: what `_kwargs` held at
        first. */
    const extractors: seq<Extractor>
    var slots: seq<Slot>
    /** This closure and the closures it wraps. */
    ghost const Repr: set<Injected>

    ghost predicate Shaped()
      decreases Repr
    {
      && this in Repr
      && |extractors| == |names|
      && names == ParamNames(Signature(fn))
      && match fn
         case UserFn(_, _, _, _) => Repr == {this}
         case InjectedFn(inner) =>
           && Repr == {this} + inner.Repr
           && this !in inner.Repr
           && inner.Shaped()
    }

    ghost predicate Valid()
      reads Repr
    {
      && Shaped()
      && forall x :: x in Repr ==> |x.slots| == |x.names|
    }

    /** No closure of the chain has been invoked: every entry of every
        `_kwargs` still holds its extractor. */
    ghost predicate Pristine()
      reads Repr
    {
      forall x :: x in Repr ==> x.slots == Pendings(x.extractors)
    }

    constructor (fn: Fn, extractors: seq<Extractor>)
      requires |extractors| == |Signature(fn)|
      requires fn.InjectedFn? ==> fn.inner.Valid()
      ensures Valid()
      ensures this.fn == fn && this.extractors == extractors
      ensures names == ParamNames(Signature(fn))
      ensures slots == Pendings(extractors)
      ensures Repr == {this} + (if fn.InjectedFn? then fn.inner.Repr else {})
    {
      this.fn := fn;
      this.names := ParamNames(Signature(fn));
      this.extractors := extractors;
      this.slots := Pendings(extractors);
      this.Repr := {this} + (if fn.InjectedFn? then fn.inner.Repr else {});
    }

    /** The intended behaviour of an invocation: resolve every parameter
        from this frame and call the function; nothing is remembered. */
    function CallFresh(f: Frame): (o: Outcome<Response>)
      requires Shaped()
      decreases Repr
      ensures !ExtractFresh(extractors, f).Ok? ==> o == ExtractFresh(extractors, f).Propagate()
      ensures fn.UserFn? && ExtractFresh(extractors, f).Ok? ==>
                |ExtractFresh(extractors, f).value| == |names|
                && o == fn.body(Kwargs(names, ExtractFresh(extractors, f).value))
    {
      ExtractFreshLength(extractors, f);
      var x := ExtractFresh(extractors, f);
      if !x.Ok? then x.Propagate()
      else
        match fn
        case UserFn(_, _, _, body) => body(Kwargs(names, x.value))
        case InjectedFn(inner) =>
          if x.value[0].FrameValue? then inner.CallFresh(x.value[0].frame) else NotAFrameError
    }

    /** What invoking the closure now returns, computed from the current
        contents of `_kwargs` (and of the wrapped closures' `_kwargs`). */
    ghost function AsWritten(f: Frame): Outcome<Response>
      requires Valid()
      reads Repr
      decreases Repr
    {
      var x := Extract(slots, f).outcome;
      if !x.Ok? then x.Propagate()
      else
        match fn
        case UserFn(_, _, _, body) => body(Kwargs(names, x.value))
        case InjectedFn(inner) =>
          if x.value[0].FrameValue? then inner.AsWritten(x.value[0].frame) else NotAFrameError
    }

    /** On a closure chain that has never been invoked, the code as written
        behaves as intended. */
    lemma {:induction false} AsWrittenWhenPristine(f: Frame)
      requires Valid() && Pristine()
      ensures AsWritten(f) == CallFresh(f)
      decreases Repr
    {
      ExtractFreshAgrees(extractors, f);
      ExtractFreshLength(extractors, f);
      var x := ExtractFresh(extractors, f);
      if x.Ok? && fn.InjectedFn? && x.value[0].FrameValue? {
        fn.inner.AsWrittenWhenPristine(x.value[0].frame);
      }
    }

    /** `from_frame(frame)` as written (lines 154-158): the loop overwrites
        `_kwargs` entry by entry, then the function is called with the
        values; the wrapped closure, if any, is invoked in turn. */
    method Invoke(f: Frame) returns (o: Outcome<Response>)
      requires Valid()
      modifies Repr
      decreases Repr
      ensures Valid()
      ensures o == old(AsWritten(f))
      ensures slots == Extract(old(slots), f).slots
      ensures !Extract(old(slots), f).outcome.Ok? ==>
                forall x :: x in Repr && x != this ==> x.slots == old(x.slots)
      ensures old(Pristine()) ==> o == CallFresh(f)
    {
      if Pristine() {
        AsWrittenWhenPristine(f);
      }
      var x := Overwrite(f);
      if !x.Ok? {
        o := x.Propagate();
        return;
      }
      match fn
      case UserFn(_, _, _, body) =>
        o := body(Kwargs(names, x.value));
      case InjectedFn(inner) =>
        if x.value[0].FrameValue? {
          o := inner.Invoke(x.value[0].frame);
        } else {
          o := NotAFrameError;
        }
    }

    /** The loop of lines 155-156 on its own: `_kwargs` is overwritten entry
        by entry until an entry raises. */
    method Overwrite(f: Frame) returns (x: Outcome<seq<Value>>)
      modifies this
      ensures slots == Extract(old(slots), f).slots
      ensures x == Extract(old(slots), f).outcome
    {
      ghost var s0 := slots;
      var vals: seq<Value> := [];
      var i := 0;
      assert s0[0..] == s0 && Fills([]) + Extract(s0, f).slots == Extract(s0, f).slots;
      assert Extract(s0, f).outcome.Ok? ==> [] + Extract(s0, f).outcome.value == Extract(s0, f).outcome.value;
      while i < |slots|
        invariant 0 <= i <= |slots| == |s0|
        invariant |vals| == i
        invariant slots == Fills(vals) + s0[i..]
        invariant Extract(s0, f) == Extraction(Fills(vals) + Extract(s0[i..], f).slots,
                                               Prepend(vals, Extract(s0[i..], f).outcome))
      {
        OverwriteAt(s0, vals, i);
        var a := ApplySlot(slots[i], f);
        if !a.Ok? {
          OverwriteStops(s0, vals, i, f);
          return a.Propagate();
        }
        OverwriteAdvances(s0, vals, i, f);
        slots := slots[i := Filled(a.value)];
        vals := vals + [a.value];
        i := i + 1;
      }
      assert s0[i..] == [];
      assert vals + [] == vals;
      x := Ok(vals);
    }
  }

  /** One step of the loop, seen from the specification: the entry at `i`
      either yields a value and the rest is extracted, or stops the loop. */
  lemma ExtractAt(s0: seq<Slot>, i: nat, f: Frame)
    requires i < |s0|
    ensures var a := ApplySlot(s0[i], f);
            var rest := Extract(s0[i + 1..], f);
            && (a.Ok? ==> Extract(s0[i..], f)
                          == Extraction([Filled(a.value)] + rest.slots,
                                        if rest.outcome.Ok? then Ok([a.value] + rest.outcome.value) else rest.outcome))
            && (!a.Ok? ==> Extract(s0[i..], f) == Extraction(s0[i..], a.Propagate()))
  {
  }

  /** One step of the loop, seen from `_kwargs`: overwriting entry `i`
      extends the overwritten prefix by one. */
  lemma OverwriteAt(s0: seq<Slot>, vals: seq<Value>, i: nat)
    requires |vals| == i < |s0|
    ensures (Fills(vals) + s0[i..])[i] == s0[i]
    ensures forall v :: (Fills(vals) + s0[i..])[i := Filled(v)] == Fills(vals + [v]) + s0[i + 1..]
  {
  }

  /** The loop of `Overwrite` stopped by entry `i` ends in the specified
      state. */
  lemma OverwriteStops(s0: seq<Slot>, vals: seq<Value>, i: nat, f: Frame)
    requires |vals| == i < |s0| && !ApplySlot(s0[i], f).Ok?
    requires Extract(s0, f) == Extraction(Fills(vals) + Extract(s0[i..], f).slots,
                                          Prepend(vals, Extract(s0[i..], f).outcome))
    ensures Extract(s0, f) == Extraction(Fills(vals) + s0[i..], ApplySlot(s0[i], f).Propagate())
  {
  }

  /** An entry that yields a value extends the specified state by one. */
  lemma OverwriteAdvances(s0: seq<Slot>, vals: seq<Value>, i: nat, f: Frame)
    requires |vals| == i < |s0| && ApplySlot(s0[i], f).Ok?
    requires Extract(s0, f) == Extraction(Fills(vals) + Extract(s0[i..], f).slots,
                                          Prepend(vals, Extract(s0[i..], f).outcome))
    ensures var v := ApplySlot(s0[i], f).value;
            Extract(s0, f) == Extraction(Fills(vals + [v]) + Extract(s0[i + 1..], f).slots,
                                         Prepend(vals + [v], Extract(s0[i + 1..], f).outcome))
  {
    var v := ApplySlot(s0[i], f).value;
    var rest := Extract(s0[i + 1..], f);
    ExtractAt(s0, i, f);
    PrependStep(vals, v, rest.outcome);
    FillsSnoc(vals, v, rest.slots);
  }

  lemma FillsSnoc(vals: seq<Value>, v: Value, rest: seq<Slot>)
    ensures Fills(vals) + ([Filled(v)] + rest) == Fills(vals + [v]) + rest
  {
  }

  function Prepend(vs: seq<Value>, o: Outcome<seq<Value>>): Outcome<seq<Value>>
  {
    if o.Ok? then Ok(vs + o.value) else o
  }

  lemma PrependStep(vs: seq<Value>, v: Value, o: Outcome<seq<Value>>)
    ensures Prepend(vs, if o.Ok? then Ok([v] + o.value) else o) == Prepend(vs + [v], o)
  {
    if o.Ok? {
      assert vs + ([v] + o.value) == (vs + [v]) + o.value;
    }
  }

  lemma {:induction false} ExtractFreshLength(xs: seq<Extractor>, f: Frame)
    ensures ExtractFresh(xs, f).Ok? ==> |ExtractFresh(xs, f).value| == |xs|
  {
    if xs != [] {
      ExtractFreshLength(xs[1..], f);
    }
  }

  /** `_inject_dependencies(fn, **overrides)`: the loop of lines 123-152
      resolves every parameter or raises; on success the closure starts
      with every `_kwargs` entry holding its extractor. */
  method InjectDependencies(fn: Fn, overrides: map<string, Frame -> Outcome<Value>>)
    returns (r: Result<Injected, InjectError>)
    requires fn.InjectedFn? ==> fn.inner.Valid()
    ensures var res := Resolve(QualName(fn), Signature(fn), Scope(fn), overrides);
            && (r.Failure? <==> res.Failure?)
            && (r.Failure? ==> r.error == res.error)
            && (r.Success? ==> && fresh(r.value) && r.value.Valid()
                               && r.value.fn == fn
                               && r.value.extractors == res.value
                               && r.value.slots == Pendings(res.value)
                               && r.value.Repr == {r.value} + (if fn.InjectedFn? then fn.inner.Repr else {}))
  {
    var ps := Signature(fn);
    var q := QualName(fn);
    var scope := Scope(fn);
    var xs: seq<Extractor> := [];
    for i := 0 to |ps|
      invariant Resolve(q, ps[..i], scope, overrides) == Success(xs)
      invariant |xs| == i
    {
      assert ps[..i + 1][..i] == ps[..i];
      var x := ResolveParam(q, ps[i], scope, overrides);
      if x.Failure? {
        ResolvePrefixFailure(q, ps, scope, overrides, i + 1);
        return Failure(x.error);
      }
      xs := xs + [x.value];
    }
    assert ps[..|ps|] == ps;
    var h := new Injected(fn, xs);
    return Success(h);
  }

  /** A failing prefix makes the whole signature fail with its error. */
  lemma {:induction false} ResolvePrefixFailure(q: string, ps: seq<Param>, scope: map<string, TypeRef>,
                                                ov: map<string, Frame -> Outcome<Value>>, k: nat)
    requires k <= |ps|
    requires Resolve(q, ps[..k], scope, ov).Failure?
    ensures Resolve(q, ps, scope, ov) == Resolve(q, ps[..k], scope, ov)
    decreases |ps| - k
  {
    if k < |ps| {
      assert ps[..k + 1][..k] == ps[..k];
      ResolvePrefixFailure(q, ps, scope, ov, k + 1);
    } else {
      assert ps[..k] == ps;
    }
  }

  /** `inject(**overrides)(fn)`: the decorator resolves `fn` with the named
      overrides. */
  method Inject(overrides: map<string, Frame -> Outcome<Value>>, fn: Fn)
    returns (r: Result<Injected, InjectError>)
    requires fn.InjectedFn? ==> fn.inner.Valid()
    ensures var res := Resolve(QualName(fn), Signature(fn), Scope(fn), overrides);
            && (r.Failure? <==> res.Failure?)
            && (r.Failure? ==> r.error == res.error)
            && (r.Success? ==> && fresh(r.value) && r.value.Valid()
                               && r.value.fn == fn
                               && r.value.extractors == res.value
                               && r.value.slots == Pendings(res.value)
                               && r.value.Repr == {r.value} + (if fn.InjectedFn? then fn.inner.Repr else {}))
  {
    r := InjectDependencies(fn, overrides);
  }
}
