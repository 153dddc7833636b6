/** signalfx_tracing.utils: importing a library by name, the instrumented marker,
    and the tracer precedence every adapter applies. */
module Utils {
  import opened Py
  import opened Runtime
  import Constants

  /** The marker attribute of the module named m. */
  function Marker(m: string): Attr {
    Attr(m, Constants.InstrumentedAttr)
  }

  /** get_module(name): import the module unless sys.modules already holds it, then
      return the sys.modules entry. A module the import system cannot locate raises ImportError. */
  method GetModule(p: Process, name: string) returns (r: Result<string>)
    modifies p`modules
    ensures old(p.Valid()) ==> p.Valid()
    ensures r.Ok? <==> old(p.Locatable(name))
    ensures r.Ok? ==> r.value == name && p.modules == old(p.modules) + {name}
    ensures r.Err? ==> r.error == ImportError(name) && p.modules == old(p.modules)
  {
    if name !in p.modules {
      if name !in p.importable {
        return Err(ImportError(name));
      }
      p.modules := p.modules + {name};
    }
    return Ok(name);
  }

  /** is_instrumented(module): bool(getattr(module, marker, False)). */
  function IsInstrumented(p: Process, m: string): (r: bool)
    reads p
    ensures Marker(m) !in p.attrs ==> !r
    ensures p.Valid() ==> (r <==> Marker(m) in p.attrs)
  {
    Marker(m) in p.attrs && Truthy(p.attrs[Marker(m)])
  }

  /** mark_instrumented(module): the marker is stored as True. */
  method MarkInstrumented(p: Process, m: string)
    requires p.Valid() && m in p.modules
    modifies p`attrs
    ensures p.Valid()
    ensures p.attrs == old(p.attrs)[Marker(m) := Bool(true)]
    ensures IsInstrumented(p, m)
  {
    p.attrs := p.attrs[Marker(m) := Bool(true)];
  }

  /** mark_uninstrumented(module): the marker is deleted; an absent marker is not an error. */
  method MarkUninstrumented(p: Process, m: string)
    requires p.Valid()
    modifies p`attrs
    ensures p.Valid()
    ensures p.attrs == old(p.attrs) - {Marker(m)}
    ensures !IsInstrumented(p, m)
  {
    p.attrs := p.attrs - {Marker(m)};
  }

  /** No marker changed except possibly the one of module m. */
  ghost predicate MarkersUnchangedExcept(before: map<Attr, Value>, after: map<Attr, Value>, m: string) {
    forall x :: x != m ==>
      (Marker(x) in before <==> Marker(x) in after) &&
      (Marker(x) in before ==> before[Marker(x)] == after[Marker(x)])
  }

  /** `tracer or config.tracer or opentracing.tracer`: config is read only when the argument
      is falsy, and raises AttributeError once its `tracer` field has been deleted. */
  function ResolveTracer(arg: Value, fields: map<string, Value>, global: Value): Result<Value> {
    if Truthy(arg) then Ok(arg)
    else if "tracer" !in fields then Err(AttributeError("Config", "tracer"))
    else Ok(Or(fields["tracer"], global))
  }

  /** The resolved tracer is the first truthy one of the three, and it is the global tracer
      whenever neither the argument nor the config names one. */
  lemma ResolvedTracerIsFirstTruthy(arg: Value, fields: map<string, Value>, global: Value)
    ensures ResolveTracer(arg, fields, global).Ok? <==> Truthy(arg) || "tracer" in fields
    ensures ResolveTracer(arg, fields, global).Err? ==>
            ResolveTracer(arg, fields, global).error == AttributeError("Config", "tracer")
    ensures ResolveTracer(arg, fields, global).Ok? ==>
      var t := ResolveTracer(arg, fields, global).value;
      && (Truthy(arg) ==> t == arg)
      && (!Truthy(arg) && Truthy(fields["tracer"]) ==> t == fields["tracer"])
      && (!Truthy(arg) && !Truthy(fields["tracer"]) ==> t == global)
      && (Truthy(t) <==> Truthy(arg) || Truthy(fields["tracer"]) || Truthy(global))
  {
  }

  /** The attribute map after an adapter's instrument wraps attribute a and marks module m. */
  function WrappedAndMarked(attrs: map<Attr, Value>, a: Attr, wrapper: Value, m: string): map<Attr, Value>
    requires WrapIn(attrs, a, wrapper).Ok?
  {
    WrapIn(attrs, a, wrapper).value[Marker(m) := Bool(true)]
  }

  /** The attribute map after an adapter's uninstrument reverts attribute a and unmarks module m. */
  function RevertedAndUnmarked(attrs: map<Attr, Value>, a: Attr, m: string): map<Attr, Value> {
    Reverted(attrs, a) - {Marker(m)}
  }

  /** Instrument followed by uninstrument of a one-attribute adapter gives back the attribute
      map exactly when the attribute was the owner's own, and otherwise leaves the inherited
      built-in behind as an own attribute. */
  lemma WrapMarkRoundTrip(attrs: map<Attr, Value>, a: Attr, wrapper: Value, m: string)
    requires Marker(m) !in attrs && a.name != Constants.InstrumentedAttr
    requires WrapIn(attrs, a, wrapper).Ok?
    ensures a in attrs ==> RevertedAndUnmarked(WrappedAndMarked(attrs, a, wrapper, m), a, m) == attrs
    ensures a !in attrs ==>
      RevertedAndUnmarked(WrappedAndMarked(attrs, a, wrapper, m), a, m) == attrs[a := Builtin("object." + a.name)]
  {
    var wrapped := WrapIn(attrs, a, wrapper).value;
    WrapThenRevertRestores(attrs, a, wrapper);
    assert Reverted(wrapped[Marker(m) := Bool(true)], a) == Reverted(wrapped, a)[Marker(m) := Bool(true)];
  }

  /** Importing twice gives the same module, and the second import changes nothing. */
  method GetModuleTwice(p: Process, name: string) returns (r1: Result<string>, r2: Result<string>)
    modifies p`modules
    ensures r1 == r2
    ensures r1.Ok? ==> name in p.modules
  {
    r1 := GetModule(p, name);
    r2 := GetModule(p, name);
  }

  /** Marking then unmarking leaves the attribute map as it was on an unmarked module. */
  method MarkThenUnmark(p: Process, m: string)
    requires p.Valid() && m in p.modules && Marker(m) !in p.attrs
    modifies p`attrs
    ensures p.Valid() && p.attrs == old(p.attrs)
  {
    MarkInstrumented(p, m);
    MarkUninstrumented(p, m);
  }
}
