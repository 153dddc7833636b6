/** signalfx_tracing.libraries.celery_.instrument: redirects celery's Celery.__new__ to
    celery_opentracing.CeleryTracing and wraps CeleryTracing.__init__ so that each app is built
    with the configured tracer, propagation flag and span tags besides the caller's arguments. */
module Celery {
  import opened Py
  import opened Runtime
  import opened Utils
  import opened ClassNew
  import ConfigNamespace

  /** The fields the module-level config is created with. */
  function DefaultConfig(): map<string, Value> {
    map["propagate" := Bool(true), "span_tags" := None, "tracer" := None]
  }

  const CeleryPatch: Patch :=
    Patch("celery.app.base.Celery", CeleryNew, "celery_new",
          "celery_opentracing.CeleryTracing", CeleryTracingNew, "celery_tracing_new")

  const InitAttr: Attr := Attr("celery_opentracing.CeleryTracing", "__init__")

  /** The inner celery_tracing_init, which captured instrument's tracer argument. */
  function Wrapper(tracer: Value): Value {
    Closure("celery_tracing_init", tracer)
  }

  /** The keywords celery_tracing_init adds. */
  const Injected: set<string> := {"tracer", "propagate", "span_tags"}

  /** The arguments celery_tracing_init passes to the original __init__: the caller's positional
      and keyword arguments plus `tracer`, `propagate=config.propagate` and
      `span_tags=config.span_tags or {}`; a caller keyword of the same name raises TypeError. */
  function CeleryTracingInit(tracer: Value, fields: map<string, Value>, global: Value, caller: Arguments): Result<Arguments> {
    var t :- ResolveTracer(tracer, fields, global);
    var propagate :- ConfigNamespace.Attribute(fields, "propagate");
    var tags :- ConfigNamespace.Attribute(fields, "span_tags");
    if exists k :: k in caller.kwargs && k in Injected then Err(TypeError("got multiple values for keyword argument"))
    else Ok(Arguments(caller.args, caller.kwargs + map["tracer" := t, "propagate" := propagate, "span_tags" := Or(tags, Dict(map[]))]))
  }

  /** The call fails exactly on a missing config field or a keyword that clashes with an injected one. */
  lemma CeleryTracingInitSucceeds(tracer: Value, fields: map<string, Value>, global: Value, caller: Arguments)
    ensures CeleryTracingInit(tracer, fields, global, caller).Ok? <==>
      && (Truthy(tracer) || "tracer" in fields) && "propagate" in fields && "span_tags" in fields
      && caller.kwargs.Keys !! Injected
  {
    var resolved := ResolveTracer(tracer, fields, global);
    assert resolved.Ok? <==> Truthy(tracer) || "tracer" in fields;
    if resolved.Ok? && "propagate" in fields && "span_tags" in fields {
      if !(caller.kwargs.Keys !! Injected) {
        var k :| k in caller.kwargs.Keys && k in Injected;
      } else {
        assert !exists k :: k in caller.kwargs && k in Injected;
      }
    }
  }

  /** The caller's arguments are passed on unchanged next to the three injected keywords. */
  lemma CeleryTracingInitKeepsCallerArguments(tracer: Value, fields: map<string, Value>, global: Value, caller: Arguments)
    ensures CeleryTracingInit(tracer, fields, global, caller).Ok? ==>
      var call := CeleryTracingInit(tracer, fields, global, caller).value;
      && call.args == caller.args
      && call.kwargs.Keys == caller.kwargs.Keys + Injected
      && (forall k :: k in caller.kwargs ==> call.kwargs[k] == caller.kwargs[k])
      && call.kwargs["tracer"] == ResolveTracer(tracer, fields, global).value
      && call.kwargs["propagate"] == fields["propagate"]
      && call.kwargs["span_tags"] == Or(fields["span_tags"], Dict(map[]))
  {
    if CeleryTracingInit(tracer, fields, global, caller).Ok? {
      var t := ResolveTracer(tracer, fields, global).value;
      var injected := map["tracer" := t, "propagate" := fields["propagate"],
                          "span_tags" := Or(fields["span_tags"], Dict(map[]))];
      assert injected.Keys == Injected;
      assert CeleryTracingInit(tracer, fields, global, caller) == Ok(Arguments(caller.args, caller.kwargs + injected));
    }
  }

  /** Instrument followed by uninstrument leaves CeleryTracing.__init__ and every attribute
      other than the two __new__ as they were, and gives each class the restored form of its
      original __new__; the slots keep the saved originals. */
  lemma InstrumentThenUninstrument(attrs: map<Attr, Value>, slots: map<Slot, Value>, tracer: Value)
    requires InitAttr in attrs && Marker("celery") !in attrs
    requires SavedNew(attrs, CeleryPatch.cls) != None && SavedNew(attrs, CeleryPatch.tracingCls) != None
    ensures WrapIn(PatchedAttrs(attrs, CeleryPatch), InitAttr, Wrapper(tracer)).Ok?
    ensures var after := RestoredRevertedAttrs(PatchedWrappedAttrs(attrs, CeleryPatch, InitAttr, Wrapper(tracer), "celery"),
                                               SavedSlots(slots, attrs, CeleryPatch), CeleryPatch, RawAndKeep, InitAttr, "celery");
      && OnlyChanged(attrs, after, {NewAttr(CeleryPatch.cls), NewAttr(CeleryPatch.tracingCls)})
      && after[NewAttr(CeleryPatch.cls)] == RestoredNew(SavedNew(attrs, CeleryPatch.cls), CeleryPatch.cls, RawAndKeep)
      && after[NewAttr(CeleryPatch.tracingCls)] ==
           RestoredNew(SavedNew(attrs, CeleryPatch.tracingCls), CeleryPatch.tracingCls, RawAndKeep)
  {
    PatchWrapRoundTrip(attrs, slots, CeleryPatch, InitAttr, Wrapper(tracer), "celery", RawAndKeep);
    SaveThenRestore(attrs, slots, CeleryPatch, RawAndKeep);
  }

  /** instrument(tracer): unless celery is marked, import celery.app and celery_opentracing,
      save both original __new__ values, install the replacements, wrap CeleryTracing.__init__
      (importing celery_opentracing.tracing by name), and mark. */
  method Instrument(p: Process, tracer: Value) returns (r: Result<()>)
    requires p.Valid()
    modifies p`modules, p`attrs, p`slots
    ensures p.Valid()
    ensures old(p.modules) <= p.modules <= old(p.modules) + {"celery", "celery.app", "celery_opentracing", "celery_opentracing.tracing"}
    ensures !old(p.Locatable("celery")) ==> r == Err(ImportError("celery"))
    ensures old(IsInstrumented(p, "celery")) ==> r == Ok(()) && p.attrs == old(p.attrs) && p.slots == old(p.slots)
    ensures r.Ok? <==> IsInstrumented(p, "celery")
    ensures r.Err? && r.error != ImportError("celery_opentracing.tracing") ==> p.attrs == old(p.attrs) && p.slots == old(p.slots)
    ensures old(p.Locatable("celery")) && old(p.Locatable("celery.app")) && old(p.Locatable("celery_opentracing")) &&
            old(p.Locatable("celery_opentracing.tracing"))
            ==> r.Ok?
    ensures r.Ok? && !old(IsInstrumented(p, "celery")) ==>
      && p.slots == SavedSlots(old(p.slots), old(p.attrs), CeleryPatch)
      && WrapIn(PatchedAttrs(old(p.attrs), CeleryPatch), InitAttr, Wrapper(tracer)).Ok?
      && p.attrs == PatchedWrappedAttrs(old(p.attrs), CeleryPatch, InitAttr, Wrapper(tracer), "celery")
  {
    var celery :- GetModule(p, "celery");
    if IsInstrumented(p, "celery") {
      return Ok(());
    }
    var app :- GetModule(p, "celery.app");
    var opentracing :- GetModule(p, "celery_opentracing");
    r := PatchWrapAndMark(p, CeleryPatch, "celery_opentracing.tracing", InitAttr, Wrapper(tracer), "celery");
  }

  /** uninstrument(): when celery is marked, import celery.app and celery_opentracing, restore
      each saved __new__ (the saved value itself when it has no __get__) without emptying the
      slots, revert CeleryTracing.__init__, and unmark. */
  method Uninstrument(p: Process) returns (r: Result<()>)
    requires p.Valid()
    modifies p`modules, p`attrs, p`slots
    ensures p.Valid()
    ensures old(p.modules) <= p.modules <= old(p.modules) + {"celery", "celery.app", "celery_opentracing"}
    ensures p.slots == old(p.slots)
    ensures !old(p.Locatable("celery")) ==> r == Err(ImportError("celery"))
    ensures r.Err? || !old(IsInstrumented(p, "celery")) ==> p.attrs == old(p.attrs)
    ensures r.Ok? ==> !IsInstrumented(p, "celery")
    ensures old(p.Locatable("celery")) && old(IsInstrumented(p, "celery")) ==>
      (r.Ok? <==> old(p.Locatable("celery.app")) && old(p.Locatable("celery_opentracing")))
    ensures r.Ok? && old(IsInstrumented(p, "celery")) ==>
      p.attrs == RestoredRevertedAttrs(old(p.attrs), old(p.slots), CeleryPatch, RawAndKeep, InitAttr, "celery")
  {
    var celery :- GetModule(p, "celery");
    if !IsInstrumented(p, "celery") {
      return Ok(());
    }
    var app :- GetModule(p, "celery.app");
    var opentracing :- GetModule(p, "celery_opentracing");
    RestoreBoth(p, CeleryPatch, RawAndKeep);
    RawRestoreKeepsSlots(old(p.slots), CeleryPatch);
    p.RevertWrapper(InitAttr);
    MarkUninstrumented(p, "celery");
    return Ok(());
  }
}
