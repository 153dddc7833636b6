/** signalfx_tracing.libraries.requests_.instrument: redirects requests.Session.__new__ to
    requests_opentracing.SessionTracing and wraps SessionTracing.__init__ so that each session
    is built with the configured tracer, propagation flag and span tags. */
module Requests {
  import opened Py
  import opened Runtime
  import opened Utils
  import opened ClassNew
  import ConfigNamespace

  /** The fields the module-level config is created with. */
  function DefaultConfig(): map<string, Value> {
    map["propagate" := Bool(true), "span_tags" := None, "tracer" := None]
  }

  const SessionPatch: Patch :=
    Patch("requests.Session", SessionNew, "session_new",
          "requests_opentracing.SessionTracing", SessionTracingNew, "session_tracing_new")

  const InitAttr: Attr := Attr("requests_opentracing.SessionTracing", "__init__")

  /** The inner session_tracing_init, which captured instrument's tracer argument. */
  function Wrapper(tracer: Value): Value {
    Closure("session_tracing_init", tracer)
  }

  /** The arguments session_tracing_init passes to the original __init__: the tracer resolved at
      construction time, `propagate=config.propagate` and `span_tags=config.span_tags or {}`.
      The caller's own arguments are not passed on. */
  function SessionTracingInit(tracer: Value, fields: map<string, Value>, global: Value, caller: Arguments): Result<Arguments> {
    var t :- ResolveTracer(tracer, fields, global);
    var propagate :- ConfigNamespace.Attribute(fields, "propagate");
    var tags :- ConfigNamespace.Attribute(fields, "span_tags");
    Ok(Arguments([t], map["propagate" := propagate, "span_tags" := Or(tags, Dict(map[]))]))
  }

  /** The session is built from config alone: its failure cases are the missing fields, the
      caller's arguments make no difference, and the default config gives the first truthy
      tracer, propagation on and empty span tags. */
  lemma SessionTracingInitUsesConfig(tracer: Value, fields: map<string, Value>, global: Value, caller: Arguments, other: Arguments)
    ensures SessionTracingInit(tracer, fields, global, caller).Ok? <==>
      (Truthy(tracer) || "tracer" in fields) && "propagate" in fields && "span_tags" in fields
    ensures SessionTracingInit(tracer, fields, global, caller) == SessionTracingInit(tracer, fields, global, other)
    ensures SessionTracingInit(tracer, fields, global, caller).Ok? ==>
      var call := SessionTracingInit(tracer, fields, global, caller).value;
      && call.kwargs["propagate"] == fields["propagate"]
      && (!Truthy(fields["span_tags"]) ==> call.kwargs["span_tags"] == Dict(map[]))
      && (Truthy(fields["span_tags"]) ==> call.kwargs["span_tags"] == fields["span_tags"])
    ensures SessionTracingInit(tracer, DefaultConfig(), global, caller) ==
      Ok(Arguments([Or(tracer, global)], map["propagate" := Bool(true), "span_tags" := Dict(map[])]))
  {
  }

  /** Instrument followed by uninstrument leaves SessionTracing.__init__ and every attribute
      other than the two __new__ as they were, and gives each class the restored form of its
      original __new__; the slots keep the saved originals. */
  lemma InstrumentThenUninstrument(attrs: map<Attr, Value>, slots: map<Slot, Value>, tracer: Value)
    requires InitAttr in attrs && Marker("requests") !in attrs
    requires SavedNew(attrs, SessionPatch.cls) != None && SavedNew(attrs, SessionPatch.tracingCls) != None
    ensures WrapIn(PatchedAttrs(attrs, SessionPatch), InitAttr, Wrapper(tracer)).Ok?
    ensures var after := RestoredRevertedAttrs(PatchedWrappedAttrs(attrs, SessionPatch, InitAttr, Wrapper(tracer), "requests"),
                                               SavedSlots(slots, attrs, SessionPatch), SessionPatch, RawAndKeep, InitAttr, "requests");
      && OnlyChanged(attrs, after, {NewAttr(SessionPatch.cls), NewAttr(SessionPatch.tracingCls)})
      && after[NewAttr(SessionPatch.cls)] == RestoredNew(SavedNew(attrs, SessionPatch.cls), SessionPatch.cls, RawAndKeep)
      && after[NewAttr(SessionPatch.tracingCls)] ==
           RestoredNew(SavedNew(attrs, SessionPatch.tracingCls), SessionPatch.tracingCls, RawAndKeep)
    ensures UnpatchedSlots(SavedSlots(slots, attrs, SessionPatch), SessionPatch, RawAndKeep) == SavedSlots(slots, attrs, SessionPatch)
  {
    PatchWrapRoundTrip(attrs, slots, SessionPatch, InitAttr, Wrapper(tracer), "requests", RawAndKeep);
    SaveThenRestore(attrs, slots, SessionPatch, RawAndKeep);
  }

  /** instrument(tracer): unless requests is marked, import requests_opentracing, save both
      original __new__ values, install the replacements, wrap SessionTracing.__init__ (importing
      requests_opentracing.tracing by name), and mark. */
  method Instrument(p: Process, tracer: Value) returns (r: Result<()>)
    requires p.Valid()
    modifies p`modules, p`attrs, p`slots
    ensures p.Valid()
    ensures old(p.modules) <= p.modules <= old(p.modules) + {"requests", "requests_opentracing", "requests_opentracing.tracing"}
    ensures !old(p.Locatable("requests")) ==> r == Err(ImportError("requests"))
    ensures old(IsInstrumented(p, "requests")) ==> r == Ok(()) && p.attrs == old(p.attrs) && p.slots == old(p.slots)
    ensures r.Ok? <==> IsInstrumented(p, "requests")
    ensures r.Err? ==> r.error in {ImportError("requests"), ImportError("requests_opentracing"), ImportError("requests_opentracing.tracing")}
    ensures r.Err? && r.error != ImportError("requests_opentracing.tracing") ==> p.attrs == old(p.attrs) && p.slots == old(p.slots)
    ensures old(p.Locatable("requests")) && old(p.Locatable("requests_opentracing")) &&
            old(p.Locatable("requests_opentracing.tracing"))
            ==> r.Ok?
    ensures r.Ok? && !old(IsInstrumented(p, "requests")) ==>
      && p.slots == SavedSlots(old(p.slots), old(p.attrs), SessionPatch)
      && WrapIn(PatchedAttrs(old(p.attrs), SessionPatch), InitAttr, Wrapper(tracer)).Ok?
      && p.attrs == PatchedWrappedAttrs(old(p.attrs), SessionPatch, InitAttr, Wrapper(tracer), "requests")
  {
    var requests :- GetModule(p, "requests");
    if IsInstrumented(p, "requests") {
      return Ok(());
    }
    var opentracing :- GetModule(p, "requests_opentracing");
    r := PatchWrapAndMark(p, SessionPatch, "requests_opentracing.tracing", InitAttr, Wrapper(tracer), "requests");
  }

  /** uninstrument(): when requests is marked, import requests_opentracing, restore each saved
      __new__ (the saved value itself when it has no __get__) without emptying the slots, revert
      SessionTracing.__init__, and unmark. */
  method Uninstrument(p: Process) returns (r: Result<()>)
    requires p.Valid()
    modifies p`modules, p`attrs, p`slots
    ensures p.Valid()
    ensures old(p.modules) <= p.modules <= old(p.modules) + {"requests", "requests_opentracing"}
    ensures p.slots == old(p.slots)
    ensures !old(p.Locatable("requests")) ==> r == Err(ImportError("requests"))
    ensures r.Err? || !old(IsInstrumented(p, "requests")) ==> p.attrs == old(p.attrs)
    ensures r.Ok? ==> !IsInstrumented(p, "requests")
    ensures old(p.Locatable("requests")) && old(IsInstrumented(p, "requests")) ==>
      (r.Ok? <==> old(p.Locatable("requests_opentracing")))
    ensures r.Ok? && old(IsInstrumented(p, "requests")) ==>
      p.attrs == RestoredRevertedAttrs(old(p.attrs), old(p.slots), SessionPatch, RawAndKeep, InitAttr, "requests")
  {
    var requests :- GetModule(p, "requests");
    if !IsInstrumented(p, "requests") {
      return Ok(());
    }
    var opentracing :- GetModule(p, "requests_opentracing");
    RestoreBoth(p, SessionPatch, RawAndKeep);
    RawRestoreKeepsSlots(old(p.slots), SessionPatch);
    p.RevertWrapper(InitAttr);
    MarkUninstrumented(p, "requests");
    return Ok(());
  }
}
