/** signalfx_tracing.libraries.elasticsearch_.instrument: starts elasticsearch_opentracing's
    tracing and redirects elasticsearch.transport.Transport.__new__ to TracingTransport. */
module Elasticsearch {
  import opened Py
  import opened Runtime
  import opened Utils
  import opened ClassNew
  import ConfigNamespace

  /** The fields the module-level config is created with. */
  function DefaultConfig(): map<string, Value> {
    map["prefix" := Str("Elasticsearch"), "tracer" := None]
  }

  const TransportPatch: Patch :=
    Patch("elasticsearch.transport.Transport", TransportNew, "transport_new",
          "elasticsearch_opentracing.TracingTransport", TracingTransportNew, "tracing_transport_new")

  /** init_tracing(_tracer, trace_all_requests=True, prefix=config.prefix), with the tracer
      resolved once at instrument time. */
  function InitCall(tracer: Value, fields: map<string, Value>, global: Value): Result<ForeignCall> {
    var t :- ResolveTracer(tracer, fields, global);
    var prefix :- ConfigNamespace.Attribute(fields, "prefix");
    Ok(InitTracing(t, true, prefix))
  }

  /** Tracing is started for every request, with the first truthy tracer and the configured
      prefix; it fails only on a config without the fields it reads. */
  lemma InitCallUsesConfig(tracer: Value, fields: map<string, Value>, global: Value)
    ensures InitCall(tracer, fields, global).Ok? <==>
      (Truthy(tracer) || "tracer" in fields) && "prefix" in fields
    ensures InitCall(tracer, fields, global).Ok? ==>
      InitCall(tracer, fields, global).value ==
        InitTracing(if Truthy(tracer) then tracer else Or(fields["tracer"], global), true, fields["prefix"])
    ensures InitCall(tracer, DefaultConfig(), global) == Ok(InitTracing(Or(tracer, global), true, Str("Elasticsearch")))
  {
  }

  /** instrument(tracer): unless elasticsearch is marked, import elasticsearch_opentracing, start
      tracing, save both original __new__ values, install the replacements, and mark. */
  method Instrument(p: Process, cfg: ConfigNamespace.Config, tracer: Value) returns (r: Result<()>)
    requires p.Valid()
    modifies p`modules, p`attrs, p`slots, p`foreignCalls
    ensures p.Valid()
    ensures old(p.modules) <= p.modules <= old(p.modules) + {"elasticsearch", "elasticsearch_opentracing"}
    ensures !old(p.Locatable("elasticsearch")) ==> r == Err(ImportError("elasticsearch"))
    ensures old(IsInstrumented(p, "elasticsearch")) ==> r == Ok(())
    ensures r.Ok? <==> IsInstrumented(p, "elasticsearch")
    ensures r.Err? || old(IsInstrumented(p, "elasticsearch")) ==>
      p.attrs == old(p.attrs) && p.slots == old(p.slots) && p.foreignCalls == old(p.foreignCalls)
    ensures old(p.Locatable("elasticsearch")) && old(p.Locatable("elasticsearch_opentracing")) &&
            !old(IsInstrumented(p, "elasticsearch")) ==>
      (r.Ok? <==> InitCall(tracer, cfg.fields, p.globalTracer).Ok?)
    ensures r.Ok? && !old(IsInstrumented(p, "elasticsearch")) ==>
      && InitCall(tracer, cfg.fields, p.globalTracer).Ok?
      && p.foreignCalls == old(p.foreignCalls) + [InitCall(tracer, cfg.fields, p.globalTracer).value]
      && p.slots == SavedSlots(old(p.slots), old(p.attrs), TransportPatch)
      && p.attrs == PatchedAttrs(old(p.attrs), TransportPatch)[Marker("elasticsearch") := Bool(true)]
  {
    var elasticsearch :- GetModule(p, "elasticsearch");
    if IsInstrumented(p, "elasticsearch") {
      return Ok(());
    }
    var opentracing :- GetModule(p, "elasticsearch_opentracing");
    r := TraceAndPatch(p, cfg, tracer);
  }

  /** The steps of instrument once both imports succeeded: init_tracing, the __new__ patch and
      the mark. */
  method TraceAndPatch(p: Process, cfg: ConfigNamespace.Config, tracer: Value) returns (r: Result<()>)
    requires p.Valid() && "elasticsearch" in p.modules && !IsInstrumented(p, "elasticsearch")
    modifies p`attrs, p`slots, p`foreignCalls
    ensures p.Valid()
    ensures r.Ok? <==> InitCall(tracer, cfg.fields, p.globalTracer).Ok?
    ensures r.Ok? <==> IsInstrumented(p, "elasticsearch")
    ensures r.Err? ==> p.attrs == old(p.attrs) && p.slots == old(p.slots) && p.foreignCalls == old(p.foreignCalls)
    ensures r.Ok? ==>
      && p.foreignCalls == old(p.foreignCalls) + [InitCall(tracer, cfg.fields, p.globalTracer).value]
      && p.slots == SavedSlots(old(p.slots), old(p.attrs), TransportPatch)
      && p.attrs == PatchedAttrs(old(p.attrs), TransportPatch)[Marker("elasticsearch") := Bool(true)]
  {
    var call := InitCall(tracer, cfg.fields, p.globalTracer);
    if call.Err? {
      return Err(call.error);
    }
    p.Call(call.value);
    SaveAndPatch(p, TransportPatch);
    MarkInstrumented(p, "elasticsearch");
    return Ok(());
  }

  /** uninstrument(): when elasticsearch is marked, import elasticsearch_opentracing, stop
      tracing, restore each saved __new__ (a generic one bound to the class when the saved value
      has no __get__) and empty its slot, then unmark. */
  method Uninstrument(p: Process) returns (r: Result<()>)
    requires p.Valid()
    modifies p`modules, p`attrs, p`slots, p`foreignCalls
    ensures p.Valid()
    ensures old(p.modules) <= p.modules <= old(p.modules) + {"elasticsearch", "elasticsearch_opentracing"}
    ensures !old(p.Locatable("elasticsearch")) ==> r == Err(ImportError("elasticsearch"))
    ensures r.Err? || !old(IsInstrumented(p, "elasticsearch")) ==>
      p.attrs == old(p.attrs) && p.slots == old(p.slots) && p.foreignCalls == old(p.foreignCalls)
    ensures r.Ok? ==> !IsInstrumented(p, "elasticsearch")
    ensures old(p.Locatable("elasticsearch")) && old(IsInstrumented(p, "elasticsearch")) ==>
      (r.Ok? <==> old(p.Locatable("elasticsearch_opentracing")))
    ensures r.Ok? && old(IsInstrumented(p, "elasticsearch")) ==>
      && p.foreignCalls == old(p.foreignCalls) + [DisableTracing]
      && p.slots == UnpatchedSlots(old(p.slots), TransportPatch, GenericAndClear)
      && p.attrs == UnpatchedAttrs(old(p.attrs), old(p.slots), TransportPatch, GenericAndClear) - {Marker("elasticsearch")}
  {
    var elasticsearch :- GetModule(p, "elasticsearch");
    if !IsInstrumented(p, "elasticsearch") {
      return Ok(());
    }
    var opentracing :- GetModule(p, "elasticsearch_opentracing");
    p.Call(DisableTracing);
    RestoreBoth(p, TransportPatch, GenericAndClear);
    MarkUninstrumented(p, "elasticsearch");
    return Ok(());
  }
}
