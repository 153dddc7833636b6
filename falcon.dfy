/** signalfx_tracing.libraries.falcon_.instrument: wraps falcon.API.__init__ so that every new
    API gets a TraceMiddleware at the front of its middleware list. */
module FalconInstrument {
  import opened Py
  import opened Runtime
  import opened Utils
  import ConfigNamespace

  /** The fields the module-level config is created with. */
  function DefaultConfig(): map<string, Value> {
    map["tracer" := None, "traced_attributes" := List([Str("path")])]
  }

  const ApiInit: Attr := Attr("falcon.API", "__init__")

  /** The inner traced_init, which captured the tracer resolved at instrument time. */
  function Wrapper(tracer: Value): Value {
    Closure("traced_init", tracer)
  }

  /** The TraceMiddleware(_tracer, config.traced_attributes) that traced_init inserts. */
  function Middleware(tracer: Value, tracedAttributes: Value): Value {
    Instance("TraceMiddleware", [tracer, tracedAttributes])
  }

  /** What the caller passed as the `middleware` keyword of falcon.API(...). */
  datatype MiddlewareArg =
    | Absent
    | ListArg(list: PyList)
    /** anything else, which has no insert method */
    | OtherArg(value: Value)

  /** traced_init's body before it calls the original __init__: pop the middleware keyword (a
      new empty list when absent), insert the tracing middleware at index 0 in place, and return
      the list passed on as `middleware`. A caller's list is changed in place; a value without
      insert raises AttributeError before config is read. */
  method TracedInit(cfg: ConfigNamespace.Config, tracer: Value, mw: MiddlewareArg) returns (r: Result<PyList>)
    modifies if mw.ListArg? then {mw.list} else {}
    ensures mw.OtherArg? ==> r == Err(AttributeError("middleware", "insert"))
    ensures !mw.OtherArg? ==> (r.Ok? <==> "traced_attributes" in cfg.fields)
    ensures !mw.OtherArg? && r.Err? ==> r.error == AttributeError("Config", "traced_attributes")
    ensures mw.ListArg? && r.Ok? ==>
      r.value == mw.list && mw.list.items == [Middleware(tracer, cfg.fields["traced_attributes"])] + old(mw.list.items)
    ensures mw.Absent? && r.Ok? ==>
      fresh(r.value) && r.value.items == [Middleware(tracer, cfg.fields["traced_attributes"])]
  {
    var list: PyList;
    match mw {
      case Absent =>
        list := new PyList([]);
      case ListArg(l) =>
        list := l;
      case OtherArg(v) =>
        return Err(AttributeError("middleware", "insert"));
    }
    var attributes :- cfg.GetAttr("traced_attributes");
    list.Insert(0, Middleware(tracer, attributes));
    return Ok(list);
  }

  /** instrument(tracer): unless falcon is marked, resolve the tracer once, wrap API.__init__ with
      a traced_init that captured it, and mark. */
  method Instrument(p: Process, cfg: ConfigNamespace.Config, tracer: Value) returns (r: Result<()>)
    requires p.Valid()
    modifies p`modules, p`attrs
    ensures p.Valid()
    ensures old(p.modules) <= p.modules <= old(p.modules) + {"falcon"}
    ensures !old(p.Locatable("falcon")) ==> r == Err(ImportError("falcon")) && p.attrs == old(p.attrs)
    ensures old(IsInstrumented(p, "falcon")) ==> r == Ok(()) && p.attrs == old(p.attrs)
    ensures r.Ok? <==> IsInstrumented(p, "falcon")
    ensures r.Err? ==> p.attrs == old(p.attrs)
    ensures old(p.Locatable("falcon")) && !old(IsInstrumented(p, "falcon")) ==>
      (r.Ok? <==> ResolveTracer(tracer, cfg.fields, p.globalTracer).Ok?)
    ensures r.Ok? && !old(IsInstrumented(p, "falcon")) ==>
      var t := ResolveTracer(tracer, cfg.fields, p.globalTracer).value;
      WrapIn(old(p.attrs), ApiInit, Wrapper(t)).Ok? &&
      p.attrs == WrappedAndMarked(old(p.attrs), ApiInit, Wrapper(t), "falcon")
  {
    var falcon :- GetModule(p, "falcon");
    if IsInstrumented(p, "falcon") {
      return Ok(());
    }
    var t :- ResolveTracer(tracer, cfg.fields, p.globalTracer);
    var wrapped := p.WrapFunctionWrapper(ApiInit, Wrapper(t));
    if wrapped.Err? {
      // getattr on __init__ always succeeds: the class inherits object.__init__.
      assert false;
    }
    MarkInstrumented(p, "falcon");
    return Ok(());
  }

  /** uninstrument(): when falcon is marked, revert API.__init__ and unmark. */
  method Uninstrument(p: Process) returns (r: Result<()>)
    requires p.Valid()
    modifies p`modules, p`attrs
    ensures p.Valid()
    ensures old(p.modules) <= p.modules <= old(p.modules) + {"falcon"}
    ensures r.Ok? <==> old(p.Locatable("falcon"))
    ensures r.Err? ==> r == Err(ImportError("falcon")) && p.attrs == old(p.attrs)
    ensures r.Ok? ==> !IsInstrumented(p, "falcon")
    ensures r.Ok? && !old(IsInstrumented(p, "falcon")) ==> p.attrs == old(p.attrs)
    ensures old(IsInstrumented(p, "falcon")) ==> p.attrs == RevertedAndUnmarked(old(p.attrs), ApiInit, "falcon")
  {
    var falcon :- GetModule(p, "falcon");
    if !IsInstrumented(p, "falcon") {
      return Ok(());
    }
    p.RevertWrapper(ApiInit);
    MarkUninstrumented(p, "falcon");
    return Ok(());
  }
}
