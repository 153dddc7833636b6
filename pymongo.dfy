/** signalfx_tracing.libraries.pymongo_.instrument: wraps pymongo.MongoClient.__init__ so that
    every new client gets a pymongo_opentracing.CommandTracing listener in front of its own. */
module Pymongo {
  import opened Py
  import opened Runtime
  import opened Utils
  import ConfigNamespace

  /** The fields the module-level config is created with. */
  function DefaultConfig(): map<string, Value> {
    map["span_tags" := None, "tracer" := None]
  }

  const InitAttr: Attr := Attr("pymongo.MongoClient", "__init__")

  /** The inner pymongo_tracer, which captured instrument's tracer argument. */
  function Wrapper(tracer: Value): Value {
    Closure("pymongo_tracer", tracer)
  }

  /** pymongo_opentracing.CommandTracing(tracer=_tracer, span_tags=config.span_tags or {}) */
  function CommandTracing(tracer: Value, fields: map<string, Value>, global: Value): (r: Result<Value>)
    ensures r.Ok? <==> (Truthy(tracer) || "tracer" in fields) && "span_tags" in fields
  {
    var t :- ResolveTracer(tracer, fields, global);
    var tags :- ConfigNamespace.Attribute(fields, "span_tags");
    Ok(Instance("pymongo_opentracing.CommandTracing", [t, Or(tags, Dict(map[]))]))
  }

  /** What the caller passed as the `event_listeners` keyword of MongoClient(...). */
  datatype ListenersArg =
    | Absent
    | ListArg(list: PyList)
    /** any other value, which list() iterates when it can */
    | OtherArg(value: Value)

  /** The listeners the caller passed, in order, when list() can iterate them. */
  function CallerListeners(arg: ListenersArg): Result<seq<Value>>
    reads if arg.ListArg? then {arg.list} else {}
  {
    match arg
    case Absent => Ok([])
    case ListArg(l) => Ok(l.items)
    case OtherArg(v) => Iterate(v)
  }

  /** pymongo_tracer's body before it calls the original __init__: build the listener, copy the
      caller's event_listeners (an empty list when absent) into a new list, and put the listener
      at index 0. The caller's own list is only read, never changed. */
  method TracedInit(cfg: ConfigNamespace.Config, tracer: Value, global: Value, arg: ListenersArg)
    returns (r: Result<PyList>)
    ensures r.Ok? <==> CommandTracing(tracer, cfg.fields, global).Ok? && CallerListeners(arg).Ok?
    ensures r.Err? && CommandTracing(tracer, cfg.fields, global).Ok? ==> r.error.TypeError?
    ensures r.Ok? ==>
      && fresh(r.value)
      && r.value.items == [CommandTracing(tracer, cfg.fields, global).value] + CallerListeners(arg).value
  {
    var commandTracing :- CommandTracing(tracer, cfg.fields, global);
    var items :- CallerListeners(arg);
    var eventListeners := new PyList(items);
    eventListeners.Insert(0, commandTracing);
    return Ok(eventListeners);
  }

  /** With no listeners passed, the client gets the tracing listener alone, built from the first
      truthy tracer and empty span tags under the default config. */
  lemma DefaultListener(tracer: Value, global: Value)
    ensures CommandTracing(tracer, DefaultConfig(), global) ==
      Ok(Instance("pymongo_opentracing.CommandTracing", [Or(tracer, global), Dict(map[])]))
  {
  }

  /** instrument(tracer): unless pymongo is marked, import pymongo_opentracing, wrap
      MongoClient.__init__, and mark. */
  method Instrument(p: Process, tracer: Value) returns (r: Result<()>)
    requires p.Valid()
    modifies p`modules, p`attrs
    ensures p.Valid()
    ensures old(p.modules) <= p.modules <= old(p.modules) + {"pymongo", "pymongo_opentracing"}
    ensures !old(p.Locatable("pymongo")) ==> r == Err(ImportError("pymongo"))
    ensures old(IsInstrumented(p, "pymongo")) ==> r == Ok(())
    ensures r.Ok? <==> IsInstrumented(p, "pymongo")
    ensures r.Err? || old(IsInstrumented(p, "pymongo")) ==> p.attrs == old(p.attrs)
    ensures old(p.Locatable("pymongo")) && old(p.Locatable("pymongo_opentracing")) ==> r.Ok?
    ensures r.Ok? && !old(IsInstrumented(p, "pymongo")) ==>
      WrapIn(old(p.attrs), InitAttr, Wrapper(tracer)).Ok? &&
      p.attrs == WrappedAndMarked(old(p.attrs), InitAttr, Wrapper(tracer), "pymongo")
  {
    var pymongo :- GetModule(p, "pymongo");
    if IsInstrumented(p, "pymongo") {
      return Ok(());
    }
    var opentracing :- GetModule(p, "pymongo_opentracing");
    var wrapped := p.WrapFunctionWrapper(InitAttr, Wrapper(tracer));
    if wrapped.Err? {
      // getattr on __init__ always succeeds: the class inherits object.__init__.
      assert false;
    }
    MarkInstrumented(p, "pymongo");
    return Ok(());
  }

  /** uninstrument(): when pymongo is marked, revert MongoClient.__init__ and unmark; clients
      built before keep their listener. */
  method Uninstrument(p: Process) returns (r: Result<()>)
    requires p.Valid()
    modifies p`modules, p`attrs
    ensures p.Valid()
    ensures old(p.modules) <= p.modules <= old(p.modules) + {"pymongo"}
    ensures r.Ok? <==> old(p.Locatable("pymongo"))
    ensures r.Err? ==> r == Err(ImportError("pymongo")) && p.attrs == old(p.attrs)
    ensures r.Ok? ==> !IsInstrumented(p, "pymongo")
    ensures r.Ok? && !old(IsInstrumented(p, "pymongo")) ==> p.attrs == old(p.attrs)
    ensures old(IsInstrumented(p, "pymongo")) ==> p.attrs == RevertedAndUnmarked(old(p.attrs), InitAttr, "pymongo")
  {
    var pymongo :- GetModule(p, "pymongo");
    if !IsInstrumented(p, "pymongo") {
      return Ok(());
    }
    p.RevertWrapper(InitAttr);
    MarkUninstrumented(p, "pymongo");
    return Ok(());
  }
}
