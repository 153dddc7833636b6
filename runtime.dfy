/** The Python process state that the instrumentation core reads and changes:
    sys.modules, the attributes of modules and classes (among them the
    instrumented marker and every wrapt-patched entry point), the adapters'
    saved-original slots, opentracing's global tracer, and the calls made into
    third-party tracing packages. */
module Runtime {
  import opened Py
  import Constants

  /** An attribute of a module or class, named by the object's dotted path. */
  datatype Attr = Attr(owner: string, name: string)

  /** The one-element module-level lists in which adapters keep a class's original __new__. */
  datatype Slot =
    | TransportNew | TracingTransportNew      // elasticsearch_._transport_new, _tracing_transport_new
    | SessionNew | SessionTracingNew          // requests_._session_new, _session_tracing_new
    | CeleryNew | CeleryTracingNew            // celery_._celery_new, _celery_tracing_new

  /** The value a slot map holds for s; a slot that was never written holds None. */
  function SlotIn(slots: map<Slot, Value>, s: Slot): Value {
    if s in slots then slots[s] else None
  }

  /** Calls into third-party code whose effect lies outside the model. */
  datatype ForeignCall =
    | InitTracing(tracer: Value, traceAllRequests: bool, prefix: Value)   // elasticsearch_opentracing.init_tracing
    | DisableTracing                                                      // elasticsearch_opentracing.disable_tracing
    | BasicConfig(level: int, format: Value)                              // logging.basicConfig

  /** getattr(owner, name) on an attribute map: the stored value, or AttributeError. */
  function LookupIn(attrs: map<Attr, Value>, a: Attr): Result<Value> {
    if a in attrs then Ok(attrs[a]) else Err(AttributeError(a.owner, a.name))
  }

  /** Every attribute outside keys is as it was: present in both maps or in neither, with the same value. */
  ghost predicate OnlyChanged(before: map<Attr, Value>, after: map<Attr, Value>, keys: set<Attr>) {
    forall a :: a !in keys ==> (a in before <==> a in after) && (a in before ==> before[a] == after[a])
  }

  /** An attribute outside the changed keys reads the same before and after. */
  lemma Unmoved(before: map<Attr, Value>, after: map<Attr, Value>, keys: set<Attr>, a: Attr)
    requires OnlyChanged(before, after, keys) && a !in keys
    ensures LookupIn(after, a) == LookupIn(before, a)
  {
  }

  /** getattr(cls, name) on a class: its own attribute, else, for __new__ and __init__, the
      built-in it inherits from object; any other missing attribute raises AttributeError.
      On a module attribute the fallback never applies, since no module attribute is so named here. */
  function GetAttrIn(attrs: map<Attr, Value>, a: Attr): Result<Value> {
    if a in attrs then Ok(attrs[a])
    else if a.name in {"__new__", "__init__"} then Ok(Builtin("object." + a.name))
    else Err(AttributeError(a.owner, a.name))
  }

  /** A stored attribute reads the same both ways. getattr differs from a bare lookup exactly
      for a missing __new__ or __init__, which it finds on object; every other missing attribute
      raises AttributeError naming the owner and the name either way. */
  lemma LookupAgreesWithGetAttr(attrs: map<Attr, Value>, a: Attr)
    ensures a in attrs ==> LookupIn(attrs, a) == GetAttrIn(attrs, a) == Ok(attrs[a])
    ensures LookupIn(attrs, a) != GetAttrIn(attrs, a) <==> a !in attrs && a.name in {"__new__", "__init__"}
    ensures LookupIn(attrs, a).Err? <==> a !in attrs
    ensures LookupIn(attrs, a).Err? ==> LookupIn(attrs, a).error == AttributeError(a.owner, a.name)
    ensures GetAttrIn(attrs, a).Err? ==> GetAttrIn(attrs, a) == LookupIn(attrs, a)
  {
  }

  /** wrapt.wrap_function_wrapper(owner, name, wrapper) on an attribute map: the attribute
      becomes a wrapper around the value getattr finds, or AttributeError when there is none. */
  function WrapIn(attrs: map<Attr, Value>, a: Attr, wrapper: Value): Result<map<Attr, Value>> {
    var original :- GetAttrIn(attrs, a);
    Ok(attrs[a := Wrapped(original, wrapper)])
  }

  /** utils.revert_wrapper(owner, name) on an attribute map: a wrapt wrapper is replaced by the
      value it wraps; anything else is left alone. */
  function Reverted(attrs: map<Attr, Value>, a: Attr): map<Attr, Value> {
    if a in attrs && attrs[a].Wrapped? then attrs[a := attrs[a].original] else attrs
  }

  /** Reverting a wrap gives back what getattr found before it: every attribute, the wrapped one
      included, reads as it read before. The map itself is restored exactly when the attribute
      was the owner's own; an inherited __new__ or __init__ is left behind as an own attribute. */
  lemma WrapThenRevertRestores(attrs: map<Attr, Value>, a: Attr, wrapper: Value)
    requires WrapIn(attrs, a, wrapper).Ok?
    ensures var back := Reverted(WrapIn(attrs, a, wrapper).value, a);
      forall b :: GetAttrIn(back, b) == GetAttrIn(attrs, b)
    ensures a in attrs ==> Reverted(WrapIn(attrs, a, wrapper).value, a) == attrs
    ensures a !in attrs ==> Reverted(WrapIn(attrs, a, wrapper).value, a) == attrs[a := Builtin("object." + a.name)]
  {
  }

  /** Reverting an attribute that holds no wrapper changes nothing, so revert_wrapper is idempotent. */
  lemma RevertIsIdempotent(attrs: map<Attr, Value>, a: Attr)
    requires forall v: Value :: v in attrs.Values ==> !v.Wrapped? || !v.original.Wrapped?
    ensures Reverted(Reverted(attrs, a), a) == Reverted(attrs, a)
  {
  }

  /** A fixed sequence of revert_wrapper calls. */
  function RevertedAll(attrs: map<Attr, Value>, targets: seq<Attr>): map<Attr, Value>
    decreases |targets|
  {
    if targets == [] then attrs else RevertedAll(Reverted(attrs, targets[0]), targets[1..])
  }

  /** Reverting touches only the targets, and never adds or removes an attribute. */
  lemma {:induction false} RevertedAllChangesOnlyTargets(attrs: map<Attr, Value>, targets: seq<Attr>)
    ensures RevertedAll(attrs, targets).Keys == attrs.Keys
    ensures OnlyChanged(attrs, RevertedAll(attrs, targets), set t | t in targets)
    decreases |targets|
  {
    if targets != [] {
      RevertedAllChangesOnlyTargets(Reverted(attrs, targets[0]), targets[1..]);
    }
  }

  /** Reverting attributes none of which holds a wrapper changes nothing. */
  lemma {:induction false} RevertedAllWithoutWrappers(attrs: map<Attr, Value>, targets: seq<Attr>)
    requires forall t :: t in targets && t in attrs ==> !attrs[t].Wrapped?
    ensures RevertedAll(attrs, targets) == attrs
    decreases |targets|
  {
    if targets != [] {
      assert Reverted(attrs, targets[0]) == attrs;
      RevertedAllWithoutWrappers(attrs, targets[1..]);
    }
  }

  /** One call the dispatcher makes into a library's adapter module. */
  datatype AdapterCall = InstrumentCall(library: string, tracer: Value) | UninstrumentCall(library: string)

  class Process {
    /** names the import system can locate but that are not loaded yet (pkgutil.find_loader's answer) */
    const importable: set<string>
    /** is_truthy(os.environ.get('SIGNALFX_TRACING_DEBUG', False)), read by the logging adapter */
    const tracingDebug: bool
    /** the keys of sys.modules */
    var modules: set<string>
    /** attribute values of modules and classes */
    var attrs: map<Attr, Value>
    /** saved-original slots; a slot that was never written holds None */
    var slots: map<Slot, Value>
    /** opentracing.tracer */
    var globalTracer: Value
    /** calls made into third-party tracing packages and the logging library, in order */
    var foreignCalls: seq<ForeignCall>
    /** the adapter calls the dispatcher has made, in order */
    var adapterCalls: seq<AdapterCall>

    /** The marker is only ever stored as True, and only on a loaded module. */
    ghost predicate Valid()
      reads this
    {
      forall a :: a in attrs && a.name == Constants.InstrumentedAttr ==> attrs[a] == Bool(true) && a.owner in modules
    }

    constructor (importable: set<string>, modules: set<string>, attrs: map<Attr, Value>,
                 globalTracer: Value, tracingDebug: bool)
      requires forall a :: a in attrs && a.name == Constants.InstrumentedAttr ==> attrs[a] == Bool(true) && a.owner in modules
      ensures Valid()
      ensures this.importable == importable && this.modules == modules && this.attrs == attrs
      ensures this.globalTracer == globalTracer && this.tracingDebug == tracingDebug
      ensures slots == map[] && foreignCalls == [] && adapterCalls == []
    {
      this.importable := importable;
      this.tracingDebug := tracingDebug;
      this.modules := modules;
      this.attrs := attrs;
      this.slots := map[];
      this.globalTracer := globalTracer;
      this.foreignCalls := [];
      this.adapterCalls := [];
    }

    /** pkgutil.find_loader(name) is not None: the module is loaded or can be located. */
    predicate Locatable(name: string)
      reads this
    {
      name in modules || name in importable
    }

    /** slot[0] */
    function SlotValue(s: Slot): Value
      reads this
    {
      SlotIn(slots, s)
    }

    /** getattr(owner, name) in this process. */
    function Lookup(a: Attr): Result<Value>
      reads this
    {
      GetAttrIn(attrs, a)
    }

    /** setattr(owner, name, v) for an attribute other than the marker. */
    method SetAttr(a: Attr, v: Value)
      requires a.name != Constants.InstrumentedAttr
      requires Valid()
      modifies this`attrs
      ensures Valid()
      ensures attrs == old(attrs)[a := v]
    {
      attrs := attrs[a := v];
    }

    /** slot[0] = v */
    method SetSlot(s: Slot, v: Value)
      modifies this`slots
      ensures slots == old(slots)[s := v]
      ensures SlotValue(s) == v
    {
      slots := slots[s := v];
    }

    /** A call into a third-party package, recorded in order. */
    method Call(c: ForeignCall)
      modifies this`foreignCalls
      ensures foreignCalls == old(foreignCalls) + [c]
    {
      foreignCalls := foreignCalls + [c];
    }

    /** `try: delattr(owner, name) except AttributeError: pass` */
    method DelAttrIfPresent(a: Attr)
      requires Valid()
      modifies this`attrs
      ensures Valid()
      ensures attrs == old(attrs) - {a}
    {
      attrs := attrs - {a};
    }

    /** wrapt.wrap_function_wrapper(owner, name, wrapper) for an attribute other than the marker. */
    method WrapFunctionWrapper(a: Attr, wrapper: Value) returns (r: Result<()>)
      requires a.name != Constants.InstrumentedAttr
      requires Valid()
      modifies this`attrs
      ensures Valid()
      ensures r.Ok? <==> WrapIn(old(attrs), a, wrapper).Ok?
      ensures r.Ok? ==> attrs == WrapIn(old(attrs), a, wrapper).value
      ensures r.Err? ==> r == Err(GetAttrIn(old(attrs), a).error) && attrs == old(attrs)
    {
      var original :- Lookup(a);
      attrs := attrs[a := Wrapped(original, wrapper)];
      return Ok(());
    }

    /** A fixed run of revert_wrapper calls, one per target, in order. */
    method RevertWrappers(targets: seq<Attr>)
      requires Valid()
      modifies this`attrs
      ensures Valid()
      ensures attrs == RevertedAll(old(attrs), targets)
    {
      var i := 0;
      while i < |targets|
        invariant 0 <= i <= |targets|
        invariant Valid()
        invariant RevertedAll(attrs, targets[i..]) == RevertedAll(old(attrs), targets)
      {
        assert targets[i..][1..] == targets[i + 1..];
        RevertWrapper(targets[i]);
        i := i + 1;
      }
    }

    /** utils.revert_wrapper(owner, name). */
    method RevertWrapper(a: Attr)
      requires Valid()
      modifies this`attrs
      ensures Valid()
      ensures attrs == Reverted(old(attrs), a)
    {
      if a in attrs && attrs[a].Wrapped? {
        if a.name == Constants.InstrumentedAttr {
          // A marker is always Bool(true), never a wrapper.
          assert false;
        }
        attrs := attrs[a := attrs[a].original];
      }
    }
  }
}
