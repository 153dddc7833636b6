/** signalfx_tracing.libraries.django_.instrument: writes the django_opentracing settings onto
    django.conf.settings, prepends the tracing middleware to the active middleware setting,
    and undoes both. */
module DjangoInstrument {
  import opened Py
  import opened Runtime
  import opened Utils
  import ConfigNamespace

  /** The fields the module-level config is created with. */
  function DefaultConfig(): map<string, Value> {
    map["trace_all" := Bool(true),
        "traced_attributes" := List([Str("path"), Str("method")]),
        "tracer_callable" := None,
        "tracer_parameters" := None,
        "tracer" := None,
        "set_global_tracer" := Bool(false),
        "middleware_class" := Str("django_opentracing.OpenTracingMiddleware")]
  }

  /** The settings object, django.conf.settings. */
  const SettingsOwner: string := "django.conf.settings"

  function Setting(name: string): Attr {
    Attr(SettingsOwner, name)
  }

  /** The settings uninstrument deletes, in order. */
  const TracingSettings: seq<string> :=
    ["OPENTRACING_TRACE_ALL", "OPENTRACING_TRACED_ATTRIBUTES",
     "OPENTRACING_TRACER_CALLABLE", "OPENTRACING_TRACER_PARAMETERS",
     "OPENTRACING_SET_GLOBAL_TRACER", "OPENTRACING_TRACING", "OPENTRACING_TRACER"]

  /** The middleware setting get_middleware_and_setting_name picks, when it picks one. */
  function ChosenSetting(attrs: map<Attr, Value>): set<Attr> {
    if MiddlewareChoice(attrs).Ok? then {Setting(MiddlewareChoice(attrs).value.1)} else {}
  }

  /** The settings named in TracingSettings. */
  function TracingKeys(): (r: set<Attr>)
    ensures forall n :: n in TracingSettings ==> Setting(n) in r
    ensures forall a :: a in r ==> a.owner == SettingsOwner && a.name in TracingSettings
  {
    {Setting("OPENTRACING_TRACE_ALL"), Setting("OPENTRACING_TRACED_ATTRIBUTES"),
     Setting("OPENTRACING_TRACER_CALLABLE"), Setting("OPENTRACING_TRACER_PARAMETERS"),
     Setting("OPENTRACING_SET_GLOBAL_TRACER"), Setting("OPENTRACING_TRACING"), Setting("OPENTRACING_TRACER")}
  }

  /** Every attribute instrument or uninstrument may write or delete: the tracing settings,
      the marker and the chosen middleware setting. */
  function DjangoKeys(attrs: map<Attr, Value>): set<Attr> {
    TracingKeys() + {Marker("django")} + ChosenSetting(attrs)
  }

  /** The integer a tuple element compares as: bool is a subclass of int. */
  predicate IsNumber(v: Value) {
    v.Int? || v.Bool?
  }

  function NumberOf(v: Value): int
    requires IsNumber(v)
  {
    if v.Int? then v.i else if v.b then 1 else 0
  }

  /** Python's `a > b` for a tuple a against a tuple of ints b: the first position where the two
      differ decides, and when one is a prefix of the other the longer one is greater. Ordering
      a non-number against an int raises TypeError. */
  function TupleGreater(a: seq<Value>, b: seq<int>): (r: Result<bool>)
    ensures (forall i :: 0 <= i < |a| ==> IsNumber(a[i])) ==> r.Ok?
  {
    if a == [] then Ok(false)
    else if b == [] then Ok(true)
    else if !IsNumber(a[0]) then Err(TypeError("'>' not supported between instances"))
    else if NumberOf(a[0]) != b[0] then Ok(NumberOf(a[0]) > b[0])
    else TupleGreater(a[1..], b[1..])
  }

  function Numbers(a: seq<Value>): (r: seq<int>)
    requires forall i :: 0 <= i < |a| ==> IsNumber(a[i])
    ensures |r| == |a| && forall i :: 0 <= i < |a| ==> r[i] == NumberOf(a[i])
  {
    if a == [] then [] else [NumberOf(a[0])] + Numbers(a[1..])
  }

  /** Lexicographic "greater than" on integer sequences, stated independently: the two agree
      below some position k, after which either b has ended and a has not, or a is larger at k. */
  ghost predicate LexGreater(a: seq<int>, b: seq<int>) {
    exists k :: 0 <= k <= |a| && k <= |b| && SamePrefix(a, b, k) &&
      ((k == |b| && k < |a|) || (k < |a| && k < |b| && a[k] > b[k]))
  }

  ghost predicate SamePrefix(a: seq<int>, b: seq<int>, k: nat)
    requires k <= |a| && k <= |b|
  {
    forall j :: 0 <= j < k ==> a[j] == b[j]
  }

  lemma LexGreaterAtHead(a: seq<int>, b: seq<int>)
    requires a != [] && b != [] && a[0] != b[0]
    ensures LexGreater(a, b) <==> a[0] > b[0]
  {
    if a[0] > b[0] {
      assert SamePrefix(a, b, 0);
    }
    if LexGreater(a, b) {
      var k :| 0 <= k <= |a| && k <= |b| && SamePrefix(a, b, k) &&
               ((k == |b| && k < |a|) || (k < |a| && k < |b| && a[k] > b[k]));
      assert k == 0;
    }
  }

  lemma LexGreaterAfterHead(a: seq<int>, b: seq<int>)
    requires a != [] && b != [] && a[0] == b[0]
    ensures LexGreater(a, b) <==> LexGreater(a[1..], b[1..])
  {
    if LexGreater(a[1..], b[1..]) {
      var k :| 0 <= k <= |a[1..]| && k <= |b[1..]| && SamePrefix(a[1..], b[1..], k) &&
               ((k == |b[1..]| && k < |a[1..]|) || (k < |a[1..]| && k < |b[1..]| && a[1..][k] > b[1..][k]));
      assert SamePrefix(a, b, k + 1) by {
        forall j | 0 <= j < k + 1 ensures a[j] == b[j] {
          if j > 0 {
            assert a[j] == a[1..][j - 1] && b[j] == b[1..][j - 1];
          }
        }
      }
    }
    if LexGreater(a, b) {
      var k :| 0 <= k <= |a| && k <= |b| && SamePrefix(a, b, k) &&
               ((k == |b| && k < |a|) || (k < |a| && k < |b| && a[k] > b[k]));
      assert k > 0;
      assert SamePrefix(a[1..], b[1..], k - 1) by {
        forall j | 0 <= j < k - 1 ensures a[1..][j] == b[1..][j] {
          assert a[1..][j] == a[j + 1] && b[1..][j] == b[j + 1];
        }
      }
    }
  }

  /** On tuples of numbers, TupleGreater is lexicographic order. */
  lemma {:induction false} TupleGreaterIsLexicographic(a: seq<Value>, b: seq<int>)
    requires forall i :: 0 <= i < |a| ==> IsNumber(a[i])
    ensures TupleGreater(a, b) == Ok(LexGreater(Numbers(a), b))
    decreases |a|
  {
    var na := Numbers(a);
    if a == [] {
      assert !LexGreater(na, b);
    } else if b == [] {
      assert SamePrefix(na, b, 0);
    } else if NumberOf(a[0]) != b[0] {
      LexGreaterAtHead(na, b);
    } else {
      TupleGreaterIsLexicographic(a[1..], b[1..]);
      assert na[1..] == Numbers(a[1..]);
      LexGreaterAfterHead(na, b);
    }
  }

  /** The version table of the middleware-setting test: 1.10 and earlier are "not greater",
      1.11 and 2.0 are, and a five-part 1.10 release tuple is greater than the pair (1, 10). */
  lemma VersionTable()
    ensures TupleGreater([Int(1), Int(1)], [1, 10]) == Ok(false)
    ensures TupleGreater([Int(1), Int(9)], [1, 10]) == Ok(false)
    ensures TupleGreater([Int(1), Int(10)], [1, 10]) == Ok(false)
    ensures TupleGreater([Int(1), Int(11)], [1, 10]) == Ok(true)
    ensures TupleGreater([Int(2), Int(0)], [1, 10]) == Ok(true)
    ensures TupleGreater([Int(1), Int(10), Int(0), Str("final"), Int(0)], [1, 10]) == Ok(true)
  {
  }

  /** The pure part of get_middleware_and_setting_name, over the attribute map: MIDDLEWARE
      (None read as an empty list) when settings has it and django.VERSION > (1, 10),
      otherwise MIDDLEWARE_CLASSES. django.VERSION is only read when MIDDLEWARE exists. */
  function MiddlewareChoice(attrs: map<Attr, Value>): (r: Result<(Value, string)>)
    ensures r.Ok? ==> r.value.1 in {"MIDDLEWARE", "MIDDLEWARE_CLASSES"}
  {
    var newStyle :-
      if Setting("MIDDLEWARE") !in attrs then Ok(false)
      else
        var version :- LookupIn(attrs, Attr("django", "VERSION"));
        if !version.Tuple? then Err(TypeError("'>' not supported between instances"))
        else TupleGreater(version.items, [1, 10]);
    if newStyle then
      var middleware := attrs[Setting("MIDDLEWARE")];
      Ok((if middleware == None then List([]) else middleware, "MIDDLEWARE"))
    else
      var classes :- LookupIn(attrs, Setting("MIDDLEWARE_CLASSES"));
      Ok((classes, "MIDDLEWARE_CLASSES"))
  }

  /** MIDDLEWARE is chosen exactly when settings has it and django.VERSION is a tuple greater
      than (1, 10), and a None there reads as an empty list; otherwise MIDDLEWARE_CLASSES is
      chosen when present, and its absence raises AttributeError when MIDDLEWARE is missing too. */
  lemma MiddlewareChoiceRules(attrs: map<Attr, Value>)
    ensures MiddlewareChoice(attrs).Ok? && MiddlewareChoice(attrs).value.1 == "MIDDLEWARE" <==>
              Setting("MIDDLEWARE") in attrs && Attr("django", "VERSION") in attrs &&
              attrs[Attr("django", "VERSION")].Tuple? &&
              TupleGreater(attrs[Attr("django", "VERSION")].items, [1, 10]) == Ok(true)
    ensures MiddlewareChoice(attrs).Ok? && MiddlewareChoice(attrs).value.1 == "MIDDLEWARE" ==>
              MiddlewareChoice(attrs).value.0 == (if attrs[Setting("MIDDLEWARE")] == None then List([]) else attrs[Setting("MIDDLEWARE")])
    ensures MiddlewareChoice(attrs).Ok? && MiddlewareChoice(attrs).value.1 == "MIDDLEWARE_CLASSES" ==>
              Setting("MIDDLEWARE_CLASSES") in attrs && MiddlewareChoice(attrs).value.0 == attrs[Setting("MIDDLEWARE_CLASSES")]
    ensures Setting("MIDDLEWARE") !in attrs ==>
              MiddlewareChoice(attrs) == (if Setting("MIDDLEWARE_CLASSES") in attrs
                    then Ok((attrs[Setting("MIDDLEWARE_CLASSES")], "MIDDLEWARE_CLASSES"))
                    else Err(AttributeError(SettingsOwner, "MIDDLEWARE_CLASSES")))
  {
  }

  /** The choice reads nothing but MIDDLEWARE, MIDDLEWARE_CLASSES and django.VERSION: rewriting
      the chosen setting with a value other than None, and leaving those three alone otherwise,
      keeps the choice and makes the new value the one returned. */
  lemma ChoiceAfterRewrite(before: map<Attr, Value>, after: map<Attr, Value>, v: Value)
    requires MiddlewareChoice(before).Ok? && v != None
    requires LookupIn(after, Attr("django", "VERSION")) == LookupIn(before, Attr("django", "VERSION"))
    requires Setting("MIDDLEWARE") in after <==> Setting("MIDDLEWARE") in before
    requires var s := MiddlewareChoice(before).value.1;
             Setting(s) in after && after[Setting(s)] == v
    ensures MiddlewareChoice(after) == Ok((v, MiddlewareChoice(before).value.1))
  {
  }

  /** [i for i in items if i != x] */
  function Without<T(==)>(items: seq<T>, x: T): seq<T>
    decreases |items|
  {
    if items == [] then []
    else (if items[0] == x then [] else [items[0]]) + Without(items[1..], x)
  }

  /** The filtered list holds exactly the entries other than x, and is no longer than the original. */
  lemma {:induction false} WithoutMembers<T>(items: seq<T>, x: T)
    ensures forall v :: v in Without(items, x) <==> v in items && v != x
    ensures |Without(items, x)| <= |items|
    decreases |items|
  {
    if items != [] {
      WithoutMembers(items[1..], x);
      assert items == [items[0]] + items[1..];
    }
  }

  /** Filtering keeps the order of what remains: it distributes over concatenation. */
  lemma {:induction false} WithoutDistributes<T>(a: seq<T>, b: seq<T>, x: T)
    ensures Without(a + b, x) == Without(a, x) + Without(b, x)
    decreases |a|
  {
    if a == [] {
      assert a + b == b;
    } else {
      assert (a + b)[1..] == a[1..] + b;
      WithoutDistributes(a[1..], b, x);
    }
  }

  /** A sequence without x is left as it is. */
  lemma {:induction false} WithoutAbsent<T>(items: seq<T>, x: T)
    requires x !in items
    ensures Without(items, x) == items
    decreases |items|
  {
    if items != [] {
      WithoutAbsent(items[1..], x);
    }
  }

  /** Removing the prepended middleware class gives back a list that did not contain it. */
  lemma PrependThenRemove<T>(items: seq<T>, x: T)
    requires x !in items
    ensures Without([x] + items, x) == items
  {
    assert ([x] + items)[1..] == items;
    WithoutAbsent(items, x);
  }

  /** get_middleware_and_setting_name(): imports django and django.conf, then chooses. */
  method GetMiddlewareAndSettingName(p: Process) returns (r: Result<(Value, string)>)
    modifies p`modules
    ensures !old(p.Locatable("django")) ==> r == Err(ImportError("django"))
    ensures old(p.Locatable("django")) && !old(p.Locatable("django.conf")) ==> r == Err(ImportError("django.conf"))
    ensures old(p.Locatable("django")) && old(p.Locatable("django.conf")) ==> r == MiddlewareChoice(p.attrs)
    ensures old(p.modules) <= p.modules <= old(p.modules) + {"django", "django.conf"}
  {
    var django :- GetModule(p, "django");
    var conf :- GetModule(p, "django.conf");
    r := MiddlewareChoice(p.attrs);
  }


  /** The choice reads nothing but MIDDLEWARE, MIDDLEWARE_CLASSES and django.VERSION, so a
      change confined to the tracing settings leaves it alone. */
  lemma ChoiceIgnoresTracingKeys(before: map<Attr, Value>, after: map<Attr, Value>)
    requires OnlyChanged(before, after, TracingKeys())
    ensures MiddlewareChoice(after) == MiddlewareChoice(before)
  {
    assert Attr("django", "VERSION") !in TracingKeys();
    assert Setting("MIDDLEWARE") !in TracingKeys();
    assert Setting("MIDDLEWARE_CLASSES") !in TracingKeys();
    Unmoved(before, after, TracingKeys(), Attr("django", "VERSION"));
    Unmoved(before, after, TracingKeys(), Setting("MIDDLEWARE"));
    Unmoved(before, after, TracingKeys(), Setting("MIDDLEWARE_CLASSES"));
  }

  /** Deleting the tracing settings leaves the middleware choice alone. */
  lemma ChoiceIgnoresTracingSettings(attrs: map<Attr, Value>)
    ensures MiddlewareChoice(attrs - TracingKeys()) == MiddlewareChoice(attrs)
  {
    ChoiceIgnoresTracingKeys(attrs, attrs - TracingKeys());
  }

  /** Writing the tracing settings leaves the middleware choice alone. */
  lemma ChoiceIgnoresTracingWrites(attrs: map<Attr, Value>, f: map<string, Value>, tracer: Value)
    requires ConfigReady(f, tracer)
    ensures MiddlewareChoice(TracingWritten(attrs, f, tracer)) == MiddlewareChoice(attrs)
  {
    TracingWrittenOnlyTouchesTracingKeys(attrs, f, tracer);
    ChoiceIgnoresTracingKeys(attrs, TracingWritten(attrs, f, tracer));
  }

  /** `tracer or config.tracer`, the value whose None-ness decides OPENTRACING_TRACING. */
  function ConfiguredTracer(tracer: Value, f: map<string, Value>): Value
    requires Truthy(tracer) || "tracer" in f
  {
    if Truthy(tracer) then tracer else f["tracer"]
  }

  /** When instrument gets past its imports without an exception: the config fields it reads
      exist, and the middleware setting can be chosen and iterated. */
  predicate CanInstrument(attrs: map<Attr, Value>, f: map<string, Value>, tracer: Value) {
    ConfigReady(f, tracer) && "middleware_class" in f && ChoiceReady(attrs)
  }

  /** The config fields lines 40-53 read exist. */
  predicate ConfigReady(f: map<string, Value>, tracer: Value) {
    && {"trace_all", "traced_attributes", "set_global_tracer", "tracer_callable"} <= f.Keys
    && (Truthy(tracer) || "tracer" in f)
    && (Truthy(f["tracer_callable"]) ==> "tracer_parameters" in f)
  }

  /** The middleware setting can be chosen and its value iterated. */
  predicate ChoiceReady(attrs: map<Attr, Value>) {
    MiddlewareChoice(attrs).Ok? && Iterate(MiddlewareChoice(attrs).value.0).Ok?
  }

  /** Lines 40-43: the settings copied from the config unconditionally. */
  function WithConfigSettings(attrs: map<Attr, Value>, f: map<string, Value>): map<Attr, Value>
    requires {"trace_all", "traced_attributes", "set_global_tracer"} <= f.Keys
  {
    attrs[Setting("OPENTRACING_TRACE_ALL") := f["trace_all"]]
         [Setting("OPENTRACING_TRACED_ATTRIBUTES") := f["traced_attributes"]]
         [Setting("OPENTRACING_SET_GLOBAL_TRACER") := f["set_global_tracer"]]
  }

  /** Lines 46-49: the DjangoTracer, built from the tracer argument itself. */
  function WithTracingObject(attrs: map<Attr, Value>, f: map<string, Value>, tracer: Value): map<Attr, Value>
    requires Truthy(tracer) || "tracer" in f
  {
    if ConfiguredTracer(tracer, f) != None
    then attrs[Setting("OPENTRACING_TRACING") := Instance("django_opentracing.DjangoTracer", [tracer])]
    else attrs
  }

  /** Lines 51-53: the tracer callable and its parameters, `or {}`. */
  function WithTracerCallable(attrs: map<Attr, Value>, f: map<string, Value>): map<Attr, Value>
    requires "tracer_callable" in f && (Truthy(f["tracer_callable"]) ==> "tracer_parameters" in f)
  {
    if Truthy(f["tracer_callable"])
    then attrs[Setting("OPENTRACING_TRACER_CALLABLE") := f["tracer_callable"]]
              [Setting("OPENTRACING_TRACER_PARAMETERS") := Or(f["tracer_parameters"], Dict(map[]))]
    else attrs
  }

  /** Lines 40-53 of instrument, in order. */
  function TracingWritten(attrs: map<Attr, Value>, f: map<string, Value>, tracer: Value): map<Attr, Value>
    requires ConfigReady(f, tracer)
  {
    WithTracerCallable(WithTracingObject(WithConfigSettings(attrs, f), f, tracer), f)
  }

  /** Lines 55-56: the middleware class put in front of the chosen setting's entries. */
  function Prepended(attrs: map<Attr, Value>, f: map<string, Value>): map<Attr, Value>
    requires ChoiceReady(attrs) && "middleware_class" in f
  {
    var (middleware, setting) := MiddlewareChoice(attrs).value;
    attrs[Setting(setting) := List([f["middleware_class"]] + Iterate(middleware).value)]
  }

  /** The settings after a successful instrument of an unmarked django. */
  function InstrumentedSettings(attrs: map<Attr, Value>, f: map<string, Value>, tracer: Value): map<Attr, Value>
    requires CanInstrument(attrs, f, tracer)
  {
    var (middleware, setting) := MiddlewareChoice(attrs).value;
    var written := TracingWritten(attrs, f, tracer);
    written[Setting(setting) := List([f["middleware_class"]] + Iterate(middleware).value)]
           [Marker("django") := Bool(true)]
  }

  /** The same settings as the source computes them: the middleware setting is chosen after the
      tracing settings are written, which leaves the choice alone. */
  lemma InstrumentedSettingsAsSteps(attrs: map<Attr, Value>, f: map<string, Value>, tracer: Value)
    requires CanInstrument(attrs, f, tracer)
    ensures ChoiceReady(TracingWritten(attrs, f, tracer))
    ensures InstrumentedSettings(attrs, f, tracer) == Prepended(TracingWritten(attrs, f, tracer), f)[Marker("django") := Bool(true)]
  {
    ChoiceIgnoresTracingWrites(attrs, f, tracer);
  }

  /** When uninstrument gets past its imports without an exception. */
  predicate CanUninstrument(attrs: map<Attr, Value>, f: map<string, Value>) {
    && MiddlewareChoice(attrs).Ok? && Iterate(MiddlewareChoice(attrs).value.0).Ok?
    && (Iterate(MiddlewareChoice(attrs).value.0).value != [] ==> "middleware_class" in f)
  }

  /** The middleware entries uninstrument keeps. */
  function KeptMiddleware(attrs: map<Attr, Value>, f: map<string, Value>): seq<Value>
    requires CanUninstrument(attrs, f)
  {
    var items := Iterate(MiddlewareChoice(attrs).value.0).value;
    if items == [] then [] else Without(items, f["middleware_class"])
  }

  /** The settings after a successful uninstrument of a marked django. */
  function UninstrumentedSettings(attrs: map<Attr, Value>, f: map<string, Value>): map<Attr, Value>
    requires CanUninstrument(attrs, f)
  {
    var setting := MiddlewareChoice(attrs).value.1;
    ((attrs - TracingKeys())[Setting(setting) := List(KeptMiddleware(attrs, f))]) - {Marker("django")}
  }

  /** The chosen middleware setting is neither a tracing setting nor the marker. */
  lemma ChosenIsSeparate(attrs: map<Attr, Value>)
    requires MiddlewareChoice(attrs).Ok?
    ensures Setting(MiddlewareChoice(attrs).value.1) !in TracingKeys()
    ensures Setting(MiddlewareChoice(attrs).value.1) != Marker("django")
  {
    var setting := MiddlewareChoice(attrs).value.1;
    assert setting[0] == 'M';
    forall n | n in TracingSettings ensures n[0] == 'O' {
    }
  }

  /** Lines 40-53 on their own: the three config settings are copied; the tracing object is
      set, from the tracer argument, exactly when `tracer or config.tracer` is not None; the
      callable and its parameters (defaulting to {}) only for a truthy callable. */
  lemma TracingWrittenValues(attrs: map<Attr, Value>, f: map<string, Value>, tracer: Value)
    requires ConfigReady(f, tracer)
    ensures var w := TracingWritten(attrs, f, tracer);
      && LookupIn(w, Setting("OPENTRACING_TRACE_ALL")) == Ok(f["trace_all"])
      && LookupIn(w, Setting("OPENTRACING_TRACED_ATTRIBUTES")) == Ok(f["traced_attributes"])
      && LookupIn(w, Setting("OPENTRACING_SET_GLOBAL_TRACER")) == Ok(f["set_global_tracer"])
      && LookupIn(w, Setting("OPENTRACING_TRACING")) ==
           (if ConfiguredTracer(tracer, f) != None
            then Ok(Instance("django_opentracing.DjangoTracer", [tracer]))
            else LookupIn(attrs, Setting("OPENTRACING_TRACING")))
      && (Truthy(f["tracer_callable"]) ==>
            && LookupIn(w, Setting("OPENTRACING_TRACER_CALLABLE")) == Ok(f["tracer_callable"])
            && LookupIn(w, Setting("OPENTRACING_TRACER_PARAMETERS")) == Ok(Or(f["tracer_parameters"], Dict(map[]))))
      && (!Truthy(f["tracer_callable"]) ==>
            && LookupIn(w, Setting("OPENTRACING_TRACER_CALLABLE")) == LookupIn(attrs, Setting("OPENTRACING_TRACER_CALLABLE"))
            && LookupIn(w, Setting("OPENTRACING_TRACER_PARAMETERS")) == LookupIn(attrs, Setting("OPENTRACING_TRACER_PARAMETERS")))
      && LookupIn(w, Setting("OPENTRACING_TRACER")) == LookupIn(attrs, Setting("OPENTRACING_TRACER"))
  {
  }

  /** Two updates leave every other key as it was. */
  lemma UpdatedElsewhere(m: map<Attr, Value>, k1: Attr, v1: Value, k2: Attr, v2: Value, x: Attr)
    requires x != k1 && x != k2
    ensures LookupIn(m[k1 := v1][k2 := v2], x) == LookupIn(m, x)
  {
  }

  /** What instrument promises about the settings: the three config settings are copied; the
      tracing object is set, from the tracer argument, exactly when `tracer or config.tracer` is
      not None; the callable and its parameters (defaulting to {}) only for a truthy callable;
      the middleware class is prepended to the chosen setting's entries; django is marked. */
  lemma InstrumentWritesSettings(attrs: map<Attr, Value>, f: map<string, Value>, tracer: Value)
    requires CanInstrument(attrs, f, tracer)
    ensures var after := InstrumentedSettings(attrs, f, tracer);
      && after[Marker("django")] == Bool(true)
      && after[Setting("OPENTRACING_TRACE_ALL")] == f["trace_all"]
      && after[Setting("OPENTRACING_TRACED_ATTRIBUTES")] == f["traced_attributes"]
      && after[Setting("OPENTRACING_SET_GLOBAL_TRACER")] == f["set_global_tracer"]
      && LookupIn(after, Setting("OPENTRACING_TRACING")) ==
           (if ConfiguredTracer(tracer, f) != None
            then Ok(Instance("django_opentracing.DjangoTracer", [tracer]))
            else LookupIn(attrs, Setting("OPENTRACING_TRACING")))
      && (Truthy(f["tracer_callable"]) ==>
            && after[Setting("OPENTRACING_TRACER_CALLABLE")] == f["tracer_callable"]
            && after[Setting("OPENTRACING_TRACER_PARAMETERS")] == Or(f["tracer_parameters"], Dict(map[])))
      && (!Truthy(f["tracer_callable"]) ==>
            && LookupIn(after, Setting("OPENTRACING_TRACER_CALLABLE")) == LookupIn(attrs, Setting("OPENTRACING_TRACER_CALLABLE"))
            && LookupIn(after, Setting("OPENTRACING_TRACER_PARAMETERS")) == LookupIn(attrs, Setting("OPENTRACING_TRACER_PARAMETERS")))
      && LookupIn(after, Setting("OPENTRACING_TRACER")) == LookupIn(attrs, Setting("OPENTRACING_TRACER"))
      && var (middleware, setting) := MiddlewareChoice(attrs).value;
         after[Setting(setting)] == List([f["middleware_class"]] + Iterate(middleware).value)
  {
    var (middleware, setting) := MiddlewareChoice(attrs).value;
    var written := TracingWritten(attrs, f, tracer);
    var listed := List([f["middleware_class"]] + Iterate(middleware).value);
    ChosenIsSeparate(attrs);
    TracingWrittenValues(attrs, f, tracer);
    forall n | n in TracingSettings
      ensures LookupIn(InstrumentedSettings(attrs, f, tracer), Setting(n)) == LookupIn(written, Setting(n))
    {
      UpdatedElsewhere(written, Setting(setting), listed, Marker("django"), Bool(true), Setting(n));
    }
  }

  /** Nothing outside the tracing settings, the chosen middleware setting and the marker changes. */
  lemma InstrumentChangesOnlyDjangoKeys(attrs: map<Attr, Value>, f: map<string, Value>, tracer: Value)
    requires CanInstrument(attrs, f, tracer)
    ensures OnlyChanged(attrs, InstrumentedSettings(attrs, f, tracer), DjangoKeys(attrs))
  {
  }

  /** What uninstrument promises: every tracing setting is gone, the chosen setting keeps the
      other entries in their order, and django is unmarked; nothing else changes. */
  lemma UninstrumentRemovesSettings(attrs: map<Attr, Value>, f: map<string, Value>)
    requires CanUninstrument(attrs, f)
    ensures var after := UninstrumentedSettings(attrs, f);
      && Marker("django") !in after
      && (forall n :: n in TracingSettings ==> Setting(n) !in after)
      && after[Setting(MiddlewareChoice(attrs).value.1)] == List(KeptMiddleware(attrs, f))
      && OnlyChanged(attrs, after, DjangoKeys(attrs))
  {
  }

  /** Lines 40-53 write tracing settings and nothing else. */
  lemma TracingWrittenOnlyTouchesTracingKeys(attrs: map<Attr, Value>, f: map<string, Value>, tracer: Value)
    requires ConfigReady(f, tracer)
    ensures OnlyChanged(attrs, TracingWritten(attrs, f, tracer), TracingKeys())
  {
  }

  /** After instrument, the same middleware setting is chosen, now holding the prepended list. */
  lemma ChoiceAfterInstrument(attrs: map<Attr, Value>, f: map<string, Value>, tracer: Value)
    requires CanInstrument(attrs, f, tracer)
    ensures var (middleware, setting) := MiddlewareChoice(attrs).value;
      MiddlewareChoice(InstrumentedSettings(attrs, f, tracer)) ==
        Ok((List([f["middleware_class"]] + Iterate(middleware).value), setting))
  {
    var written := TracingWritten(attrs, f, tracer);
    ChoiceIgnoresTracingWrites(attrs, f, tracer);
    var (middleware, setting) := MiddlewareChoice(written).value;
    ChoiceAfterPrependAndMark(written, List([f["middleware_class"]] + Iterate(middleware).value));
  }

  /** Rewriting the chosen setting with a list and marking django keeps the choice. */
  lemma ChoiceAfterPrependAndMark(w: map<Attr, Value>, v: Value)
    requires MiddlewareChoice(w).Ok? && v.List?
    ensures var setting := MiddlewareChoice(w).value.1;
      MiddlewareChoice(w[Setting(setting) := v][Marker("django") := Bool(true)]) == Ok((v, setting))
  {
    var setting := MiddlewareChoice(w).value.1;
    var after := w[Setting(setting) := v][Marker("django") := Bool(true)];
    assert LookupIn(after, Attr("django", "VERSION")) == LookupIn(w, Attr("django", "VERSION"));
    ChoiceAfterRewrite(w, after, v);
  }

  /** Instrumenting an unmarked django with none of the tracing settings present, and then
      uninstrumenting it with the same config, leaves every setting as it was except that the
      chosen middleware setting now holds a list of the same entries in the same order, provided
      the middleware class was not among them. */
  lemma InstrumentThenUninstrument(attrs: map<Attr, Value>, f: map<string, Value>, tracer: Value)
    requires CanInstrument(attrs, f, tracer)
    requires Marker("django") !in attrs
    requires forall n :: n in TracingSettings ==> Setting(n) !in attrs
    requires f["middleware_class"] !in Iterate(MiddlewareChoice(attrs).value.0).value
    ensures CanUninstrument(InstrumentedSettings(attrs, f, tracer), f)
    ensures var (middleware, setting) := MiddlewareChoice(attrs).value;
      UninstrumentedSettings(InstrumentedSettings(attrs, f, tracer), f) ==
        attrs[Setting(setting) := List(Iterate(middleware).value)]
  {
    var (middleware, setting) := MiddlewareChoice(attrs).value;
    var items := Iterate(middleware).value;
    var mc := f["middleware_class"];
    var after := InstrumentedSettings(attrs, f, tracer);
    ChoiceAfterInstrument(attrs, f, tracer);
    assert Iterate(List([mc] + items)).value == [mc] + items;
    assert CanUninstrument(after, f);
    PrependThenRemove(items, mc);
    assert KeptMiddleware(after, f) == items;
    TracingWrittenOnlyTouchesTracingKeys(attrs, f, tracer);
    ChosenIsSeparate(attrs);
    assert forall a :: a in TracingKeys() ==> a !in attrs;
    RestoreUntouched(attrs, TracingWritten(attrs, f, tracer), TracingKeys(), Setting(setting), Marker("django"),
                     List([mc] + items), List(items));
  }

  /** Map algebra behind the round trip: keys that were absent, written and then removed again
      leave the map as it was, apart from the one key rewritten at the end. */
  lemma RestoreUntouched(attrs: map<Attr, Value>, written: map<Attr, Value>, keys: set<Attr>,
                         s: Attr, m: Attr, w: Value, v: Value)
    requires OnlyChanged(attrs, written, keys)
    requires forall a :: a in keys ==> a !in attrs
    requires m !in attrs && s !in keys && s != m
    ensures (((written[s := w][m := Bool(true)]) - keys)[s := v]) - {m} == attrs[s := v]
  {
    var back := (((written[s := w][m := Bool(true)]) - keys)[s := v]) - {m};
    var expected := attrs[s := v];
    forall a ensures a in back <==> a in expected {
      if a != s && a != m && a !in keys {
        assert a in written <==> a in attrs;
      }
    }
    forall a | a in back ensures back[a] == expected[a] {
      if a != s {
        assert written[a] == attrs[a];
      }
    }
  }

  /** Lines 40-43 of instrument: three settings copied from the config. */
  method WriteConfigSettings(p: Process, cfg: ConfigNamespace.Config) returns (r: Result<()>)
    requires p.Valid()
    modifies p`attrs
    ensures p.Valid()
    ensures r.Ok? <==> {"trace_all", "traced_attributes", "set_global_tracer"} <= cfg.fields.Keys
    ensures r.Ok? ==> p.attrs == WithConfigSettings(old(p.attrs), cfg.fields)
    ensures LookupIn(p.attrs, Marker("django")) == LookupIn(old(p.attrs), Marker("django"))
  {
    var traceAll :- cfg.GetAttr("trace_all");
    p.SetAttr(Setting("OPENTRACING_TRACE_ALL"), traceAll);
    var tracedAttributes :- cfg.GetAttr("traced_attributes");
    p.SetAttr(Setting("OPENTRACING_TRACED_ATTRIBUTES"), tracedAttributes);
    var setGlobal :- cfg.GetAttr("set_global_tracer");
    p.SetAttr(Setting("OPENTRACING_SET_GLOBAL_TRACER"), setGlobal);
    return Ok(());
  }

  /** Lines 45-49 of instrument: the DjangoTracer, when `tracer or config.tracer` is not None. */
  method WriteTracingObject(p: Process, cfg: ConfigNamespace.Config, tracer: Value) returns (r: Result<()>)
    requires p.Valid()
    modifies p`modules, p`attrs
    ensures p.Valid()
    ensures old(p.modules) <= p.modules <= old(p.modules) + {"django_opentracing"}
    ensures r.Ok? <==>
      (Truthy(tracer) || "tracer" in cfg.fields) &&
      (ConfiguredTracer(tracer, cfg.fields) != None ==> old(p.Locatable("django_opentracing")))
    ensures r.Ok? ==> p.attrs == WithTracingObject(old(p.attrs), cfg.fields, tracer)
    ensures LookupIn(p.attrs, Marker("django")) == LookupIn(old(p.attrs), Marker("django"))
  {
    // `tracer or config.tracer`: config is consulted only for a falsy argument.
    var configured := tracer;
    if !Truthy(tracer) {
      configured :- cfg.GetAttr("tracer");
    }
    if configured != None {
      var djangoOpentracing :- GetModule(p, "django_opentracing");
      p.SetAttr(Setting("OPENTRACING_TRACING"), Instance("django_opentracing.DjangoTracer", [tracer]));
    }
    return Ok(());
  }

  /** Lines 51-53 of instrument: the tracer callable and its parameters, for a truthy callable. */
  method WriteTracerCallable(p: Process, cfg: ConfigNamespace.Config) returns (r: Result<()>)
    requires p.Valid()
    modifies p`attrs
    ensures p.Valid()
    ensures r.Ok? <==>
      "tracer_callable" in cfg.fields && (Truthy(cfg.fields["tracer_callable"]) ==> "tracer_parameters" in cfg.fields)
    ensures r.Ok? ==> p.attrs == WithTracerCallable(old(p.attrs), cfg.fields)
    ensures LookupIn(p.attrs, Marker("django")) == LookupIn(old(p.attrs), Marker("django"))
  {
    var tracerCallable :- cfg.GetAttr("tracer_callable");
    if Truthy(tracerCallable) {
      p.SetAttr(Setting("OPENTRACING_TRACER_CALLABLE"), tracerCallable);
      var parameters :- cfg.GetAttr("tracer_parameters");
      p.SetAttr(Setting("OPENTRACING_TRACER_PARAMETERS"), Or(parameters, Dict(map[])));
    }
    return Ok(());
  }

  /** Lines 40-53 of instrument: the settings taken from the config and the tracer. */
  method WriteTracingSettings(p: Process, cfg: ConfigNamespace.Config, tracer: Value) returns (r: Result<()>)
    requires p.Valid()
    modifies p`modules, p`attrs
    ensures p.Valid()
    ensures old(p.modules) <= p.modules <= old(p.modules) + {"django_opentracing"}
    ensures LookupIn(p.attrs, Marker("django")) == LookupIn(old(p.attrs), Marker("django"))
    ensures r.Ok? <==>
      ConfigReady(cfg.fields, tracer) &&
      (ConfiguredTracer(tracer, cfg.fields) != None ==> old(p.Locatable("django_opentracing")))
    ensures r.Ok? ==> p.attrs == TracingWritten(old(p.attrs), cfg.fields, tracer)
  {
    var copied :- WriteConfigSettings(p, cfg);
    var traced :- WriteTracingObject(p, cfg, tracer);
    var callable :- WriteTracerCallable(p, cfg);
    return Ok(());
  }

  /** Lines 55-56 of instrument: `[config.middleware_class] + list(middleware)` into the chosen setting. */
  method PrependMiddleware(p: Process, cfg: ConfigNamespace.Config) returns (r: Result<()>)
    requires p.Valid() && "django" in p.modules && "django.conf" in p.modules
    modifies p`modules, p`attrs
    ensures p.Valid() && p.modules == old(p.modules)
    ensures LookupIn(p.attrs, Marker("django")) == LookupIn(old(p.attrs), Marker("django"))
    ensures r.Ok? <==> ChoiceReady(old(p.attrs)) && "middleware_class" in cfg.fields
    ensures r.Ok? ==> p.attrs == Prepended(old(p.attrs), cfg.fields)
  {
    var choice :- GetMiddlewareAndSettingName(p);
    var (middleware, setting) := choice;
    var middlewareClass :- cfg.GetAttr("middleware_class");
    var items :- Iterate(middleware);
    p.SetAttr(Setting(setting), List([middlewareClass] + items));
    return Ok(());
  }

  /** instrument(tracer): unless django is marked, write the tracing settings, prepend the
      middleware class to the chosen middleware setting, and mark django. */
  method Instrument(p: Process, cfg: ConfigNamespace.Config, tracer: Value) returns (r: Result<()>)
    requires p.Valid()
    modifies p`modules, p`attrs
    ensures p.Valid()
    ensures old(p.modules) <= p.modules <= old(p.modules) + {"django", "django.conf", "django_opentracing"}
    ensures !old(p.Locatable("django")) ==> r == Err(ImportError("django")) && p.attrs == old(p.attrs)
    ensures old(IsInstrumented(p, "django")) ==> r == Ok(()) && p.attrs == old(p.attrs)
    ensures r.Ok? <==> IsInstrumented(p, "django")
    ensures r.Ok? && !old(IsInstrumented(p, "django")) ==>
      CanInstrument(old(p.attrs), cfg.fields, tracer) &&
      p.attrs == InstrumentedSettings(old(p.attrs), cfg.fields, tracer)
    ensures old(p.Locatable("django")) && old(p.Locatable("django.conf")) &&
            CanInstrument(old(p.attrs), cfg.fields, tracer) &&
            (ConfiguredTracer(tracer, cfg.fields) != None ==> old(p.Locatable("django_opentracing")))
            ==> r.Ok?
  {
    var django :- GetModule(p, "django");
    if IsInstrumented(p, "django") {
      return Ok(());
    }
    r := InstrumentUnmarked(p, cfg, tracer);
  }

  /** The steps of instrument after the marker check, on an imported and unmarked django. */
  method InstrumentUnmarked(p: Process, cfg: ConfigNamespace.Config, tracer: Value) returns (r: Result<()>)
    requires p.Valid() && "django" in p.modules && !IsInstrumented(p, "django")
    modifies p`modules, p`attrs
    ensures p.Valid()
    ensures old(p.modules) <= p.modules <= old(p.modules) + {"django.conf", "django_opentracing"}
    ensures r.Ok? <==> IsInstrumented(p, "django")
    ensures r.Ok? <==>
      old(p.Locatable("django.conf")) && CanInstrument(old(p.attrs), cfg.fields, tracer) &&
      (ConfiguredTracer(tracer, cfg.fields) != None ==> old(p.Locatable("django_opentracing")))
    ensures r.Ok? ==> p.attrs == InstrumentedSettings(old(p.attrs), cfg.fields, tracer)
  {
    var conf :- GetModule(p, "django.conf");
    r := WriteAndMark(p, cfg, tracer);
  }

  /** Lines 40-57 of instrument, once django.conf is imported. */
  method WriteAndMark(p: Process, cfg: ConfigNamespace.Config, tracer: Value) returns (r: Result<()>)
    requires p.Valid() && "django" in p.modules && "django.conf" in p.modules && !IsInstrumented(p, "django")
    modifies p`modules, p`attrs
    ensures p.Valid()
    ensures old(p.modules) <= p.modules <= old(p.modules) + {"django_opentracing"}
    ensures r.Ok? <==> IsInstrumented(p, "django")
    ensures r.Ok? <==>
      CanInstrument(old(p.attrs), cfg.fields, tracer) &&
      (ConfiguredTracer(tracer, cfg.fields) != None ==> old(p.Locatable("django_opentracing")))
    ensures r.Ok? ==> p.attrs == InstrumentedSettings(old(p.attrs), cfg.fields, tracer)
  {
    ghost var attrs0 := p.attrs;
    var written := WriteTracingSettings(p, cfg, tracer);
    if written.Err? {
      return Err(written.error);
    }
    r := PrependAndMark(p, cfg, tracer, attrs0);
  }

  /** Lines 55-57, once the tracing settings are written over attrs0: prepend the middleware
      class to the chosen setting and mark django. */
  method PrependAndMark(p: Process, cfg: ConfigNamespace.Config, tracer: Value, ghost attrs0: map<Attr, Value>)
    returns (r: Result<()>)
    requires p.Valid() && "django" in p.modules && "django.conf" in p.modules && !IsInstrumented(p, "django")
    requires ConfigReady(cfg.fields, tracer) && p.attrs == TracingWritten(attrs0, cfg.fields, tracer)
    modifies p`modules, p`attrs
    ensures p.Valid() && p.modules == old(p.modules)
    ensures r.Ok? <==> IsInstrumented(p, "django")
    ensures r.Ok? <==> CanInstrument(attrs0, cfg.fields, tracer)
    ensures r.Ok? ==> p.attrs == InstrumentedSettings(attrs0, cfg.fields, tracer)
  {
    ChoiceIgnoresTracingWrites(attrs0, cfg.fields, tracer);
    var prepended := PrependMiddleware(p, cfg);
    if prepended.Err? {
      return Err(prepended.error);
    }
    InstrumentedSettingsAsSteps(attrs0, cfg.fields, tracer);
    MarkInstrumented(p, "django");
    return Ok(());
  }

  /** The loop of uninstrument: delete each tracing setting, skipping missing ones. */
  method DeleteTracingSettings(p: Process)
    requires p.Valid()
    modifies p`attrs
    ensures p.Valid()
    ensures p.attrs == old(p.attrs) - TracingKeys()
  {
    DeleteSettings(p, TracingSettings);
    assert SettingKeys(TracingSettings) == TracingKeys();
  }

  /** The settings attributes named by names. */
  function SettingKeys(names: seq<string>): set<Attr> {
    set n | n in names :: Setting(n)
  }

  /** `for setting in names: try: delattr(settings, setting) except AttributeError: pass` */
  method DeleteSettings(p: Process, names: seq<string>)
    requires p.Valid()
    modifies p`attrs
    ensures p.Valid()
    ensures p.attrs == old(p.attrs) - SettingKeys(names)
  {
    ghost var attrs0 := p.attrs;
    var i := 0;
    while i < |names|
      invariant 0 <= i <= |names|
      invariant p.Valid()
      invariant p.attrs == attrs0 - SettingKeys(names[..i])
    {
      p.DelAttrIfPresent(Setting(names[i]));
      assert names[..i + 1] == names[..i] + [names[i]];
      assert SettingKeys(names[..i + 1]) == SettingKeys(names[..i]) + {Setting(names[i])};
      i := i + 1;
    }
    assert names[..i] == names;
  }

  /** uninstrument(): when django is marked, delete the seven tracing settings, filter the
      middleware class out of the chosen middleware setting, and unmark django. */
  method Uninstrument(p: Process, cfg: ConfigNamespace.Config) returns (r: Result<()>)
    requires p.Valid()
    modifies p`modules, p`attrs
    ensures p.Valid()
    ensures old(p.modules) <= p.modules <= old(p.modules) + {"django", "django.conf"}
    ensures !old(p.Locatable("django")) ==> r == Err(ImportError("django")) && p.attrs == old(p.attrs)
    ensures old(p.Locatable("django")) && !old(IsInstrumented(p, "django")) ==> r == Ok(()) && p.attrs == old(p.attrs)
    ensures r.Err? ==> r == Err(ImportError("django")) || IsInstrumented(p, "django")
    ensures r.Ok? ==> !IsInstrumented(p, "django")
    ensures r.Ok? && old(IsInstrumented(p, "django")) ==>
      CanUninstrument(old(p.attrs), cfg.fields) && p.attrs == UninstrumentedSettings(old(p.attrs), cfg.fields)
    ensures old(p.Locatable("django")) && old(p.Locatable("django.conf")) && CanUninstrument(old(p.attrs), cfg.fields) ==> r.Ok?
  {
    var django :- GetModule(p, "django");
    if !IsInstrumented(p, "django") {
      return Ok(());
    }
    var conf :- GetModule(p, "django.conf");
    r := ClearAndUnmark(p, cfg);
  }

  /** Lines 67-77 of uninstrument, once django.conf is imported. */
  method ClearAndUnmark(p: Process, cfg: ConfigNamespace.Config) returns (r: Result<()>)
    requires p.Valid() && "django" in p.modules && "django.conf" in p.modules && IsInstrumented(p, "django")
    modifies p`modules, p`attrs
    ensures p.Valid() && p.modules == old(p.modules)
    ensures r.Ok? <==> CanUninstrument(old(p.attrs), cfg.fields)
    ensures r.Ok? <==> !IsInstrumented(p, "django")
    ensures r.Ok? ==> p.attrs == UninstrumentedSettings(old(p.attrs), cfg.fields)
  {
    ghost var attrs0 := p.attrs;
    DeleteTracingSettings(p);
    ChoiceIgnoresTracingSettings(attrs0);
    var choice :- GetMiddlewareAndSettingName(p);
    var (middleware, setting) := choice;
    var items :- Iterate(middleware);
    var remaining := [];
    if items != [] {
      // The comprehension reads config.middleware_class once per element, so never for an empty list.
      var middlewareClass :- cfg.GetAttr("middleware_class");
      remaining := Without(items, middlewareClass);
    }
    p.SetAttr(Setting(setting), List(remaining));
    MarkUninstrumented(p, "django");
    return Ok(());
  }
}
