/** signalfx_tracing.instrumentation: the public entry points that pick libraries and dispatch to
    each library's adapter module under signalfx_tracing.libraries. */
module Instrumentation {
  import opened Py
  import opened Runtime
  import opened Utils
  import Constants

  /** _get_tracer(tracer): the argument, or opentracing.tracer when it is None. */
  function GetTracer(tracer: Value, global: Value): Value {
    if tracer == None then global else tracer
  }

  /** Resolving twice is resolving once, so auto_instrument handing its resolved tracer on to
      instrument changes nothing. */
  lemma GetTracerIsIdempotent(tracer: Value, global: Value)
    ensures GetTracer(GetTracer(tracer, global), global) == GetTracer(tracer, global)
  {
  }

  /** _get_tracer tests `is None` where the adapters write `or`: the two agree except on a falsy
      tracer other than None (False, 0, ''), which _get_tracer hands on unchanged while `or`
      would fall through to the global tracer. */
  lemma GetTracerVersusOr(tracer: Value, global: Value)
    ensures GetTracer(tracer, global) == Or(tracer, global) <==> tracer == None || Truthy(tracer) || tracer == global
  {
  }

  /** An adapter resolves `tracer or config.tracer or opentracing.tracer`; given a truthy tracer by
      the dispatcher it never reaches its config, so config.tracer takes effect only when both the
      argument and opentracing.tracer are falsy. */
  lemma DispatchedTracerShadowsConfig(tracer: Value, fields: map<string, Value>, global: Value)
    ensures Truthy(GetTracer(tracer, global)) ==>
      ResolveTracer(GetTracer(tracer, global), fields, global) == Ok(GetTracer(tracer, global))
    ensures tracer == None && Truthy(global) ==> ResolveTracer(GetTracer(tracer, global), fields, global) == Ok(global)
    ensures !Truthy(GetTracer(tracer, global)) && "tracer" in fields && Truthy(fields["tracer"]) ==>
      ResolveTracer(GetTracer(tracer, global), fields, global) == Ok(fields["tracer"])
  {
  }

  /** The libraries among libs that the import system can locate, in order ... */
  function Available(locatable: set<string>, libs: seq<string>): seq<string>
    decreases |libs|
  {
    if libs == [] then []
    else Available(locatable, libs[..|libs| - 1]) + (if libs[|libs| - 1] in locatable then [libs[|libs| - 1]] else [])
  }

  /** ... and the others, in order. */
  function Unavailable(locatable: set<string>, libs: seq<string>): seq<string>
    decreases |libs|
  {
    if libs == [] then []
    else Unavailable(locatable, libs[..|libs| - 1]) + (if libs[|libs| - 1] !in locatable then [libs[|libs| - 1]] else [])
  }

  /** The two lists split libs: each library lands in exactly one of them, in the available one
      exactly when it can be located, and none is lost or added. */
  lemma {:induction false} AvailablePartition(locatable: set<string>, libs: seq<string>)
    ensures |Available(locatable, libs)| + |Unavailable(locatable, libs)| == |libs|
    ensures forall l :: l in Available(locatable, libs) <==> l in libs && l in locatable
    ensures forall l :: l in Unavailable(locatable, libs) <==> l in libs && l !in locatable
    decreases |libs|
  {
    if libs != [] {
      var init := libs[..|libs| - 1];
      assert libs == init + [libs[|libs| - 1]];
      AvailablePartition(locatable, init);
    }
  }

  /** _importable_libraries(*libraries): probe each library with find_loader, which imports
      nothing. */
  method ImportableLibraries(p: Process, libs: seq<string>) returns (available: seq<string>, unavailable: seq<string>)
    ensures available == Available(p.modules + p.importable, libs)
    ensures unavailable == Unavailable(p.modules + p.importable, libs)
  {
    available, unavailable := [], [];
    var i := 0;
    while i < |libs|
      invariant 0 <= i <= |libs|
      invariant available == Available(p.modules + p.importable, libs[..i])
      invariant unavailable == Unavailable(p.modules + p.importable, libs[..i])
    {
      assert libs[..i + 1][..i] == libs[..i];
      if p.Locatable(libs[i]) {
        available := available + [libs[i]];
      } else {
        unavailable := unavailable + [libs[i]];
      }
      i := i + 1;
    }
    assert libs[..|libs|] == libs;
  }

  const AdapterPackage: string := "signalfx_tracing.libraries."

  /** The adapter module of a library: signalfx_tracing.libraries.<library>_ */
  function AdapterModuleName(library: string): string {
    AdapterPackage + library + "_"
  }

  /** Distinct libraries have distinct adapter modules, and the library can be read back from
      its adapter's name. */
  lemma AdapterModuleNameIsInjective(a: string, b: string)
    ensures AdapterModuleName(a) == AdapterModuleName(b) ==> a == b
    ensures var n := AdapterModuleName(a); n[|AdapterPackage|..|n| - 1] == a
  {
    var n := AdapterModuleName(a);
    assert n[|AdapterPackage|..|n| - 1] == a;
    if AdapterModuleName(a) == AdapterModuleName(b) {
      var m := AdapterModuleName(b);
      assert m[|AdapterPackage|..|m| - 1] == b;
    }
  }

  /** imported_instrumenter(library): import the library's adapter module. A library without an
      adapter raises ImportError. */
  method ImportedInstrumenter(p: Process, library: string) returns (r: Result<string>)
    requires p.Valid()
    modifies p`modules
    ensures p.Valid()
    ensures r.Ok? <==> old(p.Locatable(AdapterModuleName(library)))
    ensures r.Ok? ==> r.value == AdapterModuleName(library) && p.modules == old(p.modules) + {AdapterModuleName(library)}
    ensures r.Err? ==> r.error == ImportError(AdapterModuleName(library)) && p.modules == old(p.modules)
  {
    r := GetModule(p, AdapterModuleName(library));
  }

  /** The adapter call instrument makes for one keyword argument. */
  function CallFor(tracer: Value, entry: (string, Value)): AdapterCall {
    if Truthy(entry.1) then InstrumentCall(entry.0, tracer) else UninstrumentCall(entry.0)
  }

  /** The adapter calls for a run of keyword arguments, in order. */
  function Dispatched(tracer: Value, entries: seq<(string, Value)>): seq<AdapterCall>
    decreases |entries|
  {
    if entries == [] then [] else Dispatched(tracer, entries[..|entries| - 1]) + [CallFor(tracer, entries[|entries| - 1])]
  }

  /** One call per entry, in the entries' order: instrument with the tracer for a truthy flag,
      uninstrument for a falsy one. */
  lemma {:induction false} DispatchedIsPointwise(tracer: Value, entries: seq<(string, Value)>)
    ensures |Dispatched(tracer, entries)| == |entries|
    ensures forall i :: 0 <= i < |entries| ==>
      Dispatched(tracer, entries)[i] ==
        (if Truthy(entries[i].1) then InstrumentCall(entries[i].0, tracer) else UninstrumentCall(entries[i].0))
    decreases |entries|
  {
    if entries != [] {
      DispatchedIsPointwise(tracer, entries[..|entries| - 1]);
    }
  }

  /** The adapters' own instrument and uninstrument are not composed with the dispatcher here,
      so what they do is an input: the adapter calls that raise, and what each one raises. */
  type Raises = map<AdapterCall, Exception>

  /** Whether the adapter module a call needs can be located. */
  predicate Located(locatable: set<string>, c: AdapterCall) {
    AdapterModuleName(c.library) in locatable
  }

  /** The dispatch loops over planned adapter calls. Each call first imports its adapter module,
      and one that cannot be located raises ImportError before the call is made. A call in
      raises is made, and then raises. Either exception leaves the loop; the result is the
      calls made and the outcome. */
  function Run(locatable: set<string>, raises: Raises, calls: seq<AdapterCall>): (seq<AdapterCall>, Result<()>)
    decreases |calls|
  {
    if calls == [] then ([], Ok(()))
    else if !Located(locatable, calls[0]) then ([], Err(ImportError(AdapterModuleName(calls[0].library))))
    else if calls[0] in raises then ([calls[0]], Err(raises[calls[0]]))
    else var rest := Run(locatable, raises, calls[1..]); ([calls[0]] + rest.0, rest.1)
  }

  /** A run is one call, then the rest of the run unless that call ended it. */
  lemma RunStep(locatable: set<string>, raises: Raises, calls: seq<AdapterCall>)
    requires calls != []
    ensures var one := Run(locatable, raises, [calls[0]]);
      Run(locatable, raises, calls) ==
        if one.1.Err? then one
        else ([calls[0]] + Run(locatable, raises, calls[1..]).0, Run(locatable, raises, calls[1..]).1)
  {
    assert [calls[0]][1..] == [];
  }

  /** The calls made are a prefix of the plan, each with its adapter module located, and all but
      the last returned normally. The run succeeds exactly when every planned call was made and
      none raised. A failed run ends either with the call that raised, whose exception it is, or
      just before the first call whose adapter module is missing, with ImportError. */
  lemma {:induction false} RunStopsAtFirstFailure(locatable: set<string>, raises: Raises, calls: seq<AdapterCall>)
    ensures var (made, outcome) := Run(locatable, raises, calls);
      && |made| <= |calls| && made == calls[..|made|]
      && (forall i :: 0 <= i < |made| ==> Located(locatable, made[i]))
      && (forall i :: 0 <= i < |made| - 1 ==> made[i] !in raises)
      && (outcome.Ok? <==> made == calls && forall c :: c in calls ==> c !in raises)
      && (outcome.Err? ==>
            if made != [] && made[|made| - 1] in raises then outcome.error == raises[made[|made| - 1]]
            else |made| < |calls| && !Located(locatable, calls[|made|]) &&
                 outcome.error == ImportError(AdapterModuleName(calls[|made|].library)))
    decreases |calls|
  {
    if calls != [] && Located(locatable, calls[0]) && calls[0] !in raises {
      RunStopsAtFirstFailure(locatable, raises, calls[1..]);
      var (rest, outcome) := Run(locatable, raises, calls[1..]);
      assert calls == [calls[0]] + calls[1..];
      assert ([calls[0]] + rest)[1..] == rest;
    }
  }

  /** Calls that each return normally only lengthen the run: after such a prefix, the run goes on
      from the rest of the plan. */
  lemma {:induction false} RunAfterCleanPrefix(locatable: set<string>, raises: Raises, calls: seq<AdapterCall>, k: nat)
    requires k <= |calls|
    requires forall i :: 0 <= i < k ==> Located(locatable, calls[i]) && calls[i] !in raises
    ensures Run(locatable, raises, calls) ==
      (calls[..k] + Run(locatable, raises, calls[k..]).0, Run(locatable, raises, calls[k..]).1)
    decreases k
  {
    if k == 0 {
      assert calls[..0] == [] && calls[0..] == calls;
      var run := Run(locatable, raises, calls);
      assert [] + run.0 == run.0;
    } else {
      assert Located(locatable, calls[0]) && calls[0] !in raises;
      RunAfterCleanPrefix(locatable, raises, calls[1..], k - 1);
      var rest := Run(locatable, raises, calls[k..]);
      assert calls[1..][k - 1..] == calls[k..];
      assert calls[..k] == [calls[0]] + calls[1..][..k - 1];
      assert [calls[0]] + (calls[1..][..k - 1] + rest.0) == calls[..k] + rest.0;
    }
  }

  /** A call that raises ends the run right after it: when every earlier call returned normally,
      the calls made are the plan up to and including that one, and its exception is the outcome. */
  lemma RaisingCallEndsRun(locatable: set<string>, raises: Raises, calls: seq<AdapterCall>, k: nat)
    requires k < |calls| && calls[k] in raises && Located(locatable, calls[k])
    requires forall i :: 0 <= i < k ==> Located(locatable, calls[i]) && calls[i] !in raises
    ensures Run(locatable, raises, calls) == (calls[..k + 1], Err(raises[calls[k]]))
  {
    RunAfterCleanPrefix(locatable, raises, calls, k);
    assert calls[k..][0] == calls[k];
    assert calls[..k + 1] == calls[..k] + [calls[k]];
  }

  /** A planned call whose adapter module cannot be located ends the run before it, with
      ImportError for that module. */
  lemma MissingAdapterEndsRun(locatable: set<string>, raises: Raises, calls: seq<AdapterCall>, k: nat)
    requires k < |calls| && !Located(locatable, calls[k])
    requires forall i :: 0 <= i < k ==> Located(locatable, calls[i]) && calls[i] !in raises
    ensures Run(locatable, raises, calls) == (calls[..k], Err(ImportError(AdapterModuleName(calls[k].library))))
  {
    RunAfterCleanPrefix(locatable, raises, calls, k);
    assert calls[k..][0] == calls[k];
    assert calls[..k] + [] == calls[..k];
  }

  /** With every adapter module located and no call raising, the whole plan is carried out. */
  lemma {:induction false} RunWithoutFailures(locatable: set<string>, raises: Raises, calls: seq<AdapterCall>)
    requires forall c :: c in calls ==> Located(locatable, c) && c !in raises
    ensures Run(locatable, raises, calls) == (calls, Ok(()))
    decreases |calls|
  {
    if calls != [] {
      RunWithoutFailures(locatable, raises, calls[1..]);
      assert calls == [calls[0]] + calls[1..];
    }
  }

  /** The library names of a run of keyword arguments, in order. */
  function Names(entries: seq<(string, Value)>): seq<string> {
    seq(|entries|, i requires 0 <= i < |entries| => entries[i].0)
  }

  /** The uninstrument calls for a run of libraries, in order. */
  function UninstrumentCalls(libs: seq<string>): seq<AdapterCall> {
    seq(|libs|, i requires 0 <= i < |libs| => UninstrumentCall(libs[i]))
  }

  /** instrument(lib=False) plans what uninstrument(lib) does: with every flag falsy, the calls
      are the uninstrument calls of the same libraries in the same order. */
  lemma FalsyFlagsUninstrument(tracer: Value, entries: seq<(string, Value)>)
    requires forall i :: 0 <= i < |entries| ==> !Truthy(entries[i].1)
    ensures Dispatched(tracer, entries) == UninstrumentCalls(Names(entries))
  {
    DispatchedIsPointwise(tracer, entries);
  }

  /** uninstrument(*libraries): each library's adapter uninstrument, in order, until the first
      library without an adapter module or the first adapter call that raises. */
  method Uninstrument(p: Process, libs: seq<string>, raises: Raises) returns (r: Result<()>)
    requires p.Valid()
    modifies p`modules, p`adapterCalls
    ensures p.Valid()
    ensures p.modules + p.importable == old(p.modules) + p.importable
    ensures var run := Run(old(p.modules) + p.importable, raises, UninstrumentCalls(libs));
      p.adapterCalls == old(p.adapterCalls) + run.0 && r == run.1
  {
    ghost var locatable := p.modules + p.importable;
    ghost var calls := UninstrumentCalls(libs);
    var i := 0;
    while i < |libs|
      invariant 0 <= i <= |libs|
      invariant p.Valid()
      invariant p.modules + p.importable == locatable
      invariant p.adapterCalls == old(p.adapterCalls) + calls[..i]
      invariant forall j :: 0 <= j < i ==> Located(locatable, calls[j]) && calls[j] !in raises
    {
      var adapter := ImportedInstrumenter(p, libs[i]);
      if adapter.Err? {
        MissingAdapterEndsRun(locatable, raises, calls, i);
        return Err(adapter.error);
      }
      p.adapterCalls := p.adapterCalls + [UninstrumentCall(libs[i])];
      assert calls[..i + 1] == calls[..i] + [calls[i]];
      if UninstrumentCall(libs[i]) in raises {
        RaisingCallEndsRun(locatable, raises, calls, i);
        return Err(raises[UninstrumentCall(libs[i])]);
      }
      i := i + 1;
    }
    RunAfterCleanPrefix(locatable, raises, calls, i);
    assert calls[..i] == calls && calls[i..] == [];
    return Ok(());
  }

  /** instrument(tracer, **libraries): resolve the tracer once, then for each entry in order call
      the adapter's instrument(tracer) when the flag is truthy and uninstrument(library)
      otherwise, until a missing adapter module or an adapter call raises. */
  method Instrument(p: Process, tracer: Value, entries: seq<(string, Value)>, raises: Raises) returns (r: Result<()>)
    requires p.Valid()
    modifies p`modules, p`adapterCalls
    ensures p.Valid()
    ensures p.modules + p.importable == old(p.modules) + p.importable
    ensures var run := Run(old(p.modules) + p.importable, raises, Dispatched(GetTracer(tracer, p.globalTracer), entries));
      p.adapterCalls == old(p.adapterCalls) + run.0 && r == run.1
  {
    var t := GetTracer(tracer, p.globalTracer);
    ghost var locatable := p.modules + p.importable;
    ghost var calls := Dispatched(t, entries);
    DispatchedIsPointwise(t, entries);
    var i := 0;
    while i < |entries|
      invariant 0 <= i <= |entries|
      invariant p.Valid()
      invariant p.modules + p.importable == locatable
      invariant p.adapterCalls == old(p.adapterCalls) + calls[..i]
      invariant forall j :: 0 <= j < i ==> Located(locatable, calls[j]) && calls[j] !in raises
    {
      RunAfterCleanPrefix(locatable, raises, calls, i);
      RunStep(locatable, raises, calls[i..]);
      assert calls[i..][0] == CallFor(t, entries[i]);
      var done := DispatchOne(p, t, entries[i], raises);
      if done.Err? {
        return done;
      }
      assert calls[..i + 1] == calls[..i] + [calls[i]];
      i := i + 1;
    }
    RunAfterCleanPrefix(locatable, raises, calls, i);
    assert calls[..i] == calls && calls[i..] == [];
    return Ok(());
  }

  /** One pass of instrument's loop: uninstrument(library) for a falsy flag, and the adapter's
      instrument(tracer) otherwise. */
  method DispatchOne(p: Process, t: Value, entry: (string, Value), raises: Raises) returns (r: Result<()>)
    requires p.Valid()
    modifies p`modules, p`adapterCalls
    ensures p.Valid()
    ensures p.modules + p.importable == old(p.modules) + p.importable
    ensures var run := Run(old(p.modules) + p.importable, raises, [CallFor(t, entry)]);
      p.adapterCalls == old(p.adapterCalls) + run.0 && r == run.1
  {
    var (library, inst) := entry;
    if !Truthy(inst) {
      assert UninstrumentCalls([library]) == [CallFor(t, entry)];
      r := Uninstrument(p, [library], raises);
    } else {
      assert [CallFor(t, entry)][1..] == [];
      var adapter := ImportedInstrumenter(p, library);
      if adapter.Err? {
        return Err(adapter.error);
      }
      p.adapterCalls := p.adapterCalls + [InstrumentCall(library, t)];
      if InstrumentCall(library, t) in raises {
        return Err(raises[InstrumentCall(library, t)]);
      }
      return Ok(());
    }
  }

  /** The keyword arguments `{l: True for l in libs}`. */
  function Enabled(libs: seq<string>): seq<(string, Value)> {
    seq(|libs|, i requires 0 <= i < |libs| => (libs[i], Bool(true)))
  }

  /** The keywords auto_instrument builds name exactly the given libraries, in order, each set
      to True. */
  lemma EnabledRoundTrip(libs: seq<string>)
    ensures Names(Enabled(libs)) == libs
    ensures forall e :: e in Enabled(libs) ==> e.1 == Bool(true)
  {
  }

  /** auto_instrument(tracer): instrument every traceable library that can be located, in
      catalogue order, with the resolved tracer, until an adapter call fails. */
  method AutoInstrument(p: Process, tracer: Value, raises: Raises) returns (r: Result<()>)
    requires p.Valid()
    modifies p`modules, p`adapterCalls
    ensures p.Valid()
    ensures var libs := Available(old(p.modules) + p.importable, Constants.TraceableLibraries);
      var run := Run(old(p.modules) + p.importable, raises, Dispatched(GetTracer(tracer, p.globalTracer), Enabled(libs)));
      p.adapterCalls == old(p.adapterCalls) + run.0 && r == run.1
  {
    var t := GetTracer(tracer, p.globalTracer);
    var available, unavailable := ImportableLibraries(p, Constants.TraceableLibraries);
    r := Instrument(p, t, Enabled(available), raises);
  }

  /** auto_instrument only ever instruments: the calls it makes are instrument calls with one
      tracer for a prefix of the available traceable libraries, in catalogue order. It
      instruments all of them when no adapter fails, and only then succeeds. django is among
      the available libraries whenever it can be located. */
  lemma AutoInstrumentOnlyInstruments(tracer: Value, locatable: set<string>, raises: Raises)
    ensures var libs := Available(locatable, Constants.TraceableLibraries);
      var (made, outcome) := Run(locatable, raises, Dispatched(tracer, Enabled(libs)));
      && |made| <= |libs|
      && (forall i :: 0 <= i < |made| ==> made[i] == InstrumentCall(libs[i], tracer))
      && (outcome.Ok? ==> |made| == |libs|)
      && ((forall l :: l in libs ==> AdapterModuleName(l) in locatable && InstrumentCall(l, tracer) !in raises) ==> outcome.Ok?)
      && (forall l :: l in libs <==> l in Constants.TraceableLibraries && l in locatable)
      && ("django" in locatable ==> "django" in libs)
  {
    var libs := Available(locatable, Constants.TraceableLibraries);
    var calls := Dispatched(tracer, Enabled(libs));
    DispatchedIsPointwise(tracer, Enabled(libs));
    RunStopsAtFirstFailure(locatable, raises, calls);
    AvailablePartition(locatable, Constants.TraceableLibraries);
    assert "django" == Constants.TraceableLibraries[0];
    if forall l :: l in libs ==> AdapterModuleName(l) in locatable && InstrumentCall(l, tracer) !in raises {
      forall c | c in calls
        ensures Located(locatable, c) && c !in raises
      {
        var i :| 0 <= i < |calls| && calls[i] == c;
        assert libs[i] in libs;
      }
      RunWithoutFailures(locatable, raises, calls);
    }
  }

  /** The first available library in catalogue order leads the plan. */
  lemma {:induction false} AvailableHead(locatable: set<string>, libs: seq<string>)
    requires libs != [] && libs[0] in locatable
    ensures Available(locatable, libs) != [] && Available(locatable, libs)[0] == libs[0]
    decreases |libs|
  {
    if |libs| > 1 {
      AvailableHead(locatable, libs[..|libs| - 1]);
    }
  }

  /** django comes first in the catalogue, so when it can be located but its instrument raises
      (for instance because django_opentracing is missing), auto_instrument makes that one call
      and instruments no other library. */
  lemma FailingDjangoStopsAutoInstrument(tracer: Value, locatable: set<string>, raises: Raises)
    requires "django" in locatable && AdapterModuleName("django") in locatable
    requires InstrumentCall("django", tracer) in raises
    ensures Run(locatable, raises, Dispatched(tracer, Enabled(Available(locatable, Constants.TraceableLibraries)))) ==
      ([InstrumentCall("django", tracer)], Err(raises[InstrumentCall("django", tracer)]))
  {
    var libs := Available(locatable, Constants.TraceableLibraries);
    AvailableHead(locatable, Constants.TraceableLibraries);
    var calls := Dispatched(tracer, Enabled(libs));
    DispatchedIsPointwise(tracer, Enabled(libs));
    assert calls[0] == InstrumentCall("django", tracer);
    RaisingCallEndsRun(locatable, raises, calls, 0);
    assert calls[..1] == [calls[0]];
  }
}
