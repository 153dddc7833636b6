# signalfx_tracing instrumentation lifecycle, modelled in Dafny

This project models the core of `signalfx_tracing`, SignalFx's auto-instrumentation package for
Python, and proves properties of it. The core has three parts:

- The dispatcher in `instrumentation.py`. It finds which traceable libraries can be imported,
  resolves the tracer, and calls each library adapter's `instrument(tracer)` or
  `uninstrument()`.
- The helpers in `utils.py`. They import a module by name, set and clear the
  `__sfx_instrumented` marker on a module object, and provide the `Config` namespace every
  adapter keeps its settings in.
- The adapters under `libraries/`. Each one patches a library through its module attributes:
  - django: settings and middleware, plus the `SignalFxConfig.ready()` hook;
  - psycopg2 and pymysql: `connect`;
  - falcon: `API.__init__`, plus the `TraceMiddleware` class it inserts;
  - logging: `Logger.makeRecord`;
  - pymongo: `MongoClient.__init__`;
  - elasticsearch, requests and celery: a class's `__new__`, redirected to a tracing subclass.

The Python process is a class, `Runtime.Process`, whose fields the operations update in place:

- the keys of `sys.modules`;
- one map from (owner path, attribute name) to value, which covers module attributes, class
  attributes, `django.conf.settings` and the markers;
- the one-element module lists in which adapters save an original `__new__`;
- a log of the calls made into third-party tracing packages;
- a log of the calls the dispatcher makes to adapters.

Python values are a datatype (`Py.Value`). Callables, tracers and connections are opaque, and a
wrapt `FunctionWrapper` is `Wrapped(original, wrapper)`. Each adapter's instrument and
uninstrument is a method specified by a pure function of the old state. Lemmas about those
functions state the source's promises: idempotence through the marker, round trips of
instrument then uninstrument, "nothing else changes", the error paths, and the default
configurations.

The modules follow the source files:

| Module | File |
|---|---|
| `Py`, `Text`, `Runtime` | Python values and process state |
| `Constants` | `constants.py` |
| `ConfigNamespace` | `utils.Config` |
| `Utils` | `utils.py` |
| `Instrumentation` | `instrumentation.py` |
| `ClassNew` | the `__new__` redirection shared by three adapters |
| `DjangoInstrument`, `DjangoApps` | the two django files |
| `Psycopg2`, `Pymysql`, `FalconInstrument`, `FalconMiddleware`, `Logging`, `Elasticsearch`, `Requests`, `Celery`, `Pymongo` | the other adapters |

## Model

| member | source | states |
|---|---|---|
| Constants.AutoInstrumentableAreTraceable | signalfx_tracing/constants.py:4-7 | every auto-instrumentable library is also traceable |
| Constants.OnlyDjangoNeedsOptIn | signalfx_tracing/constants.py:4-7 | django is exactly the traceable library missing from the auto-instrumentable list |
| Constants.CataloguesHaveNoDuplicates | signalfx_tracing/constants.py:4-7 | neither catalogue names a library twice |
| Py.IterateRoundTrip | signalfx_tracing/libraries/django_/instrument.py:56 | exactly lists, tuples and strings are iterable and anything else raises TypeError; a list or tuple is rebuilt from the elements `list(v)` yields, and a string's pieces are one-character strings that join back to it |
| Py.ToSetForgetsOrder | signalfx_tracing/libraries/psycopg2_/instrument.py:37 | `set()` of two lists with the same members is one set, also that of the tuple; it succeeds exactly when no element is unhashable, that is a list, a dict or a tuple holding one at any depth (TypeError otherwise), and then holds exactly the elements |
| Py.ToSetLooksInsideTuples | signalfx_tracing/libraries/psycopg2_/instrument.py:37 | `set([(1, [2])])` raises TypeError because of the list inside the tuple, while `set([(1, 2)])` holds the one tuple |
| Py.ToSetOfString | signalfx_tracing/libraries/psycopg2_/instrument.py:37 | `set()` of a configured string succeeds and is the set of its characters as one-character strings |
| Py.PyList.constructor | signalfx_tracing/libraries/pymongo_/instrument.py:34 | a new list holds the given items |
| Py.PyList.Insert | signalfx_tracing/libraries/falcon_/instrument.py:26 | `list.insert(i, x)` puts x before position i, or at the end when i is past it, and keeps every other item in order |
| Text.LowerIsIdempotent | signalfx_tracing/libraries/psycopg2_/instrument.py:41 | lower-casing (ASCII letters only) leaves no capital A-Z behind, and doing it twice is doing it once |
| Text.UpToFirst | signalfx_tracing/libraries/falcon_/middleware.py:28 | `s.split(sep)[0]` is the longest prefix of s without sep; when shorter than s, sep follows it |
| ConfigNamespace.ItemAndAttributeAgree | signalfx_tracing/utils.py:29-36 | `cfg[key]` and `cfg.key` read the same `__dict__`: both succeed exactly when the key is present and give its value; a missing key raises KeyError by item and AttributeError by attribute, each naming the key |
| ConfigNamespace.Config.constructor | signalfx_tracing/utils.py:32-33 | `Config(**core)` makes every seeded key read back as its value and no other key exist |
| ConfigNamespace.Config.GetAttr | signalfx_tracing/utils.py:29-36 | `cfg.name` finds exactly what `cfg[name]` (`__getitem__`, `GetItem`) finds, and raises AttributeError where that raises KeyError |
| ConfigNamespace.Config.SetItem | signalfx_tracing/utils.py:38-39 | `cfg[key] = v` changes that key only, and both kinds of read return v afterwards |
| ConfigNamespace.Config.DelAttr | tests/unit/test_utils.py:41-45 | deleting a field removes it only, raising AttributeError when it was absent; afterwards both reads fail |
| Runtime.LookupAgreesWithGetAttr | signalfx_tracing/libraries/django_/instrument.py:30 | a stored attribute reads the same by lookup and by getattr; they differ exactly for a missing `__new__` or `__init__`, which getattr finds on object; every other missing attribute raises AttributeError naming owner and attribute |
| Runtime.Unmoved | signalfx_tracing/utils.py:18-26 | an attribute outside the set of changed keys reads the same before and after |
| Runtime.WrapThenRevertRestores | signalfx_tracing/libraries/psycopg2_/instrument.py:54-67 | wrapping then reverting makes every attribute read as before; the map is identical when the attribute was the owner's own, and otherwise the inherited built-in stays behind as an own attribute |
| Runtime.RevertIsIdempotent | signalfx_tracing/libraries/psycopg2_/instrument.py:67 | without nested wrappers, reverting twice equals reverting once |
| Runtime.RevertedAllChangesOnlyTargets | signalfx_tracing/libraries/pymysql_/instrument.py:75-86 | a run of reverts adds or removes no attribute and changes only its targets |
| Runtime.RevertedAllWithoutWrappers | signalfx_tracing/libraries/pymysql_/instrument.py:75-86 | reverts on attributes that hold no wrapper change nothing |
| Runtime.Process.constructor | signalfx_tracing/utils.py:8-15 | a process starts with the given modules, attributes and global tracer, and with empty slots and call logs |
| Runtime.Process.SetAttr | signalfx_tracing/libraries/elasticsearch_/instrument.py:46-47 | assigning a class or module attribute changes that entry only, and keeps the marker invariant |
| Runtime.Process.SetSlot | signalfx_tracing/libraries/elasticsearch_/instrument.py:43-44 | `_slot[0] = v` changes that slot only, and it reads back as v |
| Runtime.Process.Call | signalfx_tracing/libraries/elasticsearch_/instrument.py:41 | a foreign call is appended to the call log |
| Runtime.Process.DelAttrIfPresent | signalfx_tracing/libraries/django_/instrument.py:69-72 | `try: delattr except AttributeError: pass` removes the attribute when present and changes nothing else |
| Runtime.Process.WrapFunctionWrapper | signalfx_tracing/libraries/psycopg2_/instrument.py:54 | wrap_function_wrapper replaces the attribute with a wrapper around the value getattr finds, or raises AttributeError and changes nothing when there is none |
| Runtime.Process.RevertWrappers | signalfx_tracing/libraries/pymysql_/instrument.py:75-80 | a run of revert_wrapper calls, in order, gives the reverted map |
| Runtime.Process.RevertWrapper | signalfx_tracing/libraries/psycopg2_/instrument.py:67 | revert_wrapper, as `Reverted` states on the map, puts back a wrapper's wrapped value and leaves anything else alone |
| Utils.GetModule | signalfx_tracing/utils.py:8-11 | get_module succeeds exactly when the module is loaded or locatable, and then adds it to sys.modules; otherwise it raises ImportError and loads nothing |
| Utils.IsInstrumented | signalfx_tracing/utils.py:14-15 | is_instrumented is false without a marker and, under the process invariant, true exactly when the marker is present |
| Utils.MarkInstrumented | signalfx_tracing/utils.py:18-19 | the marker is stored as True, only the marker changes, and the module then reads as instrumented |
| Utils.MarkUninstrumented | signalfx_tracing/utils.py:22-26 | the marker is removed, with no error when absent; only it changes, and the module then reads as uninstrumented |
| Utils.ResolvedTracerIsFirstTruthy | signalfx_tracing/libraries/requests_/instrument.py:45 | `ResolveTracer`, `tracer or config.tracer or opentracing.tracer` is the first truthy of the three (else the global); config is read only for a falsy argument, and a deleted field raises AttributeError |
| Utils.WrapMarkRoundTrip | signalfx_tracing/libraries/pymongo_/instrument.py:39-54 | a one-attribute adapter's instrument then uninstrument gives back the attribute map, apart from an inherited built-in left as an own attribute |
| Utils.GetModuleTwice | signalfx_tracing/utils.py:8-11 | importing twice gives the same result, and a successful import leaves the module loaded |
| Utils.MarkThenUnmark | signalfx_tracing/utils.py:18-26 | marking then unmarking an unmarked module leaves the attributes as they were |
| Instrumentation.GetTracerVersusOr | signalfx_tracing/instrumentation.py:14-18 | `_get_tracer` (the argument unless it is None, then the global tracer) agrees with the adapters' `tracer or global` exactly when the argument is None, truthy or the global itself; a falsy non-None tracer is handed on unchanged |
| Instrumentation.GetTracerIsIdempotent | signalfx_tracing/instrumentation.py:69-78 | resolving the tracer twice, as auto_instrument then instrument do, equals resolving once |
| Instrumentation.DispatchedTracerShadowsConfig | signalfx_tracing/instrumentation.py:54-59 | an adapter given a truthy tracer by the dispatcher uses it and never reads its config.tracer; with no argument a truthy global tracer wins; config.tracer is used only when the dispatched tracer is falsy |
| Instrumentation.AvailablePartition | signalfx_tracing/instrumentation.py:25-37 | every library lands in exactly one of the available and unavailable lists, the available one when it can be located; none is lost or added |
| Instrumentation.ImportableLibraries | signalfx_tracing/instrumentation.py:25-37 | the find_loader loop returns the available and unavailable libraries in their original order, importing nothing |
| Instrumentation.AdapterModuleNameIsInjective | signalfx_tracing/instrumentation.py:45 | distinct libraries have distinct adapter module names, and the name gives the library back |
| Instrumentation.ImportedInstrumenter | signalfx_tracing/instrumentation.py:40-46 | imports `signalfx_tracing.libraries.<library>_`, or raises ImportError for a library without an adapter |
| Instrumentation.DispatchedIsPointwise | signalfx_tracing/instrumentation.py:55-59 | one adapter call per keyword, in order: instrument(tracer) for a truthy flag, uninstrument for a falsy one |
| Instrumentation.FalsyFlagsUninstrument | signalfx_tracing/instrumentation.py:55-57 | with every flag falsy, instrument plans exactly the uninstrument calls of the same libraries, in order |
| Instrumentation.RunStopsAtFirstFailure | signalfx_tracing/instrumentation.py:55-66 | the calls made are a prefix of the plan, each with a located adapter and all but the last returning normally; the run succeeds exactly when every call was made and none raised; a failure is the last call's exception or the ImportError of the next call's missing adapter |
| Instrumentation.RunAfterCleanPrefix | signalfx_tracing/instrumentation.py:55-66 | calls that each return normally only lengthen the run, which then continues from the rest of the plan |
| Instrumentation.RaisingCallEndsRun | signalfx_tracing/instrumentation.py:59 | when every earlier call returned normally, a raising call is the last call made and its exception is the outcome |
| Instrumentation.MissingAdapterEndsRun | signalfx_tracing/instrumentation.py:40-46 | a call whose adapter module is missing is not made: the run ends before it with ImportError for that module |
| Instrumentation.RunWithoutFailures | signalfx_tracing/instrumentation.py:55-66 | with every adapter located and no call raising, every planned call is made and the run succeeds |
| Instrumentation.Uninstrument | signalfx_tracing/instrumentation.py:62-66 | the calls made are the run of one uninstrument call per library, in order: it stops before the first library without an adapter module (ImportError) or right after the first adapter call that raises (its exception), and succeeds only when every call was made |
| Instrumentation.Instrument | signalfx_tracing/instrumentation.py:49-59 | the tracer is resolved once; the calls made are the run of the dispatched plan, one instrument or uninstrument per keyword in order, ending at the first missing adapter (ImportError) or raising adapter call (its exception) |
| Instrumentation.DispatchOne | signalfx_tracing/instrumentation.py:56-59 | one loop pass is the run of one planned call: uninstrument for a falsy flag and instrument(tracer) otherwise; ImportError without the call when the adapter is missing, the error after the call when it raises |
| Instrumentation.AutoInstrument | signalfx_tracing/instrumentation.py:69-78 | the calls made are the run of instrument calls for the locatable traceable libraries, in catalogue order, with the resolved tracer, with the outcome of that run |
| Instrumentation.AutoInstrumentOnlyInstruments | signalfx_tracing/instrumentation.py:69-78 | auto_instrument only makes instrument calls with one tracer, for a prefix of the available traceable libraries in catalogue order; it succeeds only after calling all of them, and does when no adapter fails; the available ones are exactly the locatable traceable ones, django included |
| Instrumentation.EnabledRoundTrip | signalfx_tracing/instrumentation.py:78 | the keywords `{l: True for l in available}` name exactly the available libraries, in order, each set to True |
| Instrumentation.AvailableHead | signalfx_tracing/instrumentation.py:30-37 | a first library that can be located is the first available one |
| Instrumentation.FailingDjangoStopsAutoInstrument | signalfx_tracing/instrumentation.py:69-78 | when django can be located but its instrument raises, auto_instrument makes that one call, instruments no other library and fails with that exception |
| ClassNew.SavedNew | signalfx_tracing/libraries/elasticsearch_/instrument.py:43-44 | reading `Cls.__new__` always succeeds, giving object.__new__ for a class without its own |
| ClassNew.SaveThenRestore | signalfx_tracing/libraries/elasticsearch_/instrument.py:43-77 | saving, patching and restoring gives each class the restored form of its original `__new__` and touches no other attribute; elasticsearch's style empties both slots, the other style keeps the originals in them |
| ClassNew.BuiltinRestore | signalfx_tracing/libraries/elasticsearch_/instrument.py:60-69 | a saved built-in without `__get__` comes back as a generic `__new__` under elasticsearch's style (so not as it was), and as itself under the requests/celery style |
| ClassNew.DescriptorRestore | signalfx_tracing/libraries/requests_/instrument.py:67-69 | a saved value with `__get__` is bound to its class again |
| ClassNew.RawRestoreKeepsSlots | signalfx_tracing/libraries/requests_/instrument.py:67-76 | the requests/celery style never empties the slots |
| ClassNew.UnpatchCommutes | signalfx_tracing/libraries/requests_/instrument.py:67-78 | restoring `__new__` commutes with writing any other attribute |
| ClassNew.UnpatchKeepsOthers | signalfx_tracing/libraries/requests_/instrument.py:67-76 | restoring `__new__` neither adds, removes nor changes any other attribute |
| ClassNew.PatchWrapRoundTrip | signalfx_tracing/libraries/requests_/instrument.py:50-79 | the wrapped `__init__` and the marker come out of instrument then uninstrument as they went in, leaving only the `__new__` round trip |
| ClassNew.SaveAndPatch | signalfx_tracing/libraries/elasticsearch_/instrument.py:43-47 | both originals are saved into their slots, then both replacements bound to their classes are installed |
| ClassNew.PatchKeepsMarkers | signalfx_tracing/libraries/elasticsearch_/instrument.py:46-47 | patching `__new__` changes no module's marker |
| ClassNew.PatchWrapAndMark | signalfx_tracing/libraries/celery_/instrument.py:52-59 | save and patch, import the tracing module (on failure `__new__` stays patched and nothing is marked), wrap `__init__`, then mark |
| ClassNew.RestoreNew | signalfx_tracing/libraries/elasticsearch_/instrument.py:65-70 | one `if _slot[0] is not None` block: the state is the restored attribute and slot |
| ClassNew.RestoreBoth | signalfx_tracing/libraries/elasticsearch_/instrument.py:65-77 | both blocks, the tracing class's first |
| DjangoInstrument.TracingKeys | signalfx_tracing/libraries/django_/instrument.py:66-68 | the set holds exactly the seven OPENTRACING_* settings |
| DjangoInstrument.TupleGreater | signalfx_tracing/libraries/django_/instrument.py:25 | `django.VERSION > (1, 10)` always yields a boolean when every element is a number |
| DjangoInstrument.Numbers | signalfx_tracing/libraries/django_/instrument.py:25 | the integers a tuple of numbers compares as, position by position, with bool as 0/1 |
| DjangoInstrument.LexGreaterAtHead | signalfx_tracing/libraries/django_/instrument.py:25 | when the heads differ, lexicographic order is decided by the heads |
| DjangoInstrument.LexGreaterAfterHead | signalfx_tracing/libraries/django_/instrument.py:25 | when the heads agree, lexicographic order is decided by the tails |
| DjangoInstrument.TupleGreaterIsLexicographic | signalfx_tracing/libraries/django_/instrument.py:25 | on numeric tuples, Python's `>` equals an independently stated lexicographic order |
| DjangoInstrument.VersionTable | signalfx_tracing/libraries/django_/instrument.py:25 | (1,1), (1,9) and (1,10) are not greater than (1,10); (1,11), (2,0) and (1,10,0,'final',0) are |
| DjangoInstrument.MiddlewareChoice | signalfx_tracing/libraries/django_/instrument.py:25-30 | the chosen setting is always MIDDLEWARE or MIDDLEWARE_CLASSES |
| DjangoInstrument.MiddlewareChoiceRules | signalfx_tracing/libraries/django_/instrument.py:25-30 | MIDDLEWARE is chosen iff settings has it and VERSION is a tuple greater than (1, 10), with None read as []; otherwise MIDDLEWARE_CLASSES's value, or AttributeError when both are missing |
| DjangoInstrument.ChoiceAfterRewrite | signalfx_tracing/libraries/django_/instrument.py:25-30 | rewriting the chosen setting with a non-None value, leaving what the choice reads alone, keeps the choice and returns the new value |
| DjangoInstrument.WithoutMembers | signalfx_tracing/libraries/django_/instrument.py:75 | the filtered list holds exactly the entries other than the middleware class, and is no longer |
| DjangoInstrument.WithoutDistributes | signalfx_tracing/libraries/django_/instrument.py:75 | the filter keeps the order of what remains, since it distributes over concatenation |
| DjangoInstrument.WithoutAbsent | signalfx_tracing/libraries/django_/instrument.py:75 | filtering out a value that is absent changes nothing |
| DjangoInstrument.PrependThenRemove | signalfx_tracing/libraries/django_/instrument.py:56-75 | removing the prepended middleware class gives back a list that did not contain it |
| DjangoInstrument.GetMiddlewareAndSettingName | signalfx_tracing/libraries/django_/instrument.py:17-30 | imports django then django.conf, raising ImportError for the first one missing, then makes the choice |
| DjangoInstrument.ChoiceIgnoresTracingKeys | signalfx_tracing/libraries/django_/instrument.py:25-30 | a change confined to the tracing settings leaves the middleware choice alone |
| DjangoInstrument.ChoiceIgnoresTracingSettings | signalfx_tracing/libraries/django_/instrument.py:66-74 | deleting the tracing settings leaves the middleware choice alone |
| DjangoInstrument.ChoiceIgnoresTracingWrites | signalfx_tracing/libraries/django_/instrument.py:40-55 | writing the tracing settings leaves the middleware choice alone, so choosing after them (as the source does) equals choosing before |
| DjangoInstrument.InstrumentedSettingsAsSteps | signalfx_tracing/libraries/django_/instrument.py:40-57 | the settings after instrument equal the source's step order: write the tracing settings, choose, prepend, mark |
| DjangoInstrument.ChosenIsSeparate | signalfx_tracing/libraries/django_/instrument.py:25-30 | the chosen middleware setting is neither a tracing setting nor the marker |
| DjangoInstrument.TracingWrittenValues | signalfx_tracing/libraries/django_/instrument.py:40-53 | three settings are copied from config; OPENTRACING_TRACING is `DjangoTracer(tracer)` iff `tracer or config.tracer` is not None; the callable and its parameters (default {}) only for a truthy callable; OPENTRACING_TRACER is never written |
| DjangoInstrument.UpdatedElsewhere | signalfx_tracing/libraries/django_/instrument.py:40-43 | two assignments leave every other setting reading as before |
| DjangoInstrument.InstrumentWritesSettings | signalfx_tracing/libraries/django_/instrument.py:33-57 | instrument stores every setting value listed in TracingWrittenValues, prepends the middleware class to the chosen setting's entries, and marks django |
| DjangoInstrument.InstrumentChangesOnlyDjangoKeys | signalfx_tracing/libraries/django_/instrument.py:33-57 | instrument changes nothing outside the tracing settings, the chosen middleware setting and the marker |
| DjangoInstrument.UninstrumentRemovesSettings | signalfx_tracing/libraries/django_/instrument.py:60-77 | uninstrument removes all seven tracing settings and the marker, keeps the other middleware entries in order, and changes nothing else |
| DjangoInstrument.TracingWrittenOnlyTouchesTracingKeys | signalfx_tracing/libraries/django_/instrument.py:40-53 | the tracing-setting writes touch only tracing settings |
| DjangoInstrument.ChoiceAfterInstrument | signalfx_tracing/libraries/django_/instrument.py:55-57 | after instrument the same setting is chosen, now holding the prepended list |
| DjangoInstrument.ChoiceAfterPrependAndMark | signalfx_tracing/libraries/django_/instrument.py:56-57 | rewriting the chosen setting with a list and marking keeps the choice |
| DjangoInstrument.InstrumentThenUninstrument | signalfx_tracing/libraries/django_/instrument.py:33-77 | on settings with no tracing settings and no middleware class, instrument then uninstrument gives back every setting; the chosen one becomes a list of the same entries in the same order |
| DjangoInstrument.RestoreUntouched | signalfx_tracing/libraries/django_/instrument.py:66-77 | absent keys that are written and then deleted leave the map as it was, apart from the one setting rewritten at the end |
| DjangoInstrument.WriteConfigSettings | signalfx_tracing/libraries/django_/instrument.py:40-43 | the three config settings are copied, or AttributeError for a missing field; the marker is untouched |
| DjangoInstrument.WriteTracingObject | signalfx_tracing/libraries/django_/instrument.py:45-49 | OPENTRACING_TRACING is set, importing django_opentracing, iff `tracer or config.tracer` is not None; it fails exactly on a missing field or module |
| DjangoInstrument.WriteTracerCallable | signalfx_tracing/libraries/django_/instrument.py:51-53 | the callable and its parameters are written only for a truthy callable; it fails exactly on a missing field |
| DjangoInstrument.WriteTracingSettings | signalfx_tracing/libraries/django_/instrument.py:40-53 | succeeds exactly when the config fields exist and django_opentracing is importable when needed; the state is then the written settings |
| DjangoInstrument.PrependMiddleware | signalfx_tracing/libraries/django_/instrument.py:55-56 | `[config.middleware_class] + list(middleware)` is stored in the chosen setting; fails exactly when the choice or iteration fails or the field is missing |
| DjangoInstrument.Instrument | signalfx_tracing/libraries/django_/instrument.py:33-57 | ImportError without django; a marked django is left alone; success iff django ends marked, with the settings of InstrumentedSettings; success is guaranteed when imports, config and choice are all ready |
| DjangoInstrument.InstrumentUnmarked | signalfx_tracing/libraries/django_/instrument.py:38-57 | past the marker check: succeeds iff django.conf, the config, the choice and (when needed) django_opentracing are available, and then marks |
| DjangoInstrument.WriteAndMark | signalfx_tracing/libraries/django_/instrument.py:40-57 | the writes, the prepend and the mark once django.conf is imported; succeeds iff django is marked afterwards |
| DjangoInstrument.PrependAndMark | signalfx_tracing/libraries/django_/instrument.py:55-57 | after the tracing settings, choose, prepend and mark; the result is InstrumentedSettings of the state before the writes |
| DjangoInstrument.DeleteTracingSettings | signalfx_tracing/libraries/django_/instrument.py:66-72 | the seven tracing settings are removed, whether or not present, and nothing else changes |
| DjangoInstrument.DeleteSettings | signalfx_tracing/libraries/django_/instrument.py:66-72 | the delete loop removes exactly the named settings |
| DjangoInstrument.Uninstrument | signalfx_tracing/libraries/django_/instrument.py:60-77 | ImportError without django; an unmarked django is left alone; an error leaves django marked; success leaves it unmarked with UninstrumentedSettings; success is guaranteed when imports and choice are ready |
| DjangoInstrument.ClearAndUnmark | signalfx_tracing/libraries/django_/instrument.py:65-77 | delete, filter and unmark once django.conf is imported; succeeds iff the choice and filter succeed, iff django is unmarked afterwards |
| DjangoApps.OverlayEffect | signalfx_tracing/libraries/django_/apps.py:14-27 | each listed field whose SIGNALFX_* setting is present and not None takes that value; every other listed field and every unlisted field stays as it was |
| DjangoApps.OverridesHaveDistinctFields | signalfx_tracing/libraries/django_/apps.py:14-27 | the seven overrides write seven different config fields |
| DjangoApps.OverrideField | signalfx_tracing/libraries/django_/apps.py:14-15 | one `if getattr(settings, s, None) is not None: config.f = settings.s` |
| DjangoApps.Ready | signalfx_tracing/libraries/django_/apps.py:13-28 | the config becomes the overlay of the seven overrides, then instrument() runs with no tracer, with instrument's outcomes |
| Psycopg2.FlagsForNothing | signalfx_tracing/libraries/psycopg2_/instrument.py:38-39 | with no commands all five flags are False |
| Psycopg2.FlagsForAdd | signalfx_tracing/libraries/psycopg2_/instrument.py:40-45 | one more command sets its own flag when it names one of the five, and otherwise changes nothing |
| Psycopg2.ComputeFlags | signalfx_tracing/libraries/psycopg2_/instrument.py:37-45 | the flag loop succeeds iff every command is a string; each of the five flags is True iff some lower-cased command names it; a non-string raises AttributeError |
| Psycopg2.SpanTagsOverlay | signalfx_tracing/libraries/psycopg2_/instrument.py:47-49 | the tags are `{db.type: PostgreSQL}` updated with config.span_tags: all user tags with their values (a user db.type wins) and nothing else |
| Psycopg2.ConfiguredFlags | signalfx_tracing/libraries/psycopg2_/instrument.py:37-45 | the flags for `set(config.traced_commands)`, with every error of the reads |
| Psycopg2.TracedConnect | signalfx_tracing/libraries/psycopg2_/instrument.py:34-52 | the wrapper returns `ConnectionTracing(connection, tracer, span_tags, **flags)`, with tracer, flags and tags read from config at call time |
| Psycopg2.TracingWithTracer | signalfx_tracing/libraries/psycopg2_/instrument.py:37-52 | the same, once the tracer is chosen |
| Psycopg2.DefaultCommandNames | signalfx_tracing/libraries/psycopg2_/instrument.py:41 | the five default commands name the five flags |
| Psycopg2.DefaultCommandSet | signalfx_tracing/libraries/psycopg2_/instrument.py:15-37 | `set()` of the default traced_commands is the five command strings |
| Psycopg2.DefaultCommandFlags | signalfx_tracing/libraries/psycopg2_/instrument.py:37-45 | the five default commands set all five flags |
| Psycopg2.DefaultFlags | signalfx_tracing/libraries/psycopg2_/instrument.py:14-45 | under the default config every flag is True |
| Psycopg2.DefaultTracesEverything | signalfx_tracing/libraries/psycopg2_/instrument.py:14-52 | under the default config the connection traces all five commands, carries only the db.type tag, and uses the argument or else the global tracer |
| Psycopg2.FlagsIgnoreCase | signalfx_tracing/libraries/psycopg2_/instrument.py:41 | a command and its lower-cased form set the same flags |
| Psycopg2.UnknownCommandIsIgnored | signalfx_tracing/libraries/psycopg2_/instrument.py:42-44 | a command naming none of the five flags changes nothing |
| Psycopg2.Instrument | signalfx_tracing/libraries/psycopg2_/instrument.py:21-55 | ImportError without psycopg2; a marked module is left alone; otherwise import dbapi_opentracing, wrap connect and mark; success iff marked afterwards, and errors change no attribute |
| Psycopg2.Uninstrument | signalfx_tracing/libraries/psycopg2_/instrument.py:58-68 | succeeds iff psycopg2 is locatable; when marked it reverts connect and unmarks, and otherwise changes nothing |
| Pymysql.CommandsPartition | signalfx_tracing/libraries/pymysql_/instrument.py:43-56 | every connection or cursor command is either traced or put back, never both; every configured command is either a known traced one or warned about, never both |
| Pymysql.TracingMorePutsBackLess | signalfx_tracing/libraries/pymysql_/instrument.py:43-56 | listing more commands puts fewer commands back and warns about no fewer |
| Pymysql.CursorRewrappedEffect | signalfx_tracing/libraries/pymysql_/instrument.py:53-56 | each rewrapped `dbapi_opentracing.Cursor` method wraps pymysql's own; no key is added and nothing else changes |
| Pymysql.CursorRewrappedAdd | signalfx_tracing/libraries/pymysql_/instrument.py:53-56 | one more pass of the cursor loop rewraps one more method |
| Pymysql.CollectWarnings | signalfx_tracing/libraries/pymysql_/instrument.py:43-46 | the warning loop logs exactly the Warned commands |
| Pymysql.RestoreConnectionCommands | signalfx_tracing/libraries/pymysql_/instrument.py:49-51 | the loop puts back exactly `Untraced`, the connection commands the config does not list |
| Pymysql.RestoreCursorCommand | signalfx_tracing/libraries/pymysql_/instrument.py:54-56 | one pass succeeds iff both class attributes exist, and extends the rewrapped map by one command |
| Pymysql.RestoreCursorCommands | signalfx_tracing/libraries/pymysql_/instrument.py:53-56 | the cursor loop succeeds iff every untraced cursor command exists on both classes, and then rewraps exactly those |
| Pymysql.TracedConnect | signalfx_tracing/libraries/pymysql_/instrument.py:39-58 | succeeds exactly when the tracer can be resolved, config has span_tags and a set-able traced_commands, and every untraced cursor command exists on both cursor classes; then it returns the ConnectionTracing with the resolved tracer and config.span_tags, the warned commands, the connection commands put back, and dbapi_opentracing.Cursor rewrapped for the untraced cursor commands; on failure the cursor class is unchanged or rewrapped for only some of those commands |
| Pymysql.DefaultRestoresNothing | signalfx_tracing/libraries/pymysql_/instrument.py:15-56 | under the default config nothing is put back and nothing is logged |
| Pymysql.MatchingIsCaseSensitive | signalfx_tracing/libraries/pymysql_/instrument.py:44-49 | "COMMIT" does not trace commit: commit is put back and COMMIT is logged |
| Pymysql.UnknownCommandOnlyWarns | signalfx_tracing/libraries/pymysql_/instrument.py:44-56 | an unknown command adds a warning and changes nothing that is put back |
| Pymysql.RepeatedConnectsNestWrappers | signalfx_tracing/libraries/pymysql_/instrument.py:53-86 | two connects wrap a cursor method twice, and uninstrument's single revert leaves one wrapper in place |
| Pymysql.InstrumentThenUninstrument | signalfx_tracing/libraries/pymysql_/instrument.py:25-88 | with no connection made in between and no other reverted attribute holding a wrapper, instrument then uninstrument gives back the attribute map |
| Pymysql.Instrument | signalfx_tracing/libraries/pymysql_/instrument.py:25-61 | ImportError without pymysql; a marked module is left alone; otherwise import pymysql.cursors and dbapi_opentracing, wrap connect and mark; success iff marked afterwards |
| Pymysql.RevertPymysql | signalfx_tracing/libraries/pymysql_/instrument.py:73-80 | import pymysql.connections and pymysql.cursors, then the six reverts; the marker is untouched |
| Pymysql.RevertTracingCursor | signalfx_tracing/libraries/pymysql_/instrument.py:83-86 | import dbapi_opentracing, then the three cursor reverts |
| Pymysql.Uninstrument | signalfx_tracing/libraries/pymysql_/instrument.py:64-88 | an unmarked module is left alone; when marked, all nine reverts and the unmark; when the dbapi_opentracing import fails, the first six reverts have happened and pymysql stays marked |
| Pymysql.RevertAndUnmark | signalfx_tracing/libraries/pymysql_/instrument.py:73-88 | past the marker check: succeeds iff the three imports succeed, and only then unmarks |
| FalconInstrument.TracedInit | signalfx_tracing/libraries/falcon_/instrument.py:23-29 | the middleware keyword (a new list when absent) gets TraceMiddleware(tracer, config.traced_attributes) inserted at the front, in place; a value without insert raises AttributeError |
| FalconInstrument.Instrument | signalfx_tracing/libraries/falcon_/instrument.py:16-32 | ImportError without falcon; a marked module is left alone; otherwise, with `falcon.API` taken to exist, it succeeds iff `tracer or config.tracer or opentracing.tracer` can be read, and then `API.__init__` is wrapped with a closure over that tracer and falcon is marked; errors change no attribute |
| FalconInstrument.Uninstrument | signalfx_tracing/libraries/falcon_/instrument.py:35-41 | when marked, revert `API.__init__` and unmark; otherwise no change |
| FalconMiddleware.Scope.constructor | signalfx_tracing/libraries/falcon_/middleware.py:18 | a new span has the operation name, parent and tracer it was started with, and no tags |
| FalconMiddleware.Scope.SetTag | signalfx_tracing/libraries/falcon_/middleware.py:26 | `span.set_tag(k, v)` changes that tag only |
| FalconMiddleware.Scope.SetOperationName | signalfx_tracing/libraries/falcon_/middleware.py:43-45 | the operation name is replaced |
| FalconMiddleware.Scope.Close | signalfx_tracing/libraries/falcon_/middleware.py:74 | `scope.close()` is counted |
| FalconMiddleware.Request.constructor | signalfx_tracing/libraries/falcon_/middleware.py:13-35 | a request with no stored scope |
| FalconMiddleware.AttributeTagsEffect | signalfx_tracing/libraries/falcon_/middleware.py:30-33 | exactly the listed attributes with truthy values become tags, each holding its value; every other tag is unchanged |
| FalconMiddleware.TagError | signalfx_tracing/libraries/falcon_/middleware.py:64-71 | `ErrorTags` writes the error, message, object and kind tags, and the stack tag only when there is a traceback |
| FalconMiddleware.StatusRules | signalfx_tracing/libraries/falcon_/middleware.py:52-63 | a missing resource reads as 404; an exception on a failed request reads as 404 for HTTPNotFound, else 500; otherwise the response status |
| FalconMiddleware.ResponseTagRules | signalfx_tracing/libraries/falcon_/middleware.py:58-73 | in `ResponseTags` the status code tag is always written; only the 500 case adds the error, kind, message and object tags, and a stack tag when there is a traceback; otherwise no other tag changes |
| FalconMiddleware.StatusCodeIsFirstWord | signalfx_tracing/libraries/falcon_/middleware.py:73 | "200 OK" is tagged 200; a missing resource or HTTPNotFound is 404; an exception on a succeeded request keeps 200 |
| FalconMiddleware.ExampleStatusLines | signalfx_tracing/libraries/falcon_/middleware.py:52-63 | the status lines behind those four requests |
| FalconMiddleware.TraceMiddleware.constructor | signalfx_tracing/libraries/falcon_/middleware.py:9-11 | a falsy tracer becomes the global tracer and falsy attributes become [] |
| FalconMiddleware.TraceMiddleware.ProcessRequest | signalfx_tracing/libraries/falcon_/middleware.py:13-35 | a new span is named after the path, is a child of the extracted context (or has no parent after an extraction error), carries the four `RequestTags` plus the truthy attribute tags, and is stored on the request; a non-iterable or non-string attribute raises TypeError and stores nothing |
| FalconMiddleware.TraceMiddleware.ProcessResource | signalfx_tracing/libraries/falcon_/middleware.py:37-45 | with a stored scope, tag falcon.resource and rename the span to `<Class>.on_<method lower-cased>`; without one, nothing |
| FalconMiddleware.TraceMiddleware.ProcessResponse | signalfx_tracing/libraries/falcon_/middleware.py:47-74 | with a stored scope, the tags become ResponseTags, the name is kept, and the scope is closed once; without one, nothing |
| FalconMiddleware.HandleRequest | signalfx_tracing/libraries/falcon_/middleware.py:13-74 | a successful request through the three hooks ends with a span renamed after the resource, tagged with the resource and the status code, and closed exactly once |
| Logging.HexDigit | signalfx_tracing/libraries/logging_/instrument.py:17-18 | each digit value maps to a lower-case hex character of that value |
| Logging.ParseHexSnoc | signalfx_tracing/libraries/logging_/instrument.py:17-18 | appending a digit multiplies by 16 and adds it |
| Logging.HexRoundTrip | signalfx_tracing/libraries/logging_/instrument.py:17-18 | `format(n, 'x')` parses back to n |
| Logging.ZerosParseToZero | signalfx_tracing/libraries/logging_/instrument.py:17-18 | a run of zeros parses to 0 |
| Logging.LeadingZerosIgnored | signalfx_tracing/libraries/logging_/instrument.py:17-18 | leading zeros do not change the parsed value |
| Logging.ZeroPadParse | signalfx_tracing/libraries/logging_/instrument.py:17-18 | zero padding does not change the parsed value |
| Logging.PaddedHexRoundTrip | signalfx_tracing/libraries/logging_/instrument.py:17-18 | `int(PaddedHex(n), 16) == n` for every integer n, negative ones included |
| Logging.HexIsDigits | signalfx_tracing/libraries/logging_/instrument.py:17-18 | hex output is non-empty and made of lower-case hex digits only |
| Logging.HexStartsWithDigit | signalfx_tracing/libraries/logging_/instrument.py:17-18 | hex output of a natural number has no sign |
| Logging.ZeroPadStartsWithDigit | signalfx_tracing/libraries/logging_/instrument.py:17-18 | zero padding adds no sign |
| Logging.PowAtLeast16 | signalfx_tracing/libraries/logging_/instrument.py:17-18 | 16^k is at least 16 for k >= 1 |
| Logging.HexLength | signalfx_tracing/libraries/logging_/instrument.py:17-18 | n has at most k hex digits iff n < 16^k |
| Logging.PaddedHexShape | signalfx_tracing/libraries/logging_/instrument.py:17-18 | padded_hex is at least 16 characters; for n >= 0 it is all hex digits, and exactly 16 long iff n < 16^16 (a 64-bit id) |
| Logging.Record.constructor | signalfx_tracing/libraries/logging_/instrument.py:22 | the record the original makeRecord built |
| Logging.IdsAsWritten | signalfx_tracing/libraries/logging_/instrument.py:23-30 | with no active span both ids are ''; with one, sfxTraceId decodes to the span id and sfxSpanId to the trace id (swapped against their names, as written), each at least 16 characters |
| Logging.MakeRecordPatched | signalfx_tracing/libraries/logging_/instrument.py:21-31 | the same record is returned with sfxTraceId and sfxSpanId set to those values and nothing else changed |
| Logging.BasicConfigOnlyWhenEnabled | signalfx_tracing/libraries/logging_/instrument.py:46-50 | basicConfig is called once iff injection is enabled, at DEBUG when SIGNALFX_TRACING_DEBUG is truthy and INFO otherwise, with the configured format; a failure is a missing field |
| Logging.Instrument | signalfx_tracing/libraries/logging_/instrument.py:34-52 | a marked module is left alone; otherwise wrap makeRecord, make the basicConfig calls, and mark; a failed config read leaves makeRecord wrapped and logging unmarked |
| Logging.Uninstrument | signalfx_tracing/libraries/logging_/instrument.py:55-61 | when marked, revert makeRecord and unmark; otherwise no change |
| Elasticsearch.InitCallUsesConfig | signalfx_tracing/libraries/elasticsearch_/instrument.py:40-41 | the call `InitCall` builds: init_tracing gets the first truthy tracer, trace_all_requests=True and config.prefix; it fails exactly on a missing field; the default config gives prefix 'Elasticsearch' |
| Elasticsearch.Instrument | signalfx_tracing/libraries/elasticsearch_/instrument.py:29-49 | a marked module is left alone; otherwise import elasticsearch_opentracing, call init_tracing, save and patch both `__new__`, and mark; any error changes no attribute, slot or call log |
| Elasticsearch.TraceAndPatch | signalfx_tracing/libraries/elasticsearch_/instrument.py:40-49 | the steps after the imports, succeeding iff init_tracing's arguments can be read |
| Elasticsearch.Uninstrument | signalfx_tracing/libraries/elasticsearch_/instrument.py:52-78 | when marked: call disable_tracing, restore both `__new__` (a generic one for a value without `__get__`), empty both slots, unmark; it fails only on a missing elasticsearch_opentracing |
| Requests.SessionTracingInitUsesConfig | signalfx_tracing/libraries/requests_/instrument.py:44-46 | of `SessionTracingInit`: the original `__init__` gets config.propagate and `config.span_tags or {}`; the caller's arguments do not matter; it fails exactly on a missing field; the default config gives `(tracer or global, propagate=True, span_tags={})` |
| Requests.InstrumentThenUninstrument | signalfx_tracing/libraries/requests_/instrument.py:33-79 | instrument then uninstrument changes only the two `__new__`, each to the restored form of its original, and the slots keep the saved originals |
| Requests.Instrument | signalfx_tracing/libraries/requests_/instrument.py:33-57 | a marked module is left alone; otherwise save and patch `__new__`, wrap `SessionTracing.__init__` and mark; success iff the three imports succeed |
| Requests.Uninstrument | signalfx_tracing/libraries/requests_/instrument.py:60-79 | when marked: restore both `__new__` as saved (slots unchanged), revert `__init__`, unmark; fails only on a missing requests_opentracing |
| Celery.CeleryTracingInitSucceeds | signalfx_tracing/libraries/celery_/instrument.py:46-48 | the call `CeleryTracingInit` builds fails exactly on a missing config field or a caller keyword that clashes with tracer, propagate or span_tags |
| Celery.CeleryTracingInitKeepsCallerArguments | signalfx_tracing/libraries/celery_/instrument.py:46-48 | the caller's positional and keyword arguments pass unchanged, next to the resolved tracer, config.propagate and `config.span_tags or {}` |
| Celery.InstrumentThenUninstrument | signalfx_tracing/libraries/celery_/instrument.py:33-83 | instrument then uninstrument changes only the two `__new__`, each to the restored form of its original |
| Celery.Instrument | signalfx_tracing/libraries/celery_/instrument.py:33-59 | a marked module is left alone; otherwise import celery.app and celery_opentracing, save and patch `__new__`, wrap `CeleryTracing.__init__` and mark; success iff the four imports succeed |
| Celery.Uninstrument | signalfx_tracing/libraries/celery_/instrument.py:62-83 | when marked: import celery.app and celery_opentracing, restore both `__new__` as saved, revert `__init__`, unmark; slots unchanged |
| Pymongo.CommandTracing | signalfx_tracing/libraries/pymongo_/instrument.py:28-32 | the listener is built exactly when the tracer and span_tags can be read |
| Pymongo.TracedInit | signalfx_tracing/libraries/pymongo_/instrument.py:28-36 | a new list gets the tracing listener followed by the caller's listeners in order; the caller's list is not changed; a non-iterable raises TypeError |
| Pymongo.DefaultListener | signalfx_tracing/libraries/pymongo_/instrument.py:10-32 | under the default config the listener has the first truthy tracer and empty span tags |
| Pymongo.Instrument | signalfx_tracing/libraries/pymongo_/instrument.py:16-40 | a marked module is left alone; otherwise import pymongo_opentracing, wrap `MongoClient.__init__` and mark; success iff both imports succeed |
| Pymongo.Uninstrument | signalfx_tracing/libraries/pymongo_/instrument.py:43-54 | when marked, revert `MongoClient.__init__` and unmark; otherwise no change |

## Left out

- The definitions of `utils.revert_wrapper`, `utils.is_truthy` and `constants.logging_format` are not modelled. `revert_wrapper` is modelled as replacing a wrapt wrapper with its `__wrapped__` value and leaving any other value alone. The results of `is_truthy` and `logging_format` enter as parameters (`Process.tracingDebug`, `Logging.DefaultConfig`).
- Logging output is not modelled: `log.debug` for unavailable libraries and `log.warn` in the psycopg2 and pymysql wrappers. Pymysql's warnings are returned as a set; psycopg2's are dropped.
- The original callables that the wrappers call are inputs, not models: `connect`, `__init__`, `makeRecord`, `extract`, `start_active_span`, `init_tracing` and `disable_tracing`. Their results are parameters, and calls into tracing packages are kept as a call log.
- Instrumentation.Instrument, Instrumentation.Uninstrument, Instrumentation.AutoInstrument: these record which adapter calls are made, in what order, with which tracer and with what outcome. They do not compose the adapters' own state changes, which each adapter's methods state separately; whether an adapter call raises, and what it raises, is the `raises` input. The flask, redis and tornado adapters are not modelled; a dispatcher call to them is only recorded.
- Utils.GetModule: importing loads only the named module into `sys.modules` (parent packages and what the module itself imports are not added) and fails only with ImportError; other exceptions raised while a module runs are not modelled.
- Text.Lower: only ASCII letters are folded. Python's `str.lower()` also folds other letters (KELVIN SIGN to `k`) and can change the length (`'İ'`), so a traced command written that way is an unknown command to Psycopg2.ComputeFlags and Psycopg2.FlagsIgnoreCase.
- The order of `**libraries` is the order of the given sequence; dict ordering is not modelled.
- Psycopg2.ComputeFlags: the AttributeError for a non-string command names the owner `object` rather than the value's type, because which non-string the set loop meets first depends on set order.
- Psycopg2.SpanTagsOverlay: only a dict argument to `dict.update` is represented; an iterable of pairs raises TypeError in the model.
- Py.ToSet: Python's `1 == True` and `0 == False` are not identified, so `set([1, True])` has two elements here and one in Python; a pymysql config listing both would get two warnings here where Python logs one. Float and other numeric types are not represented.
- Py.Iterate: only lists, tuples and strings are iterable; dicts, sets and generators raise TypeError in the model.
- Truthiness: every opaque object is truthy, because custom `__bool__` and `__len__` are not modelled.
- FalconInstrument.Instrument, Pymongo.Instrument, ClassNew.PatchWrapAndMark: the patched classes (`falcon.API`, `pymongo.MongoClient`, and the tracing classes of celery and requests) are assumed to exist on their modules once the module imports, so `wrap_function_wrapper` on their `__init__` never raises here. A falcon release without the `API` alias, which raises AttributeError in `wrap_function_wrapper('falcon', 'API.__init__', ...)`, is not modelled.
- Class attribute lookup falls back only to `object.__new__` and `object.__init__`; the rest of the MRO is not modelled. `celery.Celery` and `celery.app.base.Celery` are taken to be the same class. Likewise `requests_opentracing.SessionTracing` and `requests_opentracing.tracing.SessionTracing`, the class wrapped through the module path, are taken to be the same class.
- Pymysql.TracedConnect: the rewrapping of `commit` and `rollback` on the returned tracing object is recorded as the set of put-back commands, not as attributes of that object.
- Requests.Instrument, Celery.Instrument: when importing the tracing submodule fails, `__new__` is already patched and the slots are filled. That state is stated by ClassNew.PatchWrapAndMark and not repeated in these two contracts.
- Django: `django.conf.settings` is taken to exist once `django.conf` is imported. Tuple comparison covers int and bool elements only, and comparing any other element with an int raises TypeError.
- Falcon: an extraction that raises anything other than the two caught exceptions is not modelled. `resource is None` and `sys.exc_info()` enter as parameters, and the TypeError reason strings are generic.
- Nothing is concurrent here; thread safety of the module-level state is outside the model.
