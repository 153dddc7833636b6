/** signalfx_tracing.libraries.psycopg2_.instrument: wraps psycopg2.connect so that every new
    connection comes back as a dbapi_opentracing.ConnectionTracing, with per-command trace
    flags and span tags computed from the module config at each call. */
module Psycopg2 {
  import opened Py
  import opened Runtime
  import opened Utils
  import opened Text
  import ConfigNamespace

  /** The fields the module-level config is created with. */
  function DefaultConfig(): map<string, Value> {
    map["traced_commands" := List([Str("execute"), Str("executemany"), Str("callproc"), Str("commit"), Str("rollback")]),
        "span_tags" := None,
        "tracer" := None]
  }

  const ConnectAttr: Attr := Attr("psycopg2", "connect")

  /** The inner psycopg2_tracer, which captures instrument's tracer argument. */
  function Wrapper(tracer: Value): Value {
    Closure("psycopg2_tracer", tracer)
  }

  /** The keyword flags ConnectionTracing accepts. */
  const FlagNames: set<string> :=
    {"trace_execute", "trace_executemany", "trace_callproc", "trace_commit", "trace_rollback"}

  /** 'trace_{}'.format(command.lower()) */
  function FlagName(command: string): string {
    "trace_" + Lower(command)
  }

  /** Some configured command names this flag. */
  ghost predicate Names(commands: set<Value>, flag: string) {
    exists c :: c in commands && c.Str? && FlagName(c.s) == flag
  }

  /** The flag dictionary for a set of string commands: exactly the five flags, each set
      when some command, lower-cased, names it. */
  ghost function FlagsFor(commands: set<Value>): map<string, bool> {
    map flag | flag in FlagNames :: Names(commands, flag)
  }

  /** The exception `command.lower()` raises on a value that is not a string. Which such value
      the loop meets first depends on set order, so its type is not recorded. */
  const LowerError: Exception := AttributeError("object", "lower")

  lemma FlagsForNothing()
    ensures FlagsFor({}) ==
      map["trace_execute" := false, "trace_executemany" := false, "trace_callproc" := false,
          "trace_commit" := false, "trace_rollback" := false]
  {
  }

  /** The outcome of the flag loop: the flags, or the exception of the first non-string. */
  ghost function FlagsResult(commands: set<Value>): Result<map<string, bool>> {
    if forall c :: c in commands ==> c.Str? then Ok(FlagsFor(commands)) else Err(LowerError)
  }

  /** One more command sets its own flag when it names one, and otherwise changes nothing. */
  lemma FlagsForAdd(done: set<Value>, c: Value)
    requires c.Str?
    ensures FlagName(c.s) in FlagNames ==> FlagsFor(done + {c}) == FlagsFor(done)[FlagName(c.s) := true]
    ensures FlagName(c.s) !in FlagNames ==> FlagsFor(done + {c}) == FlagsFor(done)
  {
    var before := FlagsFor(done);
    var after := FlagsFor(done + {c});
    forall flag | flag in FlagNames
      ensures after[flag] == (before[flag] || flag == FlagName(c.s))
    {
      if flag == FlagName(c.s) {
        assert Names(done + {c}, flag);
      }
      if Names(done + {c}, flag) && flag != FlagName(c.s) {
        var d :| d in done + {c} && d.Str? && FlagName(d.s) == flag;
        assert Names(done, flag);
      }
    }
  }

  /** The `for command in traced_commands` loop: each command's lower-cased flag is set when it
      is one of the five; any other string is logged and ignored. */
  method ComputeFlags(commands: set<Value>) returns (r: Result<map<string, bool>>)
    ensures r.Ok? <==> forall c :: c in commands ==> c.Str?
    ensures r.Ok? ==> r.value == FlagsFor(commands)
    ensures r.Err? ==> r.error == LowerError
    ensures r == FlagsResult(commands)
  {
    var flags := map["trace_execute" := false, "trace_executemany" := false, "trace_callproc" := false,
                     "trace_commit" := false, "trace_rollback" := false];
    FlagsForNothing();
    var remaining := commands;
    ghost var done: set<Value> := {};
    while remaining != {}
      invariant remaining + done == commands && remaining !! done
      invariant forall c :: c in done ==> c.Str?
      invariant flags == FlagsFor(done)
      decreases |remaining|
    {
      var c :| c in remaining;
      if !c.Str? {
        return Err(LowerError);
      }
      var flag := FlagName(c.s);
      FlagsForAdd(done, c);
      if flag in flags {
        flags := flags[flag := true];
      }
      remaining := remaining - {c};
      done := done + {c};
    }
    return Ok(flags);
  }

  /** {db.type: 'PostgreSQL'} updated with config.span_tags unless that is None. Only a dict
      argument to update is represented; anything else raises TypeError here. */
  function SpanTags(userTags: Value): Result<map<string, Value>> {
    if userTags == None then Ok(map["db.type" := Str("PostgreSQL")])
    else if userTags.Dict? then Ok(map["db.type" := Str("PostgreSQL")] + userTags.entries)
    else Err(TypeError("cannot convert dictionary update sequence element"))
  }

  /** The tags always carry the database type; the configured tags are all present with their
      own values, so a user-supplied db.type wins; nothing else is added. */
  lemma SpanTagsOverlay(userTags: Value)
    ensures SpanTags(userTags).Ok? <==> userTags == None || userTags.Dict?
    ensures userTags == None ==> SpanTags(userTags) == Ok(map["db.type" := Str("PostgreSQL")])
    ensures userTags.Dict? ==>
      var tags := SpanTags(userTags).value;
      && tags.Keys == userTags.entries.Keys + {"db.type"}
      && (forall k :: k in userTags.entries ==> tags[k] == userTags.entries[k])
      && tags["db.type"] == (if "db.type" in userTags.entries then userTags.entries["db.type"] else Str("PostgreSQL"))
  {
  }

  /** dbapi_opentracing.ConnectionTracing(connection, tracer, span_tags=..., **flags) */
  datatype ConnectionTracing = ConnectionTracing(
    connection: Value, tracer: Value, spanTags: map<string, Value>, flags: map<string, bool>)

  /** What one call of the wrapped connect returns, given the connection the original connect
      made: the tracer, flags and tags are all read from the config at that moment. */
  ghost function TracingFor(connection: Value, tracer: Value, fields: map<string, Value>, global: Value): Result<ConnectionTracing> {
    var t :- ResolveTracer(tracer, fields, global);
    TracingWith(connection, t, fields)
  }

  /** The same, once the tracer is chosen. */
  ghost function TracingWith(connection: Value, t: Value, fields: map<string, Value>): Result<ConnectionTracing> {
    var flags :- FlagsFromConfig(fields);
    var userTags :- ConfigNamespace.Attribute(fields, "span_tags");
    var tags :- SpanTags(userTags);
    Ok(ConnectionTracing(connection, t, tags, flags))
  }

  /** The flags the wrapper derives from `set(config.traced_commands)`: AttributeError when the
      config lacks the field, TypeError when set() refuses it, and lower()'s error on a command
      that is not a string. */
  ghost function FlagsFromConfig(fields: map<string, Value>): Result<map<string, bool>> {
    var configured :- ConfigNamespace.Attribute(fields, "traced_commands");
    var commands :- ToSet(configured);
    FlagsResult(commands)
  }

  method ConfiguredFlags(cfg: ConfigNamespace.Config) returns (r: Result<map<string, bool>>)
    ensures r == FlagsFromConfig(cfg.fields)
  {
    var configured :- cfg.GetAttr("traced_commands");
    var commands :- ToSet(configured);
    r := ComputeFlags(commands);
  }

  /** psycopg2_tracer's body after `connect(*args, **kwargs)`. */
  method TracedConnect(connection: Value, tracer: Value, cfg: ConfigNamespace.Config, global: Value)
    returns (r: Result<ConnectionTracing>)
    ensures r == TracingFor(connection, tracer, cfg.fields, global)
  {
    var t := ResolveTracer(tracer, cfg.fields, global);
    if t.Err? {
      return Err(t.error);
    }
    assert TracingFor(connection, tracer, cfg.fields, global) == TracingWith(connection, t.value, cfg.fields);
    r := TracingWithTracer(connection, t.value, cfg);
  }

  method TracingWithTracer(connection: Value, t: Value, cfg: ConfigNamespace.Config)
    returns (r: Result<ConnectionTracing>)
    ensures r == TracingWith(connection, t, cfg.fields)
  {
    var flags :- ConfiguredFlags(cfg);
    var userTags :- cfg.GetAttr("span_tags");
    var tags :- SpanTags(userTags);
    return Ok(ConnectionTracing(connection, t, tags, flags));
  }

  const AllTraced: map<string, bool> :=
    map["trace_execute" := true, "trace_executemany" := true, "trace_callproc" := true,
        "trace_commit" := true, "trace_rollback" := true]

  lemma DefaultCommandNames()
    ensures FlagName("execute") == "trace_execute" && FlagName("executemany") == "trace_executemany"
    ensures FlagName("callproc") == "trace_callproc" && FlagName("commit") == "trace_commit"
    ensures FlagName("rollback") == "trace_rollback"
  {
    assert Lower("execute") == "execute";
    assert Lower("executemany") == "executemany";
    assert Lower("callproc") == "callproc";
    assert Lower("commit") == "commit";
    assert Lower("rollback") == "rollback";
  }

  const DefaultCommands: set<Value> :=
    {Str("execute"), Str("executemany"), Str("callproc"), Str("commit"), Str("rollback")}

  lemma DefaultCommandSet()
    ensures ToSet(DefaultConfig()["traced_commands"]) == Ok(DefaultCommands)
  {
    var items := Iterate(DefaultConfig()["traced_commands"]).value;
    assert forall x :: x in items ==> !Unhashable(x);
    assert (set x | x in items) == DefaultCommands;
  }

  lemma DefaultCommandFlags()
    ensures FlagsFor(DefaultCommands) == AllTraced
  {
    DefaultCommandNames();
    var commands := DefaultCommands;
    assert Names(commands, "trace_execute") by { assert Str("execute") in commands; }
    assert Names(commands, "trace_executemany") by { assert Str("executemany") in commands; }
    assert Names(commands, "trace_callproc") by { assert Str("callproc") in commands; }
    assert Names(commands, "trace_commit") by { assert Str("commit") in commands; }
    assert Names(commands, "trace_rollback") by { assert Str("rollback") in commands; }
  }

  /** The default traced_commands turn on all five flags. */
  lemma DefaultFlags()
    ensures FlagsFromConfig(DefaultConfig()) == Ok(AllTraced)
  {
    DefaultCommandSet();
    DefaultCommandFlags();
    assert forall c :: c in DefaultCommands ==> c.Str?;
  }

  /** Under the default config every one of the five commands is traced, the only tag is the
      database type, and the tracer is the instrument argument or else the global tracer. */
  lemma DefaultTracesEverything(connection: Value, tracer: Value, global: Value)
    ensures TracingFor(connection, tracer, DefaultConfig(), global) ==
      Ok(ConnectionTracing(connection, Or(tracer, global), map["db.type" := Str("PostgreSQL")], AllTraced))
  {
    DefaultFlags();
    assert ResolveTracer(tracer, DefaultConfig(), global) == Ok(Or(tracer, global));
  }

  /** Commands match without regard to case. */
  lemma FlagsIgnoreCase(commands: set<Value>, s: string)
    ensures FlagsFor(commands + {Str(s)}) == FlagsFor(commands + {Str(Lower(s))})
  {
    LowerIsIdempotent(s);
    FlagsForAdd(commands, Str(s));
    FlagsForAdd(commands, Str(Lower(s)));
  }

  /** A command that names none of the five flags changes nothing. */
  lemma UnknownCommandIsIgnored(commands: set<Value>, s: string)
    requires FlagName(s) !in FlagNames
    ensures FlagsFor(commands + {Str(s)}) == FlagsFor(commands)
  {
    FlagsForAdd(commands, Str(s));
  }

  /** instrument(tracer): unless psycopg2 is marked, import dbapi_opentracing, wrap connect, mark. */
  method Instrument(p: Process, tracer: Value) returns (r: Result<()>)
    requires p.Valid()
    modifies p`modules, p`attrs
    ensures p.Valid()
    ensures old(p.modules) <= p.modules <= old(p.modules) + {"psycopg2", "dbapi_opentracing"}
    ensures !old(p.Locatable("psycopg2")) ==> r == Err(ImportError("psycopg2")) && p.attrs == old(p.attrs)
    ensures old(IsInstrumented(p, "psycopg2")) ==> r == Ok(()) && p.attrs == old(p.attrs)
    ensures r.Ok? <==> IsInstrumented(p, "psycopg2")
    ensures r.Err? ==> p.attrs == old(p.attrs)
    ensures r.Ok? && !old(IsInstrumented(p, "psycopg2")) ==>
      WrapIn(old(p.attrs), ConnectAttr, Wrapper(tracer)).Ok? && p.attrs == WrappedAndMarked(old(p.attrs), ConnectAttr, Wrapper(tracer), "psycopg2")
    ensures old(p.Locatable("psycopg2")) && old(p.Locatable("dbapi_opentracing")) && ConnectAttr in old(p.attrs) ==> r.Ok?
  {
    var psycopg2 :- GetModule(p, "psycopg2");
    if IsInstrumented(p, "psycopg2") {
      return Ok(());
    }
    var dbapiOpentracing :- GetModule(p, "dbapi_opentracing");
    var wrapped :- p.WrapFunctionWrapper(ConnectAttr, Wrapper(tracer));
    MarkInstrumented(p, "psycopg2");
    return Ok(());
  }

  /** uninstrument(): when psycopg2 is marked, revert connect and unmark. */
  method Uninstrument(p: Process) returns (r: Result<()>)
    requires p.Valid()
    modifies p`modules, p`attrs
    ensures p.Valid()
    ensures old(p.modules) <= p.modules <= old(p.modules) + {"psycopg2"}
    ensures r.Ok? <==> old(p.Locatable("psycopg2"))
    ensures r.Err? ==> r == Err(ImportError("psycopg2")) && p.attrs == old(p.attrs)
    ensures r.Ok? ==> !IsInstrumented(p, "psycopg2")
    ensures !old(IsInstrumented(p, "psycopg2")) ==> p.attrs == old(p.attrs)
    ensures old(IsInstrumented(p, "psycopg2")) ==> p.attrs == RevertedAndUnmarked(old(p.attrs), ConnectAttr, "psycopg2")
  {
    var psycopg2 :- GetModule(p, "psycopg2");
    if !IsInstrumented(p, "psycopg2") {
      return Ok(());
    }
    p.RevertWrapper(ConnectAttr);
    MarkUninstrumented(p, "psycopg2");
    return Ok(());
  }
}
