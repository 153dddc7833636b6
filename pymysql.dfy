/** signalfx_tracing.libraries.pymysql_.instrument: wraps pymysql.connect so that every new
    connection comes back as a dbapi_opentracing.ConnectionTracing; commands the config does not
    list are put back to their untraced originals by wrapping them once more. */
module Pymysql {
  import opened Py
  import opened Runtime
  import opened Utils
  import ConfigNamespace

  /** The fields the module-level config is created with. */
  function DefaultConfig(): map<string, Value> {
    map["traced_commands" := List([Str("execute"), Str("executemany"), Str("callproc"), Str("commit"), Str("rollback")]),
        "span_tags" := None,
        "tracer" := None]
  }

  const ConnectionCommands: set<string> := {"commit", "rollback"}
  const CursorCommands: set<string> := {"execute", "executemany", "callproc"}

  const ConnectAttr: Attr := Attr("pymysql", "connect")
  const PymysqlCursor: string := "pymysql.cursors.Cursor"
  const PymysqlConnection: string := "pymysql.connections.Connection"
  const TracingCursor: string := "dbapi_opentracing.Cursor"

  /** The inner pymysql_tracer, which captures instrument's tracer argument. */
  function Wrapper(tracer: Value): Value {
    Closure("pymysql_tracer", tracer)
  }

  /** `command in traced_commands` for a command name: only the exact string matches. */
  predicate IsTraced(traced: set<Value>, command: string) {
    Str(command) in traced
  }

  /** `commands - traced_commands` */
  function Untraced(commands: set<string>, traced: set<Value>): set<string> {
    set c | c in commands && !IsTraced(traced, c)
  }

  /** The commands that are logged as untraceable: everything that is neither a connection
      nor a cursor command. */
  function Warned(traced: set<Value>): set<Value> {
    set v | v in traced && !(v.Str? && (v.s in ConnectionCommands || v.s in CursorCommands))
  }

  /** The configured commands split the known ones and are split by them: every connection or
      cursor command is either traced or put back, never both, and every configured command is
      either a known traced one or warned about, never both. */
  lemma CommandsPartition(traced: set<Value>)
    ensures var tracedKnown := set c | c in ConnectionCommands + CursorCommands && IsTraced(traced, c);
      && Untraced(ConnectionCommands, traced) + Untraced(CursorCommands, traced) + tracedKnown == ConnectionCommands + CursorCommands
      && (Untraced(ConnectionCommands, traced) + Untraced(CursorCommands, traced)) !! tracedKnown
      && Untraced(ConnectionCommands, traced) !! Untraced(CursorCommands, traced)
      && Warned(traced) + (set c | c in tracedKnown :: Str(c)) == traced
      && Warned(traced) !! (set c | c in tracedKnown :: Str(c))
  {
    var tracedKnown := set c | c in ConnectionCommands + CursorCommands && IsTraced(traced, c);
    forall v | v in traced
      ensures v in Warned(traced) + (set c | c in tracedKnown :: Str(c))
    {
      if v.Str? && (v.s in ConnectionCommands || v.s in CursorCommands) {
        assert v.s in tracedKnown;
        assert v == Str(v.s);
      }
    }
  }

  /** Listing more commands puts fewer back and never warns about fewer. */
  lemma TracingMorePutsBackLess(traced: set<Value>, more: set<Value>)
    requires traced <= more
    ensures Untraced(ConnectionCommands, more) <= Untraced(ConnectionCommands, traced)
    ensures Untraced(CursorCommands, more) <= Untraced(CursorCommands, traced)
    ensures Warned(traced) <= Warned(more)
  {
  }

  /** The ConnectionTracing object the wrapper returns. `restored` names the connection commands
      whose traced method on this object was wrapped with the raw connection's own method. */
  datatype MysqlTracing = MysqlTracing(connection: Value, tracer: Value, spanTags: Value, restored: set<string>)

  /** Every cursor command to be put back has its two class attributes. */
  predicate CursorsPresent(attrs: map<Attr, Value>, commands: set<string>) {
    forall c :: c in commands ==> Attr(PymysqlCursor, c) in attrs && Attr(TracingCursor, c) in attrs
  }

  /** dbapi_opentracing.Cursor after `wrap_function_wrapper(dbapi_opentracing.Cursor, c,
      pymysql.cursors.Cursor.c)` for every c in commands. */
  function CursorRewrapped(attrs: map<Attr, Value>, commands: set<string>): map<Attr, Value>
    requires CursorsPresent(attrs, commands)
  {
    map a | a in attrs ::
      if a.owner == TracingCursor && a.name in commands
      then Wrapped(attrs[a], attrs[Attr(PymysqlCursor, a.name)])
      else attrs[a]
  }

  /** Each rewrapped cursor command now calls pymysql's own method; nothing else changes. */
  lemma CursorRewrappedEffect(attrs: map<Attr, Value>, commands: set<string>)
    requires CursorsPresent(attrs, commands)
    ensures var after := CursorRewrapped(attrs, commands);
      && after.Keys == attrs.Keys
      && (forall c :: c in commands ==>
            after[Attr(TracingCursor, c)] == Wrapped(attrs[Attr(TracingCursor, c)], attrs[Attr(PymysqlCursor, c)]))
      && OnlyChanged(attrs, after, set c | c in commands :: Attr(TracingCursor, c))
  {
    var after := CursorRewrapped(attrs, commands);
    forall a | a in attrs && a.owner == TracingCursor && a.name in commands
      ensures a in (set c | c in commands :: Attr(TracingCursor, c))
    {
      assert a == Attr(TracingCursor, a.name);
    }
  }

  /** One more rewrapped command. */
  lemma CursorRewrappedAdd(attrs: map<Attr, Value>, commands: set<string>, c: string)
    requires CursorsPresent(attrs, commands + {c}) && c !in commands
    ensures CursorRewrapped(attrs, commands + {c}) ==
      CursorRewrapped(attrs, commands)[Attr(TracingCursor, c) := Wrapped(attrs[Attr(TracingCursor, c)], attrs[Attr(PymysqlCursor, c)])]
  {
  }

  /** The warning loop of the wrapper. */
  method CollectWarnings(traced: set<Value>) returns (warned: set<Value>)
    ensures warned == Warned(traced)
  {
    warned := {};
    var remaining := traced;
    while remaining != {}
      invariant remaining <= traced
      invariant warned == Warned(traced - remaining)
      decreases |remaining|
    {
      var command :| command in remaining;
      if !(command.Str? && (command.s in ConnectionCommands || command.s in CursorCommands)) {
        warned := warned + {command};
      }
      remaining := remaining - {command};
    }
  }

  /** The loop over `traceable_connection_commands - traced_commands`: each one is wrapped on
      the tracing object with the raw connection's own method. */
  method RestoreConnectionCommands(traced: set<Value>) returns (restored: set<string>)
    ensures restored == Untraced(ConnectionCommands, traced)
  {
    restored := {};
    var remaining := Untraced(ConnectionCommands, traced);
    while remaining != {}
      invariant remaining <= Untraced(ConnectionCommands, traced)
      invariant restored == Untraced(ConnectionCommands, traced) - remaining
      decreases |remaining|
    {
      var command :| command in remaining;
      restored := restored + {command};
      remaining := remaining - {command};
    }
  }

  /** dbapi_opentracing.Cursor after the cursor loop stopped early: the commands done so far,
      some of those to be put back, are rewrapped and nothing else is. */
  ghost predicate PartlyRewrapped(before: map<Attr, Value>, after: map<Attr, Value>, todo: set<string>, done: set<string>) {
    done <= todo && CursorsPresent(before, done) && after == CursorRewrapped(before, done)
  }

  /** Rewrapping no command leaves the attributes as they are. */
  lemma CursorRewrappedNothing(attrs: map<Attr, Value>)
    ensures CursorsPresent(attrs, {}) && CursorRewrapped(attrs, {}) == attrs
  {
  }

  /** One pass of the cursor loop: `wrapped = getattr(pymysql_cursors.Cursor, command)`, then
      `wrap_function_wrapper(dbapi_opentracing.Cursor, command, wrapped)`. */
  method RestoreCursorCommand(p: Process, ghost attrs0: map<Attr, Value>, ghost done: set<string>, command: string)
    returns (r: Result<()>)
    requires p.Valid() && command in CursorCommands && command !in done
    requires CursorsPresent(attrs0, done) && p.attrs == CursorRewrapped(attrs0, done)
    modifies p`attrs
    ensures p.Valid()
    ensures r.Ok? <==> Attr(PymysqlCursor, command) in attrs0 && Attr(TracingCursor, command) in attrs0
    ensures r.Ok? ==> CursorsPresent(attrs0, done + {command}) && p.attrs == CursorRewrapped(attrs0, done + {command})
    ensures r.Err? ==> p.attrs == old(p.attrs)
  {
    var original := p.Lookup(Attr(PymysqlCursor, command));
    if original.Err? {
      return Err(original.error);
    }
    assert original.value == attrs0[Attr(PymysqlCursor, command)];
    ghost var before := p.attrs;
    var wrapped := p.WrapFunctionWrapper(Attr(TracingCursor, command), original.value);
    if wrapped.Err? {
      return Err(wrapped.error);
    }
    assert before[Attr(TracingCursor, command)] == attrs0[Attr(TracingCursor, command)];
    CursorRewrappedAdd(attrs0, done, command);
    return Ok(());
  }

  /** The loop over `traceable_cursor_commands - traced_commands`: dbapi_opentracing.Cursor's
      method is wrapped with pymysql.cursors.Cursor's, for every later cursor(). */
  method RestoreCursorCommands(p: Process, traced: set<Value>) returns (r: Result<()>)
    requires p.Valid()
    modifies p`attrs
    ensures p.Valid()
    ensures r.Ok? <==> CursorsPresent(old(p.attrs), Untraced(CursorCommands, traced))
    ensures r.Ok? ==> p.attrs == CursorRewrapped(old(p.attrs), Untraced(CursorCommands, traced))
    ensures r.Err? ==> exists done :: PartlyRewrapped(old(p.attrs), p.attrs, Untraced(CursorCommands, traced), done)
  {
    ghost var attrs0 := p.attrs;
    CursorRewrappedNothing(attrs0);
    var todo := Untraced(CursorCommands, traced);
    var remaining := todo;
    while remaining != {}
      invariant remaining <= todo
      invariant CursorsPresent(attrs0, todo - remaining)
      invariant p.attrs == CursorRewrapped(attrs0, todo - remaining)
      invariant p.Valid()
      decreases |remaining|
    {
      var command :| command in remaining;
      var restored := RestoreCursorCommand(p, attrs0, todo - remaining, command);
      if restored.Err? {
        assert PartlyRewrapped(attrs0, p.attrs, todo, todo - remaining);
        return restored;
      }
      assert (todo - remaining) + {command} == todo - (remaining - {command});
      remaining := remaining - {command};
    }
    assert todo - remaining == todo;
    return Ok(());
  }

  /** pymysql_tracer's body after `connect(*args, **kwargs)`: the tracing object, the commands
      logged as untraceable, and the cursor commands put back on dbapi_opentracing.Cursor. */
  method TracedConnect(p: Process, connection: Value, tracer: Value, cfg: ConfigNamespace.Config)
    returns (r: Result<MysqlTracing>, warned: set<Value>)
    requires p.Valid()
    modifies p`attrs
    ensures p.Valid()
    ensures r.Ok? <==>
      && ResolveTracer(tracer, cfg.fields, p.globalTracer).Ok?
      && "span_tags" in cfg.fields && "traced_commands" in cfg.fields
      && ToSet(cfg.fields["traced_commands"]).Ok?
      && CursorsPresent(old(p.attrs), Untraced(CursorCommands, ToSet(cfg.fields["traced_commands"]).value))
    ensures r.Err? ==>
      || p.attrs == old(p.attrs)
      || ("traced_commands" in cfg.fields && ToSet(cfg.fields["traced_commands"]).Ok? &&
          exists done :: PartlyRewrapped(old(p.attrs), p.attrs, Untraced(CursorCommands, ToSet(cfg.fields["traced_commands"]).value), done))
    ensures r.Ok? ==>
      && ResolveTracer(tracer, cfg.fields, p.globalTracer).Ok?
      && "span_tags" in cfg.fields && "traced_commands" in cfg.fields
      && ToSet(cfg.fields["traced_commands"]).Ok?
      && var traced := ToSet(cfg.fields["traced_commands"]).value;
         && r.value == MysqlTracing(connection, ResolveTracer(tracer, cfg.fields, p.globalTracer).value,
                                    cfg.fields["span_tags"], Untraced(ConnectionCommands, traced))
         && warned == Warned(traced)
         && CursorsPresent(old(p.attrs), Untraced(CursorCommands, traced))
         && p.attrs == CursorRewrapped(old(p.attrs), Untraced(CursorCommands, traced))
  {
    warned := {};
    var t :- ResolveTracer(tracer, cfg.fields, p.globalTracer);
    var spanTags :- cfg.GetAttr("span_tags");
    var configured :- cfg.GetAttr("traced_commands");
    var traced :- ToSet(configured);
    warned := CollectWarnings(traced);
    var restored := RestoreConnectionCommands(traced);
    var cursors :- RestoreCursorCommands(p, traced);
    return Ok(MysqlTracing(connection, t, spanTags, restored)), warned;
  }

  /** With every command traced, nothing is put back and nothing is logged. */
  lemma DefaultRestoresNothing()
    ensures ToSet(DefaultConfig()["traced_commands"]).Ok?
    ensures var traced := ToSet(DefaultConfig()["traced_commands"]).value;
      Untraced(ConnectionCommands, traced) == {} && Untraced(CursorCommands, traced) == {} && Warned(traced) == {}
  {
    var items := Iterate(DefaultConfig()["traced_commands"]).value;
    assert forall x :: x in items ==> !Unhashable(x);
    var traced := ToSet(DefaultConfig()["traced_commands"]).value;
    assert traced == {Str("execute"), Str("executemany"), Str("callproc"), Str("commit"), Str("rollback")};
  }

  /** Matching is by exact string: an upper-cased command does not count as traced. */
  lemma MatchingIsCaseSensitive()
    ensures Untraced(ConnectionCommands, {Str("COMMIT"), Str("rollback")}) == {"commit"}
    ensures Warned({Str("COMMIT"), Str("rollback")}) == {Str("COMMIT")}
  {
    assert "commit" in Untraced(ConnectionCommands, {Str("COMMIT"), Str("rollback")});
  }

  /** A configured command that is neither a connection nor a cursor command only produces a
      warning: what is put back is the same as without it. */
  lemma UnknownCommandOnlyWarns(traced: set<Value>, v: Value)
    requires v in Warned({v})
    ensures Untraced(ConnectionCommands, traced + {v}) == Untraced(ConnectionCommands, traced)
    ensures Untraced(CursorCommands, traced + {v}) == Untraced(CursorCommands, traced)
    ensures Warned(traced + {v}) == Warned(traced) + {v}
  {
  }

  /** Each connect with untraced cursor commands wraps dbapi_opentracing.Cursor once more, and
      one revert_wrapper removes only the outermost layer: after two connects, uninstrument
      leaves that cursor method still wrapped. */
  lemma RepeatedConnectsNestWrappers(attrs: map<Attr, Value>, commands: set<string>, c: string)
    requires CursorsPresent(attrs, commands) && c in commands
    ensures CursorsPresent(CursorRewrapped(attrs, commands), commands)
    ensures var twice := CursorRewrapped(CursorRewrapped(attrs, commands), commands);
      Reverted(twice, Attr(TracingCursor, c))[Attr(TracingCursor, c)] ==
        Wrapped(attrs[Attr(TracingCursor, c)], attrs[Attr(PymysqlCursor, c)])
  {
    CursorRewrappedEffect(attrs, commands);
    assert CursorsPresent(CursorRewrapped(attrs, commands), commands);
    CursorRewrappedEffect(CursorRewrapped(attrs, commands), commands);
  }

  /** The reverts uninstrument makes before it imports dbapi_opentracing. */
  const PymysqlReverts: seq<Attr> :=
    [ConnectAttr, Attr(PymysqlConnection, "commit"), Attr(PymysqlConnection, "rollback"),
     Attr(PymysqlCursor, "execute"), Attr(PymysqlCursor, "executemany"), Attr(PymysqlCursor, "callproc")]

  /** The reverts after it. */
  const TracingCursorReverts: seq<Attr> :=
    [Attr(TracingCursor, "execute"), Attr(TracingCursor, "executemany"), Attr(TracingCursor, "callproc")]

  /** The attribute map after uninstrument of a marked pymysql. */
  function UninstrumentedAttrs(attrs: map<Attr, Value>): map<Attr, Value> {
    RevertedAll(RevertedAll(attrs, PymysqlReverts), TracingCursorReverts) - {Marker("pymysql")}
  }

  /** Instrument followed by uninstrument, with no connection made in between, gives back the
      attribute map exactly when none of the other reverted attributes held a wrapper. */
  lemma InstrumentThenUninstrument(attrs: map<Attr, Value>, tracer: Value)
    requires Marker("pymysql") !in attrs && ConnectAttr in attrs
    requires forall a :: a in PymysqlReverts[1..] + TracingCursorReverts && a in attrs ==> !attrs[a].Wrapped?
    ensures UninstrumentedAttrs(WrappedAndMarked(attrs, ConnectAttr, Wrapper(tracer), "pymysql")) == attrs
  {
    var after := WrappedAndMarked(attrs, ConnectAttr, Wrapper(tracer), "pymysql");
    var first := Reverted(after, ConnectAttr);
    assert first == attrs[Marker("pymysql") := Bool(true)];
    RevertedAllWithoutWrappers(first, PymysqlReverts[1..]);
    RevertedAllWithoutWrappers(first, TracingCursorReverts);
  }

  /** instrument(tracer): unless pymysql is marked, import pymysql.cursors and dbapi_opentracing,
      wrap connect, mark. */
  method Instrument(p: Process, tracer: Value) returns (r: Result<()>)
    requires p.Valid()
    modifies p`modules, p`attrs
    ensures p.Valid()
    ensures old(p.modules) <= p.modules <= old(p.modules) + {"pymysql", "pymysql.cursors", "dbapi_opentracing"}
    ensures !old(p.Locatable("pymysql")) ==> r == Err(ImportError("pymysql")) && p.attrs == old(p.attrs)
    ensures old(IsInstrumented(p, "pymysql")) ==> r == Ok(()) && p.attrs == old(p.attrs)
    ensures r.Ok? <==> IsInstrumented(p, "pymysql")
    ensures r.Err? ==> p.attrs == old(p.attrs)
    ensures r.Ok? && !old(IsInstrumented(p, "pymysql")) ==>
      WrapIn(old(p.attrs), ConnectAttr, Wrapper(tracer)).Ok? && p.attrs == WrappedAndMarked(old(p.attrs), ConnectAttr, Wrapper(tracer), "pymysql")
    ensures old(p.Locatable("pymysql")) && old(p.Locatable("pymysql.cursors")) &&
            old(p.Locatable("dbapi_opentracing")) && ConnectAttr in old(p.attrs)
            ==> r.Ok?
  {
    var pymysql :- GetModule(p, "pymysql");
    if IsInstrumented(p, "pymysql") {
      return Ok(());
    }
    var cursors :- GetModule(p, "pymysql.cursors");
    var dbapiOpentracing :- GetModule(p, "dbapi_opentracing");
    var wrapped :- p.WrapFunctionWrapper(ConnectAttr, Wrapper(tracer));
    MarkInstrumented(p, "pymysql");
    return Ok(());
  }

  /** The first part of uninstrument: import pymysql.connections and pymysql.cursors, then
      revert connect and the five pymysql methods. */
  method RevertPymysql(p: Process) returns (r: Result<()>)
    requires p.Valid()
    modifies p`modules, p`attrs
    ensures p.Valid()
    ensures old(p.modules) <= p.modules <= old(p.modules) + {"pymysql.connections", "pymysql.cursors"}
    ensures r.Ok? <==> old(p.Locatable("pymysql.connections")) && old(p.Locatable("pymysql.cursors"))
    ensures r.Err? ==> r.error in {ImportError("pymysql.connections"), ImportError("pymysql.cursors")} && p.attrs == old(p.attrs)
    ensures r.Ok? ==> p.attrs == RevertedAll(old(p.attrs), PymysqlReverts)
    ensures IsInstrumented(p, "pymysql") == old(IsInstrumented(p, "pymysql"))
  {
    var connections :- GetModule(p, "pymysql.connections");
    var cursors :- GetModule(p, "pymysql.cursors");
    ghost var attrs0 := p.attrs;
    p.RevertWrappers(PymysqlReverts);
    RevertedAllChangesOnlyTargets(attrs0, PymysqlReverts);
    assert Marker("pymysql") !in PymysqlReverts;
    return Ok(());
  }

  /** The second part: import dbapi_opentracing and revert its three cursor methods. */
  method RevertTracingCursor(p: Process) returns (r: Result<()>)
    requires p.Valid()
    modifies p`modules, p`attrs
    ensures p.Valid()
    ensures old(p.modules) <= p.modules <= old(p.modules) + {"dbapi_opentracing"}
    ensures r.Ok? <==> old(p.Locatable("dbapi_opentracing"))
    ensures r.Err? ==> r.error == ImportError("dbapi_opentracing") && p.attrs == old(p.attrs)
    ensures r.Ok? ==> p.attrs == RevertedAll(old(p.attrs), TracingCursorReverts)
    ensures IsInstrumented(p, "pymysql") == old(IsInstrumented(p, "pymysql"))
  {
    var dbapiOpentracing :- GetModule(p, "dbapi_opentracing");
    ghost var attrs0 := p.attrs;
    p.RevertWrappers(TracingCursorReverts);
    RevertedAllChangesOnlyTargets(attrs0, TracingCursorReverts);
    assert Marker("pymysql") !in TracingCursorReverts;
    return Ok(());
  }

  /** uninstrument(): when pymysql is marked, revert connect and the five pymysql methods, then
      import dbapi_opentracing and revert its three cursor methods, then unmark. When that import
      fails the first six reverts have happened and pymysql stays marked. */
  method Uninstrument(p: Process) returns (r: Result<()>)
    requires p.Valid()
    modifies p`modules, p`attrs
    ensures p.Valid()
    ensures old(p.modules) <= p.modules <= old(p.modules) + {"pymysql", "pymysql.connections", "pymysql.cursors", "dbapi_opentracing"}
    ensures !old(p.Locatable("pymysql")) ==> r == Err(ImportError("pymysql")) && p.attrs == old(p.attrs)
    ensures old(p.Locatable("pymysql")) && !old(IsInstrumented(p, "pymysql")) ==> r == Ok(()) && p.attrs == old(p.attrs)
    ensures r.Ok? ==> !IsInstrumented(p, "pymysql")
    ensures r.Ok? && old(IsInstrumented(p, "pymysql")) ==> p.attrs == UninstrumentedAttrs(old(p.attrs))
    ensures r == Err(ImportError("dbapi_opentracing")) ==>
      IsInstrumented(p, "pymysql") && p.attrs == RevertedAll(old(p.attrs), PymysqlReverts)
    ensures old(p.Locatable("pymysql")) && old(p.Locatable("pymysql.connections")) &&
            old(p.Locatable("pymysql.cursors")) && old(p.Locatable("dbapi_opentracing"))
            ==> r.Ok?
  {
    var pymysql :- GetModule(p, "pymysql");
    if !IsInstrumented(p, "pymysql") {
      return Ok(());
    }
    r := RevertAndUnmark(p);
  }

  /** uninstrument() past its marker check: revert the pymysql entry points, then the tracing
      cursor's, then unmark. A failed import leaves the marker in place. */
  method RevertAndUnmark(p: Process) returns (r: Result<()>)
    requires p.Valid() && IsInstrumented(p, "pymysql")
    modifies p`modules, p`attrs
    ensures p.Valid()
    ensures old(p.modules) <= p.modules <= old(p.modules) + {"pymysql.connections", "pymysql.cursors", "dbapi_opentracing"}
    ensures r.Ok? <==>
      old(p.Locatable("pymysql.connections")) && old(p.Locatable("pymysql.cursors")) && old(p.Locatable("dbapi_opentracing"))
    ensures r.Ok? ==> !IsInstrumented(p, "pymysql") && p.attrs == UninstrumentedAttrs(old(p.attrs))
    ensures r.Err? ==> IsInstrumented(p, "pymysql")
    ensures r == Err(ImportError("dbapi_opentracing")) ==> p.attrs == RevertedAll(old(p.attrs), PymysqlReverts)
  {
    var first :- RevertPymysql(p);
    var second :- RevertTracingCursor(p);
    MarkUninstrumented(p, "pymysql");
    return Ok(());
  }
}
