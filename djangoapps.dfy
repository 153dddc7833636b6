/** signalfx_tracing.libraries.django_.apps: the SignalFxConfig app's ready() hook, which
    overlays SIGNALFX_* Django settings onto the django adapter's config and then instruments. */
module DjangoApps {
  import opened Py
  import opened Runtime
  import opened Utils
  import ConfigNamespace
  import opened DjangoInstrument

  /** Each overriding setting, paired with the config field it overwrites, in the order ready() checks them. */
  const Overrides: seq<(string, string)> :=
    [("SIGNALFX_TRACE_ALL", "trace_all"),
     ("SIGNALFX_TRACED_ATTRIBUTES", "traced_attributes"),
     ("SIGNALFX_TRACER", "tracer"),
     ("SIGNALFX_TRACER_CALLABLE", "tracer_callable"),
     ("SIGNALFX_TRACER_PARAMETERS", "tracer_parameters"),
     ("SIGNALFX_SET_GLOBAL_TRACER", "set_global_tracer"),
     ("SIGNALFX_MIDDLEWARE_CLASS", "middleware_class")]

  /** getattr(settings, name, None) is not None */
  predicate Overriding(attrs: map<Attr, Value>, setting: string) {
    Setting(setting) in attrs && attrs[Setting(setting)] != None
  }

  /** One `if getattr(settings, setting, None) is not None: config.field = settings.setting`. */
  function Override(fields: map<string, Value>, attrs: map<Attr, Value>, setting: string, field: string): map<string, Value> {
    if Overriding(attrs, setting) then fields[field := attrs[Setting(setting)]] else fields
  }

  /** The overrides of a table applied in order. */
  function Overlay(fields: map<string, Value>, attrs: map<Attr, Value>, table: seq<(string, string)>): map<string, Value>
    decreases |table|
  {
    if table == [] then fields
    else Overlay(Override(fields, attrs, table[0].0, table[0].1), attrs, table[1..])
  }

  /** No config field appears twice in a table. */
  predicate DistinctFields(table: seq<(string, string)>) {
    forall i, j :: 0 <= i < j < |table| ==> table[i].1 != table[j].1
  }

  predicate Overridden(table: seq<(string, string)>, field: string) {
    exists i :: 0 <= i < |table| && table[i].1 == field
  }

  /** With distinct fields, the overlay writes each listed field whose setting is present and
      not None with that setting's value, leaves every other listed field as it was, and
      leaves every unlisted field alone. */
  lemma {:induction false} OverlayEffect(fields: map<string, Value>, attrs: map<Attr, Value>, table: seq<(string, string)>)
    requires DistinctFields(table)
    ensures var r := Overlay(fields, attrs, table);
      forall i :: 0 <= i < |table| ==>
        if Overriding(attrs, table[i].0)
        then table[i].1 in r && r[table[i].1] == attrs[Setting(table[i].0)]
        else (table[i].1 in r <==> table[i].1 in fields) &&
             (table[i].1 in fields ==> r[table[i].1] == fields[table[i].1])
    ensures var r := Overlay(fields, attrs, table);
      forall k :: !Overridden(table, k) ==> (k in r <==> k in fields) && (k in fields ==> r[k] == fields[k])
    decreases |table|
  {
    if table != [] {
      var first := Override(fields, attrs, table[0].0, table[0].1);
      var rest := table[1..];
      assert DistinctFields(rest) by {
        forall i, j | 0 <= i < j < |rest| ensures rest[i].1 != rest[j].1 {
          assert rest[i] == table[i + 1] && rest[j] == table[j + 1];
        }
      }
      OverlayEffect(first, attrs, rest);
      var r := Overlay(fields, attrs, table);
      forall i | 0 <= i < |table|
        ensures if Overriding(attrs, table[i].0)
                then table[i].1 in r && r[table[i].1] == attrs[Setting(table[i].0)]
                else (table[i].1 in r <==> table[i].1 in fields) &&
                     (table[i].1 in fields ==> r[table[i].1] == fields[table[i].1])
      {
        if i == 0 {
          assert !Overridden(rest, table[0].1) by {
            forall j | 0 <= j < |rest| ensures rest[j].1 != table[0].1 {
              assert rest[j] == table[j + 1];
            }
          }
        } else {
          assert table[i] == rest[i - 1];
        }
      }
      forall k | !Overridden(table, k)
        ensures (k in r <==> k in fields) && (k in fields ==> r[k] == fields[k])
      {
        assert k != table[0].1;
        assert !Overridden(rest, k) by {
          forall j | 0 <= j < |rest| ensures rest[j].1 != k {
            assert rest[j] == table[j + 1];
          }
        }
      }
    }
  }

  lemma OverridesHaveDistinctFields()
    ensures DistinctFields(Overrides)
  {
  }

  /** One conditional assignment of ready(). */
  method OverrideField(p: Process, cfg: ConfigNamespace.Config, setting: string, field: string)
    modifies cfg
    ensures cfg.fields == Override(old(cfg.fields), p.attrs, setting, field)
  {
    if Setting(setting) in p.attrs && p.attrs[Setting(setting)] != None {
      cfg.SetItem(field, p.attrs[Setting(setting)]);
    }
  }

  /** SignalFxConfig.ready(): the seven overrides, then instrument() with no tracer argument. */
  method Ready(p: Process, cfg: ConfigNamespace.Config) returns (r: Result<()>)
    requires p.Valid()
    modifies cfg, p`modules, p`attrs
    ensures cfg.fields == Overlay(old(cfg.fields), old(p.attrs), Overrides)
    ensures p.Valid()
    ensures !old(p.Locatable("django")) ==> r == Err(ImportError("django")) && p.attrs == old(p.attrs)
    ensures old(IsInstrumented(p, "django")) ==> r == Ok(()) && p.attrs == old(p.attrs)
    ensures r.Ok? <==> IsInstrumented(p, "django")
    ensures r.Ok? && !old(IsInstrumented(p, "django")) ==>
      CanInstrument(old(p.attrs), cfg.fields, None) &&
      p.attrs == InstrumentedSettings(old(p.attrs), cfg.fields, None)
  {
    OverrideField(p, cfg, "SIGNALFX_TRACE_ALL", "trace_all");
    OverrideField(p, cfg, "SIGNALFX_TRACED_ATTRIBUTES", "traced_attributes");
    OverrideField(p, cfg, "SIGNALFX_TRACER", "tracer");
    OverrideField(p, cfg, "SIGNALFX_TRACER_CALLABLE", "tracer_callable");
    OverrideField(p, cfg, "SIGNALFX_TRACER_PARAMETERS", "tracer_parameters");
    OverrideField(p, cfg, "SIGNALFX_SET_GLOBAL_TRACER", "set_global_tracer");
    OverrideField(p, cfg, "SIGNALFX_MIDDLEWARE_CLASS", "middleware_class");
    r := Instrument(p, cfg, None);
  }
}
