/** The core's constants: the marker attribute name and the two library catalogues. */
module Constants {

  /** The attribute set on a library's module object while it is instrumented. */
  const InstrumentedAttr: string := "__sfx_instrumented"

  /** The libraries auto_instrument probes, in order. */
  const TraceableLibraries: seq<string> :=
    ["django", "elasticsearch", "flask", "psycopg2", "pymongo", "pymysql", "redis", "requests", "tornado"]

  /** The curated subset meant for automatic instrumentation (django needs explicit opt-in). */
  const AutoInstrumentableLibraries: seq<string> :=
    ["elasticsearch", "flask", "psycopg2", "pymongo", "pymysql", "redis", "requests", "tornado"]

  predicate NoDuplicates(s: seq<string>) {
    forall i, j :: 0 <= i < j < |s| ==> s[i] != s[j]
  }

  lemma AutoInstrumentableAreTraceable()
    ensures forall l :: l in AutoInstrumentableLibraries ==> l in TraceableLibraries
  {
  }

  lemma OnlyDjangoNeedsOptIn()
    ensures forall l :: l in TraceableLibraries && l !in AutoInstrumentableLibraries <==> l == "django"
  {
  }

  lemma CataloguesHaveNoDuplicates()
    ensures NoDuplicates(TraceableLibraries) && NoDuplicates(AutoInstrumentableLibraries)
  {
  }
}
