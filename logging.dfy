/** signalfx_tracing.libraries.logging_.instrument: wraps logging.Logger.makeRecord so that every
    log record carries the active span's ids as zero-padded hex, and optionally configures the
    root logger. */
module Logging {
  import opened Py
  import opened Runtime
  import opened Utils
  import ConfigNamespace

  /** The fields the module-level config is created with. Both come from the environment:
      injectionEnabled is is_truthy(SIGNALFX_LOGS_INJECTION), and loggingFormat is
      SIGNALFX_LOGGING_FORMAT or the package's default logging_format. */
  function DefaultConfig(injectionEnabled: bool, loggingFormat: Value): map<string, Value> {
    map["injection_enabled" := Bool(injectionEnabled), "logging_format" := loggingFormat]
  }

  /** A lower-case hex digit: 0-9 or a-f. */
  predicate IsHexDigit(c: char) {
    '0' <= c <= '9' || 'a' <= c <= 'f'
  }

  function HexDigit(d: int): (c: char)
    requires 0 <= d < 16
    ensures IsHexDigit(c) && DigitValue(c) == d
  {
    if d < 10 then ('0' as int + d) as char else ('a' as int + d - 10) as char
  }

  /** The value of a lower-case hex digit; any other character counts as 0. */
  function DigitValue(c: char): int {
    if '0' <= c <= '9' then c as int - '0' as int
    else if 'a' <= c <= 'f' then c as int - 'a' as int + 10
    else 0
  }

  /** format(n, 'x') for n >= 0: lower-case hex without leading zeros. */
  function Hex(n: nat): string
    decreases n
  {
    if n < 16 then [HexDigit(n)] else Hex(n / 16) + [HexDigit(n % 16)]
  }

  function Zeros(k: nat): string {
    seq(k, _ => '0')
  }

  /** Right-aligned in a field of the given width, filled with zeros. */
  function ZeroPad(s: string, width: nat): string {
    if |s| >= width then s else Zeros(width - |s|) + s
  }

  /** padded_hex(num), that is '{:016x}'.format(num): zero fill to width 16, where the sign of
      a negative number counts toward the width. */
  function PaddedHex(n: int): string {
    if n >= 0 then ZeroPad(Hex(n), 16) else "-" + ZeroPad(Hex(-n), 15)
  }

  /** The value of a string of hex digits. */
  function ParseHex(s: string): int
    decreases |s|
  {
    if s == [] then 0 else 16 * ParseHex(s[..|s| - 1]) + DigitValue(s[|s| - 1])
  }

  /** int(s, 16) on what padded_hex produces: an optional minus sign, then hex digits. */
  function ParseHexInt(s: string): int {
    if |s| > 0 && s[0] == '-' then -ParseHex(s[1..]) else ParseHex(s)
  }

  function Pow16(k: nat): nat {
    if k == 0 then 1 else 16 * Pow16(k - 1)
  }

  lemma ParseHexSnoc(s: string, c: char)
    ensures ParseHex(s + [c]) == 16 * ParseHex(s) + DigitValue(c)
  {
    assert (s + [c])[..|s|] == s;
  }

  lemma {:induction false} HexRoundTrip(n: nat)
    ensures ParseHex(Hex(n)) == n
    decreases n
  {
    if n < 16 {
      assert Hex(n) == [] + [HexDigit(n)];
      ParseHexSnoc([], HexDigit(n));
    } else {
      HexRoundTrip(n / 16);
      ParseHexSnoc(Hex(n / 16), HexDigit(n % 16));
    }
  }

  lemma {:induction false} ZerosParseToZero(k: nat)
    ensures ParseHex(Zeros(k)) == 0
    decreases k
  {
    if k > 0 {
      assert Zeros(k) == Zeros(k - 1) + ['0'];
      ZerosParseToZero(k - 1);
      ParseHexSnoc(Zeros(k - 1), '0');
    }
  }

  lemma {:induction false} LeadingZerosIgnored(k: nat, s: string)
    ensures ParseHex(Zeros(k) + s) == ParseHex(s)
    decreases |s|
  {
    if s == [] {
      assert Zeros(k) + s == Zeros(k);
      ZerosParseToZero(k);
    } else {
      var init := s[..|s| - 1];
      assert Zeros(k) + s == (Zeros(k) + init) + [s[|s| - 1]];
      assert s == init + [s[|s| - 1]];
      LeadingZerosIgnored(k, init);
      ParseHexSnoc(Zeros(k) + init, s[|s| - 1]);
      ParseHexSnoc(init, s[|s| - 1]);
    }
  }

  lemma ZeroPadParse(s: string, width: nat)
    ensures ParseHex(ZeroPad(s, width)) == ParseHex(s)
  {
    if |s| < width {
      LeadingZerosIgnored(width - |s|, s);
    }
  }

  /** Parsing padded_hex(n) as hex gives n back, for every integer n. */
  lemma PaddedHexRoundTrip(n: int)
    ensures ParseHexInt(PaddedHex(n)) == n
  {
    if n >= 0 {
      HexRoundTrip(n);
      ZeroPadParse(Hex(n), 16);
      HexStartsWithDigit(n);
      ZeroPadStartsWithDigit(Hex(n), 16);
    } else {
      HexRoundTrip(-n);
      ZeroPadParse(Hex(-n), 15);
      assert ("-" + ZeroPad(Hex(-n), 15))[1..] == ZeroPad(Hex(-n), 15);
    }
  }

  /** Hex output is made of the digits alone. */
  lemma {:induction false} HexIsDigits(n: nat)
    ensures |Hex(n)| > 0 && forall i :: 0 <= i < |Hex(n)| ==> IsHexDigit(Hex(n)[i])
    decreases n
  {
    if n >= 16 {
      HexIsDigits(n / 16);
    }
  }

  lemma HexStartsWithDigit(n: nat)
    ensures |Hex(n)| > 0 && Hex(n)[0] != '-'
  {
    HexIsDigits(n);
  }

  lemma ZeroPadStartsWithDigit(s: string, width: nat)
    requires |s| > 0 && s[0] != '-'
    ensures |ZeroPad(s, width)| > 0 && ZeroPad(s, width)[0] != '-'
  {
  }

  lemma {:induction false} PowAtLeast16(k: nat)
    requires k >= 1
    ensures Pow16(k) >= 16
    decreases k
  {
    if k > 1 {
      PowAtLeast16(k - 1);
    }
  }

  /** The number of hex digits is at most k exactly when n < 16^k. */
  lemma {:induction false} HexLength(n: nat, k: nat)
    requires k >= 1
    ensures |Hex(n)| <= k <==> n < Pow16(k)
    decreases n
  {
    PowAtLeast16(k);
    if n >= 16 {
      HexIsDigits(n / 16);
      assert |Hex(n)| == |Hex(n / 16)| + 1;
      if k > 1 {
        HexLength(n / 16, k - 1);
        assert Pow16(k) == 16 * Pow16(k - 1);
        assert n / 16 < Pow16(k - 1) <==> n < 16 * Pow16(k - 1);
      }
    }
  }

  /** padded_hex is lower-case hex at least 16 characters long, and exactly 16 long for
      0 <= n < 16^16, the range of a 64-bit id. */
  lemma PaddedHexShape(n: int)
    ensures |PaddedHex(n)| >= 16
    ensures n >= 0 ==> (|PaddedHex(n)| == 16 <==> n < Pow16(16))
    ensures n >= 0 ==> forall i :: 0 <= i < |PaddedHex(n)| ==> IsHexDigit(PaddedHex(n)[i])
  {
    if n >= 0 {
      HexLength(n, 16);
      HexIsDigits(n);
      var h := Hex(n);
      if |h| < 16 {
        forall i | 0 <= i < |PaddedHex(n)| ensures IsHexDigit(PaddedHex(n)[i]) {
          if i < 16 - |h| {
            assert PaddedHex(n)[i] == '0';
          } else {
            assert PaddedHex(n)[i] == h[i - (16 - |h|)];
          }
        }
      }
    } else {
      HexIsDigits(-n);
    }
  }

  /** opentracing.tracer.active_span while a record is made. */
  datatype ActiveSpan = NoSpan | ActiveSpan(spanId: int, traceId: int)

  /** A logging.LogRecord, whose attributes setattr changes in place. */
  class Record {
    var attributes: map<string, Value>

    constructor (attributes: map<string, Value>)
      ensures this.attributes == attributes
    {
      this.attributes := attributes;
    }
  }

  /** The values makeRecordPatched stores as (sfxTraceId, sfxSpanId): the padded span id first and
      the padded trace id second, as the source is written. */
  function InjectedIds(span: ActiveSpan): (string, string) {
    if span.NoSpan? then ("", "") else (PaddedHex(span.spanId), PaddedHex(span.traceId))
  }

  /** With no active span both ids are empty; with one, sfxTraceId decodes to the span id and
      sfxSpanId to the trace id, so the two are swapped against their names. */
  lemma IdsAsWritten(span: ActiveSpan)
    ensures span.NoSpan? ==> InjectedIds(span) == ("", "")
    ensures span.ActiveSpan? ==>
      ParseHexInt(InjectedIds(span).0) == span.spanId && ParseHexInt(InjectedIds(span).1) == span.traceId &&
      |InjectedIds(span).0| >= 16 && |InjectedIds(span).1| >= 16
  {
    if span.ActiveSpan? {
      PaddedHexRoundTrip(span.spanId);
      PaddedHexRoundTrip(span.traceId);
      PaddedHexShape(span.spanId);
      PaddedHexShape(span.traceId);
    }
  }

  /** makeRecordPatched(makeRecord, ...): the record the original makeRecord built, with the two
      id attributes set and nothing else changed. */
  method MakeRecordPatched(rv: Record, span: ActiveSpan) returns (r: Record)
    modifies rv
    ensures r == rv
    ensures rv.attributes == old(rv.attributes)["sfxTraceId" := Str(InjectedIds(span).0)]["sfxSpanId" := Str(InjectedIds(span).1)]
  {
    var spanId := "";
    var traceId := "";
    if span.ActiveSpan? {
      spanId := PaddedHex(span.spanId);
      traceId := PaddedHex(span.traceId);
    }
    rv.attributes := rv.attributes["sfxTraceId" := Str(spanId)];
    rv.attributes := rv.attributes["sfxSpanId" := Str(traceId)];
    return rv;
  }

  const MakeRecordAttr: Attr := Attr("logging.Logger", "makeRecord")

  /** logging.DEBUG when SIGNALFX_TRACING_DEBUG is truthy, logging.INFO otherwise. */
  function Level(debug: bool): int {
    if debug then 10 else 20
  }

  /** The logging.basicConfig calls instrument makes after wrapping: one when
      config.injection_enabled is truthy, none otherwise. */
  function InjectionCalls(fields: map<string, Value>, debug: bool): Result<seq<ForeignCall>> {
    var enabled :- ConfigNamespace.Attribute(fields, "injection_enabled");
    if Truthy(enabled) then
      var format :- ConfigNamespace.Attribute(fields, "logging_format");
      Ok([BasicConfig(Level(debug), format)])
    else Ok([])
  }

  /** basicConfig is called exactly when injection is enabled, with the debug or info level and
      the configured format; the default config with injection off calls nothing. */
  lemma BasicConfigOnlyWhenEnabled(fields: map<string, Value>, debug: bool, format: Value)
    ensures InjectionCalls(fields, debug).Ok? <==>
      "injection_enabled" in fields && (Truthy(fields["injection_enabled"]) ==> "logging_format" in fields)
    ensures InjectionCalls(fields, debug).Ok? ==>
      var calls := InjectionCalls(fields, debug).value;
      && (calls != [] <==> Truthy(fields["injection_enabled"]))
      && (calls != [] ==> calls == [BasicConfig(if debug then 10 else 20, fields["logging_format"])])
    ensures InjectionCalls(DefaultConfig(false, format), debug) == Ok([])
    ensures InjectionCalls(DefaultConfig(true, format), debug) == Ok([BasicConfig(Level(debug), format)])
  {
  }

  /** instrument(): unless logging is marked, wrap Logger.makeRecord, configure logging when
      injection is enabled, and mark. A config read that fails leaves makeRecord wrapped and
      logging unmarked. */
  method Instrument(p: Process, cfg: ConfigNamespace.Config) returns (r: Result<()>)
    requires p.Valid()
    modifies p`modules, p`attrs, p`foreignCalls
    ensures p.Valid()
    ensures old(p.modules) <= p.modules <= old(p.modules) + {"logging"}
    ensures !old(p.Locatable("logging")) ==> r == Err(ImportError("logging"))
    ensures old(IsInstrumented(p, "logging")) ==> r == Ok(())
    ensures r.Ok? <==> IsInstrumented(p, "logging")
    ensures !old(p.Locatable("logging")) || old(IsInstrumented(p, "logging")) ||
            WrapIn(old(p.attrs), MakeRecordAttr, Func("makeRecordPatched")).Err?
            ==> p.attrs == old(p.attrs) && p.foreignCalls == old(p.foreignCalls)
    ensures old(p.Locatable("logging")) && !old(IsInstrumented(p, "logging")) ==>
      (r.Ok? <==> WrapIn(old(p.attrs), MakeRecordAttr, Func("makeRecordPatched")).Ok? &&
                  InjectionCalls(cfg.fields, p.tracingDebug).Ok?)
    ensures r.Err? && WrapIn(old(p.attrs), MakeRecordAttr, Func("makeRecordPatched")).Ok? &&
            old(p.Locatable("logging")) && !old(IsInstrumented(p, "logging"))
            ==> p.attrs == WrapIn(old(p.attrs), MakeRecordAttr, Func("makeRecordPatched")).value &&
                p.foreignCalls == old(p.foreignCalls)
    ensures r.Ok? && !old(IsInstrumented(p, "logging")) ==>
      && WrapIn(old(p.attrs), MakeRecordAttr, Func("makeRecordPatched")).Ok?
      && InjectionCalls(cfg.fields, p.tracingDebug).Ok?
      && p.attrs == WrappedAndMarked(old(p.attrs), MakeRecordAttr, Func("makeRecordPatched"), "logging")
      && p.foreignCalls == old(p.foreignCalls) + InjectionCalls(cfg.fields, p.tracingDebug).value
  {
    var logging :- GetModule(p, "logging");
    if IsInstrumented(p, "logging") {
      return Ok(());
    }
    var wrapped :- p.WrapFunctionWrapper(MakeRecordAttr, Func("makeRecordPatched"));
    var enabled :- cfg.GetAttr("injection_enabled");
    if Truthy(enabled) {
      var format :- cfg.GetAttr("logging_format");
      p.Call(BasicConfig(Level(p.tracingDebug), format));
    }
    MarkInstrumented(p, "logging");
    return Ok(());
  }

  /** uninstrument(): when logging is marked, revert Logger.makeRecord and unmark. */
  method Uninstrument(p: Process) returns (r: Result<()>)
    requires p.Valid()
    modifies p`modules, p`attrs
    ensures p.Valid()
    ensures old(p.modules) <= p.modules <= old(p.modules) + {"logging"}
    ensures r.Ok? <==> old(p.Locatable("logging"))
    ensures r.Err? ==> r == Err(ImportError("logging")) && p.attrs == old(p.attrs)
    ensures r.Ok? ==> !IsInstrumented(p, "logging")
    ensures r.Ok? && !old(IsInstrumented(p, "logging")) ==> p.attrs == old(p.attrs)
    ensures old(IsInstrumented(p, "logging")) ==> p.attrs == RevertedAndUnmarked(old(p.attrs), MakeRecordAttr, "logging")
  {
    var logging :- GetModule(p, "logging");
    if !IsInstrumented(p, "logging") {
      return Ok(());
    }
    p.RevertWrapper(MakeRecordAttr);
    MarkUninstrumented(p, "logging");
    return Ok(());
  }
}
