/** signalfx_tracing.libraries.falcon_.middleware: TraceMiddleware, the Falcon middleware that
    starts a server span per request, tags it, renames it after the resource, and finishes it
    with the response status. A span is kept as its operation name and its tag map; the
    tracer's extract and start_active_span are foreign and enter as inputs. */
module FalconMiddleware {
  import opened Py
  import opened Text

  /** What tracer.extract(Format.HTTP_HEADERS, req.headers) does: hand back a span context, or
      raise one of the two exceptions process_request catches. */
  datatype Extraction = Extracted(context: Value) | InvalidCarrier | SpanContextCorrupted

  /** sys.exc_info() while process_response runs: no exception, or the one being handled, with
      its type's __name__, str(exc), str(exc.__class__), and the formatted traceback when there is one. */
  datatype ExcInfo =
    | NoException
    | Raised(typeName: string, message: string, classRepr: string, hasTraceback: bool, stack: string)

  /** The scope start_active_span returns, with its span. */
  class Scope {
    var operationName: string
    var tags: map<string, Value>
    /** the child_of argument: the extracted context, or None when started without a parent */
    const parent: Value
    /** the tracer that started it */
    const tracer: Value
    /** how many times scope.close() has been called */
    var closes: nat

    constructor (operationName: string, parent: Value, tracer: Value)
      ensures this.operationName == operationName && this.parent == parent && this.tracer == tracer
      ensures tags == map[] && closes == 0
    {
      this.operationName := operationName;
      this.parent := parent;
      this.tracer := tracer;
      this.tags := map[];
      this.closes := 0;
    }

    /** span.set_tag(key, value) */
    method SetTag(key: string, value: Value)
      modifies this`tags
      ensures tags == old(tags)[key := value]
    {
      tags := tags[key := value];
    }

    /** span.set_operation_name(name) */
    method SetOperationName(name: string)
      modifies this`operationName
      ensures operationName == name
    {
      operationName := name;
    }

    /** scope.close() */
    method Close()
      modifies this`closes
      ensures closes == old(closes) + 1
    {
      closes := closes + 1;
    }
  }

  /** A Falcon request: the attributes the middleware reads, and req.context's scope slot. */
  class Request {
    const path: string
    const verb: string
    const uri: string
    /** every other attribute of the request object */
    const extra: map<string, Value>
    /** req.context.signalfx_tracing_scope; null while it is not set */
    var scope: Scope?

    constructor (path: string, verb: string, uri: string, extra: map<string, Value>)
      ensures this.path == path && this.verb == verb && this.uri == uri && this.extra == extra
      ensures scope == null
    {
      this.path := path;
      this.verb := verb;
      this.uri := uri;
      this.extra := extra;
      this.scope := null;
    }

    /** getattr(req, name, None) */
    function Attribute(name: string): Value {
      if name == "path" then Str(path)
      else if name == "method" then Str(verb)
      else if name == "uri" then Str(uri)
      else if name in extra then extra[name]
      else None
    }
  }

  /** The parent a new request span gets: the extracted context, or none after an extraction error. */
  function Parent(e: Extraction): Value {
    if e.Extracted? then e.context else None
  }

  /** The four tags every request span starts with. */
  function RequestTags(req: Request): map<string, Value> {
    map["component" := Str("Falcon"),
        "http.method" := Str(req.verb),
        "http.url" := Str(UpToFirst(req.uri, '?')),
        "span.kind" := Str("server")]
  }

  /** One pass of the attribute loop: the attribute becomes a tag when its value is truthy. */
  function Tagged(tags: map<string, Value>, req: Request, name: string): map<string, Value> {
    if Truthy(req.Attribute(name)) then tags[name := req.Attribute(name)] else tags
  }

  /** The attribute loop over names, in order. */
  function AttributeTags(tags: map<string, Value>, req: Request, names: seq<string>): map<string, Value>
    decreases |names|
  {
    if names == [] then tags
    else Tagged(AttributeTags(tags, req, names[..|names| - 1]), req, names[|names| - 1])
  }

  /** The attribute names of a list whose every element is a string. */
  function Names(items: seq<Value>): seq<string>
    requires forall i :: 0 <= i < |items| ==> items[i].Str?
  {
    seq(|items|, i requires 0 <= i < |items| => items[i].s)
  }

  /** Only attributes whose value is truthy become tags, each with its value; every other tag is
      the one the span started with. */
  lemma {:induction false} AttributeTagsEffect(tags: map<string, Value>, req: Request, names: seq<string>)
    ensures var r := AttributeTags(tags, req, names);
      forall k ::
        (k in r <==> k in tags || (k in names && Truthy(req.Attribute(k)))) &&
        (k in r ==> r[k] == if k in names && Truthy(req.Attribute(k)) then req.Attribute(k) else tags[k])
    decreases |names|
  {
    if names != [] {
      var init := names[..|names| - 1];
      AttributeTagsEffect(tags, req, init);
      assert forall k :: k in names <==> k in init || k == names[|names| - 1] by {
        assert names == init + [names[|names| - 1]];
      }
    }
  }

  /** The status process_response reports, before the text after the first space is dropped. */
  function ResponseStatus(status: string, resourceMissing: bool, exc: ExcInfo, succeeded: Value): string {
    var s := if resourceMissing then "404" else status;
    if exc.Raised? && !Truthy(succeeded) then
      (if Contains(exc.typeName, "HTTPNotFound") then "404" else "500")
    else s
  }

  /** Whether process_response marks the span as failed. */
  predicate IsServerError(exc: ExcInfo, succeeded: Value) {
    exc.Raised? && !Truthy(succeeded) && !Contains(exc.typeName, "HTTPNotFound")
  }

  /** The error tags a failed request gets; the stack only when there is a traceback. */
  function ErrorTags(tags: map<string, Value>, exc: ExcInfo): map<string, Value>
    requires exc.Raised?
  {
    var t := tags["error" := Bool(true)]["sfx.error.message" := Str(exc.message)]
                 ["sfx.error.object" := Str(exc.classRepr)]["sfx.error.kind" := Str(exc.typeName)];
    if exc.hasTraceback then t["sfx.error.stack" := Str(exc.stack)] else t
  }

  /** The error branch of process_response: the error, message, object and kind tags, and the
      stack tag when there is a traceback. */
  method TagError(scope: Scope, exc: ExcInfo)
    requires exc.Raised?
    modifies scope`tags
    ensures scope.tags == ErrorTags(old(scope.tags), exc)
  {
    scope.SetTag("error", Bool(true));
    scope.SetTag("sfx.error.message", Str(exc.message));
    scope.SetTag("sfx.error.object", Str(exc.classRepr));
    scope.SetTag("sfx.error.kind", Str(exc.typeName));
    if exc.hasTraceback {
      scope.SetTag("sfx.error.stack", Str(exc.stack));
    }
  }

  /** The span's tags after process_response. */
  function ResponseTags(tags: map<string, Value>, status: string, resourceMissing: bool, exc: ExcInfo, succeeded: Value): map<string, Value> {
    var t := if IsServerError(exc, succeeded) then ErrorTags(tags, exc) else tags;
    t["http.status_code" := Str(UpToFirst(ResponseStatus(status, resourceMissing, exc, succeeded), ' '))]
  }

  /** The status rules: a missing resource reads as 404; an exception on a request that did not
      succeed reads as 404 when its type name mentions HTTPNotFound and as 500 otherwise. */
  lemma StatusRules(status: string, resourceMissing: bool, exc: ExcInfo, succeeded: Value)
    ensures var s := ResponseStatus(status, resourceMissing, exc, succeeded);
      && (exc.Raised? && !Truthy(succeeded) && Contains(exc.typeName, "HTTPNotFound") ==> s == "404")
      && (IsServerError(exc, succeeded) ==> s == "500")
      && (!(exc.Raised? && !Truthy(succeeded)) ==> s == if resourceMissing then "404" else status)
  {
  }

  /** Only the 500 case adds the error tags, and the stack tag needs a traceback; otherwise only
      the status code tag is written. */
  lemma ResponseTagRules(tags: map<string, Value>, status: string, resourceMissing: bool, exc: ExcInfo, succeeded: Value)
    ensures var r := ResponseTags(tags, status, resourceMissing, exc, succeeded);
      && "http.status_code" in r
      && (IsServerError(exc, succeeded) ==>
            r["error"] == Bool(true) && r["sfx.error.kind"] == Str(exc.typeName) &&
            r["sfx.error.message"] == Str(exc.message) && r["sfx.error.object"] == Str(exc.classRepr) &&
            ("sfx.error.stack" in r <==> exc.hasTraceback || "sfx.error.stack" in tags))
      && (!IsServerError(exc, succeeded) ==> r == tags["http.status_code" := r["http.status_code"]])
  {
  }

  /** The status code tag is the status line's text before its first space. */
  lemma StatusCodeIsFirstWord(tags: map<string, Value>)
    ensures ResponseTags(tags, "200 OK", false, NoException, None)["http.status_code"] == Str("200")
    ensures ResponseTags(tags, "200 OK", true, NoException, None)["http.status_code"] == Str("404")
    ensures ResponseTags(tags, "200 OK", false, Raised("HTTPNotFound", "", "", false, ""), None)["http.status_code"] == Str("404")
    ensures ResponseTags(tags, "200 OK", false, Raised("ValueError", "", "", false, ""), Bool(true))["http.status_code"] == Str("200")
  {
    assert UpToFirst("200 OK", ' ') == "200" by {
      assert UpToFirst(" OK", ' ') == [];
    }
    assert UpToFirst("404", ' ') == "404";
    ExampleStatusLines();
  }

  /** The status lines behind StatusCodeIsFirstWord's four requests. */
  lemma ExampleStatusLines()
    ensures ResponseStatus("200 OK", false, NoException, None) == "200 OK"
    ensures ResponseStatus("200 OK", true, NoException, None) == "404"
    ensures ResponseStatus("200 OK", false, Raised("HTTPNotFound", "", "", false, ""), None) == "404"
    ensures ResponseStatus("200 OK", false, Raised("ValueError", "", "", false, ""), Bool(true)) == "200 OK"
  {
    assert !Truthy(None) && Truthy(Bool(true));
    assert Contains("HTTPNotFound", "HTTPNotFound");
  }

  class TraceMiddleware {
    var tracer: Value
    var attributes: Value

    /** TraceMiddleware(tracer, attributes): the global tracer and [] stand in for falsy arguments. */
    constructor (tracer: Value, attributes: Value, globalTracer: Value)
      ensures this.tracer == Or(tracer, globalTracer)
      ensures this.attributes == Or(attributes, List([]))
    {
      this.tracer := Or(tracer, globalTracer);
      this.attributes := Or(attributes, List([]));
    }

    /** process_request(req, resp): start a span named after the path, as a child of the extracted
        context or, when extraction raised, without a parent; tag it; store the scope on the request.
        Iterating the attributes raises TypeError on a non-iterable value or a non-string name,
        and then the scope is not stored. */
    method ProcessRequest(req: Request, extraction: Extraction) returns (r: Result<()>)
      modifies req`scope
      ensures r.Ok? <==> Iterate(attributes).Ok? && forall v :: v in Iterate(attributes).value ==> v.Str?
      ensures r.Err? ==> r.error.TypeError? && req.scope == old(req.scope)
      ensures r.Ok? ==>
        && req.scope != null && fresh(req.scope)
        && req.scope.operationName == req.path
        && req.scope.parent == Parent(extraction) && req.scope.tracer == tracer
        && req.scope.closes == 0
        && req.scope.tags == AttributeTags(RequestTags(req), req, Names(Iterate(attributes).value))
    {
      var scope := new Scope(req.path, Parent(extraction), tracer);
      scope.SetTag("component", Str("Falcon"));
      scope.SetTag("http.method", Str(req.verb));
      scope.SetTag("http.url", Str(UpToFirst(req.uri, '?')));
      scope.SetTag("span.kind", Str("server"));
      var items :- Iterate(attributes);
      var i := 0;
      while i < |items|
        invariant 0 <= i <= |items|
        invariant forall j :: 0 <= j < i ==> items[j].Str?
        invariant scope.tags == AttributeTags(RequestTags(req), req, Names(items[..i]))
        invariant scope.operationName == req.path && scope.closes == 0
        invariant req.scope == old(req.scope)
      {
        if !items[i].Str? {
          return Err(TypeError("attribute name must be string"));
        }
        var value := req.Attribute(items[i].s);
        if Truthy(value) {
          scope.SetTag(items[i].s, value);
        }
        assert Names(items[..i + 1])[..i] == Names(items[..i]);
        i := i + 1;
      }
      assert items[..i] == items;
      req.scope := scope;
      return Ok(());
    }

    /** process_resource(req, resp, resource, params): with a stored scope, tag the resource's
        class name and rename the span to `<Class>.on_<method in lower case>`. */
    method ProcessResource(req: Request, resourceClass: string)
      modifies req.scope
      ensures req.scope != null ==>
        && req.scope.tags == old(req.scope.tags)["falcon.resource" := Str(resourceClass)]
        && req.scope.operationName == resourceClass + ".on_" + Lower(req.verb)
        && req.scope.closes == old(req.scope.closes)
    {
      var scope := req.scope;
      if scope == null {
        return;
      }
      scope.SetTag("falcon.resource", Str(resourceClass));
      scope.SetOperationName(resourceClass + ".on_" + Lower(req.verb));
    }

    /** process_response(req, resp, resource, req_succeeded): with a stored scope, settle the
        status, add the error tags of a server error, tag the status code and close the scope. */
    method ProcessResponse(req: Request, status: string, resourceMissing: bool, exc: ExcInfo, succeeded: Value)
      modifies req.scope
      ensures req.scope != null ==>
        && req.scope.tags == ResponseTags(old(req.scope.tags), status, resourceMissing, exc, succeeded)
        && req.scope.operationName == old(req.scope.operationName)
        && req.scope.closes == old(req.scope.closes) + 1
    {
      var scope := req.scope;
      if scope == null {
        return;
      }
      var s := status;
      if resourceMissing {
        s := "404";
      }
      if exc.Raised? && !Truthy(succeeded) {
        if Contains(exc.typeName, "HTTPNotFound") {
          s := "404";
        } else {
          s := "500";
          TagError(scope, exc);
        }
      }
      scope.SetTag("http.status_code", Str(UpToFirst(s, ' ')));
      scope.Close();
    }
  }

  /** A request goes through the three hooks: the span is renamed after the resource, carries the
      request tags, and is closed exactly once. */
  method HandleRequest(mw: TraceMiddleware, req: Request, extraction: Extraction, resourceClass: string, status: string)
    returns (r: Result<()>)
    requires req.scope == null
    modifies req`scope
    ensures r.Ok? <==> Iterate(mw.attributes).Ok? && forall v :: v in Iterate(mw.attributes).value ==> v.Str?
    ensures r.Ok? ==>
      && req.scope != null && req.scope.closes == 1
      && req.scope.operationName == resourceClass + ".on_" + Lower(req.verb)
      && "falcon.resource" in req.scope.tags && req.scope.tags["falcon.resource"] == Str(resourceClass)
      && "http.status_code" in req.scope.tags && req.scope.tags["http.status_code"] == Str(UpToFirst(status, ' '))
    ensures r.Err? ==> req.scope == null
  {
    r := mw.ProcessRequest(req, extraction);
    if r.Err? {
      return;
    }
    mw.ProcessResource(req, resourceClass);
    ghost var tags := req.scope.tags;
    mw.ProcessResponse(req, status, false, NoException, Bool(true));
    assert req.scope.tags == tags["http.status_code" := Str(UpToFirst(status, ' '))];
  }
}
