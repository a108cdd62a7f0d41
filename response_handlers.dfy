/** The chain of responsibility over HTTP responses (HTTPResponseHandler.java):
    four handlers that each accept one status code (404, 502, 503, 200, the
    codes of sections 15.5.5, 15.6.3, 15.6.4 and 15.3.1 of RFC 9110), a
    default handler that accepts everything and sorts codes into the classes
    of section 15 of RFC 9110, and the builder that links them
    404 -> 502 -> 503 -> 200 -> default.

    Each handler is an object with a mutable `next` link; `Handle` runs the
    first handler along the links that accepts the response. The pure
    functions below say what one handler and a whole chain do to a response
    value; the methods are proved against them. */
module ResponseHandlers {
  import opened Wrappers
  import opened Strings
  import opened HttpResponse
  import opened ErrorPages

  datatype HandlerKind = NotFound | BadGateway | ServiceUnavailable | Success | Default

  /** canHandle of each handler class. */
  predicate CanHandle(k: HandlerKind, status: int) {
    match k
    case NotFound => status == 404
    case BadGateway => status == 502
    case ServiceUnavailable => status == 503
    case Success => status == 200
    case Default => true
  }

  /** The specific handlers accept exactly one code each, no two of them the
      same one, and only the default handler accepts every response. */
  lemma CanHandleExactly(k: HandlerKind, status: int)
    ensures k == NotFound ==> (CanHandle(k, status) <==> status == 404)
    ensures k == BadGateway ==> (CanHandle(k, status) <==> status == 502)
    ensures k == ServiceUnavailable ==> (CanHandle(k, status) <==> status == 503)
    ensures k == Success ==> (CanHandle(k, status) <==> status == 200)
    ensures k == Default ==> CanHandle(k, status)
    ensures forall k' :: CanHandle(k, status) && CanHandle(k', status) && k != k' ==> k == Default || k' == Default
  {
  }

  /** categorizeStatusCode: the status-code classes of section 15 of RFC 9110. */
  function Categorize(status: int): (c: string)
    ensures c == "Success" <==> 200 <= status < 300
    ensures c == "Redirection" <==> 300 <= status < 400
    ensures c == "Client Error" <==> 400 <= status < 500
    ensures c == "Server Error" <==> 500 <= status < 600
    ensures c == "Unknown" <==> status < 200 || 600 <= status
  {
    if 200 <= status < 300 then "Success"
    else if 300 <= status < 400 then "Redirection"
    else if 400 <= status < 500 then "Client Error"
    else if 500 <= status < 600 then "Server Error"
    else "Unknown"
  }

  // ---------------------------------------------------------------------
  // What each handler's processResponse does to a response value

  /** The pages the handlers generate: NotFoundHandler's and
      BadGatewayHandler's fixed pages, ServiceUnavailableHandler's page for a
      Retry-After value, and DefaultHandler's page for a code and category.
      The chain is specified for any pages; `SourcePages` are the texts of
      the source. */
  datatype Pages = Pages(
    notFound: string,
    badGateway: string,
    serviceUnavailable: Option<string> -> string,
    generic: (int, string) -> string)

  /** What the handlers rely on: each generated page names its status code,
      and the generic page names the code with its category. */
  ghost predicate MentionCodes(p: Pages) {
    && Contains(p.notFound, "404")
    && Contains(p.badGateway, "502")
    && (forall retryAfter :: Contains(p.serviceUnavailable(retryAfter), "503"))
    && (forall status, category :: Contains(p.generic(status, category), IntToString(status) + " - " + category))
  }

  /** The texts of HTTPResponseHandler.java. */
  const SourcePages := Pages(NotFoundPage(), BadGatewayPage(), ServiceUnavailablePage, GenericErrorPage)

  lemma SourcePagesMentionCodes()
    ensures MentionCodes(SourcePages)
  {
    assert Contains(NotFoundPage(), "404");
    assert Contains(BadGatewayPage(), "502");
  }

  const NotFoundStamps := map["X-Handled-By" := "NotFoundHandler", "X-Error-Type" := "Client Error"]
  const BadGatewayStamps := map["X-Handled-By" := "BadGatewayHandler", "X-Error-Type" := "Server Error",
                                "X-Retry-Recommended" := "true"]
  const ServiceUnavailableStamps := map["X-Handled-By" := "ServiceUnavailableHandler",
                                        "X-Error-Type" := "Server Error", "X-Retry-Recommended" := "true"]

  function DefaultStamps(status: int): map<string, string> {
    map["X-Handled-By" := "DefaultHandler", "X-Error-Category" := Categorize(status)]
  }

  /** Putting headers twice is putting them once. */
  lemma PutAllIdempotent(h: Headers, stamps: Headers)
    ensures h + stamps + stamps == h + stamps
  {
  }

  /** NotFoundHandler: the body is replaced by the 404 page exactly when it
      does not already mention 404, so afterwards it mentions 404 whenever
      the page does; the two X- headers are put and every other header is
      kept. */
  function ProcessNotFound(r: Resp, pages: Pages): (r': Resp)
    ensures r'.status == r.status
    ensures r'.headers == r.headers + NotFoundStamps
    ensures Contains(r.body, "404") ==> r'.body == r.body
    ensures !Contains(r.body, "404") ==> r'.body == pages.notFound
    ensures Contains(pages.notFound, "404") ==> Contains(r'.body, "404")
  {
    var body := if Contains(r.body, "404") then r.body else pages.notFound;
    Resp(r.status, r.headers["X-Handled-By" := "NotFoundHandler"]["X-Error-Type" := "Client Error"], body)
  }

  /** BadGatewayHandler: as for 404, with the 502 page and three headers. */
  function ProcessBadGateway(r: Resp, pages: Pages): (r': Resp)
    ensures r'.status == r.status
    ensures r'.headers == r.headers + BadGatewayStamps
    ensures Contains(r.body, "502") ==> r'.body == r.body
    ensures !Contains(r.body, "502") ==> r'.body == pages.badGateway
    ensures Contains(pages.badGateway, "502") ==> Contains(r'.body, "502")
  {
    var body := if Contains(r.body, "502") then r.body else pages.badGateway;
    Resp(r.status, r.headers["X-Handled-By" := "BadGatewayHandler"]["X-Error-Type" := "Server Error"]
                            ["X-Retry-Recommended" := "true"], body)
  }

  /** The Retry-After header of a response, if present. */
  function RetryAfter(h: Headers): (v: Option<string>)
    ensures v.Some? <==> "Retry-After" in h
    ensures v.Some? ==> v.value == h["Retry-After"]
  {
    if "Retry-After" in h then Some(h["Retry-After"]) else None
  }

  /** ServiceUnavailableHandler: the generated page is built from the
      response's own Retry-After header, read before the handler's own
      headers are put. */
  function ProcessServiceUnavailable(r: Resp, pages: Pages): (r': Resp)
    ensures r'.status == r.status
    ensures r'.headers == r.headers + ServiceUnavailableStamps
    ensures Contains(r.body, "503") ==> r'.body == r.body
    ensures !Contains(r.body, "503") ==> r'.body == pages.serviceUnavailable(RetryAfter(r.headers))
    ensures Contains(pages.serviceUnavailable(RetryAfter(r.headers)), "503") ==> Contains(r'.body, "503")
  {
    var body := if Contains(r.body, "503") then r.body else pages.serviceUnavailable(RetryAfter(r.headers));
    Resp(r.status, r.headers["X-Handled-By" := "ServiceUnavailableHandler"]["X-Error-Type" := "Server Error"]
                            ["X-Retry-Recommended" := "true"], body)
  }

  /** SuccessHandler: only X-Handled-By is put; status and body are kept. */
  function ProcessSuccess(r: Resp): (r': Resp)
    ensures r'.status == r.status && r'.body == r.body
    ensures r'.headers.Keys == r.headers.Keys + {"X-Handled-By"}
    ensures r'.headers["X-Handled-By"] == "SuccessHandler"
    ensures forall name | name in r.headers && name != "X-Handled-By" :: r'.headers[name] == r.headers[name]
  {
    r.(headers := r.headers["X-Handled-By" := "SuccessHandler"])
  }

  /** DefaultHandler: an error status (400 and up) gets the generic page for
      its code and category, anything below keeps its body; the category
      header is always put. */
  function ProcessDefault(r: Resp, pages: Pages): (r': Resp)
    ensures r'.status == r.status
    ensures r'.headers == r.headers + DefaultStamps(r.status)
    ensures r.status < 400 ==> r'.body == r.body
    ensures r.status >= 400 ==> r'.body == pages.generic(r.status, Categorize(r.status))
  {
    var category := Categorize(r.status);
    var body := if r.status >= 400 then pages.generic(r.status, category) else r.body;
    Resp(r.status, r.headers["X-Handled-By" := "DefaultHandler"]["X-Error-Category" := category], body)
  }

  function Process(k: HandlerKind, r: Resp, pages: Pages): Resp {
    match k
    case NotFound => ProcessNotFound(r, pages)
    case BadGateway => ProcessBadGateway(r, pages)
    case ServiceUnavailable => ProcessServiceUnavailable(r, pages)
    case Success => ProcessSuccess(r)
    case Default => ProcessDefault(r, pages)
  }

  /** After the specific error handlers the body names the status code, and
      after the default handler an error body names the code and category. */
  lemma ProcessedBodyNamesCode(k: HandlerKind, r: Resp, pages: Pages)
    requires MentionCodes(pages)
    ensures k == NotFound ==> Contains(Process(k, r, pages).body, "404")
    ensures k == BadGateway ==> Contains(Process(k, r, pages).body, "502")
    ensures k == ServiceUnavailable ==> Contains(Process(k, r, pages).body, "503")
    ensures k == Default && r.status >= 400 ==>
      Contains(Process(k, r, pages).body, IntToString(r.status) + " - " + Categorize(r.status))
  {
    if k == ServiceUnavailable {
      assert Contains(pages.serviceUnavailable(RetryAfter(r.headers)), "503");
    }
  }

  /** Processing a response twice gives the same result as once: the
      generated pages mention their own code, so the second pass keeps the
      body, and putting the same headers again changes nothing. */
  lemma ProcessIdempotent(k: HandlerKind, r: Resp, pages: Pages)
    requires MentionCodes(pages)
    ensures Process(k, Process(k, r, pages), pages) == Process(k, r, pages)
  {
    var r1 := Process(k, r, pages);
    match k {
      case NotFound => PutAllIdempotent(r.headers, NotFoundStamps);
      case BadGateway => PutAllIdempotent(r.headers, BadGatewayStamps);
      case ServiceUnavailable =>
        assert Contains(pages.serviceUnavailable(RetryAfter(r.headers)), "503");
        PutAllIdempotent(r.headers, ServiceUnavailableStamps);
      case Success =>
        assert r1.headers["X-Handled-By" := "SuccessHandler"] == r1.headers;
      case Default => PutAllIdempotent(r.headers, DefaultStamps(r.status));
    }
  }

  // ---------------------------------------------------------------------
  // A chain of handlers

  datatype Outcome = Outcome(handled: bool, response: Resp)

  /** AbstractHTTPHandler.handle along a chain whose handlers have the given
      kinds, first to last. */
  function RunChain(kinds: seq<HandlerKind>, r: Resp, pages: Pages): Outcome {
    if kinds == [] then Outcome(false, r)
    else if CanHandle(kinds[0], r.status) then Outcome(true, Process(kinds[0], r, pages))
    else RunChain(kinds[1..], r, pages)
  }

  /** Position of the first handler that accepts `status`, or |kinds|. */
  function FirstMatch(kinds: seq<HandlerKind>, status: int): (i: nat)
    ensures i <= |kinds|
    ensures forall j | 0 <= j < i :: !CanHandle(kinds[j], status)
    ensures i < |kinds| ==> CanHandle(kinds[i], status)
  {
    if kinds == [] then 0
    else if CanHandle(kinds[0], status) then 0
    else 1 + FirstMatch(kinds[1..], status)
  }

  /** handle runs exactly one handler, the first that accepts the response,
      and reports true; when none accepts, it reports false and leaves the
      response as it was. */
  lemma {:induction false} RunChainIsFirstMatch(kinds: seq<HandlerKind>, r: Resp, pages: Pages)
    ensures var i := FirstMatch(kinds, r.status);
      RunChain(kinds, r, pages) ==
        if i < |kinds| then Outcome(true, Process(kinds[i], r, pages)) else Outcome(false, r)
    ensures RunChain(kinds, r, pages).handled <==> exists j | 0 <= j < |kinds| :: CanHandle(kinds[j], r.status)
  {
    if kinds != [] {
      RunChainIsFirstMatch(kinds[1..], r, pages);
      if !CanHandle(kinds[0], r.status) {
        forall j | 1 <= j < |kinds| ensures kinds[j] == kinds[1..][j - 1] { }
      }
    }
  }

  /** The order HTTPHandlerChain.buildDefaultChain links. */
  const FullChain := [NotFound, BadGateway, ServiceUnavailable, Success, Default]

  /** The handler of the full chain that a status code reaches. */
  function Dispatch(status: int): HandlerKind {
    if status == 404 then NotFound
    else if status == 502 then BadGateway
    else if status == 503 then ServiceUnavailable
    else if status == 200 then Success
    else Default
  }

  /** The full chain handles every response: the specific handler for 404,
      502, 503 and 200, and the default handler for every other code. */
  lemma FullChainHandlesEverything(r: Resp, pages: Pages)
    ensures RunChain(FullChain, r, pages) == Outcome(true, Process(Dispatch(r.status), r, pages))
  {
    var i := FirstMatch(FullChain, r.status);
    RunChainIsFirstMatch(FullChain, r, pages);
    assert CanHandle(FullChain[4], r.status);
    assert FullChain[i] == Dispatch(r.status);
  }

  // ---------------------------------------------------------------------
  // The handler objects

  class Handler {
    const kind: HandlerKind
    /** The pages this handler's generateErrorPage methods return. */
    const pages: Pages
    var next: Handler?

    /** A handler of the given class, not yet linked to a next one. */
    constructor (kind: HandlerKind, pages: Pages)
      ensures this.kind == kind && this.pages == pages && next == null
    {
      this.kind := kind;
      this.pages := pages;
      next := null;
    }

    /** setNext. */
    method SetNext(n: Handler?)
      modifies this
      ensures next == n
    {
      next := n;
    }

    /** processResponse of this handler's class. */
    method ProcessResponse(resp: Response)
      modifies resp
      ensures resp.Value() == Process(kind, old(resp.Value()), pages)
    {
      match kind {
        case NotFound => ProcessNotFoundResponse(resp);
        case BadGateway => ProcessBadGatewayResponse(resp);
        case ServiceUnavailable => ProcessServiceUnavailableResponse(resp);
        case Success => ProcessSuccessResponse(resp);
        case Default => ProcessDefaultResponse(resp);
      }
    }

    method ProcessNotFoundResponse(resp: Response)
      modifies resp
      ensures resp.Value() == ProcessNotFound(old(resp.Value()), pages)
    {
      if !Contains(resp.body, "404") {
        resp.SetBody(pages.notFound);
      }
      resp.PutHeader("X-Handled-By", "NotFoundHandler");
      resp.PutHeader("X-Error-Type", "Client Error");
    }

    method ProcessBadGatewayResponse(resp: Response)
      modifies resp
      ensures resp.Value() == ProcessBadGateway(old(resp.Value()), pages)
    {
      if !Contains(resp.body, "502") {
        resp.SetBody(pages.badGateway);
      }
      resp.PutHeader("X-Handled-By", "BadGatewayHandler");
      resp.PutHeader("X-Error-Type", "Server Error");
      resp.PutHeader("X-Retry-Recommended", "true");
    }

    method ProcessServiceUnavailableResponse(resp: Response)
      modifies resp
      ensures resp.Value() == ProcessServiceUnavailable(old(resp.Value()), pages)
    {
      var retryAfter := if "Retry-After" in resp.headers then Some(resp.headers["Retry-After"]) else None;
      if !Contains(resp.body, "503") {
        resp.SetBody(pages.serviceUnavailable(retryAfter));
      }
      resp.PutHeader("X-Handled-By", "ServiceUnavailableHandler");
      resp.PutHeader("X-Error-Type", "Server Error");
      resp.PutHeader("X-Retry-Recommended", "true");
    }

    method ProcessSuccessResponse(resp: Response)
      modifies resp
      ensures resp.Value() == ProcessSuccess(old(resp.Value()))
    {
      resp.PutHeader("X-Handled-By", "SuccessHandler");
    }

    method ProcessDefaultResponse(resp: Response)
      modifies resp
      ensures resp.Value() == ProcessDefault(old(resp.Value()), pages)
    {
      var statusCode := resp.statusCode;
      var category := Categorize(statusCode);
      if statusCode >= 400 {
        resp.SetBody(pages.generic(statusCode, category));
      }
      resp.PutHeader("X-Handled-By", "DefaultHandler");
      resp.PutHeader("X-Error-Category", category);
    }

    /** handle: process here when this handler accepts the response,
        otherwise pass it on; false when the chain runs out. `nodes` lists
        the handlers reachable from this one, this one at position `i`. */
    method Handle(resp: Response, ghost nodes: seq<Handler>, ghost i: nat) returns (handled: bool)
      requires Linked(nodes) && i < |nodes| && nodes[i] == this
      modifies resp
      decreases |nodes| - i
      ensures Outcome(handled, resp.Value()) == RunChain(KindsOf(nodes)[i..], old(resp.Value()), pages)
    {
      assert KindsOf(nodes)[i..][0] == kind;
      if CanHandle(kind, resp.statusCode) {
        ProcessResponse(resp);
        handled := true;
      } else if next != null {
        assert KindsOf(nodes)[i..][1..] == KindsOf(nodes)[i + 1..];
        handled := next.Handle(resp, nodes, i + 1);
      } else {
        handled := false;
      }
    }
  }

  /** `nodes` is a chain of handlers linked by `next`, the last one without
      a successor, all generating the same pages. */
  ghost predicate Linked(nodes: seq<Handler>)
    reads nodes
  {
    && (forall i | 0 <= i < |nodes| - 1 :: nodes[i].next == nodes[i + 1])
    && (|nodes| > 0 ==> nodes[|nodes| - 1].next == null)
    && (forall i | 0 <= i < |nodes| :: nodes[i].pages == nodes[0].pages)
  }

  /** The kinds of the handlers of a chain, first to last. */
  function KindsOf(nodes: seq<Handler>): (kinds: seq<HandlerKind>)
    ensures |kinds| == |nodes|
    ensures forall i | 0 <= i < |nodes| :: kinds[i] == nodes[i].kind
  {
    seq(|nodes|, i requires 0 <= i < |nodes| => nodes[i].kind)
  }

  /** HTTPHandlerChain of HTTPResponseHandler.java: five handlers, the
      default one last. */
  class HandlerChain {
    /** The pages the handler classes of the default chain generate. */
    const pages: Pages
    var firstHandler: Handler?
    /** The handlers reachable from the first one, in order. */
    ghost var Nodes: seq<Handler>

    ghost predicate Valid()
      reads this, Nodes
    {
      && (firstHandler == null <==> Nodes == [])
      && (firstHandler != null ==> Nodes[0] == firstHandler && Linked(Nodes))
    }

    /** The pages of the chain's handlers. */
    ghost function Texts(): Pages
      reads this
    {
      if firstHandler == null then pages else firstHandler.pages
    }

    /** A new chain is the default chain, with the source's pages. */
    constructor ()
      ensures Valid() && KindsOf(Nodes) == FullChain && Texts() == SourcePages
    {
      pages := SourcePages;
      firstHandler := null;
      Nodes := [];
      new;
      BuildDefaultChain();
    }

    /** buildDefaultChain: five fresh handlers linked 404 -> 502 -> 503 ->
        200 -> default. */
    method BuildDefaultChain()
      modifies this
      ensures Valid() && KindsOf(Nodes) == FullChain && Texts() == pages
      ensures forall h | h in Nodes :: fresh(h)
    {
      var notFoundHandler := new Handler(NotFound, pages);
      var badGatewayHandler := new Handler(BadGateway, pages);
      var serviceUnavailableHandler := new Handler(ServiceUnavailable, pages);
      var successHandler := new Handler(Success, pages);
      var defaultHandler := new Handler(Default, pages);

      notFoundHandler.SetNext(badGatewayHandler);
      badGatewayHandler.SetNext(serviceUnavailableHandler);
      serviceUnavailableHandler.SetNext(successHandler);
      successHandler.SetNext(defaultHandler);

      firstHandler := notFoundHandler;
      Nodes := [notFoundHandler, badGatewayHandler, serviceUnavailableHandler, successHandler, defaultHandler];
      forall i | 0 <= i < |Nodes| - 1
        ensures Nodes[i].next == Nodes[i + 1]
      {
        if i == 0 {} else if i == 1 {} else if i == 2 {} else {}
      }
      assert KindsOf(Nodes) == FullChain;
    }

    /** process: false, with the response untouched, when there is no first
        handler; otherwise whatever the chain's handle reports. */
    method Process(resp: Response) returns (handled: bool)
      requires Valid()
      modifies resp
      ensures Outcome(handled, resp.Value()) == RunChain(KindsOf(Nodes), old(resp.Value()), Texts())
      ensures firstHandler == null ==> !handled && resp.Value() == old(resp.Value())
    {
      if firstHandler == null {
        return false;
      }
      assert KindsOf(Nodes)[0..] == KindsOf(Nodes);
      handled := firstHandler.Handle(resp, Nodes, 0);
    }

    /** setFirstHandler: replace the whole chain, or unset it with null.
        `nodes` lists the handlers reachable from the new first one. */
    method SetFirstHandler(handler: Handler?, ghost nodes: seq<Handler>)
      requires handler != null ==> Linked(nodes) && |nodes| > 0 && nodes[0] == handler
      modifies this
      ensures firstHandler == handler && Valid()
      ensures Nodes == if handler == null then [] else nodes
    {
      firstHandler := handler;
      Nodes := if handler == null then [] else nodes;
    }
  }
}
