/** The HTTP response record shared by the handler chain and the local web
    server (HTTPResponse.java): a status code, a header map and a body, all
    three replaced in place by setters, plus the two report-only checks
    handleRedirect and handleError. */
module HttpResponse {
  import opened Strings

  type Headers = map<string, string>

  /** The value of a response at one moment. */
  datatype Resp = Resp(status: int, headers: Headers, body: string)

  /** What handleRedirect reports. */
  datatype RedirectReport =
    | NotRedirect
    | RedirectTo(location: string)
    | RedirectWithoutLocation(code: int)

  /** What handleError reports, and on which stream. */
  datatype ErrorReport =
    | NoErrorReport
    | ClientErrorReport(code: int, message: string)
    | ServerErrorReport(code: int, message: string)

  /** getErrorMessage: a reason phrase for the three codes the browser
      handles specially, "Unknown Error" for every other code. */
  function ErrorMessage(code: int): (m: string)
    ensures code == 404 <==> m == "Not Found"
    ensures code == 502 <==> m == "Bad Gateway"
    ensures code == 503 <==> m == "Service Unavailable"
    ensures code != 404 && code != 502 && code != 503 <==> m == "Unknown Error"
  {
    match code
    case 404 => "Not Found"
    case 502 => "Bad Gateway"
    case 503 => "Service Unavailable"
    case _ => "Unknown Error"
  }

  class Response {
    var statusCode: int
    var headers: Headers
    var body: string

    function Value(): Resp
      reads this
    {
      Resp(statusCode, headers, body)
    }

    /** A new response has status 0, no headers and an empty body. */
    constructor ()
      ensures Value() == Resp(0, map[], "")
    {
      statusCode := 0;
      headers := map[];
      body := "";
    }

    method SetStatusCode(code: int)
      modifies this
      ensures Value() == old(Value()).(status := code)
    {
      statusCode := code;
    }

    method SetHeaders(h: Headers)
      modifies this
      ensures Value() == old(Value()).(headers := h)
    {
      headers := h;
    }

    method SetBody(b: string)
      modifies this
      ensures Value() == old(Value()).(body := b)
    {
      body := b;
    }

    /** getHeaders().put(name, value): the header map is shared with the
        caller, so a put updates this response's map in place. */
    method PutHeader(name: string, value: string)
      modifies this
      ensures Value() == old(Value()).(headers := old(headers)[name := value])
    {
      headers := headers[name := value];
    }

    /** handleRedirect: only a 3xx status is a redirect, and it is reported
        with its Location header when there is one. */
    function HandleRedirect(): (r: RedirectReport)
      reads this
      ensures r.NotRedirect? <==> !(300 <= statusCode < 400)
      ensures r.RedirectTo? <==> 300 <= statusCode < 400 && "Location" in headers
      ensures r.RedirectTo? ==> r.location == headers["Location"]
      ensures r.RedirectWithoutLocation? ==> r.code == statusCode
    {
      if 300 <= statusCode < 400 then
        if "Location" in headers then RedirectTo(headers["Location"])
        else RedirectWithoutLocation(statusCode)
      else NotRedirect
    }

    /** handleError: 4xx is a client error, every status from 500 up a
        server error, and nothing below 400 is reported. */
    function HandleError(): (r: ErrorReport)
      reads this
      ensures r.NoErrorReport? <==> statusCode < 400
      ensures r.ClientErrorReport? <==> 400 <= statusCode < 500
      ensures r.ServerErrorReport? <==> 500 <= statusCode
      ensures !r.NoErrorReport? ==> r.code == statusCode && r.message == ErrorMessage(statusCode)
    {
      if 400 <= statusCode < 500 then ClientErrorReport(statusCode, ErrorMessage(statusCode))
      else if 500 <= statusCode then ServerErrorReport(statusCode, ErrorMessage(statusCode))
      else NoErrorReport
    }
  }
}
