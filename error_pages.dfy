/** The HTML pages the handlers of HTTPResponseHandler.java generate, with
    the Java text blocks' incidental indentation removed. Each page starts
    with its status code in the title; the 503 page carries the server's
    Retry-After value (section 10.2.3 of RFC 9110) when there is one. */
module ErrorPages {
  import opened Wrappers
  import opened Strings


  function PageHead(): string {
    "<!DOCTYPE html>\n" + "<html>\n" + "<head>\n" + "    <title>"
  }

  function PageStyle(color: string): string {
    "    <style>\n"
    + "        body { font-family: Arial; " + "text-align: center; padding: 50px; }\n"
    + "        h1 { color: " + color + "; }\n"
    + "    </style>\n" + "</head>\n" + "<body>\n"
  }

  function PageFoot(): string {
    "</body>\n" + "</html>\n"
  }

  /** Every generated page starts with its status code in the title. */
  function ErrorPage(code: string, rest: string): (page: string)
    ensures Contains(page, code)
  {
    ContainsInfix(PageHead(), code, rest);
    PageHead() + code + rest
  }

  /** NotFoundHandler.generateErrorPage. */
  function NotFoundPage(): string {
    ErrorPage("404", " - Not Found</title>\n" + PageStyle("#e74c3c")
      + "    <h1>404 - Page Not Found</h1>\n"
      + "    <p>The page you are looking for " + "does not exist.</p>\n"
      + PageFoot())
  }

  /** BadGatewayHandler.generateErrorPage. */
  function BadGatewayPage(): string {
    ErrorPage("502", " - Bad Gateway</title>\n" + PageStyle("#f39c12")
      + "    <h1>502 - Bad Gateway</h1>\n"
      + "    <p>The server received an invalid response. " + "Please try again later.</p>\n"
      + PageFoot())
  }

  /** The retry sentence of the 503 page: the server's Retry-After value
      (section 10.2.3 of RFC 9110) when the response carries one. */
  function RetryMessage(retryAfter: Option<string>): (m: string)
    ensures retryAfter.Some? ==> Contains(m, "try again in " + retryAfter.value + " seconds")
    ensures retryAfter.None? ==> Contains(m, "try again in a few moments")
  {
    match retryAfter
    case Some(seconds) =>
      ContainsInfix("<p>Please ", "try again in " + seconds + " seconds", ".</p>");
      "<p>Please " + ("try again in " + seconds + " seconds") + ".</p>"
    case None =>
      ContainsInfix("<p>Please ", "try again in a few moments", ".</p>");
      "<p>Please " + "try again in a few moments" + ".</p>"
  }

  /** The 503 page up to the retry sentence; the sentence follows the
      indentation of the closing text-block delimiter and is not followed by
      a line break of its own. */
  function ServiceUnavailableText(): string {
    " - Service Unavailable</title>\n" + PageStyle("#e67e22")
      + "    <h1>503 - Service Unavailable</h1>\n"
      + "    <p>The server is temporarily unavailable.</p>\n"
      + "    "
  }

  /** The 503 page names the Retry-After value when there is one, and asks
      to retry in a few moments otherwise. */
  function ServiceUnavailablePage(retryAfter: Option<string>): (page: string)
    ensures Contains(page, "503")
    ensures retryAfter.Some? ==> Contains(page, "try again in " + retryAfter.value + " seconds")
    ensures retryAfter.None? ==> Contains(page, "try again in a few moments")
  {
    var message := RetryMessage(retryAfter);
    var sub := if retryAfter.Some? then "try again in " + retryAfter.value + " seconds"
               else "try again in a few moments";
    ContainsAppendRight(ServiceUnavailableText(), message, sub);
    ContainsAppendLeft(ServiceUnavailableText() + message, PageFoot(), sub);
    ContainsAppendRight(PageHead() + "503", ServiceUnavailableText() + message + PageFoot(), sub);
    ErrorPage("503", ServiceUnavailableText() + message + PageFoot())
  }

  /** DefaultHandler's page names the status code and, in its heading, the
      code with its category. */
  function GenericErrorPage(status: int, category: string): (page: string)
    ensures Contains(page, IntToString(status))
    ensures Contains(page, IntToString(status) + " - " + category)
  {
    var code := IntToString(status);
    var title := " - Error</title>\n" + PageStyle("#95a5a6") + "    <h1>";
    var tail := "</h1>\n"
      + "    <p>An error occurred while processing " + "your request.</p>\n"
      + PageFoot();
    ContainsInfix(title, code + " - " + category, tail);
    ContainsAppendRight(PageHead() + code, title + (code + " - " + category) + tail, code + " - " + category);
    ErrorPage(code, title + (code + " - " + category) + tail)
  }
}
