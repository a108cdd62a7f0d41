# WebBrowserProxy / WebBrowser core, modelled in Dafny

This project models the logic of a small Java web browser with a proxy
layer and a peer-to-peer node. It covers five sequential components:

- **HTTP response handler chain.** A chain of responsibility over an HTTP
  response with a status code, a header map and a body. Four handlers
  each accept one status code: 404, 502, 503 and 200 (sections 15.5.5,
  15.6.3, 15.6.4 and 15.3.1 of RFC 9110). A default handler accepts every
  code and sorts it into the status-code classes of section 15 of
  RFC 9110.
  - `HTTPResponseHandler.java` links all five handlers.
  - The browser's own `HTTPHandlerChain.java` links only the first four.
  - Each handler is a `Handler` object with a mutable `next` link. `Handle`
    is proved against the pure `RunChain`, and each `processResponse`
    method is proved against a pure function on response values.
- **The local web server.** `WebServer.processRequest` answers 200 with
  the first page's HTML when the URL contains a registered resource name,
  and a fixed 404 page otherwise. Its two loops are proved against the
  function `Answer`.
- **Resources and pages.**
  - `ResourceFactory` classifies files by extension, ignoring case.
  - Six adapter classes present the files through one interface. They are
    modelled as one datatype, because none of them changes state.
  - `WebPage` keeps a list of all resources and one list per kind.
    `parseHTML` refills these lists from the paths the regular
    expressions match; those paths are inputs of the model.
- **Resource size accounting.** `ResourceSizeCalculatorVisitor` has nine
  counters. Each visit updates them, and `reset` sets them back to zero.
- **The P2P node as a sequential state machine.**
  - `P2PNode` has a running flag, two maps keyed by peer id and a listener
    list.
  - `PeerInfo` and `P2PMessage` are classes with setters and a rendered
    `toString`.
  - Sockets are handles with a `closed` flag and a record of what was
    written to them.
  - Times, the UUID, the local address, and the outcome of binding,
    connecting and writing are parameters.

Four behaviours of the code that a reader might not expect:

- No message refreshes a peer's `lastSeen`.
- `connectToPeer` does not register the remote peer on the calling side.
- The heartbeat sweep removes a peer only by the age of its `lastSeen`, not
  because its connection is closed.
- DISCOVER, REQUEST_PAGE and SYNC_REQUEST fall to the default branch of the
  dispatch switch and change nothing.

The browser's `HTTPHandlerChain` logs that it built a chain ending in the
default handler, but it links only four handlers. The model follows the
links, so `process` reports false for every other status.

In `DefaultHandler.generateGenericErrorPage` (HTTPResponseHandler.java:355-372),
the text block that closes the title is not valid Java. The model uses the
evident text, `"<code> - Error</title>"`.

## Model

| member | source | states |
|---|---|---|
| ResponseHandlers.CanHandleExactly | WebBrowserProxy/src/HTTPResponseHandler.java:90-92 | The 404, 502, 503 and 200 handlers accept exactly their own code, and the default handler accepts every code; no two specific handlers accept the same code. |
| ResponseHandlers.Categorize | WebBrowserProxy/src/HTTPResponseHandler.java:334-346 | Each of the five categories holds exactly on its range: [200,300) Success, [300,400) Redirection, [400,500) Client Error, [500,600) Server Error, and Unknown below 200 or from 600 up. |
| ResponseHandlers.ProcessNotFound | WebBrowserProxy/src/HTTPResponseHandler.java:122-134 | The status is kept. The body is replaced by the 404 page exactly when it lacks "404". X-Handled-By=NotFoundHandler and X-Error-Type=Client Error are put over the old headers, which are otherwise kept. |
| ResponseHandlers.ProcessBadGateway | WebBrowserProxy/src/main/java/org/example/webbrowser/BadGatewayHandler.java:17-31 | The body is replaced by the 502 page exactly when it lacks "502". The three X- headers are put, and every other header and the status are kept. |
| ResponseHandlers.RetryAfter | WebBrowserProxy/src/HTTPResponseHandler.java:243 | The Retry-After value is present exactly when the header is, and is that header's value. |
| ResponseHandlers.ProcessServiceUnavailable | WebBrowserProxy/src/HTTPResponseHandler.java:237-256 | The body is replaced by the 503 page, built from the response's own Retry-After header, exactly when it lacks "503". The three X- headers are put, and the status and other headers are kept. |
| ResponseHandlers.ProcessSuccess | WebBrowserProxy/src/main/java/org/example/webbrowser/chain/SuccessHandler.java:19-21 | Status and body are unchanged. The only header added or changed is X-Handled-By=SuccessHandler. |
| ResponseHandlers.ProcessDefault | WebBrowserProxy/src/HTTPResponseHandler.java:308-325 | The body becomes the generic page for the code and its category exactly when the status is at least 400. X-Handled-By=DefaultHandler and X-Error-Category are always put. |
| ResponseHandlers.SourcePagesMentionCodes | WebBrowserProxy/src/HTTPResponseHandler.java:142-159 | The source's 404, 502 and 503 pages contain their code, and the generic page contains "code - category". |
| ResponseHandlers.PutAllIdempotent | WebBrowserProxy/src/HTTPResponseHandler.java:131-133 | Putting the same headers twice gives the same map as putting them once. |
| ResponseHandlers.ProcessedBodyNamesCode | WebBrowserProxy/src/HTTPResponseHandler.java:128-131 | After a specific error handler the body names its code. After the default handler, an error body names the code with its category. |
| ResponseHandlers.ProcessIdempotent | WebBrowserProxy/src/main/java/org/example/webbrowser/BadGatewayHandler.java:23-30 | For every handler, processing a response twice gives the same response as processing it once. |
| ResponseHandlers.FirstMatch | WebBrowserProxy/src/HTTPResponseHandler.java:51-59 | The position of the first handler that accepts the status: no earlier handler accepts it. |
| ResponseHandlers.RunChainIsFirstMatch | WebBrowserProxy/src/HTTPResponseHandler.java:51-59 | handle runs exactly the first accepting handler and reports true. When no handler accepts, it reports false and the response is unchanged. It reports true iff some handler accepts. |
| ResponseHandlers.FullChainHandlesEverything | WebBrowserProxy/src/HTTPResponseHandler.java:409-415 | The five-handler chain handles every status: the specific handler for 404, 502, 503 and 200, and the default handler for any other code. |
| ResponseHandlers.KindsOf | WebBrowserProxy/src/HTTPResponseHandler.java:409-412 | The kinds of a chain's handlers, in link order. |
| ResponseHandlers.Handler.constructor | WebBrowserProxy/src/HTTPResponseHandler.java:402-406 | A new handler has the given class and no successor. |
| ResponseHandlers.Handler.SetNext | WebBrowserProxy/src/HTTPResponseHandler.java:46-48 | setNext stores the successor. |
| ResponseHandlers.Handler.ProcessResponse | WebBrowserProxy/src/HTTPResponseHandler.java:52-54 | The response becomes what this handler class's processResponse makes of it. |
| ResponseHandlers.Handler.ProcessNotFoundResponse | WebBrowserProxy/src/HTTPResponseHandler.java:122-134 | NotFoundHandler.processResponse in place, proved equal to ProcessNotFound. |
| ResponseHandlers.Handler.ProcessBadGatewayResponse | WebBrowserProxy/src/HTTPResponseHandler.java:179-192 | BadGatewayHandler.processResponse in place, proved equal to ProcessBadGateway. |
| ResponseHandlers.Handler.ProcessServiceUnavailableResponse | WebBrowserProxy/src/HTTPResponseHandler.java:237-256 | ServiceUnavailableHandler.processResponse in place, proved equal to ProcessServiceUnavailable. |
| ResponseHandlers.Handler.ProcessSuccessResponse | WebBrowserProxy/src/main/java/org/example/webbrowser/SuccessHandler.java:17-24 | SuccessHandler.processResponse in place, proved equal to ProcessSuccess. |
| ResponseHandlers.Handler.ProcessDefaultResponse | WebBrowserProxy/src/HTTPResponseHandler.java:308-325 | DefaultHandler.processResponse in place, proved equal to ProcessDefault. |
| ResponseHandlers.Handler.Handle | WebBrowserProxy/src/HTTPResponseHandler.java:51-59 | Walking the `next` links from this handler gives the outcome RunChain gives for the rest of the chain. |
| ResponseHandlers.HandlerChain.constructor | WebBrowserProxy/src/HTTPResponseHandler.java:392-394 | A new chain is linked 404 -> 502 -> 503 -> 200 -> default, with the source's pages. |
| ResponseHandlers.HandlerChain.BuildDefaultChain | WebBrowserProxy/src/HTTPResponseHandler.java:400-415 | Five fresh handlers are linked in that order, and the first one becomes the chain's first handler. |
| ResponseHandlers.HandlerChain.Process | WebBrowserProxy/src/HTTPResponseHandler.java:427-443 | With no first handler: false, and the response is untouched. Otherwise: the outcome of RunChain over the linked handlers. |
| ResponseHandlers.HandlerChain.SetFirstHandler | WebBrowserProxy/src/HTTPResponseHandler.java:460-462 | The chain starts at the given handler, or is empty after null. |
| HttpHandlerChain.ProxyChainHandlesFourCodes | WebBrowserProxy/src/main/java/org/example/webbrowser/HTTPHandlerChain.java:25-41 | The four-handler chain handles a response iff its status is 404, 502, 503 or 200, and then with that code's handler. Any other status comes back unhandled and unchanged. |
| HttpHandlerChain.HandlerChain.constructor | WebBrowserProxy/src/main/java/org/example/webbrowser/HTTPHandlerChain.java:17-19 | A new chain is linked 404 -> 502 -> 503 -> 200, with no default handler. |
| HttpHandlerChain.HandlerChain.BuildDefaultChain | WebBrowserProxy/src/main/java/org/example/webbrowser/HTTPHandlerChain.java:25-42 | Four fresh handlers are linked in that order; the last one has no successor. |
| HttpHandlerChain.HandlerChain.Process | WebBrowserProxy/src/main/java/org/example/webbrowser/HTTPHandlerChain.java:50-66 | With no first handler: false, and the response is untouched. Otherwise: the outcome of RunChain over the four linked handlers. |
| HttpResponse.ErrorMessage | WebBrowserProxy/src/main/java/org/example/webbrowser/HTTPResponse.java:60-67 | Each phrase appears exactly for its code: 404 Not Found, 502 Bad Gateway, 503 Service Unavailable. "Unknown Error" appears exactly for every other code. |
| HttpResponse.Response.constructor | WebBrowserProxy/src/main/java/org/example/webbrowser/HTTPResponse.java:11-15 | A new response has status 0, no headers and an empty body. |
| HttpResponse.Response.SetStatusCode | WebBrowserProxy/src/main/java/org/example/webbrowser/HTTPResponse.java:21-23 | Only the status changes. |
| HttpResponse.Response.SetHeaders | WebBrowserProxy/src/main/java/org/example/webbrowser/HTTPResponse.java:29-31 | Only the header map changes. |
| HttpResponse.Response.SetBody | WebBrowserProxy/src/main/java/org/example/webbrowser/HTTPResponse.java:37-39 | Only the body changes. |
| HttpResponse.Response.PutHeader | WebBrowserProxy/src/main/java/org/example/webbrowser/HTTPResponse.java:25-27 | A put on the map getHeaders returns updates this response's headers in place; only that key changes. |
| HttpResponse.Response.HandleRedirect | WebBrowserProxy/src/main/java/org/example/webbrowser/HTTPResponse.java:41-50 | A redirect is reported exactly for 300..399: with the Location value when that header is present, and without it otherwise. |
| HttpResponse.Response.HandleError | WebBrowserProxy/src/main/java/org/example/webbrowser/HTTPResponse.java:52-58 | The client branch is taken exactly for 400..499, the server branch exactly from 500 up, and nothing below 400. Each report carries the code and getErrorMessage of it. |
| ErrorPages.ErrorPage | WebBrowserProxy/src/HTTPResponseHandler.java:142-147 | Every generated page contains its status code. |
| ErrorPages.RetryMessage | WebBrowserProxy/src/HTTPResponseHandler.java:265-268 | With a Retry-After value the sentence names it in seconds; without one it says "a few moments". |
| ErrorPages.ServiceUnavailablePage | WebBrowserProxy/src/HTTPResponseHandler.java:265-287 | The 503 page contains "503", and the Retry-After value when there is one, or the generic sentence otherwise. |
| ErrorPages.GenericErrorPage | WebBrowserProxy/src/HTTPResponseHandler.java:355-372 | The generic page contains the code, and the code followed by " - " and the category. |
| LocalWebServer.AppendedText | WebBrowser/src/main/java/org/example/webbrowser/WebServer.java:73 | StringBuilder.append adds a file's text, or "null" for a null content. |
| LocalWebServer.Answer | WebBrowser/src/main/java/org/example/webbrowser/WebServer.java:50-80 | The answer is 200 iff a registered name occurs in the URL and there is a page; otherwise 404. On 200: Content-Type and Server=host, with the page's HTML contents as body. On 404: only Content-Type, with the fixed not-found page. |
| LocalWebServer.JoinContentsAppend | WebBrowser/src/main/java/org/example/webbrowser/WebServer.java:71-75 | The body of several files is the concatenation of the parts' bodies, in order. |
| LocalWebServer.JoinContentsHasEveryFile | WebBrowser/src/main/java/org/example/webbrowser/WebServer.java:72-74 | Every HTML file's text appears in the served body. |
| LocalWebServer.NoResourcesNotFound | WebBrowser/src/main/java/org/example/webbrowser/WebServer.java:53-58 | With no registered resources every request gets 404. |
| LocalWebServer.NamedResourceIsServed | WebBrowser/src/main/java/org/example/webbrowser/WebServer.java:61-63 | Whichever registered name the URL contains, the first page is served. |
| LocalWebServer.MoreResourcesStillServed | WebBrowser/src/main/java/org/example/webbrowser/WebServer.java:32-34 | Registering more names never changes the answer to a request that was already served. |
| LocalWebServer.EmptyNameMatchesEverything | WebBrowser/src/main/java/org/example/webbrowser/WebServer.java:54 | An empty registered name is contained in every URL, so every request is served once there is a page. |
| LocalWebServer.WebServer.FirstPage | WebBrowser/src/main/java/org/example/webbrowser/WebServer.java:61-63 | There is a page to serve iff the page list is non-empty, and it is the first page's HTML files. |
| LocalWebServer.WebServer.constructor | WebBrowser/src/main/java/org/example/webbrowser/WebServer.java:14-18 | A new server has the given host and no resources or pages. |
| LocalWebServer.WebServer.SetHost | WebBrowser/src/main/java/org/example/webbrowser/WebServer.java:24-26 | Only the host changes. |
| LocalWebServer.WebServer.AddResource | WebBrowser/src/main/java/org/example/webbrowser/WebServer.java:32-34 | The name is appended to the end of the list; the host and pages are unchanged. |
| LocalWebServer.WebServer.AddPage | WebBrowser/src/main/java/org/example/webbrowser/WebServer.java:40-42 | The page is appended to the end of the list; the host and resources are unchanged. |
| LocalWebServer.WebServer.ProcessRequest | WebBrowser/src/main/java/org/example/webbrowser/WebServer.java:45-83 | A fresh response equal to Answer for the server's resources, first page and host. The server is not modified. |
| Resources.FileName | WebBrowserProxy/src/main/java/org/example/webbrowser/CSSFileAdapter.java:18-20 | getFileName of every adapter is the wrapped object's name. |
| Resources.FilePath | WebBrowserProxy/src/main/java/org/example/webbrowser/JSFileAdapter.java:23-25 | getFilePath of every adapter is the wrapped object's path. |
| Resources.ResourceType | WebBrowserProxy/src/main/java/org/example/webbrowser/HTMLFileAdapter.java:28-30 | The type is "CSS", "JS", "HTML" or "IMAGE" exactly for the CSS, JS, HTML and image adapters respectively. |
| Resources.Content | WebBrowserProxy/src/main/java/org/example/webbrowser/ImageResourceAdapter.java:38-41 | getContent is the wrapped content for the file adapters and the visitor package's image adapter. The webbrowser package's image adapter returns the metadata text. |
| Resources.ImageDescription | WebBrowserProxy/src/main/java/org/example/webbrowser/ImageResourceAdapter.java:40 | The metadata text names the image's file name and its path. |
| Resources.IsLoaded | WebBrowserProxy/src/main/java/org/example/webbrowser/factory_template/HTMLFileAdapter.java:45-47 | A file adapter is loaded iff its content is non-null and non-empty. The webbrowser package's image adapter is never loaded. The visitor package's image adapter asks the image. |
| Resources.Accept | WebBrowserProxy/src/main/java/org/example/webbrowser/visitor/ImageResourceAdapter.java:53-58 | The factory_template HTML adapter visits its wrapped file, and the model takes the CSS, JS and webbrowser HTML adapters to do the same. The webbrowser package's image adapter visits nothing. The visitor package's image adapter visits the image exactly when it is an ImageProxy. |
| Resources.AcceptVisitsWrapped | WebBrowserProxy/src/main/java/org/example/webbrowser/factory_template/HTMLFileAdapter.java:53-55 | What accept hands to the visitor is the wrapped object itself: the same name, path and content the adapter reports. |
| ResourceFactory.FileExtension | WebBrowserProxy/src/main/java/org/example/webbrowser/factory_template/ResourceFactory.java:63-69 | The extension is empty iff the name's last dot is the first or last character or absent. Otherwise it is exactly the text after that dot, and it holds no dot. |
| ResourceFactory.ExtensionAtLastDot | WebBrowserProxy/src/main/java/org/example/webbrowser/factory_template/ResourceFactory.java:64-65 | A name has an extension iff lastIndexOf('.') lies strictly inside it. |
| ResourceFactory.ExtensionAfterLastDot | WebBrowserProxy/src/main/java/org/example/webbrowser/factory_template/ResourceFactory.java:66 | The extension is the suffix after the last dot, wherever that dot is. |
| ResourceFactory.ExtensionOfLowerCase | WebBrowserProxy/src/main/java/org/example/webbrowser/factory_template/ResourceFactory.java:25 | The extension of the lower-cased name is the lower-cased extension. |
| ResourceFactory.HasExtensionIgnoresCase | WebBrowserProxy/src/main/java/org/example/webbrowser/factory_template/ResourceFactory.java:25 | A name has an extension iff its lower-cased form has one. |
| ResourceFactory.CreateResource | WebBrowserProxy/src/main/java/org/example/webbrowser/factory_template/ResourceFactory.java:20-55 | The kind is chosen from the lower-cased extension: JS iff "js"; image iff one of the seven image extensions; HTML iff "html" or "htm"; CSS iff none of these, so unknown and missing extensions also give CSS. The name and path are kept, the result is not loaded, HTML content is "", and images are proxies. |
| ResourceFactory.IsImageAgreesWithFactory | WebBrowserProxy/src/main/java/org/example/webbrowser/factory_template/ResourceFactory.java:77-82 | isImage holds iff createResource makes an IMAGE resource of the name. |
| ResourceFactory.CreateResourceIgnoresCase | WebBrowserProxy/src/main/java/org/example/webbrowser/factory_template/ResourceFactory.java:25 | A name and its lower-cased form give the same resource type and the same isImage answer. |
| WebPages.ExtractFileName | WebBrowserProxy/src/main/java/org/example/webbrowser/WebPage.java:207-210 | The result holds no '/'. It is the whole path when the path has no '/', and otherwise exactly the suffix after the last '/'. |
| WebPages.ExtractFileNameOfJoinedPath | WebBrowserProxy/src/main/java/org/example/webbrowser/WebPage.java:207-210 | For any directory, dir + "/" + name yields name. |
| WebPages.Extracted | WebBrowserProxy/src/main/java/org/example/webbrowser/WebPage.java:110-120 | One resource per match. |
| WebPages.ExtractedKeepsPaths | WebBrowserProxy/src/main/java/org/example/webbrowser/WebPage.java:111-114 | Each extracted resource has the matched path as its path and the path's last segment as its name. |
| WebPages.IndexHtmlIsHtml | WebBrowserProxy/src/main/java/org/example/webbrowser/WebPage.java:148 | The factory makes an HTML resource with empty content of "index.html". |
| WebPages.ParsedResourcesOrder | WebBrowserProxy/src/main/java/org/example/webbrowser/WebPage.java:78-96 | The resources are listed as CSS matches, then JS matches, then image matches, each in match order. The last resource is the HTML resource "index.html", whose content is the raw HTML. |
| WebPages.ListsOfAppend | WebBrowserProxy/src/main/java/org/example/webbrowser/WebPage.java:132-142 | Appending a resource extends each per-kind list by that resource's entry for the kind. |
| WebPages.ListsPartition | WebBrowserProxy/src/main/java/org/example/webbrowser/WebPage.java:132-142 | Every resource is filed in exactly one per-kind list. |
| WebPages.LoadableSkipsImages | WebBrowserProxy/src/main/java/org/example/webbrowser/WebPage.java:175-187 | The loaded count plus the number of images is the number of resources. |
| WebPages.VisitsCount | WebBrowserProxy/src/main/java/org/example/webbrowser/WebPage.java:217-221 | No resource is visited more than once, and when every resource accepts, every resource is visited. |
| WebPages.WebPage.constructor | WebBrowserProxy/src/main/java/org/example/webbrowser/WebPage.java:22-30 | A new page has empty lists, consistent with each other. |
| WebPages.WebPage.SetRawHTML | WebBrowserProxy/src/main/java/org/example/webbrowser/WebPage.java:57-59 | Only the raw HTML changes. |
| WebPages.WebPage.ParseHTML | WebBrowserProxy/src/main/java/org/example/webbrowser/WebPage.java:68-97 | Null or empty HTML changes nothing. Otherwise the list of all resources becomes exactly ParsedResources of the matches, and not an accumulation, so re-parsing gives the same lists. The per-kind lists stay consistent. |
| WebPages.WebPage.ExtractResources | WebBrowserProxy/src/main/java/org/example/webbrowser/WebPage.java:105-125 | The factory-made resources of the matches are appended in order, and each also goes to its kind's list. The count is the number of matches. |
| WebPages.WebPage.AddResource | WebBrowserProxy/src/main/java/org/example/webbrowser/WebPage.java:114-118 | The resource is appended to the list of all resources and filed in its kind's list, keeping the lists consistent. |
| WebPages.WebPage.AddToSpecificList | WebBrowserProxy/src/main/java/org/example/webbrowser/WebPage.java:132-142 | The wrapped object goes to the list of its kind, and only that list changes. |
| WebPages.WebPage.CreateMainHTMLResource | WebBrowserProxy/src/main/java/org/example/webbrowser/WebPage.java:147-158 | "index.html", carrying the raw HTML, is appended last to the list of all resources and to the HTML list. |
| WebPages.WebPage.CreateIndexResource | WebBrowserProxy/src/main/java/org/example/webbrowser/WebPage.java:148 | The factory's resource for "index.html" is an HTML resource with that name and path and empty content. |
| WebPages.WebPage.ClearResources | WebBrowserProxy/src/main/java/org/example/webbrowser/WebPage.java:163-169 | All five lists become empty. |
| WebPages.WebPage.LoadResources | WebBrowserProxy/src/main/java/org/example/webbrowser/WebPage.java:175-187 | The count is the number of resources whose type is not "IMAGE". |
| WebPages.WebPage.AcceptVisitor | WebBrowserProxy/src/main/java/org/example/webbrowser/WebPage.java:217-221 | The visitor's counters become the tally of every resource's visit, in list order. |
| SizeCalculator.CharBytes | WebBrowserProxy/src/main/java/org/example/webbrowser/ResourceSizeCalculatorVisitor.java:90 | A character takes 1 to 4 bytes, and exactly 1 iff it is ASCII. |
| SizeCalculator.Utf8Length | WebBrowserProxy/src/main/java/org/example/webbrowser/ResourceSizeCalculatorVisitor.java:90 | The byte length lies between one and four bytes per character. |
| SizeCalculator.Utf8LengthAppend | WebBrowserProxy/src/main/java/org/example/webbrowser/ResourceSizeCalculatorVisitor.java:90 | The byte length of a concatenation is the sum of the byte lengths. |
| SizeCalculator.Utf8LengthOfAscii | WebBrowserProxy/src/main/java/org/example/webbrowser/ResourceSizeCalculatorVisitor.java:90 | An ASCII text has as many bytes as characters. |
| SizeCalculator.CalculateSize | WebBrowserProxy/src/main/java/org/example/webbrowser/ResourceSizeCalculatorVisitor.java:85-91 | The size is 0 iff the content is null or empty; otherwise it is the byte length, at least the number of characters. |
| SizeCalculator.VisitSize | WebBrowserProxy/src/main/java/org/example/webbrowser/ResourceSizeCalculatorVisitor.java:67-72 | An image that is not loaded contributes exactly 1024. |
| SizeCalculator.Record | WebBrowserProxy/src/main/java/org/example/webbrowser/ResourceSizeCalculatorVisitor.java:33-77 | One visit adds 1 to its kind's count and its size to both its kind's size and the total. It keeps the total equal to the sum of the four sizes, and no counter decreases. |
| SizeCalculator.TallyAccumulates | WebBrowserProxy/src/main/java/org/example/webbrowser/ResourceSizeCalculatorVisitor.java:33-77 | Between resets the counters never decrease and stay consistent. The total grows by the sum of the visits' sizes, and the counts by the number of visits. |
| SizeCalculator.TallyAppend | WebBrowserProxy/src/main/java/org/example/webbrowser/ResourceSizeCalculatorVisitor.java:33-77 | Two rounds of visits without a reset give the same counters as one round. |
| SizeCalculator.FormatSize | WebBrowserProxy/src/main/java/org/example/webbrowser/ResourceSizeCalculatorVisitor.java:100-101 | Counts below 1024 are written as digits followed by " B". |
| SizeCalculator.FormatSizeReadsBack | WebBrowserProxy/src/main/java/org/example/webbrowser/ResourceSizeCalculatorVisitor.java:100-101 | The digits in front of " B" read back as the byte count. |
| SizeCalculator.ResourceSizeCalculator.constructor | WebBrowserProxy/src/main/java/org/example/webbrowser/ResourceSizeCalculatorVisitor.java:20-30 | All nine counters start at zero. |
| SizeCalculator.ResourceSizeCalculator.VisitHtmlFile | WebBrowserProxy/src/main/java/org/example/webbrowser/ResourceSizeCalculatorVisitor.java:33-38 | The counters become Record of the HTML visit. |
| SizeCalculator.ResourceSizeCalculator.VisitCssFile | WebBrowserProxy/src/main/java/org/example/webbrowser/ResourceSizeCalculatorVisitor.java:44-49 | The counters become Record of the CSS visit. |
| SizeCalculator.ResourceSizeCalculator.VisitJsFile | WebBrowserProxy/src/main/java/org/example/webbrowser/ResourceSizeCalculatorVisitor.java:55-60 | The counters become Record of the JS visit. |
| SizeCalculator.ResourceSizeCalculator.VisitImageProxy | WebBrowserProxy/src/main/java/org/example/webbrowser/ResourceSizeCalculatorVisitor.java:63-77 | The counters become Record of the image visit: the content's bytes when loaded, 1024 otherwise. |
| SizeCalculator.ResourceSizeCalculator.Visit | WebBrowserProxy/src/main/java/org/example/webbrowser/ResourceSizeCalculatorVisitor.java:33-77 | The overload Java selects for a visitor call: the counters become Record of that visit. |
| SizeCalculator.ResourceSizeCalculator.Reset | WebBrowserProxy/src/main/java/org/example/webbrowser/ResourceSizeCalculatorVisitor.java:187-197 | All nine counters become zero. |
| PeerInfos.Describe | WebBrowserProxy/src/main/java/org/example/webbrowser/p2p/PeerInfo.java:50-54 | The text starts with the name and " (", and ends with " - Online" when online and " - Offline" otherwise. |
| PeerInfos.DescribeShowsAddress | WebBrowserProxy/src/main/java/org/example/webbrowser/p2p/PeerInfo.java:52-53 | The text contains "ip:port". |
| PeerInfos.DescribeShowsStatus | WebBrowserProxy/src/main/java/org/example/webbrowser/p2p/PeerInfo.java:52-53 | The text ends in " - Online" iff the peer is online. |
| PeerInfos.PeerInfo.constructor | WebBrowserProxy/src/main/java/org/example/webbrowser/p2p/PeerInfo.java:18-25 | The id, name, address and port are stored unchanged; the peer is online and lastSeen is the clock at construction. |
| PeerInfos.PeerInfo.SetPeerId | WebBrowserProxy/src/main/java/org/example/webbrowser/p2p/PeerInfo.java:29 | Only peerId changes. |
| PeerInfos.PeerInfo.SetPeerName | WebBrowserProxy/src/main/java/org/example/webbrowser/p2p/PeerInfo.java:32 | Only peerName changes. |
| PeerInfos.PeerInfo.SetIpAddress | WebBrowserProxy/src/main/java/org/example/webbrowser/p2p/PeerInfo.java:35 | Only ipAddress changes. |
| PeerInfos.PeerInfo.SetPort | WebBrowserProxy/src/main/java/org/example/webbrowser/p2p/PeerInfo.java:38 | Only port changes. |
| PeerInfos.PeerInfo.SetOnline | WebBrowserProxy/src/main/java/org/example/webbrowser/p2p/PeerInfo.java:41 | Only isOnline changes. |
| PeerInfos.PeerInfo.SetLastSeen | WebBrowserProxy/src/main/java/org/example/webbrowser/p2p/PeerInfo.java:44 | Only lastSeen changes, to the given value. |
| PeerInfos.PeerInfo.UpdateLastSeen | WebBrowserProxy/src/main/java/org/example/webbrowser/p2p/PeerInfo.java:46-48 | lastSeen becomes the current time; nothing else changes. |
| PeerInfos.PeerInfo.ToString | WebBrowserProxy/src/main/java/org/example/webbrowser/p2p/PeerInfo.java:50-54 | toString is Describe of the current fields. |
| P2PMessages.TypeNameInjective | WebBrowserProxy/src/main/java/org/example/webbrowser/p2p/P2PMessage.java:12-22 | The names `toString` gives the kinds are the enum constants as declared, and distinct kinds have distinct names. |
| P2PMessages.Render | WebBrowserProxy/src/main/java/org/example/webbrowser/p2p/P2PMessage.java:54-58 | The text starts with "[timestamp] TYPE" and ends with " (senderId)", and its length is the parts' lengths plus 12. |
| P2PMessages.RenderNamesSender | WebBrowserProxy/src/main/java/org/example/webbrowser/p2p/P2PMessage.java:56-57 | The text contains " from senderName (". |
| P2PMessages.P2PMessage.constructor | WebBrowserProxy/src/main/java/org/example/webbrowser/p2p/P2PMessage.java:30-36 | Type, sender id, sender name and payload are stored unchanged; the timestamp is set once, to the current time. |
| P2PMessages.P2PMessage.SetType | WebBrowserProxy/src/main/java/org/example/webbrowser/p2p/P2PMessage.java:40 | Only the type changes. |
| P2PMessages.P2PMessage.SetSenderId | WebBrowserProxy/src/main/java/org/example/webbrowser/p2p/P2PMessage.java:43 | Only senderId changes. |
| P2PMessages.P2PMessage.SetSenderName | WebBrowserProxy/src/main/java/org/example/webbrowser/p2p/P2PMessage.java:46 | Only senderName changes. |
| P2PMessages.P2PMessage.SetPayload | WebBrowserProxy/src/main/java/org/example/webbrowser/p2p/P2PMessage.java:49 | Only the payload changes. |
| P2PMessages.P2PMessage.SetTimestamp | WebBrowserProxy/src/main/java/org/example/webbrowser/p2p/P2PMessage.java:52 | Only the timestamp changes. |
| P2PMessages.P2PMessage.ToString | WebBrowserProxy/src/main/java/org/example/webbrowser/p2p/P2PMessage.java:54-58 | toString is Render of the current fields. |
| P2PNodes.Repeat | WebBrowserProxy/src/main/java/org/example/webbrowser/p2p/P2PNode.java:322-324 | n copies of a message. |
| P2PNodes.Socket.constructor | WebBrowserProxy/src/main/java/org/example/webbrowser/p2p/P2PNode.java:127 | A new connection is open and nothing has been written to it. |
| P2PNodes.Socket.Close | WebBrowserProxy/src/main/java/org/example/webbrowser/p2p/P2PNode.java:218-220 | The connection is closed, and what was written to it is kept. |
| P2PNodes.Socket.Write | WebBrowserProxy/src/main/java/org/example/webbrowser/p2p/P2PNode.java:161-163 | The message is appended to what was written; the open flag is kept. |
| P2PNodes.Listener.OnMessageReceived | WebBrowserProxy/src/main/java/org/example/webbrowser/p2p/P2PNode.java:324 | A listener that does not throw records the message. |
| P2PNodes.P2PNode.Inactive | WebBrowserProxy/src/main/java/org/example/webbrowser/p2p/P2PNode.java:236-244 | A registered peer is found inactive iff now - lastSeen > 60000. |
| P2PNodes.P2PNode.InactiveGrows | WebBrowserProxy/src/main/java/org/example/webbrowser/p2p/P2PNode.java:241 | A peer inactive at one time is inactive at every later time. |
| P2PNodes.P2PNode.constructor | WebBrowserProxy/src/main/java/org/example/webbrowser/p2p/P2PNode.java:25-34 | A new node is not running and has no peers, sockets or listeners. |
| P2PNodes.P2PNode.Start | WebBrowserProxy/src/main/java/org/example/webbrowser/p2p/P2PNode.java:39-63 | Start is a no-op when already running. Otherwise the node runs iff the server socket was bound. The registry is unchanged. |
| P2PNodes.P2PNode.RemovePeer | WebBrowserProxy/src/main/java/org/example/webbrowser/p2p/P2PNode.java:215-225 | The id leaves both maps. Its socket, if there was one, is closed. No other socket's closed flag changes and nothing is written. When the id was absent nothing changes, so a second call is a no-op. |
| P2PNodes.P2PNode.HandleConnectMessage | WebBrowserProxy/src/main/java/org/example/webbrowser/p2p/P2PNode.java:189-198 | With a PeerInfo payload, the peer and the socket are stored under the peer's id in both maps, which keep equal key sets, and every listener is told. With any other payload the cast fails and nothing changes. |
| P2PNodes.P2PNode.HandleDisconnectMessage | WebBrowserProxy/src/main/java/org/example/webbrowser/p2p/P2PNode.java:203-210 | The sender's id leaves both maps and its socket is closed; no other socket is closed and nothing is written. Then every listener is told. |
| P2PNodes.P2PNode.NotifyListeners | WebBrowserProxy/src/main/java/org/example/webbrowser/p2p/P2PNode.java:321-329 | Every listener that does not throw receives the message once per registration, including the listeners after one that throws. |
| P2PNodes.P2PNode.SendDrops | WebBrowserProxy/src/main/java/org/example/webbrowser/p2p/P2PNode.java:157-172 | A send removes the addressed peer exactly when its connection is open and the write fails, and never another peer. |
| P2PNodes.P2PNode.SendToPeer | WebBrowserProxy/src/main/java/org/example/webbrowser/p2p/P2PNode.java:157-172 | An unknown peer or a closed connection: nothing changes. An open connection: the message is appended to it and it stays open, or, when the write fails, only that peer is removed and its socket closed with nothing written. Every other connection is untouched. |
| P2PNodes.P2PNode.Broadcast | WebBrowserProxy/src/main/java/org/example/webbrowser/p2p/P2PNode.java:177-184 | Every connection ends with what it held followed by copies of the message only. A closed connection, or one no peer is registered on, is untouched. The open connection of a registered peer whose connection carries no failing id stays open and receives the message. Only peers whose write fails are removed, their connections closed; the rest keep their entries, and no peer is added. |
| P2PNodes.P2PNode.BroadcastStep | WebBrowserProxy/src/main/java/org/example/webbrowser/p2p/P2PNode.java:180-182 | One turn of the loop, sendToPeer for one id, keeps the broadcast's invariant: the registry loses at most that id, and only when it fails and its connection is closed; every connection holds copies of the message only; a connection that was open with no failing id has received it once its id is done. |
| P2PNodes.P2PNode.SweepInactivePeers | WebBrowserProxy/src/main/java/org/example/webbrowser/p2p/P2PNode.java:236-250 | Exactly the peers with now - lastSeen > 60000 are removed and their sockets closed; every other peer stays. Nothing is written to any connection, no connection is reopened, and a connection that no removed peer was registered on keeps its closed flag. |
| P2PNodes.P2PNode.RemoveAll | WebBrowserProxy/src/main/java/org/example/webbrowser/p2p/P2PNode.java:247-250 | removePeer for each listed id: exactly those ids leave both maps, and their sockets are closed. Nothing is written, no connection is reopened, and every other connection keeps its closed flag. |
| P2PNodes.P2PNode.RemoveStep | WebBrowserProxy/src/main/java/org/example/webbrowser/p2p/P2PNode.java:248-249 | One turn of the loop, removePeer for one id, keeps the sweep's invariant: the id joins the removed ones, its socket is closed, and only the sockets of removed ids may have been closed. |
| P2PNodes.P2PNode.Stop | WebBrowserProxy/src/main/java/org/example/webbrowser/p2p/P2PNode.java:272-309 | Stop is a no-op when not running: no map and no connection changes. Otherwise the node stops and makes a DISCONNECT from itself at the given time. Every connection ends with copies of that DISCONNECT only, and the open connection of every peer with no failing id on it received it. Every connection of a peer known at the start ends closed; an unregistered connection keeps its state: nothing is written to it and its closed flag is kept. Only failing peers leave the registry, which is otherwise not cleared. |
| P2PNodes.P2PNode.CloseAll | WebBrowserProxy/src/main/java/org/example/webbrowser/p2p/P2PNode.java:289-295 | Every registered socket is closed. Nothing is written, and an unregistered socket keeps its closed flag. |
| P2PNodes.P2PNode.ConnectToPeer | WebBrowserProxy/src/main/java/org/example/webbrowser/p2p/P2PNode.java:125-152 | The result is true iff the connection succeeds. On success, exactly one CONNECT carrying this node's own PeerInfo is written. The node's registry does not change. |
| P2PNodes.P2PNode.HandleMessage | WebBrowserProxy/src/main/java/org/example/webbrowser/p2p/P2PNode.java:97-112 | CONNECT with a PeerInfo stores the peer and the socket under its id in both maps and adds the socket to the node's connections. CONNECT with any other payload throws: the switch changes nothing, and the connection it came on ends closed, as the try-with-resources around the read loop closes it. DISCONNECT removes the sender from both maps and closes its socket. Every other kind leaves both maps alone, and only CONNECT adds a connection. No connection is written to, and none but the DISCONNECT sender's, or the receiving one after a throw, is closed. Listeners receive the message for CONNECT, DISCONNECT and the four sharing and chat kinds, and nothing for DISCOVER, REQUEST_PAGE, SYNC_REQUEST or a failed CONNECT. No message changes any peer's lastSeen. |
| P2PNodes.P2PNode.AddMessageListener | WebBrowserProxy/src/main/java/org/example/webbrowser/p2p/P2PNode.java:314-316 | The listener is appended; nothing else changes. |
| P2PNodes.P2PNode.GetConnectedPeers | WebBrowserProxy/src/main/java/org/example/webbrowser/p2p/P2PNode.java:335 | The result is the registry as a map value, so later registry changes do not show in it. |

## Left out

- Logging: all `System.out`/`System.err` output, and the log message at HTTPHandlerChain.java:41 that names a default handler.
- Sockets and streams: the server socket, object streams, the thread pool, the accept loop and the blocking read loop of `handlePeerConnection`. `HandleMessage` models one pass of that loop's switch. The loop's `running && !isClosed()` guard and its end on EOF are left out; a throw in the switch is modelled only by its effect of closing the connection.
- The heartbeat's `Thread.sleep` and `while (running)` loop. `SweepInactivePeers` models one round.
- Concurrency: the model is sequential. The concurrent maps and the copy-on-write listener list are ordinary values, and no interleaving is considered.
- Clock, identity and address calls: `System.currentTimeMillis`, `LocalDateTime.now`, `UUID.randomUUID` and `getLocalIP` become parameters.
- File loading behind `load()`: `CSSFile.loadCSS`, the image files and the HTML/JS loaders. Content is a field.
- JSFile, HTMLFile and ImageProxy are not part of this model. A factory-made JS file and image start with empty content, and the image is not loaded.
- The regular expressions of `extractResources`: the matched paths are inputs, in match order.
- The KB and MB branches of `formatSize` (floating point and `String.format`). `FormatSize` returns None for them.
- `String.getBytes` is taken as UTF-8.
- Case folding: `Strings.ToLower` lower-cases ASCII letters only, so the `toLowerCase()` calls of ResourceFactory.java are modelled for a default locale that is not Turkish, where "I" would become a dotless i and change the extension.
- Java null references: strings, integers and response fields cannot be null in the model. The NullPointerExceptions the source raises for a null body or status in the response handlers, or for a PeerInfo with a null id put into the concurrent maps, are not modelled; null content of a file is modelled where the source tests for it.
- Integer widths: counters, ports and times are unbounded. The `long`/`int` overflow of the counters and of `now - lastSeen` is not modelled.
- Listener callbacks are code outside the model: a `Listener` records what it is given unless it is one that throws.
- P2PNodes.P2PNode.Broadcast: states only that the removed peers lie among those whose write fails, not which ones. The iteration order of the key set decides whether a peer is written before or after a failing one.
- P2PNodes.P2PNode.Broadcast: promises at least one copy to each open connection whose ids all succeed, not the exact count of one copy per id registered on it, because counting ids per shared connection made the proof too costly. Connections that carry a failing id get copies only, in a number the contract leaves open.
- P2PNodes.P2PNode.Stop: inherits both of Broadcast's weaker statements for the DISCONNECT.
- A failing `socket.close()`: its IOException is swallowed by the source and not modelled.
- Closing the server socket and shutting down the thread pool in `stop`.
- Resources.Accept: CSSFileAdapter, JSFileAdapter and the webbrowser package's HTMLFileAdapter declare no `accept`. They implement a `Resource` interface of the webbrowser package that is not part of this model, yet the factory returns them as `factory_template.Resource`, which declares `accept`. The model assumes their `accept` hands the wrapped file to the visitor, as the factory_template HTMLFileAdapter does. The CSS and JS totals of `WebPages.WebPage.AcceptVisitor` rest on that assumption.
- WebPages.WebPage.AddToSpecificList and WebPages.WebPage.CreateMainHTMLResource: WebPage.java tests `instanceof ImageResourceAdapter` and `instanceof HTMLFileAdapter` without imports, so the names denote its own package's classes, while the factory makes `factory_template.HTMLFileAdapter` and `visitor.ImageResourceAdapter`. Read literally, neither test matches a factory-made resource. The model reads both tests as matching the factory's HTML and image adapters, so index.html gets the raw HTML and the HTML and image lists fill.
- ResponseHandlers.HandlerChain.SetFirstHandler: takes the handlers reachable from the new first handler as a ghost list. A cyclic chain, on which `handle` would not terminate, is not modelled.
- The generated pages are parameters of the handlers (`Pages`). The source's texts are `SourcePages`, and what the handlers rely on of them is proved in `SourcePagesMentionCodes`.
- The WebBrowser project's own `WebPage`, `HTMLFile` and `HTTPResponse` classes are not part of this model. The web server uses the WebBrowserProxy versions of those classes.
- `ImageResourceAdapter.display` and `WebPage.displayImages`: they only trigger image I/O.
- Getters that only return a field: the class's state is the specification's value.
