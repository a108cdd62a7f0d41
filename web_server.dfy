/** WebServer of the WebBrowser project: a local server with a host name, a
    list of resource names and a list of pages. A request is answered with
    the first page when its URL contains any registered resource name, and
    with a fixed "not found" page otherwise. */
module LocalWebServer {
  import opened Wrappers
  import opened Strings
  import opened Resources
  import opened HttpResponse
  import opened WebPages

  /** The body of the 404 answer. */
  const NotFoundBody := "<html><body><h1>404 - Page Not Found</h1></body></html>"

  /** Some registered resource name occurs in the URL. */
  predicate Requested(url: string, resources: seq<string>) {
    exists i | 0 <= i < |resources| :: Contains(url, resources[i])
  }

  /** What StringBuilder.append adds for a file's content: the text itself,
      or "null" for a missing one. */
  function AppendedText(content: Text): (t: string)
    ensures content.Some? ==> t == content.value
    ensures content.None? ==> t == "null"
  {
    if content.Some? then content.value else "null"
  }

  /** The contents of the HTML files of a page, one after the other. */
  function JoinContents(files: seq<FileData>): string {
    if files == [] then ""
    else JoinContents(files[..|files| - 1]) + AppendedText(files[|files| - 1].content)
  }

  /** The answer to a request for `url`, given the registered resources,
      the HTML files of the first page (None when there is no page) and the
      host: 200 with the page's HTML and two headers exactly when the URL
      names a resource and there is a page, 404 with the fixed page and
      only a content type otherwise. */
  function Answer(url: string, resources: seq<string>, firstPage: Option<seq<FileData>>, host: string): (r: Resp)
    ensures r.status == 200 <==> Requested(url, resources) && firstPage.Some?
    ensures r.status == 404 <==> !(Requested(url, resources) && firstPage.Some?)
    ensures r.status == 200 ==>
      && r.headers == map["Content-Type" := "text/html", "Server" := host]
      && r.body == JoinContents(firstPage.value)
    ensures r.status == 404 ==> r.headers == map["Content-Type" := "text/html"] && r.body == NotFoundBody
  {
    if Requested(url, resources) && firstPage.Some? then
      Resp(200, map["Content-Type" := "text/html", "Server" := host], JoinContents(firstPage.value))
    else
      Resp(404, map["Content-Type" := "text/html"], NotFoundBody)
  }

  /** The body of a page of several files is the bodies of its parts put
      together. */
  lemma {:induction false} JoinContentsAppend(a: seq<FileData>, b: seq<FileData>)
    ensures JoinContents(a + b) == JoinContents(a) + JoinContents(b)
    decreases |b|
  {
    if b == [] {
      assert a + b == a;
    } else {
      var b' := b[..|b| - 1];
      var last := AppendedText(b[|b| - 1].content);
      assert (a + b)[..|a + b| - 1] == a + b';
      assert (a + b)[|a + b| - 1] == b[|b| - 1];
      assert JoinContents(a + b) == JoinContents(a + b') + last;
      JoinContentsAppend(a, b');
      assert JoinContents(b) == JoinContents(b') + last;
    }
  }

  /** Every file's text appears in the served body. */
  lemma {:induction false} JoinContentsHasEveryFile(files: seq<FileData>, k: int)
    requires 0 <= k < |files|
    ensures Contains(JoinContents(files), AppendedText(files[k].content))
    decreases |files|
  {
    var init := files[..|files| - 1];
    var last := AppendedText(files[|files| - 1].content);
    if k == |files| - 1 {
      ContainsInfix(JoinContents(init), last, "");
      assert JoinContents(init) + last + "" == JoinContents(files);
    } else {
      assert init[k] == files[k];
      JoinContentsHasEveryFile(init, k);
      ContainsAppendLeft(JoinContents(init), last, AppendedText(files[k].content));
    }
  }

  /** With no registered resources every request is answered 404. */
  lemma NoResourcesNotFound(url: string, firstPage: Option<seq<FileData>>, host: string)
    ensures Answer(url, [], firstPage, host).status == 404
  {
  }

  /** A request for a URL that contains a registered name is served when
      there is a page, whichever name it contains. */
  lemma NamedResourceIsServed(url: string, resources: seq<string>, i: int, files: seq<FileData>, host: string)
    requires 0 <= i < |resources| && Contains(url, resources[i])
    ensures Answer(url, resources, Some(files), host).status == 200
    ensures Answer(url, resources, Some(files), host).body == JoinContents(files)
  {
  }

  /** Registering more resource names never turns a served request into a
      404: addResource only widens what is served. */
  lemma MoreResourcesStillServed(url: string, resources: seq<string>, more: seq<string>, firstPage: Option<seq<FileData>>, host: string)
    requires Answer(url, resources, firstPage, host).status == 200
    ensures Answer(url, resources + more, firstPage, host) == Answer(url, resources, firstPage, host)
  {
    var i :| 0 <= i < |resources| && Contains(url, resources[i]);
    assert (resources + more)[i] == resources[i];
  }

  /** The empty name is contained in every URL, so registering it makes
      every request served once there is a page. */
  lemma EmptyNameMatchesEverything(url: string, resources: seq<string>, files: seq<FileData>, host: string)
    requires "" in resources
    ensures Answer(url, resources, Some(files), host).status == 200
  {
    var i :| 0 <= i < |resources| && resources[i] == "";
    assert OccursAt(url, "", 0);
  }

  class WebServer {
    var host: string
    var resources: seq<string>
    var pages: seq<WebPage>

    /** The HTML files of the first page, the only page ever served. */
    function FirstPage(): (p: Option<seq<FileData>>)
      reads this, pages
      ensures p.Some? <==> pages != []
      ensures p.Some? ==> p.value == pages[0].htmlResources
    {
      if pages == [] then None else Some(pages[0].htmlResources)
    }

    /** A new server has the given host and no resources or pages. */
    constructor (host: string)
      ensures this.host == host && resources == [] && pages == []
    {
      this.host := host;
      resources := [];
      pages := [];
    }

    method SetHost(host: string)
      modifies this
      ensures this.host == host && resources == old(resources) && pages == old(pages)
    {
      this.host := host;
    }

    /** addResource: the name goes to the end of the list; nothing else
        changes. */
    method AddResource(resource: string)
      modifies this
      ensures resources == old(resources) + [resource]
      ensures host == old(host) && pages == old(pages)
    {
      resources := resources + [resource];
    }

    /** addPage: the page goes to the end of the list; nothing else
        changes. */
    method AddPage(page: WebPage)
      modifies this
      ensures pages == old(pages) + [page]
      ensures host == old(host) && resources == old(resources)
    {
      pages := pages + [page];
    }

    /** processRequest: a new response holding the answer for the URL; the
        server itself, its pages included, is left as it was. */
    method ProcessRequest(url: string) returns (response: Response)
      ensures fresh(response)
      ensures response.Value() == Answer(url, resources, FirstPage(), host)
    {
      response := new Response();
      var resourceFound := false;
      var i := 0;
      while i < |resources|
        invariant 0 <= i <= |resources|
        invariant !resourceFound
        invariant forall j | 0 <= j < i :: !Contains(url, resources[j])
      {
        if Contains(url, resources[i]) {
          resourceFound := true;
          break;
        }
        i := i + 1;
      }
      assert resourceFound <==> Requested(url, resources);

      var foundPage: WebPage? := null;
      if resourceFound && pages != [] {
        foundPage := pages[0];
      }

      if foundPage != null {
        response.SetStatusCode(200);
        response.PutHeader("Content-Type", "text/html");
        response.PutHeader("Server", host);
        var files := foundPage.htmlResources;
        var htmlContent := "";
        var k := 0;
        while k < |files|
          invariant 0 <= k <= |files|
          invariant htmlContent == JoinContents(files[..k])
        {
          assert files[..k + 1][..k] == files[..k];
          htmlContent := htmlContent + AppendedText(files[k].content);
          k := k + 1;
        }
        assert files[..k] == files;
        response.SetBody(htmlContent);
      } else {
        response.SetStatusCode(404);
        response.PutHeader("Content-Type", "text/html");
        response.SetBody(NotFoundBody);
      }
    }
  }
}
