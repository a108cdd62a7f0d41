/** WebPage: the resources of one page. parseHTML lists the stylesheets,
    scripts and images the page's HTML refers to, each made by the resource
    factory, followed by the page itself as "index.html"; besides the list
    of all resources the page keeps one list per kind. The paths the
    regular expressions find in the HTML are inputs of the model. */
module WebPages {
  import opened Wrappers
  import opened Strings
  import opened Resources
  import opened ResourceFactory
  import opened SizeCalculator

  /** extractFileName: the part of a path after its last '/', or the whole
      path when it has none. */
  function ExtractFileName(path: string): (name: string)
    ensures '/' !in name
    ensures '/' !in path ==> name == path
    ensures '/' in path ==>
      && |name| < |path|
      && path[|path| - |name| - 1] == '/'
      && path[|path| - |name|..] == name
  {
    var lastSlash := LastIndexOf(path, '/');
    if lastSlash >= 0 then path[lastSlash + 1..] else path
  }

  /** The file name of a path built from a directory and a file name is that
      file name. */
  lemma ExtractFileNameOfJoinedPath(dir: string, name: string)
    requires '/' !in name
    ensures ExtractFileName(dir + "/" + name) == name
  {
    var path := dir + "/" + name;
    var found := ExtractFileName(path);
    assert path[|dir|] == '/';
    assert path[|dir| + 1..] == name;
    LastOccurrenceIsUnique(path, '/', |dir|, |path| - |found| - 1);
  }

  /** The resources extractResources creates for the paths one regular
      expression matched, in match order. */
  function Extracted(paths: seq<string>): (rs: seq<Resource>)
    ensures |rs| == |paths|
  {
    seq(|paths|, i requires 0 <= i < |paths| => CreateResource(ExtractFileName(paths[i]), paths[i]))
  }

  /** The name and path of the resource for the page itself. */
  const MainFileName := "index.html"

  /** The page itself, as createMainHTMLResource adds it: the factory's HTML
      resource for "index.html" with the raw HTML as its content. */
  function MainHtml(raw: Text): Resource {
    HtmlAdapter(FileData(MainFileName, MainFileName, raw))
  }

  /** The factory makes an HTML resource, with empty content, of
      "index.html". */
  lemma IndexHtmlIsHtml()
    ensures CreateResource(MainFileName, MainFileName) == HtmlAdapter(FileData(MainFileName, MainFileName, Some("")))
  {
    var s := MainFileName;
    assert s[5] == '.' && '.' !in s[6..];
    ExtensionAfterLastDot(s, 5);
    assert FileExtension(s) == "html";
    assert ToLower("html") == "html";
  }

  /** Every resource parseHTML lists for the given matches: stylesheets,
      then scripts, then images, then the page itself. */
  function ParsedResources(raw: Text, cssPaths: seq<string>, jsPaths: seq<string>, imagePaths: seq<string>): seq<Resource> {
    Extracted(cssPaths) + Extracted(jsPaths) + Extracted(imagePaths) + [MainHtml(raw)]
  }

  /** Taking one more element of `s` appends that element. */
  lemma AppendNext<T>(before: seq<T>, s: seq<T>, k: nat)
    requires k < |s|
    ensures before + s[..k + 1] == before + s[..k] + [s[k]]
  {
    assert s[..k + 1] == s[..k] + [s[k]];
  }

  lemma EmptyPrefix<T>(s: seq<T>)
    ensures [] + s == s
  {
  }

  lemma WholePrefix<T>(s: seq<T>)
    ensures s[..|s|] == s
  {
  }

  /** Each extracted resource keeps the matched path and is named by its
      last segment. */
  lemma ExtractedKeepsPaths(paths: seq<string>)
    ensures forall i | 0 <= i < |paths| ::
      FilePath(Extracted(paths)[i]) == paths[i] && FileName(Extracted(paths)[i]) == ExtractFileName(paths[i])
  {
  }

  /** The list of all resources holds the stylesheets, then the scripts,
      then the images, each in match order, and ends with the page itself,
      whose content is the raw HTML. */
  lemma ParsedResourcesOrder(raw: Text, cssPaths: seq<string>, jsPaths: seq<string>, imagePaths: seq<string>)
    ensures var rs := ParsedResources(raw, cssPaths, jsPaths, imagePaths);
      var j := |cssPaths| + |jsPaths|;
      && |rs| == j + |imagePaths| + 1
      && rs[..|cssPaths|] == Extracted(cssPaths)
      && rs[|cssPaths|..j] == Extracted(jsPaths)
      && rs[j..|rs| - 1] == Extracted(imagePaths)
      && rs[|rs| - 1].HtmlAdapter?
      && FileName(rs[|rs| - 1]) == MainFileName
      && Content(rs[|rs| - 1]) == raw
  {
    ConcatSlices(Extracted(cssPaths), Extracted(jsPaths), Extracted(imagePaths), MainHtml(raw));
  }

  /** Where the three parts and the last element of `a + b + c + [m]` lie. */
  lemma ConcatSlices<T>(a: seq<T>, b: seq<T>, c: seq<T>, m: T)
    ensures var rs := a + b + c + [m];
      && rs[..|a|] == a
      && rs[|a|..|a| + |b|] == b
      && rs[|a| + |b|..|rs| - 1] == c
      && rs[|rs| - 1] == m
  {
    var rs := a + b + c + [m];
    assert rs[..|a|] == a;
    assert rs[|a|..|a| + |b|] == b;
    assert rs[|a| + |b|..|rs| - 1] == c;
  }

  // ---------------------------------------------------------------------
  // The lists per kind

  /** The wrapped objects addToSpecificList files under each kind, in
      order. */
  function CssFiles(rs: seq<Resource>): seq<FileData> {
    if rs == [] then []
    else CssFiles(rs[..|rs| - 1]) + (if rs[|rs| - 1].CssAdapter? then [rs[|rs| - 1].css] else [])
  }

  function JsFiles(rs: seq<Resource>): seq<FileData> {
    if rs == [] then []
    else JsFiles(rs[..|rs| - 1]) + (if rs[|rs| - 1].JsAdapter? then [rs[|rs| - 1].js] else [])
  }

  function HtmlFiles(rs: seq<Resource>): seq<FileData> {
    if rs == [] then []
    else HtmlFiles(rs[..|rs| - 1]) + (if rs[|rs| - 1].HtmlAdapter? then [rs[|rs| - 1].html] else [])
  }

  function ImageOf(r: Resource): ImageData
    requires r.ImageAdapter? || r.VisitorImageAdapter?
  {
    if r.ImageAdapter? then r.proxy else r.image
  }

  function Images(rs: seq<Resource>): seq<ImageData> {
    if rs == [] then []
    else
      var r := rs[|rs| - 1];
      Images(rs[..|rs| - 1]) + (if r.ImageAdapter? || r.VisitorImageAdapter? then [ImageOf(r)] else [])
  }

  /** The four lists of one resource appended, the way addToSpecificList
      files it. */
  lemma ListsOfAppend(rs: seq<Resource>, r: Resource)
    ensures CssFiles(rs + [r]) == CssFiles(rs) + CssFiles([r])
    ensures JsFiles(rs + [r]) == JsFiles(rs) + JsFiles([r])
    ensures HtmlFiles(rs + [r]) == HtmlFiles(rs) + HtmlFiles([r])
    ensures Images(rs + [r]) == Images(rs) + Images([r])
  {
    assert (rs + [r])[..|rs|] == rs;
    assert [r][..0] == [];
  }

  /** Every resource is filed under exactly one kind. */
  lemma {:induction false} ListsPartition(rs: seq<Resource>)
    ensures |CssFiles(rs)| + |JsFiles(rs)| + |HtmlFiles(rs)| + |Images(rs)| == |rs|
  {
    if rs != [] {
      ListsPartition(rs[..|rs| - 1]);
    }
  }

  /** The number of resources loadResources loads: those whose type is not
      "IMAGE". */
  function Loadable(rs: seq<Resource>): nat {
    if rs == [] then 0
    else Loadable(rs[..|rs| - 1]) + (if ResourceType(rs[|rs| - 1]) != "IMAGE" then 1 else 0)
  }

  /** Exactly the images are skipped. */
  lemma {:induction false} LoadableSkipsImages(rs: seq<Resource>)
    ensures Loadable(rs) + |Images(rs)| == |rs|
  {
    if rs != [] {
      LoadableSkipsImages(rs[..|rs| - 1]);
    }
  }

  /** The visitor calls acceptVisitor makes, in order of the resources. */
  function Visits(rs: seq<Resource>): seq<Visit> {
    if rs == [] then []
    else Visits(rs[..|rs| - 1]) + (if Accept(rs[|rs| - 1]).Some? then [Accept(rs[|rs| - 1]).value] else [])
  }

  /** Each resource is visited at most once, and only the image adapters of
      the webbrowser package and images that are not proxies are skipped. */
  lemma {:induction false} VisitsCount(rs: seq<Resource>)
    ensures |Visits(rs)| <= |rs|
    ensures (forall i | 0 <= i < |rs| :: Accept(rs[i]).Some?) ==> |Visits(rs)| == |rs|
  {
    if rs != [] {
      VisitsCount(rs[..|rs| - 1]);
    }
  }

  /** One more resource adds its visitor call, if it makes one. */
  lemma VisitsStep(rs: seq<Resource>, i: nat)
    requires i < |rs|
    ensures Visits(rs[..i + 1]) ==
      Visits(rs[..i]) + (if Accept(rs[i]).Some? then [Accept(rs[i]).value] else [])
    ensures Accept(rs[i]).None? ==> Visits(rs[..i + 1]) == Visits(rs[..i])
  {
    assert rs[..i + 1][..i] == rs[..i];
    assert Visits(rs[..i]) + [] == Visits(rs[..i]);
  }

  /** One more visit records that visit on top of the counters so far. */
  lemma TallyStep(s: Sizes, done: seq<Visit>, v: Visit)
    ensures Tally(s, done + [v]) == Record(Tally(s, done), v)
  {
    assert (done + [v])[..|done|] == done;
  }

  // ---------------------------------------------------------------------
  // The page object

  class WebPage {
    var htmlResources: seq<FileData>
    var cssResources: seq<FileData>
    var jsResources: seq<FileData>
    var imageResources: seq<ImageData>
    var allResources: seq<Resource>
    var rawHTML: Text

    /** The per-kind lists are the resources of each kind in the list of all
        resources, in the same order. */
    ghost predicate Valid()
      reads this
    {
      && cssResources == CssFiles(allResources)
      && jsResources == JsFiles(allResources)
      && htmlResources == HtmlFiles(allResources)
      && imageResources == Images(allResources)
    }

    /** A new page has no resources and no HTML. */
    constructor ()
      ensures Valid() && allResources == [] && rawHTML == None
    {
      htmlResources, cssResources, jsResources, imageResources := [], [], [], [];
      allResources := [];
      rawHTML := None;
    }

    method SetRawHTML(raw: Text)
      modifies this
      ensures rawHTML == raw
      ensures allResources == old(allResources) && cssResources == old(cssResources)
      ensures jsResources == old(jsResources) && htmlResources == old(htmlResources)
      ensures imageResources == old(imageResources)
    {
      rawHTML := raw;
    }

    /** parseHTML, given the paths the three regular expressions match in
        the raw HTML, in order: nothing changes without HTML; otherwise the
        old resources are dropped, so parsing the same HTML again gives the
        same lists. */
    method ParseHTML(cssPaths: seq<string>, jsPaths: seq<string>, imagePaths: seq<string>)
      requires Valid()
      modifies this
      ensures Valid() && rawHTML == old(rawHTML)
      ensures !HasText(rawHTML) ==> allResources == old(allResources)
      ensures HasText(rawHTML) ==> allResources == ParsedResources(rawHTML, cssPaths, jsPaths, imagePaths)
    {
      if rawHTML.None? || rawHTML.value == "" {
        return;
      }
      ClearResources();
      var count := ExtractResources(cssPaths);
      EmptyPrefix(Extracted(cssPaths));
      count := ExtractResources(jsPaths);
      count := ExtractResources(imagePaths);
      CreateMainHTMLResource();
    }

    /** extractResources: one factory-made resource per match, added to the
        list of all resources and to the list of its kind; the count it
        logs is the number of matches. */
    method ExtractResources(paths: seq<string>) returns (count: nat)
      requires Valid()
      modifies this
      ensures Valid() && rawHTML == old(rawHTML)
      ensures allResources == old(allResources) + Extracted(paths)
      ensures count == |paths|
    {
      count := 0;
      while count < |paths|
        invariant count <= |paths|
        invariant Valid() && rawHTML == old(rawHTML)
        invariant allResources == old(allResources) + Extracted(paths)[..count]
      {
        var resourcePath := paths[count];
        var fileName := ExtractFileName(resourcePath);
        var resource := CreateResource(fileName, resourcePath);
        AddResource(resource);
        AppendNext(old(allResources), Extracted(paths), count);
        count := count + 1;
      }
      WholePrefix(Extracted(paths));
    }

    /** The two steps extractResources takes for each match: the resource
        goes to the end of the list of all resources and to the list of its
        kind. */
    method AddResource(resource: Resource)
      requires Valid()
      modifies this
      ensures Valid() && rawHTML == old(rawHTML)
      ensures allResources == old(allResources) + [resource]
    {
      ListsOfAppend(allResources, resource);
      allResources := allResources + [resource];
      AddToSpecificList(resource);
    }

    /** addToSpecificList: the wrapped object goes to the list of its kind,
        and the other lists stay as they are. */
    method AddToSpecificList(resource: Resource)
      modifies this
      ensures cssResources == old(cssResources) + CssFiles([resource])
      ensures jsResources == old(jsResources) + JsFiles([resource])
      ensures htmlResources == old(htmlResources) + HtmlFiles([resource])
      ensures imageResources == old(imageResources) + Images([resource])
      ensures allResources == old(allResources) && rawHTML == old(rawHTML)
    {
      match resource {
        case CssAdapter(f) => cssResources := cssResources + [f];
        case JsAdapter(f) => jsResources := jsResources + [f];
        case ImageAdapter(i) => imageResources := imageResources + [i];
        case VisitorImageAdapter(i) => imageResources := imageResources + [i];
        case HtmlAdapter(f) => htmlResources := htmlResources + [f];
      }
    }

    /** createMainHTMLResource: the factory's resource for "index.html", with
        the raw HTML as the content of its file, is added last. */
    method CreateMainHTMLResource()
      requires Valid()
      modifies this
      ensures Valid() && rawHTML == old(rawHTML)
      ensures allResources == old(allResources) + [MainHtml(rawHTML)]
    {
      var mainHTMLResource := CreateIndexResource();
      if mainHTMLResource.HtmlAdapter? {
        var htmlFile := mainHTMLResource.html.(content := rawHTML);
        mainHTMLResource := HtmlAdapter(htmlFile);
        htmlResources := htmlResources + [htmlFile];
      }
      ListsOfAppend(allResources, mainHTMLResource);
      allResources := allResources + [mainHTMLResource];
    }

    /** The factory call createMainHTMLResource makes: the factory's
        HTML resource for "index.html", with empty content. */
    static method CreateIndexResource() returns (r: Resource)
      ensures r == HtmlAdapter(FileData(MainFileName, MainFileName, Some("")))
    {
      r := CreateResource(MainFileName, MainFileName);
      IndexHtmlIsHtml();
    }

    /** clearResources: all five lists emptied. */
    method ClearResources()
      modifies this
      ensures Valid() && allResources == [] && rawHTML == old(rawHTML)
    {
      allResources := [];
      cssResources := [];
      jsResources := [];
      imageResources := [];
      htmlResources := [];
    }

    /** loadResources: every resource that is not an image is loaded (file
        I/O, not modelled) and counted. */
    method LoadResources() returns (loaded: nat)
      ensures loaded == Loadable(allResources)
    {
      loaded := 0;
      var i := 0;
      while i < |allResources|
        invariant i <= |allResources|
        invariant loaded == Loadable(allResources[..i])
      {
        var resource := allResources[i];
        if ResourceType(resource) != "IMAGE" {
          loaded := loaded + 1;
        }
        assert allResources[..i + 1][..i] == allResources[..i];
        i := i + 1;
      }
      assert allResources[..i] == allResources;
    }

    /** acceptVisitor: each resource, in order, makes its visitor call. */
    method AcceptVisitor(visitor: ResourceSizeCalculator)
      modifies visitor
      ensures visitor.Value() == Tally(old(visitor.Value()), Visits(allResources))
    {
      ghost var start := visitor.Value();
      var i := 0;
      while i < |allResources|
        invariant i <= |allResources|
        invariant visitor.Value() == Tally(start, Visits(allResources[..i]))
      {
        var resource := allResources[i];
        var visit := Accept(resource);
        VisitsStep(allResources, i);
        if visit.Some? {
          TallyStep(start, Visits(allResources[..i]), visit.value);
          visitor.Visit(visit.value);
        }
        i := i + 1;
      }
      WholePrefix(allResources);
    }
  }
}
