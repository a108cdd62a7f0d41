/** The resources of a web page and the adapters that present them through
    one Resource interface (CSSFileAdapter, JSFileAdapter, the two
    HTMLFileAdapter classes and the two ImageResourceAdapter classes). The
    adapters change no state of their own: each one is a value wrapping the
    file it adapts, and every operation reads that file. */
module Resources {
  import opened Wrappers
  import opened Strings

  /** A Java String reference: None is null. */
  type Text = Option<string>

  /** A CSS, JavaScript or HTML file: name, path or URL, and text content. */
  datatype FileData = FileData(name: string, path: string, content: Text)

  /** An image behind the IImage interface. `isProxy` says whether the object
      is an ImageProxy (the lazily loading proxy) rather than a real image. */
  datatype ImageData = ImageData(name: string, path: string, content: Text, loaded: bool, isProxy: bool)

  /** One adapter object per variant:
      - CssAdapter: CSSFileAdapter;
      - JsAdapter: JSFileAdapter;
      - HtmlAdapter: HTMLFileAdapter, in either package;
      - ImageAdapter: ImageResourceAdapter of the webbrowser package;
      - VisitorImageAdapter: ImageResourceAdapter of the visitor package,
        the one the resource factory creates. */
  datatype Resource =
    | CssAdapter(css: FileData)
    | JsAdapter(js: FileData)
    | HtmlAdapter(html: FileData)
    | ImageAdapter(proxy: ImageData)
    | VisitorImageAdapter(image: ImageData)

  /** The visitor call a resource's accept makes. */
  datatype Visit =
    | VisitHtml(htmlFile: FileData)
    | VisitCss(cssFile: FileData)
    | VisitJs(jsFile: FileData)
    | VisitImage(imageProxy: ImageData)

  /** getFileName and getFilePath delegate to the wrapped object. */
  function FileName(r: Resource): (name: string)
    ensures r.CssAdapter? ==> name == r.css.name
    ensures r.JsAdapter? ==> name == r.js.name
    ensures r.HtmlAdapter? ==> name == r.html.name
    ensures r.ImageAdapter? ==> name == r.proxy.name
    ensures r.VisitorImageAdapter? ==> name == r.image.name
  {
    match r
    case CssAdapter(f) => f.name
    case JsAdapter(f) => f.name
    case HtmlAdapter(f) => f.name
    case ImageAdapter(i) => i.name
    case VisitorImageAdapter(i) => i.name
  }

  function FilePath(r: Resource): (path: string)
    ensures r.CssAdapter? ==> path == r.css.path
    ensures r.JsAdapter? ==> path == r.js.path
    ensures r.HtmlAdapter? ==> path == r.html.path
    ensures r.ImageAdapter? ==> path == r.proxy.path
    ensures r.VisitorImageAdapter? ==> path == r.image.path
  {
    match r
    case CssAdapter(f) => f.path
    case JsAdapter(f) => f.path
    case HtmlAdapter(f) => f.path
    case ImageAdapter(i) => i.path
    case VisitorImageAdapter(i) => i.path
  }

  /** getResourceType: a constant per adapter class, and the four type names
      tell the file kinds apart. */
  function ResourceType(r: Resource): (t: string)
    ensures t == "CSS" <==> r.CssAdapter?
    ensures t == "JS" <==> r.JsAdapter?
    ensures t == "HTML" <==> r.HtmlAdapter?
    ensures t == "IMAGE" <==> r.ImageAdapter? || r.VisitorImageAdapter?
  {
    match r
    case CssAdapter(_) => "CSS"
    case JsAdapter(_) => "JS"
    case HtmlAdapter(_) => "HTML"
    case ImageAdapter(_) => "IMAGE"
    case VisitorImageAdapter(_) => "IMAGE"
  }

  /** A text is loaded when it is neither null nor empty. */
  predicate HasText(t: Text) {
    t.Some? && t.value != ""
  }

  /** getContent: the wrapped file's content, except that the webbrowser
      package's image adapter describes the image instead. */
  function Content(r: Resource): (c: Text)
    ensures r.CssAdapter? ==> c == r.css.content
    ensures r.JsAdapter? ==> c == r.js.content
    ensures r.HtmlAdapter? ==> c == r.html.content
    ensures r.ImageAdapter? ==> c == Some(ImageDescription(r.proxy))
    ensures r.VisitorImageAdapter? ==> c == r.image.content
  {
    match r
    case CssAdapter(f) => f.content
    case JsAdapter(f) => f.content
    case HtmlAdapter(f) => f.content
    case ImageAdapter(i) => Some(ImageDescription(i))
    case VisitorImageAdapter(i) => i.content
  }

  /** The metadata text the webbrowser package's image adapter returns as
      its content: it names the image's file name and its path. */
  function ImageDescription(i: ImageData): (d: string)
    ensures Contains(d, i.name) && Contains(d, i.path)
  {
    var d := "Image: " + i.name + " at " + i.path;
    ContainsInfix("Image: ", i.name, " at " + i.path);
    assert d == "Image: " + i.name + (" at " + i.path);
    ContainsInfix("Image: " + i.name + " at ", i.path, "");
    assert d == "Image: " + i.name + " at " + i.path + "";
    d
  }

  /** isLoaded: a file adapter is loaded when its content is non-null and
      non-empty; the webbrowser package's image adapter never is, and the
      visitor package's asks the image. */
  function IsLoaded(r: Resource): (loaded: bool)
    ensures r.ImageAdapter? ==> !loaded
    ensures r.VisitorImageAdapter? ==> (loaded <==> r.image.loaded)
    ensures r.CssAdapter? || r.JsAdapter? || r.HtmlAdapter? ==> (loaded <==> HasText(Content(r)))
  {
    match r
    case CssAdapter(f) => HasText(f.content)
    case JsAdapter(f) => HasText(f.content)
    case HtmlAdapter(f) => HasText(f.content)
    case ImageAdapter(_) => false
    case VisitorImageAdapter(i) => i.loaded
  }

  /** accept: the visitor visits the wrapped object, except that the visitor
      package's image adapter visits only an ImageProxy and does nothing for
      another IImage, and the webbrowser package's image adapter has no
      accept. */
  function Accept(r: Resource): (v: Option<Visit>)
    ensures r.CssAdapter? ==> v == Some(VisitCss(r.css))
    ensures r.JsAdapter? ==> v == Some(VisitJs(r.js))
    ensures r.HtmlAdapter? ==> v == Some(VisitHtml(r.html))
    ensures r.ImageAdapter? ==> v == None
    ensures r.VisitorImageAdapter? ==> (v.Some? <==> r.image.isProxy)
    ensures r.VisitorImageAdapter? && v.Some? ==> v.value == VisitImage(r.image)
  {
    match r
    case CssAdapter(f) => Some(VisitCss(f))
    case JsAdapter(f) => Some(VisitJs(f))
    case HtmlAdapter(f) => Some(VisitHtml(f))
    case ImageAdapter(_) => None
    case VisitorImageAdapter(i) => if i.isProxy then Some(VisitImage(i)) else None
  }

  /** Whatever a resource's visitor visits is the very object the resource
      wraps: the same name and path the adapter reports. */
  lemma AcceptVisitsWrapped(r: Resource)
    requires Accept(r).Some?
    ensures var v := Accept(r).value;
      match v
      case VisitHtml(f) => f.name == FileName(r) && f.path == FilePath(r) && f.content == Content(r)
      case VisitCss(f) => f.name == FileName(r) && f.path == FilePath(r) && f.content == Content(r)
      case VisitJs(f) => f.name == FileName(r) && f.path == FilePath(r) && f.content == Content(r)
      case VisitImage(i) => i.name == FileName(r) && i.path == FilePath(r) && i.content == Content(r)
  {
  }
}
