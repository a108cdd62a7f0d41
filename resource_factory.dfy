/** ResourceFactory of the factory_template package: it picks the adapter
    for a file from the extension of its name, compared case-insensitively,
    and falls back to a CSS resource for anything it does not know. */
module ResourceFactory {
  import opened Wrappers
  import opened Strings
  import opened Resources

  /** The last '.' of `s` sits strictly inside it: neither first nor last. */
  predicate HasExtension(s: string) {
    exists i | 0 < i < |s| - 1 :: s[i] == '.' && '.' !in s[i + 1..]
  }

  /** getFileExtension: the text after the last '.', when that dot is
      neither the first nor the last character of the name; "" otherwise. */
  function FileExtension(fileName: string): (ext: string)
    ensures '.' !in ext
    ensures ext == "" <==> !HasExtension(fileName)
    ensures ext != "" ==>
      && |ext| + 1 < |fileName|
      && fileName[|fileName| - |ext| - 1] == '.'
      && fileName[|fileName| - |ext|..] == ext
  {
    var lastDot := LastIndexOf(fileName, '.');
    ExtensionAtLastDot(fileName);
    if lastDot > 0 && lastDot < |fileName| - 1 then
      assert fileName[lastDot] == '.' && '.' !in fileName[lastDot + 1..];
      fileName[lastDot + 1..]
    else ""
  }

  /** The name has an extension exactly when its last dot, as lastIndexOf
      finds it, is neither its first nor its last character. */
  lemma ExtensionAtLastDot(s: string)
    ensures HasExtension(s) <==> 0 < LastIndexOf(s, '.') < |s| - 1
  {
    if HasExtension(s) {
      var i :| 0 < i < |s| - 1 && s[i] == '.' && '.' !in s[i + 1..];
      LastOccurrenceIsUnique(s, '.', i, LastIndexOf(s, '.'));
    }
  }

  /** Lower-casing keeps every '.' where it is and adds none. */
  lemma LowerCaseKeepsDots(s: string)
    ensures forall k | 0 <= k < |s| :: ToLower(s)[k] == '.' <==> s[k] == '.'
  {
  }

  /** A position holds the last dot of a name exactly when it holds the last
      dot of the lower-cased name. */
  lemma LastDotIgnoresCase(s: string, i: int)
    requires 0 <= i < |s|
    ensures (ToLower(s)[i] == '.' && '.' !in ToLower(s)[i + 1..]) <==> (s[i] == '.' && '.' !in s[i + 1..])
  {
    LowerCaseKeepsDots(s);
    assert ToLower(s)[i + 1..] == ToLower(s[i + 1..]);
    LowerCaseKeepsDots(s[i + 1..]);
  }

  /** A name has an extension exactly when its lower-cased form has one. */
  lemma HasExtensionIgnoresCase(s: string)
    ensures HasExtension(ToLower(s)) <==> HasExtension(s)
  {
    var t := ToLower(s);
    forall i | 0 < i < |s| - 1
      ensures (t[i] == '.' && '.' !in t[i + 1..]) <==> (s[i] == '.' && '.' !in s[i + 1..])
    {
      LastDotIgnoresCase(s, i);
    }
  }

  /** The extension is everything after the last dot, wherever that is. */
  lemma ExtensionAfterLastDot(s: string, i: int)
    requires 0 < i < |s| - 1 && s[i] == '.' && '.' !in s[i + 1..]
    ensures FileExtension(s) == s[i + 1..]
  {
    var e := FileExtension(s);
    LastOccurrenceIsUnique(s, '.', i, |s| - |e| - 1);
  }

  /** The extension of the lower-cased name is the lower-cased extension. */
  lemma ExtensionOfLowerCase(s: string)
    ensures FileExtension(ToLower(s)) == ToLower(FileExtension(s))
  {
    var t := ToLower(s);
    HasExtensionIgnoresCase(s);
    if HasExtension(s) {
      var i :| 0 < i < |s| - 1 && s[i] == '.' && '.' !in s[i + 1..];
      LastDotIgnoresCase(s, i);
      ExtensionAfterLastDot(s, i);
      ExtensionAfterLastDot(t, i);
      assert t[i + 1..] == ToLower(s[i + 1..]);
    }
  }

  /** The seven image extensions createResource and isImage both recognise. */
  predicate IsImageExtension(e: string) {
    e == "jpg" || e == "jpeg" || e == "png" || e == "gif" || e == "bmp" || e == "webp" || e == "svg"
  }

  /** createResource: CSS for "css", JavaScript for "js", an image proxy for
      the seven image extensions, HTML with empty content for "html" and
      "htm", and a CSS resource for every other or missing extension. The
      created resource keeps the given name and path and is not yet
      loaded. */
  function CreateResource(fileName: string, filePath: string): (r: Resource)
    ensures FileName(r) == fileName && FilePath(r) == filePath
    ensures var e := ToLower(FileExtension(fileName));
      && (r.JsAdapter? <==> e == "js")
      && (r.VisitorImageAdapter? <==> IsImageExtension(e))
      && (r.HtmlAdapter? <==> e == "html" || e == "htm")
      && (r.CssAdapter? <==> !IsImageExtension(e) && e != "js" && e != "html" && e != "htm")
      && !r.ImageAdapter?
    ensures !IsLoaded(r)
    ensures r.HtmlAdapter? ==> r.html.content == Some("")
    ensures r.VisitorImageAdapter? ==> r.image.isProxy
  {
    var e := ToLower(FileExtension(fileName));
    if e == "css" then CssAdapter(FileData(fileName, filePath, Some("")))
    else if e == "js" then JsAdapter(FileData(fileName, filePath, Some("")))
    else if IsImageExtension(e) then VisitorImageAdapter(ImageData(fileName, filePath, Some(""), false, true))
    else if e == "html" || e == "htm" then HtmlAdapter(FileData(fileName, filePath, Some("")))
    else CssAdapter(FileData(fileName, filePath, Some("")))
  }

  /** isImage: the lower-cased extension is one of the image extensions. */
  predicate IsImage(fileName: string) {
    var ext := ToLower(FileExtension(fileName));
    ext == "jpg" || ext == "jpeg" || ext == "png" || ext == "gif" || ext == "bmp" || ext == "webp" || ext == "svg"
  }

  /** isImage holds exactly for the names createResource makes an image of. */
  lemma IsImageAgreesWithFactory(fileName: string, filePath: string)
    ensures IsImage(fileName) <==> ResourceType(CreateResource(fileName, filePath)) == "IMAGE"
  {
  }

  /** The classification ignores case: a name and its lower-cased form give
      resources of the same type. */
  lemma CreateResourceIgnoresCase(fileName: string, filePath: string)
    ensures ResourceType(CreateResource(ToLower(fileName), filePath)) == ResourceType(CreateResource(fileName, filePath))
    ensures IsImage(ToLower(fileName)) == IsImage(fileName)
  {
    ExtensionOfLowerCase(fileName);
    ToLowerIdempotent(FileExtension(fileName));
  }
}
