/** ResourceSizeCalculatorVisitor: a visitor that counts the resources it
    visits per kind and adds up their sizes in bytes, per kind and in
    total. Sizes are UTF-8 byte lengths; an image that is not loaded counts
    as a 1024-byte placeholder. */
module SizeCalculator {
  import opened Wrappers
  import opened Strings
  import opened Resources

  /** The number of bytes UTF-8 spends on one character (section 3 of
      RFC 3629). */
  function CharBytes(c: char): (n: nat)
    ensures 1 <= n <= 4
    ensures n == 1 <==> c as int < 0x80
  {
    if c as int < 0x80 then 1
    else if c as int < 0x800 then 2
    else if c as int < 0x1_0000 then 3
    else 4
  }

  /** The UTF-8 length of a string: what content.getBytes().length gives
      under a UTF-8 platform encoding. */
  function Utf8Length(s: string): (n: nat)
    ensures |s| <= n <= 4 * |s|
  {
    if s == [] then 0 else Utf8Length(s[..|s| - 1]) + CharBytes(s[|s| - 1])
  }

  /** The byte length of two texts put together is the sum of theirs. */
  lemma {:induction false} Utf8LengthAppend(a: string, b: string)
    ensures Utf8Length(a + b) == Utf8Length(a) + Utf8Length(b)
    decreases |b|
  {
    if b == [] {
      assert a + b == a;
    } else {
      var b' := b[..|b| - 1];
      assert (a + b)[..|a + b| - 1] == a + b';
      Utf8LengthAppend(a, b');
    }
  }

  /** An ASCII text takes exactly one byte per character. */
  lemma {:induction false} Utf8LengthOfAscii(s: string)
    requires forall i | 0 <= i < |s| :: s[i] as int < 0x80
    ensures Utf8Length(s) == |s|
  {
    if s != [] {
      Utf8LengthOfAscii(s[..|s| - 1]);
    }
  }

  /** calculateSize: 0 for a null or empty content, its byte length
      otherwise, which is at least its number of characters. */
  function CalculateSize(content: Text): (size: nat)
    ensures size == 0 <==> !HasText(content)
    ensures HasText(content) ==> |content.value| <= size <= 4 * |content.value|
  {
    if content.None? || content.value == "" then 0 else Utf8Length(content.value)
  }

  /** The placeholder size of an image that is not loaded. */
  const UnloadedImageSize := 1024

  /** The size one visit adds. */
  function VisitSize(v: Visit): (size: nat)
    ensures v.VisitImage? && !v.imageProxy.loaded ==> size == UnloadedImageSize
  {
    match v
    case VisitHtml(f) => CalculateSize(f.content)
    case VisitCss(f) => CalculateSize(f.content)
    case VisitJs(f) => CalculateSize(f.content)
    case VisitImage(i) => if i.loaded then CalculateSize(i.content) else UnloadedImageSize
  }

  /** The nine counters of the visitor. */
  datatype Sizes = Sizes(
    totalSize: int, htmlSize: int, cssSize: int, jsSize: int, imageSize: int,
    htmlCount: int, cssCount: int, jsCount: int, imageCount: int)

  /** What the constructor and reset leave. */
  const Zero := Sizes(0, 0, 0, 0, 0, 0, 0, 0, 0)

  /** The counters are non-negative and the total is the sum of the four
      per-kind sizes. */
  predicate Consistent(s: Sizes) {
    && s.totalSize == s.htmlSize + s.cssSize + s.jsSize + s.imageSize
    && s.htmlSize >= 0 && s.cssSize >= 0 && s.jsSize >= 0 && s.imageSize >= 0
    && s.htmlCount >= 0 && s.cssCount >= 0 && s.jsCount >= 0 && s.imageCount >= 0
  }

  /** No counter of `s'` is below that of `s`. */
  predicate Grows(s: Sizes, s': Sizes) {
    && s.totalSize <= s'.totalSize && s.htmlSize <= s'.htmlSize && s.cssSize <= s'.cssSize
    && s.jsSize <= s'.jsSize && s.imageSize <= s'.imageSize
    && s.htmlCount <= s'.htmlCount && s.cssCount <= s'.cssCount
    && s.jsCount <= s'.jsCount && s.imageCount <= s'.imageCount
  }

  function CountSum(s: Sizes): int {
    s.htmlCount + s.cssCount + s.jsCount + s.imageCount
  }

  /** The four visit methods: one visit counts one resource of its kind and
      adds its size to that kind's size and to the total. */
  function Record(s: Sizes, v: Visit): (s': Sizes)
    ensures Consistent(s) ==> Consistent(s')
    ensures Grows(s, s')
    ensures s'.totalSize == s.totalSize + VisitSize(v)
    ensures CountSum(s') == CountSum(s) + 1
    ensures v.VisitHtml? ==> s'.htmlSize == s.htmlSize + VisitSize(v) && s'.htmlCount == s.htmlCount + 1
    ensures v.VisitCss? ==> s'.cssSize == s.cssSize + VisitSize(v) && s'.cssCount == s.cssCount + 1
    ensures v.VisitJs? ==> s'.jsSize == s.jsSize + VisitSize(v) && s'.jsCount == s.jsCount + 1
    ensures v.VisitImage? ==> s'.imageSize == s.imageSize + VisitSize(v) && s'.imageCount == s.imageCount + 1
  {
    var size := VisitSize(v);
    match v
    case VisitHtml(_) =>
      s.(htmlSize := s.htmlSize + size, totalSize := s.totalSize + size, htmlCount := s.htmlCount + 1)
    case VisitCss(_) =>
      s.(cssSize := s.cssSize + size, totalSize := s.totalSize + size, cssCount := s.cssCount + 1)
    case VisitJs(_) =>
      s.(jsSize := s.jsSize + size, totalSize := s.totalSize + size, jsCount := s.jsCount + 1)
    case VisitImage(_) =>
      s.(imageSize := s.imageSize + size, totalSize := s.totalSize + size, imageCount := s.imageCount + 1)
  }

  /** The counters after a sequence of visits, in order. */
  function Tally(s: Sizes, visits: seq<Visit>): Sizes {
    if visits == [] then s else Record(Tally(s, visits[..|visits| - 1]), visits[|visits| - 1])
  }

  /** The sum of the sizes of a sequence of visits. */
  function SumSizes(visits: seq<Visit>): nat {
    if visits == [] then 0 else SumSizes(visits[..|visits| - 1]) + VisitSize(visits[|visits| - 1])
  }

  /** Between resets the counters only grow, stay consistent, count every
      visit once and total the visits' sizes. */
  lemma {:induction false} TallyAccumulates(s: Sizes, visits: seq<Visit>)
    ensures Consistent(s) ==> Consistent(Tally(s, visits))
    ensures Grows(s, Tally(s, visits))
    ensures Tally(s, visits).totalSize == s.totalSize + SumSizes(visits)
    ensures CountSum(Tally(s, visits)) == CountSum(s) + |visits|
  {
    if visits != [] {
      TallyAccumulates(s, visits[..|visits| - 1]);
    }
  }

  /** Visits done in two rounds without a reset add up as one round. */
  lemma {:induction false} TallyAppend(s: Sizes, a: seq<Visit>, b: seq<Visit>)
    ensures Tally(s, a + b) == Tally(Tally(s, a), b)
    decreases |b|
  {
    if b == [] {
      assert a + b == a;
    } else {
      assert (a + b)[..|a + b| - 1] == a + b[..|b| - 1];
      TallyAppend(s, a, b[..|b| - 1]);
    }
  }

  /** formatSize, for the byte counts below 1024 it writes in whole bytes:
      the number in decimal followed by " B". Larger counts are written in
      KB or MB with two decimals, which this model leaves out (None). */
  function FormatSize(bytes: int): (text: Option<string>)
    ensures text.Some? <==> bytes < 1024
    ensures text.Some? ==> |text.value| >= 3 && text.value[|text.value| - 2..] == " B"
  {
    if bytes < 1024 then Some(IntToString(bytes) + " B") else None
  }

  /** The number in front of " B" reads back as the byte count. */
  lemma FormatSizeReadsBack(bytes: int)
    requires 0 <= bytes < 1024
    ensures var t := FormatSize(bytes).value;
      && (forall i | 0 <= i < |t| - 2 :: IsDigit(t[i]))
      && DecimalValue(t[..|t| - 2]) == bytes
  {
    var t := FormatSize(bytes).value;
    assert t[..|t| - 2] == NatToString(bytes);
  }

  class ResourceSizeCalculator {
    var totalSize: int
    var htmlSize: int
    var cssSize: int
    var jsSize: int
    var imageSize: int
    var htmlCount: int
    var cssCount: int
    var jsCount: int
    var imageCount: int

    function Value(): Sizes
      reads this
    {
      Sizes(totalSize, htmlSize, cssSize, jsSize, imageSize, htmlCount, cssCount, jsCount, imageCount)
    }

    /** All nine counters start at zero. */
    constructor ()
      ensures Value() == Zero
    {
      totalSize, htmlSize, cssSize, jsSize, imageSize := 0, 0, 0, 0, 0;
      htmlCount, cssCount, jsCount, imageCount := 0, 0, 0, 0;
    }

    /** visit(HTMLFile). */
    method VisitHtmlFile(htmlFile: FileData)
      modifies this
      ensures Value() == Record(old(Value()), VisitHtml(htmlFile))
    {
      var size := CalculateSize(htmlFile.content);
      htmlSize := htmlSize + size;
      totalSize := totalSize + size;
      htmlCount := htmlCount + 1;
    }

    /** visit(CSSFile). */
    method VisitCssFile(cssFile: FileData)
      modifies this
      ensures Value() == Record(old(Value()), VisitCss(cssFile))
    {
      var size := CalculateSize(cssFile.content);
      cssSize := cssSize + size;
      totalSize := totalSize + size;
      cssCount := cssCount + 1;
    }

    /** visit(JSFile). */
    method VisitJsFile(jsFile: FileData)
      modifies this
      ensures Value() == Record(old(Value()), VisitJs(jsFile))
    {
      var size := CalculateSize(jsFile.content);
      jsSize := jsSize + size;
      totalSize := totalSize + size;
      jsCount := jsCount + 1;
    }

    /** visit(ImageProxy): a loaded image counts its content's bytes, an
        unloaded one the placeholder. */
    method VisitImageProxy(imageProxy: ImageData)
      modifies this
      ensures Value() == Record(old(Value()), VisitImage(imageProxy))
    {
      var size;
      if imageProxy.loaded {
        size := CalculateSize(imageProxy.content);
      } else {
        size := UnloadedImageSize;
      }
      imageSize := imageSize + size;
      totalSize := totalSize + size;
      imageCount := imageCount + 1;
    }

    /** The visit method Java's overloading selects for a visitor call. */
    method Visit(v: Visit)
      modifies this
      ensures Value() == Record(old(Value()), v)
    {
      match v {
        case VisitHtml(f) => VisitHtmlFile(f);
        case VisitCss(f) => VisitCssFile(f);
        case VisitJs(f) => VisitJsFile(f);
        case VisitImage(i) => VisitImageProxy(i);
      }
    }

    /** reset: all nine counters back to zero. */
    method Reset()
      modifies this
      ensures Value() == Zero
    {
      totalSize, htmlSize, cssSize, jsSize, imageSize := 0, 0, 0, 0, 0;
      htmlCount, cssCount, jsCount, imageCount := 0, 0, 0, 0;
    }
  }
}
