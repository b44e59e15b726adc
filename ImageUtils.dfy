/**
 * Uploaded-image checks and the WebP conversion.  The encoder is abstract:
 * `sizeAt(q)` is the size in bytes of the WebP output at quality `q`, and
 * whether the upload decodes at all is an input.
 */
module ImageUtils {
  import opened Wrappers
  import opened Text

  const WEBP_QUALITY: int := 85
  const MIN_QUALITY: int := 50
  const QUALITY_STEP: int := 10
  const MAX_FILE_SIZE: nat := 5 * 1024 * 1024
  const MIB: nat := 1024 * 1024
  const DEFAULT_ALLOWED_TYPES: seq<string> := ["image/jpeg", "image/png", "image/gif", "image/webp"]

  /**
   * `f"{n / 1024 / 1024:.1f}"`: the size in MiB to one decimal.  The
   * quotient is exact in binary, so the text is the value correctly
   * rounded to tenths, ties to even.
   */
  function MbText(n: nat): (r: string)
    ensures '.' in r
  {
    var num := 10 * n;
    var q := num / MIB;
    var rem := num % MIB;
    var t := if 2 * rem > MIB then q + 1 else if 2 * rem < MIB then q else if q % 2 == 0 then q else q + 1;
    NatToString(t / 10) + "." + [DigitChar(t % 10)]
  }

  lemma MbTextDefault()
    ensures MbText(MAX_FILE_SIZE) == "5.0"
  {
    assert 10 * MAX_FILE_SIZE / MIB == 50;
    assert NatToString(5) == "5";
  }

  /** Python's `f"{x}"` of an optional text: the text, or `None`. */
  function ShowOptional(s: Option<string>): string {
    if s.Some? then s.value else "None"
  }

  /**
   * `validate_image_file`: the content type must be among the allowed ones
   * (checked first), and the size at most twice `max_size`.
   */
  function ValidateImageFile(contentType: Option<string>, size: nat, allowed: Option<seq<string>>, maxSize: nat)
    : (r: (bool, Option<string>))
    ensures var types := allowed.GetOr(DEFAULT_ALLOWED_TYPES);
      r.0 <==> contentType.Some? && contentType.value in types && size <= 2 * maxSize
    ensures r.0 <==> r.1.None?
    ensures var types := allowed.GetOr(DEFAULT_ALLOWED_TYPES);
      (contentType.None? || contentType.value !in types) ==>
        r.1 == Some("Invalid file type: " + ShowOptional(contentType) + ". Allowed types: " + Join(types, ", "))
    ensures var types := allowed.GetOr(DEFAULT_ALLOWED_TYPES);
      contentType.Some? && contentType.value in types && size > 2 * maxSize ==>
        r.1 == Some("File too large. Maximum size is " + MbText(maxSize) + "MB")
  {
    var types := allowed.GetOr(DEFAULT_ALLOWED_TYPES);
    if contentType.None? || contentType.value !in types then
      (false, Some("Invalid file type: " + ShowOptional(contentType) + ". Allowed types: " + Join(types, ", ")))
    else if size > 2 * maxSize then
      (false, Some("File too large. Maximum size is " + MbText(maxSize) + "MB"))
    else (true, None)
  }

  /**
   * The quality loop of `convert_to_webp`: from quality `q`, stepping down
   * by 10 while the quality is at least 50, stop at the first output that
   * fits.  The result is the quality the loop ended with and the size of
   * the last output written (`last` when nothing was written).
   */
  function Compress(sizeAt: int -> nat, q: int, maxSize: nat, last: nat): (r: (int, nat))
    decreases if q < MIN_QUALITY then 0 else q
  {
    if q < MIN_QUALITY then (q, last)
    else
      var s := sizeAt(q);
      if s <= maxSize then (q, s) else Compress(sizeAt, q - QUALITY_STEP, maxSize, s)
  }

  /**
   * The loop keeps the first quality whose output fits, every quality tried
   * before it did not fit, it never goes below 50, and when no quality fits
   * the last output (at the lowest quality tried) is too large.
   */
  lemma {:induction false} CompressFirstFit(sizeAt: int -> nat, q: int, maxSize: nat, last: nat)
    ensures var (fq, s) := Compress(sizeAt, q, maxSize, last);
      fq <= q && (q - fq) % QUALITY_STEP == 0 &&
      (forall k :: fq < k <= q && (q - k) % QUALITY_STEP == 0 ==> sizeAt(k) > maxSize) &&
      (fq >= MIN_QUALITY ==> s == sizeAt(fq) && s <= maxSize) &&
      (fq < MIN_QUALITY && fq != q ==> fq + QUALITY_STEP >= MIN_QUALITY && s == sizeAt(fq + QUALITY_STEP) && s > maxSize) &&
      (fq == q && q < MIN_QUALITY ==> s == last)
    decreases if q < MIN_QUALITY then 0 else q
  {
    if q >= MIN_QUALITY && sizeAt(q) > maxSize {
      CompressFirstFit(sizeAt, q - QUALITY_STEP, maxSize, sizeAt(q));
      var (fq, s) := Compress(sizeAt, q - QUALITY_STEP, maxSize, sizeAt(q));
      forall k | fq < k <= q && (q - k) % QUALITY_STEP == 0 ensures sizeAt(k) > maxSize {
        if k < q {
          assert (q - QUALITY_STEP - k) % QUALITY_STEP == 0;
        }
      }
    }
  }

  /**
   * `os.path.splitext(p)[0]` for a POSIX path: the text before the last
   * '.', when that dot lies in the last path component and is not one of
   * its leading dots; otherwise the whole path.
   */
  function SplitExtRoot(p: string): (r: string)
    ensures |r| <= |p| && r == p[..|r|]
    ensures '.' !in p ==> r == p
  {
    var sep := LastIndexOf(p, '/');
    var dot := LastIndexOf(p, '.');
    if dot > sep && exists k :: sep + 1 <= k < dot && p[k] != '.' then p[..dot] else p
  }

  /** The converted file's name: the upload's name without its extension, plus ".webp". */
  function WebpName(name: string): (r: string)
    ensures |r| >= 5 && r[|r| - 5..] == ".webp"
    ensures r[..|r| - 5] == SplitExtRoot(name)
    ensures '.' !in name ==> r == name + ".webp"
  {
    SplitExtRoot(name) + ".webp"
  }

  /** The extension after the last dot is replaced. */
  lemma WebpNameDropsExtension()
    ensures WebpName("photo.png") == "photo.webp"
  {
    var a := "photo.png";
    assert a[5] == '.' && a[6] != '.' && a[7] != '.' && a[8] != '.';
    assert LastIndexOf(a, '.') == 5;
    assert forall k :: 0 <= k < |a| ==> a[k] != '/';
    assert LastIndexOf(a, '/') == -1;
    assert a[0] != '.';
    assert SplitExtRoot(a) == a[..5] == "photo";
  }

  /** A dot in a directory name is not an extension. */
  lemma WebpNameIgnoresDirectoryDot()
    ensures WebpName("dir.v2/logo") == "dir.v2/logo.webp"
  {
    var b := "dir.v2/logo";
    assert b[6] == '/' && b[7] != '/' && b[8] != '/' && b[9] != '/' && b[10] != '/';
    assert LastIndexOf(b, '/') == 6;
    assert b[3] == '.' && forall k :: 3 < k < |b| ==> b[k] != '.';
    assert LastIndexOf(b, '.') == 3;
  }

  /** A leading dot starts a hidden name, not an extension. */
  lemma WebpNameKeepsLeadingDot()
    ensures WebpName(".hidden") == ".hidden.webp"
  {
    var c := ".hidden";
    assert c[0] == '.' && forall k :: 0 < k < |c| ==> c[k] != '.';
    assert LastIndexOf(c, '.') == 0;
    assert forall k :: 0 <= k < |c| ==> c[k] != '/';
    assert LastIndexOf(c, '/') == -1;
  }

  datatype Converted = Converted(name: string, size: nat)

  /**
   * `convert_to_webp`: an image that does not decode fails with the
   * decoder's message; otherwise the quality loop runs and the output is
   * kept if its size fits, else the call fails.  Both failures carry the
   * "Failed to convert image: " prefix, since the size error is raised
   * inside the same `try`.
   */
  function ConvertOutcome(name: string, decodes: bool, detail: string, sizeAt: int -> nat, maxSize: nat, quality: int)
    : (r: Result<Converted, string>)
    ensures !decodes ==> r == Err("Failed to convert image: " + detail)
    ensures r.Ok? ==> r.value.size <= maxSize && r.value.name == WebpName(name)
    ensures decodes && r.Err? ==>
      r.error == "Failed to convert image: Unable to compress image below " + MbText(maxSize) + "MB"
  {
    if !decodes then Err("Failed to convert image: " + detail)
    else
      var (_, s) := Compress(sizeAt, quality, maxSize, 0);
      if s > maxSize then Err("Failed to convert image: Unable to compress image below " + MbText(maxSize) + "MB")
      else Ok(Converted(WebpName(name), s))
  }

  /**
   * From a quality of at least 50, conversion succeeds exactly when some
   * quality on the way down to 50 gives an output that fits, and then the
   * output is the one at the first such quality.
   */
  lemma ConvertSucceedsIffSomeQualityFits(name: string, detail: string, sizeAt: int -> nat, maxSize: nat, quality: int)
    requires quality >= MIN_QUALITY
    ensures ConvertOutcome(name, true, detail, sizeAt, maxSize, quality).Ok? <==>
      exists k :: MIN_QUALITY <= k <= quality && (quality - k) % QUALITY_STEP == 0 && sizeAt(k) <= maxSize
    ensures ConvertOutcome(name, true, detail, sizeAt, maxSize, quality).Ok? ==>
      var fq := Compress(sizeAt, quality, maxSize, 0).0;
      MIN_QUALITY <= fq <= quality &&
      ConvertOutcome(name, true, detail, sizeAt, maxSize, quality).value.size == sizeAt(fq)
  {
    CompressFirstFit(sizeAt, quality, maxSize, 0);
    var (fq, s) := Compress(sizeAt, quality, maxSize, 0);
    if exists k :: MIN_QUALITY <= k <= quality && (quality - k) % QUALITY_STEP == 0 && sizeAt(k) <= maxSize {
      var k :| MIN_QUALITY <= k <= quality && (quality - k) % QUALITY_STEP == 0 && sizeAt(k) <= maxSize;
      if fq < MIN_QUALITY {
        assert false;
      }
    }
  }

  /** `convert_to_webp`, with the loop that writes, measures and steps the quality down. */
  method ConvertToWebp(name: string, decodes: bool, detail: string, sizeAt: int -> nat, maxSize: nat, quality: int)
    returns (r: Result<Converted, string>)
    ensures r == ConvertOutcome(name, decodes, detail, sizeAt, maxSize, quality)
  {
    if !decodes {
      return Err("Failed to convert image: " + detail);
    }
    var current := quality;
    var size: nat := 0;
    while current >= MIN_QUALITY
      invariant Compress(sizeAt, current, maxSize, size) == Compress(sizeAt, quality, maxSize, 0)
      decreases current
    {
      size := sizeAt(current);
      if size <= maxSize {
        break;
      }
      current := current - QUALITY_STEP;
    }
    if size > maxSize {
      return Err("Failed to convert image: Unable to compress image below " + MbText(maxSize) + "MB");
    }
    r := Ok(Converted(WebpName(name), size));
  }
}
