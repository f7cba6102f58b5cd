/**
 * Image intake of the upload widget (frontend/src/components/HeartUpload.tsx):
 * the aspect-preserving downscale to at most 800 pixels on the longer edge,
 * the rewrite of the file name to `.jpg`, the `image/` MIME gate, and the
 * fall back to the original file when compression fails.
 */
module HeartUpload {
  import opened Wrappers
  import opened JsText
  import opened Web

  /** The longest edge the compressed image may have. */
  const MaxSize: real := 800.0

  /**
   * `(width, height)` is `(w, h)` scaled to fit an 800 by 800 box: no edge
   * beyond 800, the aspect ratio kept, never enlarged, an image that already
   * fits kept as it is, and otherwise the longer edge (the height, for a
   * square) brought to exactly 800.
   */
  ghost predicate ScaledToFit(w: real, h: real, width: real, height: real)
  {
    && 0.0 <= width <= MaxSize && 0.0 <= height <= MaxSize
    && width * h == height * w
    && width <= w && height <= h
    && (w <= MaxSize && h <= MaxSize ==> width == w && height == h)
    && (w > h && w > MaxSize ==> width == MaxSize)
    && (w <= h && h > MaxSize ==> height == MaxSize)
  }

  /** Scaling the edge `a` by `MaxSize / b`, for `b` the longer edge beyond the cap. */
  lemma ScaleDown(a: real, b: real)
    requires b > MaxSize && 0.0 <= a <= b
    ensures var r := (a * MaxSize) / b;
      && r * b == a * MaxSize
      && 0.0 <= r <= MaxSize
      && r <= a
  {
    var r := (a * MaxSize) / b;
    assert r * b == a * MaxSize;
    assert r * b <= MaxSize * b;
    assert a * (b - MaxSize) >= 0.0;
    assert r * b <= a * b;
  }

  /** The resize of `compressImage`: the longer edge capped at 800, the ratio kept. */
  method ResizeDimensions(w: nat, h: nat) returns (width: real, height: real)
    ensures ScaledToFit(w as real, h as real, width, height)
  {
    width := w as real;
    height := h as real;
    if width > height {
      if width > MaxSize {
        ScaleDown(height, width);
        height := (height * MaxSize) / width;
        width := MaxSize;
      }
    } else {
      if height > MaxSize {
        ScaleDown(width, height);
        width := (width * MaxSize) / height;
        height := MaxSize;
      }
    }
  }

  /** For a non-degenerate image the fit properties leave exactly one answer. */
  lemma ScaledToFitUnique(w: real, h: real, width1: real, height1: real, width2: real, height2: real)
    requires w > 0.0 && h > 0.0
    requires ScaledToFit(w, h, width1, height1) && ScaledToFit(w, h, width2, height2)
    ensures width1 == width2 && height1 == height2
  {
    if w > h && w > MaxSize {
      assert height1 * w == height2 * w;
    } else if w <= h && h > MaxSize {
      assert width1 * h == width2 * h;
    }
  }

  /** Length of the longest run of `\w` characters that ends `s`. */
  function WordSuffixLength(s: string): (k: nat)
    ensures k <= |s|
    ensures forall i :: |s| - k <= i < |s| ==> IsWordChar(s[i])
    ensures k < |s| ==> !IsWordChar(s[|s| - k - 1])
  {
    if s != [] && IsWordChar(s[|s| - 1]) then WordSuffixLength(s[..|s| - 1]) + 1 else 0
  }

  /**
   * `/\.\w+$/` matches `name` at `i`: a dot at `i` followed by one or more
   * word characters up to the end of the name.
   */
  ghost predicate ExtensionAt(name: string, i: int)
  {
    && 0 <= i < |name| - 1
    && name[i] == '.'
    && forall j :: i < j < |name| ==> IsWordChar(name[j])
  }

  /** `name.replace(/\.\w+$/, '.jpg')`. */
  function JpegName(name: string): (r: string)
    ensures r == name || (4 <= |r| <= |name| + 3 && name[|r| - 4] == '.' && r == name[..|r| - 4] + ".jpg")
  {
    var k := WordSuffixLength(name);
    if 0 < k < |name| && name[|name| - k - 1] == '.' then name[..|name| - k - 1] + ".jpg"
    else name
  }

  /** The pattern can only match right before the trailing run of word characters. */
  lemma ExtensionAtWordRun(name: string, i: int)
    requires ExtensionAt(name, i)
    ensures i == |name| - WordSuffixLength(name) - 1
  {
    var k := WordSuffixLength(name);
    assert !IsWordChar(name[i]);
    assert i + 1 < |name| && IsWordChar(name[|name| - 1]);
  }

  /**
   * `JpegName` is the regular-expression replacement: where the pattern
   * matches, the name up to the dot gets `.jpg`; where it matches nowhere,
   * the name is unchanged.
   */
  lemma JpegNameIsReplacement(name: string)
    ensures forall i :: ExtensionAt(name, i) ==> JpegName(name) == name[..i] + ".jpg"
    ensures (forall i :: !ExtensionAt(name, i)) ==> JpegName(name) == name
  {
    var k := WordSuffixLength(name);
    forall i | ExtensionAt(name, i)
      ensures JpegName(name) == name[..i] + ".jpg"
    {
      ExtensionAtWordRun(name, i);
    }
    if 0 < k < |name| && name[|name| - k - 1] == '.' {
      assert ExtensionAt(name, |name| - k - 1);
    }
  }

  /** A name of the form `stem.ext`, with `ext` made of word characters, becomes `stem.jpg`. */
  lemma JpegNameOfStemAndExtension(stem: string, ext: string)
    requires ext != [] && forall j :: 0 <= j < |ext| ==> IsWordChar(ext[j])
    ensures JpegName(stem + "." + ext) == stem + ".jpg"
  {
    var name := stem + "." + ext;
    assert ExtensionAt(name, |stem|);
    JpegNameIsReplacement(name);
    assert name[..|stem|] == stem;
  }

  /** Rewriting twice is rewriting once. */
  lemma JpegNameIdempotent(name: string)
    ensures JpegName(JpegName(name)) == JpegName(name)
  {
    var r := JpegName(name);
    var k := WordSuffixLength(name);
    if 0 < k < |name| && name[|name| - k - 1] == '.' {
      var stem := name[..|name| - k - 1];
      assert r == stem + "." + "jpg";
      JpegNameOfStemAndExtension(stem, "jpg");
    }
  }

  /** `file.type.startsWith('image/')`. */
  predicate IsImageType(mimeType: string)
    ensures IsImageType(mimeType) <==> |mimeType| >= 6 && mimeType[..6] == "image/"
  {
    "image/" <= mimeType
  }

  /**
   * What the browser does for one call of `compressImage`: whether
   * `readAsDataURL` succeeds, the decoded image's pixel size if it loads,
   * whether a 2D canvas context exists, the blob `toBlob` hands back (or
   * none), the URL `createObjectURL` returns and the clock `Date.now()`.
   */
  datatype CompressEnv = CompressEnv(
    readOk: bool,
    image: Option<(nat, nat)>,
    hasContext: bool,
    blob: Option<seq<bv8>>,
    objectUrl: string,
    now: int)

  /** The value `compressImage` resolves with: the new file, its preview URL, and the canvas size it was drawn at. */
  datatype Compressed = Compressed(file: File, previewUrl: string, width: real, height: real)

  /** Every browser step of `compressImage` succeeds. */
  predicate CompressionSucceeds(env: CompressEnv)
  {
    env.readOk && env.image.Some? && env.hasContext && env.blob.Some?
  }

  /** The JPEG `File` built from the blob. */
  function JpegFile(original: File, blob: seq<bv8>, now: int): (f: File)
    ensures f.name == JpegName(original.name) && f.mimeType == "image/jpeg"
    ensures f.content == blob && f.lastModified == now
  {
    File(JpegName(original.name), "image/jpeg", blob, now)
  }

  /**
   * `compressImage`: read the file, decode it, draw it on a canvas of the
   * fitted size, and encode it as JPEG; each failing step rejects with its
   * own message.
   */
  method CompressImage(file: File, env: CompressEnv) returns (r: Result<Compressed, string>)
    ensures r.Ok? <==> CompressionSucceeds(env)
    ensures !env.readOk ==> r == Err("File read failed")
    ensures env.readOk && env.image.None? ==> r == Err("Image load failed")
    ensures env.readOk && env.image.Some? && !env.hasContext ==> r == Err("Canvas context not available")
    ensures env.readOk && env.image.Some? && env.hasContext && env.blob.None? ==> r == Err("Compression failed")
    ensures r.Ok? ==>
      && r.value.file == JpegFile(file, env.blob.value, env.now)
      && r.value.previewUrl == env.objectUrl
      && ScaledToFit(env.image.value.0 as real, env.image.value.1 as real, r.value.width, r.value.height)
  {
    if !env.readOk {
      return Err("File read failed");
    }
    if env.image.None? {
      return Err("Image load failed");
    }
    if !env.hasContext {
      return Err("Canvas context not available");
    }
    var (w, h) := env.image.value;
    var width, height := ResizeDimensions(w, h);
    if env.blob.None? {
      return Err("Compression failed");
    }
    r := Ok(Compressed(JpegFile(file, env.blob.value, env.now), env.objectUrl, width, height));
  }

  /** One call of `onImageUpload(file, previewUrl)`. */
  datatype UploadCall = UploadCall(file: File, previewUrl: string)

  /**
   * `handleFile`: a non-image file (or none) is ignored; otherwise the
   * compressed file is handed on, or, if compression fails, the original
   * file with its data URL once the fall-back read completes (`fallbackRead`
   * is that data URL, or none when the read never fires `onload`).
   */
  method HandleFile(file: Option<File>, env: CompressEnv, fallbackRead: Option<string>)
    returns (call: Option<UploadCall>)
    ensures call.Some? ==> file.Some? && IsImageType(file.value.mimeType)
    ensures file.Some? && IsImageType(file.value.mimeType) && CompressionSucceeds(env) ==>
      call == Some(UploadCall(JpegFile(file.value, env.blob.value, env.now), env.objectUrl))
    ensures file.Some? && IsImageType(file.value.mimeType) && !CompressionSucceeds(env) ==>
      call == if fallbackRead.Some? then Some(UploadCall(file.value, fallbackRead.value)) else None
  {
    call := None;
    if file.Some? && IsImageType(file.value.mimeType) {
      var compressed := CompressImage(file.value, env);
      match compressed {
        case Ok(c) =>
          call := Some(UploadCall(c.file, c.previewUrl));
        case Err(_) =>
          if fallbackRead.Some? {
            call := Some(UploadCall(file.value, fallbackRead.value));
          }
      }
    }
  }
}
