/** The checks `decode_base64_image` applies to an uploaded image and the
    arithmetic of `resize_image` (backend/app/infra/images/decode.py).
    Base64 decoding, `cv2.imdecode` and `cv2.resize` are library calls: the
    first two are supplied as functions; an image is its height and width. */
module Decode {
  import opened Wrappers
  import opened Text
  import opened Errors
  import Config
  import PyNum

  const MaxDimension := 4096
  const MinDimension := 100

  /** `SUPPORTED_FORMATS`. */
  predicate Supported(format: string) {
    format == "jpeg" || format == "jpg" || format == "png" || format == "webp"
  }

  /** A decoded image. */
  datatype Image = Image(height: nat, width: nat)

  /** The library calls: `base64.b64decode`, whose failure carries the text of
      its exception; `cv2.imdecode`, which gives `None` on data it cannot read;
      and the text of the exception `cv2.resize` raises on an empty size. */
  datatype Codec = Codec(
    b64decode: string -> Result<seq<int>, string>,
    imdecode: seq<int> -> Option<Image>,
    resizeFailure: string)

  const Wrapped := "이미지 처리 중 오류가 발생했습니다: "
  /** `str(e)` of the `ValueError` unpacking a data URL without a comma raises. */
  const UnpackFailure := "not enough values to unpack (expected 2, got 1)"

  function InvalidFormat(message: string): (e: AppError)
    ensures e.kind == ImageQualityKind && e.code == ImageInvalidFormat
  {
    RaiseWith(ImageQualityKind, ImageInvalidFormat, message)
  }

  /** `header.split("image/")[1].split(";")[0].lower()` for a header that
      contains "image/": the text after the first "image/", up to the next
      ";" or "image/", lowered. */
  function FormatPart(header: string): (r: Option<string>)
    ensures r.Some? <==> Contains(header, "image/")
    ensures r.Some? ==>
      exists pre, raw, post ::
        header == pre + "image/" + raw + post && !Contains(raw, ";") && r.value == Lower(raw)
  {
    match IndexOf(header, "image/")
    case None => None
    case Some(i) =>
      var after := header[i + 6..];
      var piece := SplitOnce(after, "image/")[0];
      var raw := SplitOnce(piece, ";")[0];
      PrefixOfPiece(after, piece, raw);
      FramedFormat(header, i, raw);
      Some(Lower(raw))
  }

  /** A prefix `raw` of what follows the "image/" at `i` frames the header. */
  lemma FramedFormat(header: string, i: nat, raw: string)
    requires OccursAt(header, "image/", i) && |raw| <= |header[i + 6..]|
    requires header[i + 6..] == raw + header[i + 6..][|raw|..]
    ensures header == header[..i] + "image/" + raw + header[i + 6..][|raw|..]
  {
    var after := header[i + 6..];
    assert header == header[..i] + "image/" + after;
  }

  lemma PrefixOfPiece(after: string, piece: string, raw: string)
    requires piece == SplitOnce(after, "image/")[0] && raw == SplitOnce(piece, ";")[0]
    ensures !Contains(raw, ";") && |raw| <= |after| && after == raw + after[|raw|..]
  {
    var a := SplitOnce(after, "image/");
    var b := SplitOnce(piece, ";");
    var x := if |a| == 2 then "image/" + a[1] else [];
    var y := if |b| == 2 then ";" + b[1] else [];
    if |a| == 2 { Regroup(piece, "image/", a[1]); }
    if |b| == 2 { Regroup(raw, ";", b[1]); }
    assert after == piece + x && piece == raw + y;
    Regroup(raw, y, x);
    PrefixTail(after, raw, y + x);
  }

  lemma Regroup(p: string, sep: string, q: string)
    ensures p + sep + q == p + (sep + q)
  {
  }

  lemma PrefixTail(s: string, p: string, rest: string)
    requires s == p + rest
    ensures |p| <= |s| && s == p + s[|p|..]
  {
  }

  /** The payload to decode, or the format error, for the input text. */
  function Payload(data: string): (r: Result<string, AppError>)
    ensures !StartsWith(data, "data:") ==> r == Ok(data)
    ensures StartsWith(data, "data:") && !Contains(data, ",") ==> r == Err(InvalidFormat(Wrapped + UnpackFailure))
  {
    if !StartsWith(data, "data:") then Ok(data)
    else
      var parts := SplitOnce(data, ",");
      if |parts| == 1 then Err(InvalidFormat(Wrapped + UnpackFailure))
      else match FormatPart(parts[0])
        case Some(format) =>
          if !Supported(format) then Err(InvalidFormat("지원하지 않는 이미지 형식: " + format))
          else Ok(parts[1])
        case None => Ok(parts[1])
  }

  /** `resize_image`: the longer side (the height when both are equal) becomes
      `maxDim`, the other `int(side * (maxDim / longer))`. */
  function ResizeDims(img: Image, maxDim: nat): (r: Image)
    requires img.height > 0 && img.width > 0
  {
    if img.width > img.height then
      Image(Scaled(img.height, img.width, maxDim), maxDim)
    else
      Image(maxDim, Scaled(img.width, img.height, maxDim))
  }

  /** The exact length `side * maxDim / longer` of the scaled side; on exact
      reals it is the same as `side * (maxDim / longer)`. */
  function ExactSide(side: nat, longer: nat, maxDim: nat): real
    requires 0 < longer
  {
    side as real * maxDim as real / longer as real
  }

  /** `int(side * (maxDim / longer))`, for a side no longer than `longer`: the
      exact scaled length, truncated. */
  function Scaled(side: nat, longer: nat, maxDim: nat): (r: nat)
    requires 0 < longer && side <= longer
    ensures r <= maxDim
    ensures r as real <= ExactSide(side, longer, maxDim) < r as real + 1.0
  {
    ScaledBound(side, longer, maxDim);
    PyNum.Trunc(ExactSide(side, longer, maxDim))
  }

  lemma ScaledBound(side: nat, longer: nat, maxDim: nat)
    requires 0 < longer && side <= longer
    ensures 0.0 <= ExactSide(side, longer, maxDim) <= maxDim as real
  {
    ProductLe(side as real, longer as real, maxDim as real);
    QuotientLe(side as real * maxDim as real, maxDim as real, longer as real);
  }

  lemma ProductLe(s: real, l: real, m: real)
    requires 0.0 <= s <= l && 0.0 <= m
    ensures 0.0 <= s * m <= l * m
  {
  }

  lemma QuotientLe(x: real, m: real, l: real)
    requires l > 0.0 && 0.0 <= x <= l * m
    ensures 0.0 <= x / l <= m
  {
    var q := x / l;
    assert q * l == x;
  }

  /** The longer side is `maxDim`, the other is at most `maxDim`, and the
      aspect ratio is kept up to the truncation of the shorter side. */
  lemma ResizeAspect(img: Image, maxDim: nat)
    requires img.height > 0 && img.width > 0
    ensures var r := ResizeDims(img, maxDim);
      && (img.width > img.height ==> r.width == maxDim && r.height <= maxDim)
      && (img.width <= img.height ==> r.height == maxDim && r.width <= maxDim)
      && (img.width > img.height ==>
            r.height as real <= ExactSide(img.height, img.width, maxDim) < r.height as real + 1.0)
      && (img.width <= img.height ==>
            r.width as real <= ExactSide(img.width, img.height, maxDim) < r.width as real + 1.0)
  {
  }

  /** `decode_base64_image`: the checks in their order, each failure an
      `ImageQualityError`; a library failure is wrapped as
      `IMAGE_INVALID_FORMAT` with its text. */
  function DecodeBase64Image(data: string, settings: Config.Settings, codec: Codec): (r: Result<Image, AppError>)
    ensures r.Err? ==> (r.error.kind == ImageQualityKind
      && (r.error.code == ImageInvalidFormat || r.error.code == ImageTooLarge))
    ensures r.Ok? ==> 0 < r.value.height <= MaxDimension && 0 < r.value.width <= MaxDimension
  {
    match Payload(data)
    case Err(e) => Err(e)
    case Ok(encoded) => DecodePayload(encoded, settings, codec)
  }

  /** The checks after the header: decoding, size, readability, resolution. */
  function DecodePayload(encoded: string, settings: Config.Settings, codec: Codec): (r: Result<Image, AppError>)
    ensures r.Err? ==> (r.error.kind == ImageQualityKind
      && (r.error.code == ImageInvalidFormat || r.error.code == ImageTooLarge))
    ensures r.Ok? ==> 0 < r.value.height <= MaxDimension && 0 < r.value.width <= MaxDimension
  {
      match codec.b64decode(encoded)
      case Err(text) => Err(InvalidFormat(Wrapped + text))
      case Ok(bytes) =>
        if |bytes| > settings.wsMaxMessageSize then
          var mb := |bytes| as real / 1024.0 / 1024.0;
          Err(RaiseWith(ImageQualityKind, ImageTooLarge, "이미지 크기가 너무 큽니다: " + PyNum.Format1f(mb) + "MB"))
        else match codec.imdecode(bytes)
          case None => Err(InvalidFormat("이미지 디코딩에 실패했습니다"))
          case Some(img) =>
            if img.width < MinDimension || img.height < MinDimension then
              Err(InvalidFormat("이미지 해상도가 너무 낮습니다: " + NatToString(img.width) + "x" + NatToString(img.height)))
            else if img.width > MaxDimension || img.height > MaxDimension then
              var resized := ResizeDims(img, MaxDimension);
              if resized.height == 0 || resized.width == 0 then Err(InvalidFormat(Wrapped + codec.resizeFailure))
              else Ok(resized)
            else Ok(img)
  }

  /** What the image checks decide once the payload has been decoded to
      `bytes`: too large, unreadable, too small, resized, or kept. */
  lemma DecodeRules(data: string, settings: Config.Settings, codec: Codec, bytes: seq<int>)
    requires Payload(data).Ok? && codec.b64decode(Payload(data).value) == Ok(bytes)
    ensures var r := DecodeBase64Image(data, settings, codec);
      && (|bytes| > settings.wsMaxMessageSize <==> r.Err? && r.error.code == ImageTooLarge)
      && (|bytes| <= settings.wsMaxMessageSize && codec.imdecode(bytes).None? ==>
            r == Err(InvalidFormat("이미지 디코딩에 실패했습니다")))
      && (|bytes| <= settings.wsMaxMessageSize && codec.imdecode(bytes).Some? ==>
            var img := codec.imdecode(bytes).value;
            && (img.width < MinDimension || img.height < MinDimension ==> r.Err? && r.error.code == ImageInvalidFormat)
            && (MinDimension <= img.width <= MaxDimension && MinDimension <= img.height <= MaxDimension ==> r == Ok(img))
            && (img.width >= MinDimension && img.height >= MinDimension
                && (img.width > MaxDimension || img.height > MaxDimension) && r.Ok? ==>
                  r.value == ResizeDims(img, MaxDimension)))
  {
  }

  /** A data URL splits at its first comma. */
  lemma DataUrlSplit(header: string, encoded: string)
    requires StartsWith(header, "data:") && !Contains(header, ",")
    ensures StartsWith(header + "," + encoded, "data:")
    ensures SplitOnce(header + "," + encoded, ",") == [header, encoded]
  {
    var s := header + "," + encoded;
    assert s[..5] == header[..5];
    assert OccursAt(s, ",", |header|);
    var i := IndexOf(s, ",").value;
    if i < |header| {
      assert s[i..i + 1] == header[i..i + 1];
      assert OccursAt(header, ",", i);
    }
    assert s[..|header|] == header;
    assert s[|header| + 1..] == encoded;
  }

  /** A data URL whose header names an image type is refused, naming the type,
      unless the type is supported; then its payload is decoded. */
  lemma TypedHeader(header: string, encoded: string)
    requires StartsWith(header, "data:") && !Contains(header, ",") && Contains(header, "image/")
    ensures var format := FormatPart(header).value;
      Payload(header + "," + encoded)
        == if Supported(format) then Ok(encoded) else Err(InvalidFormat("지원하지 않는 이미지 형식: " + format))
  {
    DataUrlSplit(header, encoded);
  }

  /** A data URL whose header names no image type decodes as its bare payload. */
  lemma UntypedHeader(header: string, encoded: string, settings: Config.Settings, codec: Codec)
    requires StartsWith(header, "data:") && !Contains(header, ",") && !Contains(header, "image/")
    requires !StartsWith(encoded, "data:")
    ensures DecodeBase64Image(header + "," + encoded, settings, codec)
         == DecodeBase64Image(encoded, settings, codec)
  {
    DataUrlSplit(header, encoded);
    assert Payload(header + "," + encoded) == Ok(encoded) == Payload(encoded);
  }
}
