/** The image helpers: splitting a base64 data URL into its payload and format, the
    download URL of a QQ image, and the rule that picks an image format from a response's
    content type. */
module ImageUtil {
  import opened Wrappers
  import opened PyStrings

  /** `extract_b64_and_format`: the payload after the last ',', and the format read from
      the text after the last ':', cut at its first ';', after that part's last '/'. */
  function ExtractB64AndFormat(imageBase64Data: string): (r: (string, string))
    ensures ',' !in r.0
    ensures ':' !in r.1 && ';' !in r.1 && '/' !in r.1
    ensures ',' !in imageBase64Data ==> r.0 == imageBase64Data
  {
    var afterColon := AfterLast(imageBase64Data, ':');
    var mediaType := BeforeFirst(afterColon, ';');
    var imageFormat := AfterLast(mediaType, '/');
    SplitPiecesWithin(afterColon, ';', ':');
    SplitPiecesWithin(mediaType, '/', ':');
    SplitPiecesWithin(mediaType, '/', ';');
    var b64 := AfterLast(imageBase64Data, ',');
    assert ',' !in imageBase64Data ==> b64 == imageBase64Data by {
      if ',' !in imageBase64Data {
        SplitWithoutSep(imageBase64Data, ',');
      }
    }
    (b64, imageFormat)
  }

  /** The data URL written for a payload and a format. */
  function DataUrl(b64: string, imageFormat: string): string {
    "data:image/" + imageFormat + ";base64," + b64
  }

  /** The payload of a data URL is the text after its only ','. */
  lemma DataUrlPayload(b64: string, imageFormat: string)
    requires ',' !in b64
    ensures AfterLast(DataUrl(b64, imageFormat), ',') == b64
  {
    assert DataUrl(b64, imageFormat) == ("data:image/" + imageFormat + ";base64") + [','] + b64;
    AfterLastOf("data:image/" + imageFormat + ";base64", ',', b64);
  }

  /** After the only ':' of a data URL comes "image/<format>;base64,<payload>". */
  lemma DataUrlAfterColon(b64: string, imageFormat: string)
    requires ':' !in b64 && ':' !in imageFormat
    ensures AfterLast(DataUrl(b64, imageFormat), ':') == "image/" + imageFormat + ";base64," + b64
  {
    var tail := "image/" + imageFormat + ";base64," + b64;
    assert DataUrl(b64, imageFormat) == "data" + [':'] + tail;
    assert forall k :: 0 <= k < |tail| ==> tail[k] != ':';
    AfterLastOf("data", ':', tail);
  }

  /** That text cut at its first ';' is "image/<format>", whose part after the '/' is the format. */
  lemma MediaTypeFormat(b64: string, imageFormat: string)
    requires ';' !in imageFormat && '/' !in imageFormat
    ensures var media := BeforeFirst("image/" + imageFormat + ";base64," + b64, ';');
      media == "image/" + imageFormat && AfterLast(media, '/') == imageFormat
  {
    var media := "image/" + imageFormat;
    assert "image/" + imageFormat + ";base64," + b64 == media + [';'] + ("base64," + b64);
    assert forall k :: 0 <= k < |media| ==> media[k] != ';';
    BeforeFirstOf(media, ';', "base64," + b64);
    assert media == "image" + ['/'] + imageFormat;
    AfterLastOf("image", '/', imageFormat);
  }

  /** Round trip: a data URL built from a payload without ',' or ':' and a format without
      ':', ';', '/' or ',' splits back into that payload and format. */
  lemma ExtractDataUrl(b64: string, imageFormat: string)
    requires ',' !in b64 && ':' !in b64
    requires ':' !in imageFormat && ';' !in imageFormat && '/' !in imageFormat && ',' !in imageFormat
    ensures ExtractB64AndFormat(DataUrl(b64, imageFormat)) == (b64, imageFormat)
  {
    DataUrlPayload(b64, imageFormat);
    DataUrlAfterColon(b64, imageFormat);
    MediaTypeFormat(b64, imageFormat);
  }

  /** The example of the doc comment. */
  lemma JpegExample()
    ensures ExtractB64AndFormat("data:image/jpeg;base64,xxx") == ("xxx", "jpeg")
  {
    assert "data:image/jpeg;base64,xxx" == DataUrl("xxx", "jpeg");
    ExtractDataUrl("xxx", "jpeg");
  }

  /** The parts of an image URL `urlparse` yields that the helper reads. */
  datatype ParsedUrl = ParsedUrl(scheme: string, netloc: string, path: string, query: string)

  /** `get_qq_image_downloadable_url`: plain http on the same host and path, whatever the
      scheme; the query goes back separately (its `parse_qs` decoding is not modelled). */
  function DownloadableUrl(parsed: ParsedUrl): (r: (string, string))
    ensures StartsWith(r.0, "http://") && r.0[|"http://"|..] == parsed.netloc + parsed.path
    ensures r.1 == parsed.query
  {
    ("http://" + parsed.netloc + parsed.path, parsed.query)
  }

  /** The format rule of `get_qq_image_bytes`: none or an empty content type gives "jpeg";
      one not starting with "image/" gives the lower-cased format PIL detects (`pilFormat`);
      otherwise the text after the content type's last '/'. */
  function ImageFormat(contentType: Option<string>, pilFormat: string): (r: string)
    ensures contentType.None? || contentType == Some("") ==> r == "jpeg"
    ensures contentType.Some? && contentType.value != "" && !StartsWith(contentType.value, "image/") ==> r == Lower(pilFormat)
  {
    if contentType.None? || contentType.value == "" then "jpeg"
    else if !StartsWith(contentType.value, "image/") then Lower(pilFormat)
    else AfterLast(contentType.value, '/')
  }

  /** An `image/X` content type gives X when X holds no further '/'. */
  lemma ImageFormatOfImageType(x: string, pilFormat: string)
    requires '/' !in x
    ensures ImageFormat(Some("image/" + x), pilFormat) == x
  {
    var ct := "image/" + x;
    assert ct[..|"image/"|] == "image/";
    assert ct == "image" + ['/'] + x;
    AfterLastOf("image", '/', x);
  }
}
