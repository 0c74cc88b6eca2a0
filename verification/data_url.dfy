/** The `data:` URLs of RFC 2397 in the one form the service builds: media
    type image/jpeg, the `;base64` marker and the base 64 text of the image
    (section 3 of RFC 2397: `data:[<mediatype>][;base64],<data>`). */
module DataUrl {
  import opened Outcomes
  import Base64
  import opened Text

  const JpegBase64Prefix: string := "data:image/jpeg;base64,"

  /** The URL `f"data:image/jpeg;base64,{base64_image}"` that carries an image
      to the vision model. */
  function JpegDataUrl(image: Base64.Bytes): (url: string)
    ensures |url| == |JpegBase64Prefix| + 4 * ((|image| + 2) / 3)
    ensures StartsWith(url, JpegBase64Prefix)
  {
    JpegBase64Prefix + Base64.Encode(image)
  }

  /** The image a JPEG base 64 data URL carries, or None for any other text. */
  function ParseJpegDataUrl(url: string): Option<Base64.Bytes>
  {
    if StartsWith(url, JpegBase64Prefix)
    then Base64.Decode(url[|JpegBase64Prefix|..])
    else None
  }

  /** A URL carries an image exactly when it is the URL built from that
      image. */
  lemma ParseIffBuild(url: string, image: Base64.Bytes)
    ensures ParseJpegDataUrl(url) == Some(image) <==> JpegDataUrl(image) == url
  {
    var n := |JpegBase64Prefix|;
    if JpegDataUrl(image) == url {
      assert url[n..] == Base64.Encode(image);
      Base64.DecodeIffEncode(url[n..], image);
    }
    if ParseJpegDataUrl(url) == Some(image) {
      Base64.DecodeIffEncode(url[n..], image);
      assert url == url[..n] + url[n..];
    }
  }

  /** Different images travel as different URLs. */
  lemma JpegDataUrlInjective(a: Base64.Bytes, b: Base64.Bytes)
    ensures JpegDataUrl(a) == JpegDataUrl(b) <==> a == b
  {
    ParseIffBuild(JpegDataUrl(a), a);
    ParseIffBuild(JpegDataUrl(a), b);
  }
}
