/** Dropping the header of a data URL (RFC 2397, section 3: `data:[<mediatype>][;base64],<data>`)
    as the page does before sending audio, with `dataUrl.split(",")[1]`. */
module DataUrl {
  import opened Outcomes
  import opened JsStrings

  /** `dataUrl.split(",")[1]`: the text after the first comma, up to a second comma if there
      is one; `undefined` (here `None`) when the string has no comma at all. */
  function StripDataUrlPrefix(dataUrl: string): (r: Option<string>)
    ensures r.Some? <==> ',' in dataUrl
    ensures r.Some? ==> ',' !in r.value
  {
    SecondPiece(dataUrl, ',')
  }

  /** The data URL `FileReader.readAsDataURL` produces for base64-encoded content. */
  function Base64DataUrl(mediaType: string, payload: string): string
  {
    "data:" + mediaType + ";base64," + payload
  }

  /** Whatever header precedes the first comma, the strip keeps the text after it, cut at
      the next comma. */
  lemma {:induction false} StripAfterHeader(header: string, rest: string)
    requires ',' !in header
    ensures StripDataUrlPrefix(header + [','] + rest) == Some(Split(rest, ',')[0])
  {
    if header == [] {
      assert ([] + [','] + rest)[1..] == rest;
    } else {
      assert (header + [','] + rest)[1..] == header[1..] + [','] + rest;
      StripAfterHeader(header[1..], rest);
    }
  }

  /** Stripping a base64 data URL gives back exactly the payload, since neither the media
      type nor the base64 alphabet contains a comma. */
  lemma StripBase64DataUrl(mediaType: string, payload: string)
    requires ',' !in mediaType && ',' !in payload
    ensures StripDataUrlPrefix(Base64DataUrl(mediaType, payload)) == Some(payload)
  {
    var header := "data:" + mediaType + ";base64";
    assert Base64DataUrl(mediaType, payload) == header + [','] + payload;
    StripAfterHeader(header, payload);
    SplitNoSeparator(payload, ',');
  }

  /** A string without a comma strips to `undefined`. */
  lemma StripWithoutComma(s: string)
    requires ',' !in s
    ensures StripDataUrlPrefix(s) == None
  {
  }
}
