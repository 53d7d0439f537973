/** Helpers that attach and read the `charset` parameter of a media type, and the media
    types the client uses for plain text, XML, JSON and protobuf bodies. */
module MediaTypes {
  import opened Wrappers

  const CHARSET: string := "charset"
  /** `StandardCharsets.UTF_8.name()`. */
  const UTF_8: string := "UTF-8"

  /** `javax.ws.rs.core.MediaType`: a type, a subtype and named parameters. */
  datatype MediaType = MediaType(mediaType: string, subtype: string, parameters: map<string, string>)

  /** The two-argument `MediaType` constructor: no parameters. */
  function Of(mediaType: string, subtype: string): (m: MediaType)
    ensures m.mediaType == mediaType && m.subtype == subtype && m.parameters == map[]
  {
    MediaType(mediaType, subtype, map[])
  }

  /** The same type and subtype, with `charset` as the only parameter. */
  function AddCharset(base: MediaType, charset: string): (m: MediaType)
    ensures m.mediaType == base.mediaType && m.subtype == base.subtype
    ensures m.parameters.Keys == {CHARSET} && m.parameters[CHARSET] == charset
  {
    MediaType(base.mediaType, base.subtype, map[CHARSET := charset])
  }

  function AddUtf8Charset(base: MediaType): (m: MediaType)
    ensures m == AddCharset(base, "UTF-8")
  {
    AddCharset(base, UTF_8)
  }

  /** The `charset` parameter, if there is one. */
  function GetCharset(m: MediaType): (c: Option<string>)
    ensures c.Some? <==> CHARSET in m.parameters
    ensures c.Some? ==> c.value == m.parameters[CHARSET]
  {
    if CHARSET in m.parameters then Some(m.parameters[CHARSET]) else None
  }

  const TEXT_PLAIN_TYPE: MediaType := Of("text", "plain")
  const TEXT_XML_TYPE: MediaType := Of("text", "xml")
  const APPLICATION_XML_TYPE: MediaType := Of("application", "xml")
  const APPLICATION_JSON_TYPE: MediaType := Of("application", "json")

  const PLAIN_TEXT_UTF_8: MediaType := AddUtf8Charset(TEXT_PLAIN_TYPE)
  const XML_UTF_8: MediaType := AddUtf8Charset(TEXT_XML_TYPE)
  const APPLICATION_XML_UTF_8: MediaType := AddUtf8Charset(APPLICATION_XML_TYPE)
  const JSON_UTF_8: MediaType := AddUtf8Charset(APPLICATION_JSON_TYPE)
  const PROTOBUF: MediaType := Of("application", "protobuf")
  const X_PROTOBUF: MediaType := Of("application", "x-protobuf")

  /** Reading back the charset just attached gives it. */
  lemma CharsetRoundTrip(base: MediaType, charset: string)
    ensures GetCharset(AddCharset(base, charset)) == Some(charset)
  {
  }

  /** Attaching a charset twice keeps only the second; attaching the charset a type already
      has as its only parameter changes nothing. */
  lemma AddCharsetOverrides(base: MediaType, first: string, second: string)
    ensures AddCharset(AddCharset(base, first), second) == AddCharset(base, second)
    ensures base.parameters == map[CHARSET := first] ==> AddCharset(base, first) == base
  {
  }

  /** The text, XML and JSON constants carry UTF-8 and keep their type; the protobuf ones carry no charset. */
  lemma ConstantCharsets()
    ensures GetCharset(PLAIN_TEXT_UTF_8) == Some(UTF_8)
            && PLAIN_TEXT_UTF_8.mediaType == "text" && PLAIN_TEXT_UTF_8.subtype == "plain"
    ensures GetCharset(XML_UTF_8) == Some(UTF_8) && XML_UTF_8.mediaType == "text" && XML_UTF_8.subtype == "xml"
    ensures GetCharset(APPLICATION_XML_UTF_8) == Some(UTF_8)
            && APPLICATION_XML_UTF_8.mediaType == "application" && APPLICATION_XML_UTF_8.subtype == "xml"
    ensures GetCharset(JSON_UTF_8) == Some(UTF_8)
            && JSON_UTF_8.mediaType == "application" && JSON_UTF_8.subtype == "json"
    ensures GetCharset(PROTOBUF) == None && GetCharset(X_PROTOBUF) == None
  {
  }
}
