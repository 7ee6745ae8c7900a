/** The request payload the send handler assembles (App.tsx lines 93-103): the message
    text, the session id, the active mode, the staged file's body and MIME type, and the
    presentation options merged with the report style. */
module Composer {

  import opened Wrappers
  import opened Types
  import opened JsText

  /** `{ ...pptOptions, style: reportStyle }`. */
  datatype PayloadOptions = PayloadOptions(
    length: int,
    density: Density,
    theme: string,
    pptMode: PptMode,
    visualStyle: string,
    language: string,
    audience: string,
    style: string)

  datatype Payload = Payload(
    message: string,
    sessionId: string,
    mode: AppMode,
    fileData: Option<string>,
    mimeType: Option<string>,
    options: PayloadOptions)

  /** The presentation options a merged option record carries. */
  function PptPart(o: PayloadOptions): PptOptions {
    PptOptions(o.length, o.density, o.theme, o.pptMode, o.visualStyle, o.language, o.audience)
  }

  /** The option spread: every presentation option is carried over unchanged and the
      report style is added beside them, whatever the mode. */
  function MergeOptions(ppt: PptOptions, style: string): (o: PayloadOptions)
    ensures PptPart(o) == ppt && o.style == style
  {
    PayloadOptions(ppt.length, ppt.density, ppt.theme, ppt.pptMode, ppt.visualStyle,
                   ppt.language, ppt.audience, style)
  }

  /** A merged record is determined by its presentation part and its style. */
  lemma MergeOptionsSplit(o: PayloadOptions)
    ensures MergeOptions(PptPart(o), o.style) == o
  {
  }

  /** `fileData ? fileData.split(',')[1] : undefined`, where `fileData` is the data URL the
      file reader produced (None when no file was read). The result is present exactly
      when there is a URL holding a comma, and it never holds a comma itself. */
  function FileBody(dataUrl: Option<string>): (r: Option<string>)
    ensures r.Some? <==> dataUrl.Some? && ',' in dataUrl.value
    ensures r.Some? ==> ',' !in r.value
  {
    if dataUrl.Some? && dataUrl.value != [] then
      SecondPiece(dataUrl.value, ',')
    else None
  }

  /** For a data URL `prefix,body` with a comma-free header and body, the payload body is
      exactly `body`: the header that names the media type and encoding is stripped. */
  lemma FileBodyOfDataUrl(header: string, body: string)
    requires ',' !in header && ',' !in body
    ensures FileBody(Some(header + [','] + body)) == Some(body)
  {
    SecondPieceOfPair(header, body, ',');
  }

  /** For any data URL, the payload body is the text after the first comma up to the next
      comma, or to the end when there is none. */
  lemma FileBodyAfterFirstComma(header: string, rest: string)
    requires ',' !in header
    ensures var r := FileBody(Some(header + [','] + rest));
      r.Some? && |r.value| <= |rest| && rest[..|r.value|] == r.value &&
      (|r.value| == |rest| || rest[|r.value|] == ',')
  {
    SecondPieceAfterFirstSeparator(header, rest, ',');
  }

  /** The payload object literal. `file` is the file staged when the send began and
      `dataUrl` what the file reader produced for it. */
  function BuildPayload(text: string, sessionId: string, mode: AppMode, file: Option<StagedFile>,
                        dataUrl: Option<string>, ppt: PptOptions, style: string): (p: Payload)
    ensures p.message == text && p.sessionId == sessionId && p.mode == mode
    ensures PptPart(p.options) == ppt && p.options.style == style
    ensures p.mimeType.Some? <==> file.Some?
    ensures file.Some? ==> p.mimeType.value == file.value.mimeType
    ensures p.fileData.Some? <==> dataUrl.Some? && ',' in dataUrl.value
    ensures p.fileData == FileBody(dataUrl)
  {
    Payload(text, sessionId, mode, FileBody(dataUrl),
            if file.Some? then Some(file.value.mimeType) else None,
            MergeOptions(ppt, style))
  }
}
