/** The message-sending HTTP API (api/sendMessage.js): request validation,
    the data-URL prefix strip, the media-type tables and the message the
    `/text`, `/media`, `/buttons` and `/list` handlers hand to the socket,
    with the module-level socket as the state of a `Router`. File I/O, base64
    decoding and the socket call are collaborators whose success is a
    parameter. */
module SendApi {
  import opened JsValues
  import opened Media

  // ---------------------------------------------------------------- base64ToBuffer

  /** `\w` without the `u` flag: ASCII letters, digits and '_'. */
  predicate IsWordChar(c: char) {
    'a' <= c <= 'z' || 'A' <= c <= 'Z' || '0' <= c <= '9' || c == '_'
  }

  predicate IsWord(s: string) {
    |s| > 0 && forall i :: 0 <= i < |s| ==> IsWordChar(s[i])
  }

  /** The length of the longest run of word characters at the start of `s`. */
  function WordRun(s: string): (n: nat)
    ensures n <= |s|
    ensures forall i :: 0 <= i < n ==> IsWordChar(s[i])
    ensures n < |s| ==> !IsWordChar(s[n])
  {
    if |s| == 0 || !IsWordChar(s[0]) then 0 else 1 + WordRun(s[1..])
  }

  /** A prefix the pattern `^data:\w+\/\w+;base64,` matches. */
  function DataUrlPrefix(a: string, b: string): string {
    "data:" + a + "/" + b + ";base64,"
  }

  /** What follows a leading `data:<word>/<word>;base64,`, if the text
      starts with one. */
  function DataUrlPayload(s: string): (r: Option<string>)
    ensures r.Some? ==> |r.value| < |s|
  {
    if StartsWith(s, "data:") then AfterMediaType(s[5..]) else None
  }

  /** The rest of the match after `data:`: `<word>/`, then the subtype. */
  function AfterMediaType(t: string): (r: Option<string>)
    ensures r.Some? ==> |r.value| < |t|
  {
    var n1 := WordRun(t);
    if n1 == 0 || n1 == |t| || t[n1] != '/' then None else AfterSubtype(t[n1 + 1..])
  }

  /** The rest of the match after the `/`: `<word>;base64,`. */
  function AfterSubtype(u: string): (r: Option<string>)
    ensures r.Some? ==> |r.value| < |u|
  {
    var n2 := WordRun(u);
    if n2 == 0 || !StartsWith(u[n2..], ";base64,") then None else Some(u[n2 + 8..])
  }

  /** `base64.replace(/^data:\w+\/\w+;base64,/, '')`. */
  function StripDataUrlPrefix(s: string): (r: string)
    ensures |r| <= |s|
  {
    DataUrlPayload(s).GetOr(s)
  }

  /** A data-URL prefix is removed, once: what follows it is kept even when
      it starts with another such prefix. */
  lemma StripRemovesPrefix(a: string, b: string, rest: string)
    requires IsWord(a) && IsWord(b)
    ensures DataUrlPayload(DataUrlPrefix(a, b) + rest) == Some(rest)
    ensures StripDataUrlPrefix(DataUrlPrefix(a, b) + rest) == rest
  {
    var u := b + ";base64," + rest;
    var t := a + "/" + u;
    Associate(a, b, t, u, rest);
    SubtypeUncut(b, rest);
    TypeUncut(a, u);
    SchemeUncut(t);
  }

  lemma SchemeUncut(t: string)
    ensures DataUrlPayload("data:" + t) == AfterMediaType(t)
  {
    var s := "data:" + t;
    assert s[..5] == "data:" && s[5..] == t;
  }

  lemma TypeUncut(a: string, u: string)
    requires IsWord(a)
    ensures AfterMediaType(a + "/" + u) == AfterSubtype(u)
  {
    var t := a + "/" + u;
    assert t == a + ("/" + u);
    WordRunOf(a, "/" + u);
    assert t[|a|] == '/' && t[|a| + 1..] == u;
  }

  lemma SubtypeUncut(b: string, rest: string)
    requires IsWord(b)
    ensures AfterSubtype(b + ";base64," + rest) == Some(rest)
  {
    var u := b + ";base64," + rest;
    assert u == b + (";base64," + rest);
    WordRunOf(b, ";base64," + rest);
    assert u[|b|..] == ";base64," + rest;
    assert u[|b| + 8..] == rest;
  }

  lemma {:induction false} WordRunOf(w: string, rest: string)
    requires IsWord(w) && (|rest| == 0 || !IsWordChar(rest[0]))
    ensures WordRun(w + rest) == |w|
    decreases |w|
  {
    var s := w + rest;
    assert s[0] == w[0] && IsWordChar(s[0]);
    assert WordRun(s) == 1 + WordRun(s[1..]);
    if |w| > 1 {
      assert s[1..] == w[1..] + rest;
      assert IsWord(w[1..]) by {
        assert forall i :: 0 <= i < |w[1..]| ==> w[1..][i] == w[i + 1];
      }
      WordRunOf(w[1..], rest);
    } else {
      assert s[1..] == rest;
    }
  }

  /** Any other text is left as it is: when the strip changes something,
      the text was a data-URL prefix followed by the result. */
  lemma StripOnlyPrefix(s: string) returns (a: string, b: string)
    requires DataUrlPayload(s).Some?
    ensures IsWord(a) && IsWord(b)
    ensures s == DataUrlPrefix(a, b) + StripDataUrlPrefix(s)
  {
    var t, u, r;
    t, a, u, b, r := StripParts(s);
    Associate(a, b, t, u, r);
  }

  /** A text that does not start with a data-URL prefix is left unchanged. */
  lemma StripKeepsOther(s: string)
    requires forall a, b, rest :: IsWord(a) && IsWord(b) ==> s != DataUrlPrefix(a, b) + rest
    ensures StripDataUrlPrefix(s) == s
  {
    if DataUrlPayload(s).Some? {
      var a, b := StripOnlyPrefix(s);
      assert false;
    }
  }

  /** The pieces `StripDataUrlPrefix` cuts a text into when it changes it. */
  lemma StripParts(s: string) returns (t: string, a: string, u: string, b: string, r: string)
    requires DataUrlPayload(s).Some?
    ensures r == StripDataUrlPrefix(s)
    ensures s == "data:" + t && t == a + "/" + u && u == b + ";base64," + r
    ensures IsWord(a) && IsWord(b)
  {
    t := SchemeCut(s);
    a, u := TypeCut(t);
    b, r := SubtypeCut(u);
  }

  lemma SchemeCut(s: string) returns (t: string)
    requires DataUrlPayload(s).Some?
    ensures s == "data:" + t && AfterMediaType(t) == DataUrlPayload(s)
  {
    assert StartsWith(s, "data:");
    t := s[5..];
    SplitAt(s, 5);
  }

  lemma TypeCut(t: string) returns (a: string, u: string)
    requires AfterMediaType(t).Some?
    ensures IsWord(a) && t == a + "/" + u && AfterSubtype(u) == AfterMediaType(t)
  {
    var n1 := WordRun(t);
    a, u := t[..n1], t[n1 + 1..];
    SplitAround(t, n1);
  }

  lemma SubtypeCut(u: string) returns (b: string, r: string)
    requires AfterSubtype(u).Some?
    ensures IsWord(b) && u == b + ";base64," + r && AfterSubtype(u) == Some(r)
  {
    var n2 := WordRun(u);
    b, r := u[..n2], u[n2 + 8..];
    SplitTwice(u, n2, 8);
  }

  lemma SplitTwice(u: string, n: nat, k: nat)
    requires n + k <= |u|
    ensures u == u[..n] + u[n..][..k] + u[n + k..]
  {
    assert u[n..] == u[n..][..k] + u[n + k..];
  }

  lemma Associate(a: string, b: string, t: string, u: string, r: string)
    requires t == a + "/" + u && u == b + ";base64," + r
    ensures "data:" + t == DataUrlPrefix(a, b) + r
  {
  }

  lemma SplitAt(s: string, n: nat)
    requires n <= |s|
    ensures s == s[..n] + s[n..]
  {
  }

  lemma SplitAround(s: string, n: nat)
    requires n < |s|
    ensures s == s[..n] + "/" + s[n + 1..] <== s[n] == '/'
  {
    assert s[n..] == [s[n]] + s[n + 1..];
  }

  // ---------------------------------------------------------------- saveBase64ToFile and the mime table

  /** `mimeType.split('/')[1] || 'bin'`: the same rule as a document's
      file extension. */
  function TempFileExtension(mimeType: string): (ext: string)
    ensures ext != "" && '/' !in ext
    ensures '/' !in mimeType ==> ext == "bin"
  {
    DocumentExtension(Some(mimeType))
  }

  /** The five media types the API sends. */
  datatype MediaKind = Image | Video | Audio | Document | Sticker

  /** The type's name, which is also the message field that holds the media. */
  function KindName(k: MediaKind): string {
    match k
    case Image => "image"
    case Video => "video"
    case Audio => "audio"
    case Document => "document"
    case Sticker => "sticker"
  }

  /** The media type a lower-cased type names, if any. */
  function ParseKind(lower: string): (r: Option<MediaKind>)
    ensures r.Some? ==> KindName(r.value) == lower
    ensures r.None? ==> forall k :: KindName(k) != lower
  {
    if lower == "image" then Some(Image)
    else if lower == "video" then Some(Video)
    else if lower == "audio" then Some(Audio)
    else if lower == "document" then Some(Document)
    else if lower == "sticker" then Some(Sticker)
    else None
  }

  /** Every media type is recognised by its own name. */
  lemma ParseKindName(k: MediaKind)
    ensures ParseKind(KindName(k)) == Some(k)
  {
    match k
    case Image =>
    case Video =>
      assert "video" != "image";
    case Audio =>
      assert "audio" != "image" && "audio" != "video";
    case Document =>
      assert "document" != "image" && "document" != "video" && "document" != "audio";
    case Sticker =>
      assert "sticker" != "image" && "sticker" != "video" && "sticker" != "audio" && "sticker" != "document";
  }

  /** The five named cases of the `switch` on the lower-cased type for base64 media. */
  function MimeOf(k: MediaKind): (m: string)
    ensures '/' in m
  {
    match k
    case Image => "image/jpeg"
    case Video => "video/mp4"
    case Audio => "audio/mpeg"
    case Document => "application/pdf"
    case Sticker => "image/webp"
  }

  const DefaultMime := "application/octet-stream"

  /** The `switch (type.toLowerCase())`: a named case gives its MIME type, the
      `default` branch gives `application/octet-stream`. */
  function MimeForType(t: string): (m: string)
    ensures '/' in m
    ensures ParseKind(AsciiLower(t)).Some? ==> m == MimeOf(ParseKind(AsciiLower(t)).value)
    ensures ParseKind(AsciiLower(t)).None? ==> m == DefaultMime
  {
    match ParseKind(AsciiLower(t))
    case Some(k) => MimeOf(k)
    case None => DefaultMime
  }

  /** The extension of `supertype/subtype` is the subtype. */
  lemma SubtypeExtension(a: string, b: string)
    requires '/' !in a && '/' !in b && b != ""
    ensures TempFileExtension(a + "/" + b) == b
  {
    assert a + "/" + b + "" == a + "/" + b;
    DocumentExtensionOf(a, b, "");
  }

  /** The temp-file extension of `a/b` for literal parts, stated without
      unfolding the extension rule on the literal. */
  lemma LiteralExtension(a: string, b: string, m: string)
    requires '/' !in a && '/' !in b && b != "" && m == a + "/" + b
    ensures TempFileExtension(m) == b
  {
    SubtypeExtension(a, b);
  }

  /** The subtype of each media type's MIME type. */
  function KindSubtype(k: MediaKind): string {
    match k
    case Image => "jpeg"
    case Video => "mp4"
    case Audio => "mpeg"
    case Document => "pdf"
    case Sticker => "webp"
  }

  /** The temp-file extension each media type's MIME type gives. */
  lemma KindExtension(k: MediaKind)
    ensures TempFileExtension(MimeOf(k)) == KindSubtype(k)
  {
    match k
    case Image => LiteralExtension("image", "jpeg", MimeOf(k));
    case Video => LiteralExtension("video", "mp4", MimeOf(k));
    case Audio => LiteralExtension("audio", "mpeg", MimeOf(k));
    case Document => LiteralExtension("application", "pdf", MimeOf(k));
    case Sticker => LiteralExtension("image", "webp", MimeOf(k));
  }

  /** The temp file written for base64 media of type `t` is named after the
      subtype of `t`'s MIME type: jpeg, mp4, mpeg, pdf or webp for the five
      types in any case, octet-stream for any other type. */
  lemma TypeExtension(t: string)
    ensures ParseKind(AsciiLower(t)) == Some(Image) ==> TempFileExtension(MimeForType(t)) == "jpeg"
    ensures ParseKind(AsciiLower(t)) == Some(Video) ==> TempFileExtension(MimeForType(t)) == "mp4"
    ensures ParseKind(AsciiLower(t)) == Some(Audio) ==> TempFileExtension(MimeForType(t)) == "mpeg"
    ensures ParseKind(AsciiLower(t)) == Some(Document) ==> TempFileExtension(MimeForType(t)) == "pdf"
    ensures ParseKind(AsciiLower(t)) == Some(Sticker) ==> TempFileExtension(MimeForType(t)) == "webp"
    ensures ParseKind(AsciiLower(t)).None? ==> TempFileExtension(MimeForType(t)) == "octet-stream"
  {
    match ParseKind(AsciiLower(t))
    case Some(k) => KindExtension(k);
    case None => LiteralExtension("application", "octet-stream", DefaultMime);
  }

  // ---------------------------------------------------------------- requests and what is sent

  datatype TextRequest = TextRequest(jid: Option<string>, message: Option<string>)

  datatype MediaRequest = MediaRequest(
    jid: Option<string>,
    media: Option<string>,
    caption: Option<string>,
    mediaType: Option<string>,
    filename: Option<string>)

  datatype Button = Button(id: Option<string>, text: Option<string>)

  /** `buttons` is `None` when it is missing or not an array. */
  datatype ButtonsRequest = ButtonsRequest(
    jid: Option<string>,
    text: Option<string>,
    buttons: Option<seq<Button>>,
    footer: Option<string>)

  /** `sections` is `None` when it is missing or not an array; each section
      object is passed on as it came, here as its JSON text. */
  datatype ListRequest = ListRequest(
    jid: Option<string>,
    text: Option<string>,
    buttonText: Option<string>,
    sections: Option<seq<string>>,
    footer: Option<string>)

  /** The media payload: `{url}` for a link, else the bytes of the temp file,
      here the base64 text they decode from. */
  datatype MediaSource = Url(url: string) | Base64(data: string)

  /** `messageOptions` of `/media`; `kind` is the field that holds the media. */
  datatype MediaOptions = MediaOptions(
    caption: string,
    mimetype: string,
    fileName: Option<string>,
    kind: MediaKind,
    source: MediaSource)

  datatype FormattedButton = FormattedButton(buttonId: Option<string>, displayText: Option<string>, buttonType: int)

  /** What a handler hands to `sock.sendMessage(jid, …)`. */
  datatype Outgoing =
    | TextMessage(text: string)
    | MediaMessage(options: MediaOptions)
    | ButtonsMessage(text: string, footer: string, buttons: seq<FormattedButton>, headerType: int)
    | ListMessage(text: string, footer: string, buttonText: string, sections: seq<string>, listType: int)

  /** The HTTP reply: status, `success`, and the error or success text. */
  datatype Reply = Reply(status: int, success: bool, message: string)

  /** A handler's reply and the message it sent, if it got that far. */
  datatype Outcome = Outcome(reply: Reply, sent: Option<(string, Outgoing)>)

  // The texts of the replies.
  const TextFieldsMissing := "Missing required fields: jid and message"
  const TextSent := "Message sent successfully"
  const TextFailed := "Failed to send message"
  const MediaFieldsMissing := "Missing required fields: jid, media, and type"
  const InvalidBase64 := "Invalid base64 media data"
  const InvalidMediaType := "Invalid media type. Supported types: image, video, audio, document, sticker"
  const MediaSent := "Media sent successfully"
  const MediaFailed := "Failed to send media"
  const ButtonsFieldsMissing := "Missing required fields: jid, text, and buttons (array)"
  const ButtonsSent := "Message with buttons sent successfully"
  const ButtonsFailed := "Failed to send message with buttons"
  const ListFieldsMissing := "Missing required fields: jid, text, buttonText, and sections (array)"
  const ListSent := "List message sent successfully"
  const ListFailed := "Failed to send list message"

  const SocketMissing := "WhatsApp socket not connected"
  const NotConnected := Reply(500, false, SocketMissing)

  function Rejected(error: string): Outcome {
    Outcome(Reply(400, false, error), None)
  }

  /** The reply after `sock.sendMessage`: success, or 500 when it throws. */
  function AfterSend(jid: string, m: Outgoing, sendOk: bool, success: string, failure: string): Outcome {
    Outcome(if sendOk then Reply(200, true, success) else Reply(500, false, failure), Some((jid, m)))
  }

  /** `POST /text`. */
  function TextOutcome(req: TextRequest, connected: bool, sendOk: bool): (o: Outcome)
    ensures o.reply.status == 400 <==> !Truthy(req.jid) || !Truthy(req.message)
    ensures o.sent.Some? <==> Truthy(req.jid) && Truthy(req.message) && connected
    ensures o.sent.Some? ==> o.sent.value == (req.jid.value, TextMessage(req.message.value))
    ensures o.reply.success <==> o.sent.Some? && sendOk
    ensures !Truthy(req.jid) || !Truthy(req.message) ==> o.reply == Reply(400, false, TextFieldsMissing)
    ensures Truthy(req.jid) && Truthy(req.message) && !connected ==> o.reply == NotConnected
    ensures o.sent.Some? ==>
      o.reply == if sendOk then Reply(200, true, TextSent) else Reply(500, false, TextFailed)
  {
    if !Truthy(req.jid) || !Truthy(req.message) then Rejected(TextFieldsMissing)
    else if !connected then Outcome(NotConnected, None)
    else AfterSend(req.jid.value, TextMessage(req.message.value), sendOk,
                   TextSent, TextFailed)
  }

  predicate IsUrl(media: string) {
    StartsWith(media, "http://") || StartsWith(media, "https://")
  }

  /** `POST /media`: fields are checked before the socket; a link is sent by
      URL, anything else through the temp file; an unknown type is refused
      only after that. The `mimetype` option is the request's type as given:
      neither payload carries a `mimetype` of its own. */
  function MediaOutcome(req: MediaRequest, connected: bool, fileOk: bool, sendOk: bool): (o: Outcome)
    ensures !Truthy(req.jid) || !Truthy(req.media) || !Truthy(req.mediaType) ==> o.reply.status == 400
    ensures o.sent.Some? <==>
      && Truthy(req.jid) && Truthy(req.media) && Truthy(req.mediaType) && connected
      && (IsUrl(req.media.value) || fileOk) && ParseKind(AsciiLower(req.mediaType.value)).Some?
    ensures o.sent.Some? ==>
      && o.sent.value.0 == req.jid.value
      && o.sent.value.1.MediaMessage?
      && var opts := o.sent.value.1.options;
      && opts.caption == OrDefault(req.caption, "")
      && opts.mimetype == req.mediaType.value
      && KindName(opts.kind) == AsciiLower(req.mediaType.value)
      && (opts.fileName.Some? <==> opts.kind == Document && Truthy(req.filename))
      && (opts.fileName.Some? ==> opts.fileName == req.filename)
      && (IsUrl(req.media.value) ==> opts.source == Url(req.media.value))
      && (!IsUrl(req.media.value) ==> opts.source == Base64(StripDataUrlPrefix(req.media.value)))
    ensures o.reply.success <==> o.sent.Some? && sendOk
    ensures !Truthy(req.jid) || !Truthy(req.media) || !Truthy(req.mediaType) ==>
      o.reply == Reply(400, false, MediaFieldsMissing)
    ensures Truthy(req.jid) && Truthy(req.media) && Truthy(req.mediaType) && !connected ==>
      o.reply == NotConnected
    ensures Truthy(req.jid) && Truthy(req.media) && Truthy(req.mediaType) && connected
            && !IsUrl(req.media.value) && !fileOk ==>
      o.reply == Reply(400, false, InvalidBase64)
    ensures Truthy(req.jid) && Truthy(req.media) && Truthy(req.mediaType) && connected
            && (IsUrl(req.media.value) || fileOk) && ParseKind(AsciiLower(req.mediaType.value)).None? ==>
      o.reply == Reply(400, false, InvalidMediaType)
    ensures o.sent.Some? ==>
      o.reply == if sendOk then Reply(200, true, MediaSent) else Reply(500, false, MediaFailed)
  {
    if !Truthy(req.jid) || !Truthy(req.media) || !Truthy(req.mediaType) then
      Rejected(MediaFieldsMissing)
    else if !connected then Outcome(NotConnected, None)
    else
      var media := req.media.value;
      var t := req.mediaType.value;
      if !IsUrl(media) && !fileOk then Rejected(InvalidBase64)
      else
        var source := if IsUrl(media) then Url(media) else Base64(StripDataUrlPrefix(media));
        var kind := ParseKind(AsciiLower(t));
        if kind.None? then
          Rejected(InvalidMediaType)
        else
          var fileName := if kind.value == Document && Truthy(req.filename) then req.filename else None;
          AfterSend(req.jid.value, MediaMessage(MediaOptions(OrDefault(req.caption, ""), t, fileName, kind.value, source)),
                    sendOk, MediaSent, MediaFailed)
  }

  /** `buttons.map(button => ({buttonId: button.id, buttonText: {displayText:
      button.text}, type: 1}))`. */
  function FormatButtons(bs: seq<Button>): (r: seq<FormattedButton>)
    ensures |r| == |bs|
    ensures forall i :: 0 <= i < |bs| ==> r[i] == FormattedButton(bs[i].id, bs[i].text, 1)
  {
    if |bs| == 0 then [] else [FormattedButton(bs[0].id, bs[0].text, 1)] + FormatButtons(bs[1..])
  }

  /** `POST /buttons`. */
  function ButtonsOutcome(req: ButtonsRequest, connected: bool, sendOk: bool): (o: Outcome)
    ensures o.reply.status == 400 <==> !Truthy(req.jid) || !Truthy(req.text) || req.buttons.None?
    ensures o.sent.Some? <==> Truthy(req.jid) && Truthy(req.text) && req.buttons.Some? && connected
    ensures o.sent.Some? ==>
      o.sent.value == (req.jid.value, ButtonsMessage(req.text.value, OrDefault(req.footer, ""),
                                                     FormatButtons(req.buttons.value), 1))
    ensures o.reply.success <==> o.sent.Some? && sendOk
    ensures !Truthy(req.jid) || !Truthy(req.text) || req.buttons.None? ==>
      o.reply == Reply(400, false, ButtonsFieldsMissing)
    ensures Truthy(req.jid) && Truthy(req.text) && req.buttons.Some? && !connected ==> o.reply == NotConnected
    ensures o.sent.Some? ==>
      o.reply == if sendOk then Reply(200, true, ButtonsSent) else Reply(500, false, ButtonsFailed)
  {
    if !Truthy(req.jid) || !Truthy(req.text) || req.buttons.None? then
      Rejected(ButtonsFieldsMissing)
    else if !connected then Outcome(NotConnected, None)
    else AfterSend(req.jid.value, ButtonsMessage(req.text.value, OrDefault(req.footer, ""),
                                                 FormatButtons(req.buttons.value), 1),
                   sendOk, ButtonsSent, ButtonsFailed)
  }

  /** `POST /list`. */
  function ListOutcome(req: ListRequest, connected: bool, sendOk: bool): (o: Outcome)
    ensures o.reply.status == 400 <==>
      !Truthy(req.jid) || !Truthy(req.text) || !Truthy(req.buttonText) || req.sections.None?
    ensures o.sent.Some? <==>
      Truthy(req.jid) && Truthy(req.text) && Truthy(req.buttonText) && req.sections.Some? && connected
    ensures o.sent.Some? ==>
      o.sent.value == (req.jid.value, ListMessage(req.text.value, OrDefault(req.footer, ""),
                                                  req.buttonText.value, req.sections.value, 1))
    ensures o.reply.success <==> o.sent.Some? && sendOk
    ensures !Truthy(req.jid) || !Truthy(req.text) || !Truthy(req.buttonText) || req.sections.None? ==>
      o.reply == Reply(400, false, ListFieldsMissing)
    ensures Truthy(req.jid) && Truthy(req.text) && Truthy(req.buttonText) && req.sections.Some? && !connected ==>
      o.reply == NotConnected
    ensures o.sent.Some? ==>
      o.reply == if sendOk then Reply(200, true, ListSent) else Reply(500, false, ListFailed)
  {
    if !Truthy(req.jid) || !Truthy(req.text) || !Truthy(req.buttonText) || req.sections.None? then
      Rejected(ListFieldsMissing)
    else if !connected then Outcome(NotConnected, None)
    else AfterSend(req.jid.value, ListMessage(req.text.value, OrDefault(req.footer, ""), req.buttonText.value,
                                              req.sections.value, 1),
                   sendOk, ListSent, ListFailed)
  }

  // ---------------------------------------------------------------- the router

  /** The module-level `sock` (present or not) and the messages handed to it. */
  class Router {
    var connected: bool
    var sends: seq<(string, Outgoing)>

    constructor ()
      ensures !connected && sends == []
    {
      connected := false;
      sends := [];
    }

    /** `setSocket(socket)`. */
    method SetSocket(present: bool)
      modifies this`connected
      ensures connected == present
    {
      connected := present;
    }

    function Record(o: Outcome): seq<(string, Outgoing)> {
      if o.sent.Some? then [o.sent.value] else []
    }

    method PostText(req: TextRequest, sendOk: bool) returns (reply: Reply)
      modifies this`sends
      ensures reply == TextOutcome(req, connected, sendOk).reply
      ensures sends == old(sends) + Record(TextOutcome(req, connected, sendOk))
    {
      var o := TextOutcome(req, connected, sendOk);
      sends := sends + Record(o);
      reply := o.reply;
    }

    /** `POST /media`, building `messageOptions` field by field. */
    method PostMedia(req: MediaRequest, fileOk: bool, sendOk: bool) returns (reply: Reply)
      modifies this`sends
      ensures reply == MediaOutcome(req, connected, fileOk, sendOk).reply
      ensures sends == old(sends) + Record(MediaOutcome(req, connected, fileOk, sendOk))
    {
      if !Truthy(req.jid) || !Truthy(req.media) || !Truthy(req.mediaType) {
        return Reply(400, false, MediaFieldsMissing);
      }
      if !connected {
        return NotConnected;
      }
      var media := req.media.value;
      var t := req.mediaType.value;
      var source: MediaSource;
      if IsUrl(media) {
        source := Url(media);
      } else {
        if !fileOk {
          return Reply(400, false, InvalidBase64);
        }
        source := Base64(StripDataUrlPrefix(media));
      }
      var caption := OrDefault(req.caption, "");
      var kind := ParseKind(AsciiLower(t));
      var fileName := None;
      if kind == Some(Document) && Truthy(req.filename) {
        fileName := req.filename;
      }
      if kind.None? {
        return Reply(400, false, InvalidMediaType);
      }
      var options := MediaOptions(caption, t, fileName, kind.value, source);
      sends := sends + [(req.jid.value, MediaMessage(options))];
      reply := if sendOk then Reply(200, true, MediaSent)
               else Reply(500, false, MediaFailed);
    }

    method PostButtons(req: ButtonsRequest, sendOk: bool) returns (reply: Reply)
      modifies this`sends
      ensures reply == ButtonsOutcome(req, connected, sendOk).reply
      ensures sends == old(sends) + Record(ButtonsOutcome(req, connected, sendOk))
    {
      var o := ButtonsOutcome(req, connected, sendOk);
      sends := sends + Record(o);
      reply := o.reply;
    }

    method PostList(req: ListRequest, sendOk: bool) returns (reply: Reply)
      modifies this`sends
      ensures reply == ListOutcome(req, connected, sendOk).reply
      ensures sends == old(sends) + Record(ListOutcome(req, connected, sendOk))
    {
      var o := ListOutcome(req, connected, sendOk);
      sends := sends + Record(o);
      reply := o.reply;
    }
  }
}
